/** Bus layouts: the channel sets the plug-in offers by default and the
    check that decides which layouts a host may ask for. */
module Buses {

  /** A speaker position a channel stands for. */
  datatype ChannelType = Left | Right | Centre | Other(index: nat)

  /** The channels one bus carries. */
  datatype ChannelSet = ChannelSet(channels: set<ChannelType>)

  const Disabled: ChannelSet := ChannelSet({})
  const Mono: ChannelSet := ChannelSet({Centre})
  const Stereo: ChannelSet := ChannelSet({Left, Right})

  function Size(s: ChannelSet): nat
  {
    |s.channels|
  }

  datatype BusesLayout = BusesLayout(mainInput: ChannelSet, mainOutput: ChannelSet)

  /** The kind of plug-in the project is built as. */
  datatype BuildConfig = BuildConfig(isMidiEffect: bool, isSynth: bool)

  /** An audio effect build, which is what this equalizer is. */
  const EffectBuild: BuildConfig := BuildConfig(false, false)

  /** The buses the processor is constructed with: none for a MIDI effect,
      a stereo output for a synth, stereo in and out otherwise. */
  function DefaultLayout(build: BuildConfig): (layout: BusesLayout)
    ensures build.isMidiEffect ==> layout.mainInput == Disabled && layout.mainOutput == Disabled
    ensures !build.isMidiEffect ==> layout.mainOutput == Stereo
    ensures !build.isMidiEffect ==> (layout.mainInput == Disabled <==> build.isSynth)
  {
    if build.isMidiEffect then BusesLayout(Disabled, Disabled)
    else if build.isSynth then BusesLayout(Disabled, Stereo)
    else BusesLayout(Stereo, Stereo)
  }

  lemma StereoHasTwoChannels()
    ensures Size(Mono) == 1 && Size(Stereo) == 2
  {
    assert Stereo.channels == {Left} + {Right};
  }

  /** A MIDI effect accepts any layout; otherwise the main output must be
      mono or stereo and, unless the build is a synth, the main input must
      be the same set as the output. An accepted layout of an audio build
      therefore has one or two output channels, and an effect build has as
      many input channels as output channels. */
  function IsBusesLayoutSupported(layout: BusesLayout, build: BuildConfig): (supported: bool)
    ensures build.isMidiEffect ==> supported
    ensures supported && !build.isMidiEffect ==> 1 <= Size(layout.mainOutput) <= 2
    ensures supported && !build.isMidiEffect && !build.isSynth ==>
      Size(layout.mainInput) == Size(layout.mainOutput)
  {
    StereoHasTwoChannels();
    if build.isMidiEffect then true
    else if layout.mainOutput != Mono && layout.mainOutput != Stereo then false
    else if !build.isSynth && layout.mainOutput != layout.mainInput then false
    else true
  }

  /** Exactly the layouts the check accepts: every layout for a MIDI
      effect; otherwise a mono or stereo main output, with the main input
      the same set unless the build is a synth. Outputs of more than two
      channels are always refused outside a MIDI effect. */
  lemma SupportedLayouts(layout: BusesLayout, build: BuildConfig)
    ensures IsBusesLayoutSupported(layout, build) <==>
      build.isMidiEffect ||
      ((layout.mainOutput == Mono || layout.mainOutput == Stereo) &&
       (build.isSynth || layout.mainInput == layout.mainOutput))
    ensures !build.isMidiEffect && Size(layout.mainOutput) > 2 ==> !IsBusesLayoutSupported(layout, build)
  {
  }

  /** Whatever the build, the layout the processor starts with passes its own
      check. */
  lemma DefaultLayoutSupported(build: BuildConfig)
    ensures IsBusesLayoutSupported(DefaultLayout(build), build)
    ensures !build.isMidiEffect ==> Size(DefaultLayout(build).mainOutput) == 2
  {
    StereoHasTwoChannels();
  }

  /** A mono layout passes the check although block processing takes its
      right channel from channel index 1, which a mono bus does not have. */
  lemma MonoLayoutAccepted()
    ensures IsBusesLayoutSupported(BusesLayout(Mono, Mono), EffectBuild)
    ensures Size(BusesLayout(Mono, Mono).mainOutput) < 2
  {
  }
}
