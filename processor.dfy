/** The audio processor: two independent channel chains that are
    reconfigured from one parameter snapshot at the start of every block
    (and once more when playback is prepared), and the clearing of output
    channels that have no input. */
module Processor {
  import opened Dsp
  import opened Settings
  import opened Chain

  /** The sample rates the three designs are made at. */
  datatype Rates = Rates(peak: real, lowCut: real, highCut: real)

  /** The peak filter designed for a snapshot. */
  function PeakDesign(d: Designers, s: ChainSettings, rates: Rates): Option<Coefficients>
  {
    d.peakFilter(rates.peak, s.peakFreq, s.peakQuality, d.decibelsToGain(s.peakGainInDecibels))
  }

  /** The low-cut cascade: a Butterworth high-pass of order 2 * (slope + 1). */
  function LowCutDesign(d: Designers, s: ChainSettings, rates: Rates): seq<Coefficients>
  {
    d.highpass(s.lowCutFreq, rates.lowCut, DesignOrder(s.lowCutSlope))
  }

  /** The high-cut cascade: a Butterworth low-pass of order 2 * (slope + 1). */
  function HighCutDesign(d: Designers, s: ChainSettings, rates: Rates): seq<Coefficients>
  {
    d.lowpass(s.highCutFreq, rates.highCut, DesignOrder(s.highCutSlope))
  }

  /** The designers keep their promise of order / 2 sections per cascade for
      the requests a snapshot makes, so no slot reads past the cascade. */
  predicate CascadesFit(d: Designers, s: ChainSettings, rates: Rates)
  {
    |LowCutDesign(d, s, rates)| == DesignOrder(s.lowCutSlope) / 2 &&
    |HighCutDesign(d, s, rates)| == DesignOrder(s.highCutSlope) / 2
  }

  /** A channel's chain after one reconfiguration: the peak filter takes the
      designed set when there is one and keeps its own otherwise; both cut
      filters are configured for their slope from their cascade. */
  function Reconfigured(st: ChainState, s: ChainSettings, rates: Rates, d: Designers): (r: ChainState)
    requires ChainWellFormed(st) && CascadesFit(d, s, rates)
    ensures ChainWellFormed(r)
    ensures PeakDesign(d, s, rates).Some? ==> r.peak == PeakDesign(d, s, rates).value
    ensures PeakDesign(d, s, rates).None? ==> r.peak == st.peak
    ensures forall i :: 0 <= i < Stages ==>
      (r.lowCut.bypassed[i] <==> i > Ordinal(s.lowCutSlope)) &&
      (r.highCut.bypassed[i] <==> i > Ordinal(s.highCutSlope))
    ensures forall i :: 0 <= i <= Ordinal(s.lowCutSlope) ==> r.lowCut.coefficients[i] == LowCutDesign(d, s, rates)[i]
    ensures forall i :: 0 <= i <= Ordinal(s.highCutSlope) ==> r.highCut.coefficients[i] == HighCutDesign(d, s, rates)[i]
  {
    var peak := PeakDesign(d, s, rates);
    ChainState(
      Configured(st.lowCut, s.lowCutSlope, LowCutDesign(d, s, rates)),
      if peak.Some? then peak.value else st.peak,
      Configured(st.highCut, s.highCutSlope, HighCutDesign(d, s, rates)))
  }

  /** What a reconfigured chain computes: the first slope + 1 sections of
      the low-cut cascade, then the peak section (the designed one, or the
      previous one when the design yielded none), then the first slope + 1
      sections of the high-cut cascade. */
  lemma EffectiveCascadeAfterReconfigure(st: ChainState, s: ChainSettings, rates: Rates, d: Designers)
    requires ChainWellFormed(st) && CascadesFit(d, s, rates)
    ensures Reconfigured(st, s, rates, d).peak ==
      if PeakDesign(d, s, rates).Some? then PeakDesign(d, s, rates).value else st.peak
    ensures EffectiveCascade(Reconfigured(st, s, rates, d)) ==
      LowCutDesign(d, s, rates)[..Ordinal(s.lowCutSlope) + 1] +
      [Reconfigured(st, s, rates, d).peak] +
      HighCutDesign(d, s, rates)[..Ordinal(s.highCutSlope) + 1]
  {
    var r := Reconfigured(st, s, rates, d);
    ActiveSectionsOfConfigured(st.lowCut, s.lowCutSlope, LowCutDesign(d, s, rates));
    ActiveSectionsOfConfigured(st.highCut, s.highCutSlope, HighCutDesign(d, s, rates));
    assert Sections(r, PositionAt(0)) == ActiveSections(r.lowCut);
    assert Sections(r, PositionAt(1)) == [r.peak];
    assert Sections(r, PositionAt(2)) == ActiveSections(r.highCut);
  }

  /** Reconfiguring a second time with the same snapshot, rates and
      designers changes nothing. */
  lemma ReconfiguredIdempotent(st: ChainState, s: ChainSettings, rates: Rates, d: Designers)
    requires ChainWellFormed(st) && CascadesFit(d, s, rates)
    ensures Reconfigured(Reconfigured(st, s, rates, d), s, rates, d) == Reconfigured(st, s, rates, d)
  {
    ConfiguredIdempotent(st.lowCut, st.lowCut, s.lowCutSlope, LowCutDesign(d, s, rates));
    ConfiguredIdempotent(st.highCut, st.highCut, s.highCutSlope, HighCutDesign(d, s, rates));
  }

  /** Two chains reconfigured from the same snapshot end up with the same
      bypass flags and run the same cut sections, whatever they held
      before; when the peak design yields a set they run exactly the same
      sections, and when it does not they differ at most in the peak
      section each kept. */
  lemma ReconfiguredSynchronises(a: ChainState, b: ChainState, s: ChainSettings, rates: Rates, d: Designers)
    requires ChainWellFormed(a) && ChainWellFormed(b) && CascadesFit(d, s, rates)
    ensures Reconfigured(a, s, rates, d).lowCut.bypassed == Reconfigured(b, s, rates, d).lowCut.bypassed
    ensures Reconfigured(a, s, rates, d).highCut.bypassed == Reconfigured(b, s, rates, d).highCut.bypassed
    ensures PeakDesign(d, s, rates).Some? ==>
      EffectiveCascade(Reconfigured(a, s, rates, d)) == EffectiveCascade(Reconfigured(b, s, rates, d))
    ensures a.peak == b.peak ==>
      EffectiveCascade(Reconfigured(a, s, rates, d)) == EffectiveCascade(Reconfigured(b, s, rates, d))
  {
    EffectiveCascadeAfterReconfigure(a, s, rates, d);
    EffectiveCascadeAfterReconfigure(b, s, rates, d);
  }

  /** Zeroes `numSamples` samples of one channel from `startSample` on. */
  method ClearChannel(buffer: array2<real>, channel: nat, startSample: nat, numSamples: nat)
    requires channel < buffer.Length0 && startSample + numSamples <= buffer.Length1
    modifies buffer
    ensures forall ch, n :: 0 <= ch < buffer.Length0 && 0 <= n < buffer.Length1 ==>
      buffer[ch, n] == if ch == channel && startSample <= n < startSample + numSamples then 0.0 else old(buffer[ch, n])
  {
    forall n | startSample <= n < startSample + numSamples {
      buffer[channel, n] := 0.0;
    }
  }

  /** Clears every output channel that has no input channel behind it, so
      that no garbage reaches the output; channels that carry input are left
      alone. */
  method ClearUnusedOutputs(buffer: array2<real>, totalNumInputChannels: nat, totalNumOutputChannels: nat)
    requires totalNumOutputChannels <= buffer.Length0
    modifies buffer
    ensures forall ch, n :: 0 <= ch < buffer.Length0 && 0 <= n < buffer.Length1 ==>
      buffer[ch, n] == if totalNumInputChannels <= ch < totalNumOutputChannels then 0.0 else old(buffer[ch, n])
  {
    var i := totalNumInputChannels;
    while i < totalNumOutputChannels
      invariant totalNumInputChannels <= i
      invariant i <= totalNumOutputChannels || i == totalNumInputChannels
      invariant forall ch, n :: 0 <= ch < buffer.Length0 && 0 <= n < buffer.Length1 ==>
        buffer[ch, n] == if totalNumInputChannels <= ch < i then 0.0 else old(buffer[ch, n])
    {
      ClearChannel(buffer, i, 0, buffer.Length1);
      i := i + 1;
    }
  }

  /** The equalizer: a left and a right chain and the parameter value
      store. The host may change `parameters` (automation, the editor) and
      `hostSampleRate` (what getSampleRate() reports) between calls. */
  class EqualizerProcessor {
    const leftChain: MonoChain
    const rightChain: MonoChain
    var parameters: ParameterValues
    var hostSampleRate: real

    /** Both chains are well formed and share no object, the store holds
        every parameter the snapshot reads, and the two chains hold the same
        contents: every reconfiguration writes both from one set of designs. */
    ghost predicate Valid()
      reads this, leftChain.Repr(), rightChain.Repr()
    {
      leftChain.Valid() && rightChain.Valid() && leftChain.Repr() !! rightChain.Repr() &&
      HasChainParameters(parameters) &&
      leftChain.View() == rightChain.View()
    }

    /** Builds both chains in their default state and the value store from
        the parameter layout, every parameter at its default. */
    constructor ()
      ensures Valid() && fresh(leftChain.Repr()) && fresh(rightChain.Repr())
      ensures leftChain.View() == DefaultChain && rightChain.View() == DefaultChain
      ensures parameters == DefaultValues(ParameterLayout())
      ensures GetChainSettings(parameters) == ChainSettings(750.0, 0.0, 1.0, 20.0, 20000.0, Slope12, Slope12)
    {
      leftChain := new MonoChain();
      rightChain := new MonoChain();
      var layout := CreateParameterLayout();
      parameters := DefaultValues(layout);
      hostSampleRate := 0.0;
      DefaultSettingsFromLayout();
    }

    /** One reconfiguration: designs the peak filter and both cut cascades
        once and writes the results into the right and the left chain. */
    method UpdateFilters(s: ChainSettings, rates: Rates, d: Designers)
      requires Valid() && CascadesFit(d, s, rates)
      modifies leftChain.Repr(), rightChain.Repr()
      ensures Valid()
      ensures leftChain.View() == Reconfigured(old(leftChain.View()), s, rates, d)
      ensures rightChain.View() == Reconfigured(old(rightChain.View()), s, rates, d)
    {
      var peakCoefficients := d.peakFilter(rates.peak, s.peakFreq, s.peakQuality,
                                           d.decibelsToGain(s.peakGainInDecibels));
      if peakCoefficients.Some? {
        rightChain.peak := peakCoefficients.value;
      }
      if peakCoefficients.Some? {
        leftChain.peak := peakCoefficients.value;
      }

      var cutCoefficients := d.highpass(s.lowCutFreq, rates.lowCut, DesignOrder(s.lowCutSlope));
      leftChain.lowCut.Configure(s.lowCutSlope, cutCoefficients);
      rightChain.lowCut.Configure(s.lowCutSlope, cutCoefficients);

      var highCutCoefficients := d.lowpass(s.highCutFreq, rates.highCut, DesignOrder(s.highCutSlope));
      leftChain.highCut.Configure(s.highCutSlope, highCutCoefficients);
      rightChain.highCut.Configure(s.highCutSlope, highCutCoefficients);
    }

    /** Before playback: reconfigures both chains from the current snapshot.
        The peak and low-cut designs use the rate passed in, the high-cut
        design the rate getSampleRate() reports. */
    method PrepareToPlay(sampleRate: real, samplesPerBlock: int, d: Designers)
      requires Valid()
      requires CascadesFit(d, GetChainSettings(parameters), Rates(sampleRate, sampleRate, hostSampleRate))
      modifies leftChain.Repr(), rightChain.Repr()
      ensures Valid()
      ensures leftChain.View() == Reconfigured(old(leftChain.View()), GetChainSettings(parameters),
                                               Rates(sampleRate, sampleRate, hostSampleRate), d)
      ensures rightChain.View() == leftChain.View()
    {
      var chainSettings := GetChainSettings(parameters);
      UpdateFilters(chainSettings, Rates(sampleRate, sampleRate, hostSampleRate), d);
    }

    /** One audio block: clears the outputs without input, then reconfigures
        both chains from the current snapshot, every design at the rate
        getSampleRate() reports. The block is processed as channel 0 through
        the left chain and channel 1 through the right one, so the buffer
        must have two channels. */
    method ProcessBlock(buffer: array2<real>, totalNumInputChannels: nat, totalNumOutputChannels: nat, d: Designers)
      requires Valid()
      requires totalNumOutputChannels <= buffer.Length0 && 2 <= buffer.Length0
      requires CascadesFit(d, GetChainSettings(parameters), Rates(hostSampleRate, hostSampleRate, hostSampleRate))
      modifies buffer, leftChain.Repr(), rightChain.Repr()
      ensures Valid()
      ensures forall ch, n :: 2 <= ch < buffer.Length0 && 0 <= n < buffer.Length1 ==>
        buffer[ch, n] == if totalNumInputChannels <= ch < totalNumOutputChannels then 0.0 else old(buffer[ch, n])
      ensures leftChain.View() == Reconfigured(old(leftChain.View()), GetChainSettings(parameters),
                                               Rates(hostSampleRate, hostSampleRate, hostSampleRate), d)
      ensures rightChain.View() == leftChain.View()
    {
      ClearUnusedOutputs(buffer, totalNumInputChannels, totalNumOutputChannels);
      var chainSettings := GetChainSettings(parameters);
      var rate := hostSampleRate;
      UpdateFilters(chainSettings, Rates(rate, rate, rate), d);
    }
  }
}
