# EQ3 equalizer core, modelled in Dafny

EQ3 is a stereo three-band equalizer plug-in built on JUCE. Each channel runs its own processor chain, a `MonoChain`. The chain has a low-cut `CutFilter` of four IIR filters, then one peak IIR filter, then a high-cut `CutFilter` of four IIR filters. Before playback, and again at the start of every audio block, the processor does the same things. It reads a `ChainSettings` snapshot from its parameter store. It has the peak filter and two Butterworth cascades designed. Then it writes the results into the left chain and the right chain. A cut filter is set up by bypassing all four of its slots and then enabling the first `slope + 1` slots, each with its own designed section.

This project models that reconfiguration with the sample arithmetic left out. It also models the clearing of output channels that have no input, the bus-layout check, the parameter layout with its slope labels and defaults, and the snapshot read.

- `dsp.dfy` (`Dsp`): coefficient sets as values. The JUCE filter designers are function-valued parameters (`Designers`).
- `settings.dfy` (`Settings`): the `Slope` and `ChainPosition` enumerations, `ChainSettings`, `getChainSettings`, and the parameter layout with its slope-label loop.
- `chain.dfy` (`Chain`): the values `CutState` and `ChainState`, and the specification of a configured cut filter (`Configured`). It also defines the sections a chain runs (`ActiveSections`, `EffectiveCascade`). The classes `CutFilter` (two four-element arrays: coefficients and bypass flags) and `MonoChain` are proved against these.
- `buses.dfy` (`Buses`): the default buses and `isBusesLayoutSupported`.
- `processor.dfy` (`Processor`): the class `EqualizerProcessor` with `PrepareToPlay`, `ProcessBlock` and the shared `UpdateFilters`, plus the channel-clearing loop. The specification function `Reconfigured` states one reconfiguration of a chain, and lemmas about it cover idempotence and left/right agreement.

The source writes the reconfiguration out twice, statement for statement: once in `prepareToPlay` and once in `processBlock`. The model writes it once, as `UpdateFilters`. Each caller passes the sample rates the source uses: `prepareToPlay` designs the peak and low-cut filters at its `sampleRate` argument but the high-cut filter at `getSampleRate()`, and `processBlock` uses `getSampleRate()` for all three.

Three points about the code's behaviour shape the model:
- A failed design leaves only the peak filter untouched: the peak assignment is guarded by a null test, and the cut slots are always rewritten.
- A bypassed cut slot keeps the coefficients it last had. Left and right therefore agree in full only because both chains start equal and are always written together. `EqualizerProcessor.Valid` keeps that equality as an invariant, and `ReconfiguredSynchronises` states what agrees whatever the previous contents were.
- The number of active cut stages is a four-value enumeration, converted from the raw choice value by truncation; it is never clamped.

## Model

| member | source | states |
|---|---|---|
| `Settings.Ordinal` | PluginProcessor.h:12-17 | every `Slope` enumerator has an ordinal below 4 |
| `Settings.SlopeFromIndex` | PluginProcessor.h:12-17 | the enumerator for each index 0..3 has that index as its ordinal |
| `Settings.SlopeOrdinalsBijective` | PluginProcessor.h:12-17 | ordinals and enumerators correspond one to one; the ordinals of Slope12, Slope24, Slope36, Slope48 are 0, 1, 2, 3 |
| `Settings.DesignOrder` | PluginProcessor.cpp:371-373 | the order requested from a designer is even, between 2 and 8, and its half is slope + 1, the number of cut slots the slope enables |
| `Settings.ChainSettingsInitialisers` | PluginProcessor.h:18-23 | a snapshot's initialisers (`DefaultChainSettings`) set the peak frequency, peak gain and both cut frequencies to 0, the quality to 1 and both slopes to `Slope12` (12 dB/Oct) |
| `Settings.PositionIndex` | PluginProcessor.h:103-107 | LowCut, Peak and HighCut index the chain at 0, 1 and 2, and each index names its link back |
| `Settings.SlopeFromRaw` | PluginProcessor.cpp:583-584 | a raw choice value in [0, 4) converts to the slope whose ordinal is its integer part (truncation) |
| `Settings.GetChainSettings` | PluginProcessor.cpp:574-592 | each of the seven snapshot fields holds its parameter's raw value, and each slope is the truncated choice index, so none of the struct's initialisers survives |
| `Settings.ChoiceIndexSelectsSlope` | PluginProcessor.cpp:583-584 | choosing index i of a slope parameter yields the slope of ordinal i, whose label is choice i |
| `Settings.DecimalString` | PluginProcessor.cpp:629 | the decimal text of a number is a non-empty run of digits with no leading zero |
| `Settings.DecimalRoundTrip` | PluginProcessor.cpp:629 | reading the decimal text of n back gives n |
| `Settings.SlopeChoiceLabels` | PluginProcessor.cpp:625-632 | there are four slope choices, and choice i is the label of the slope of ordinal i |
| `Settings.SlopeLabelsSpelledOut` | PluginProcessor.cpp:625-632 | the choices are exactly "12 db/Oct", "24 db/Oct", "36 db/Oct", "48 db/Oct" |
| `Settings.SlopeLabelsDistinct` | PluginProcessor.cpp:625-635 | two slopes with the same label are the same slope |
| `Settings.ParameterLayout` | PluginProcessor.cpp:593-643 | the layout has eleven parameters: the five float parameters low-cut, high-cut and peak frequency, peak gain and quality first, then the two slope choices offering the four slope labels, then four toggles |
| `Settings.CreateParameterLayout` | PluginProcessor.cpp:593-643 | the loop-built layout is the eleven parameters in order, both slope parameters offering the four labels with default index 0 |
| `Settings.DefaultValues` | PluginProcessor.h:74 | the value store created from a layout holds a value for every parameter identifier in it |
| `Settings.DefaultValueAt` | PluginProcessor.h:74 | a parameter whose identifier no later parameter reuses starts at its own default |
| `Settings.DefaultsWithinRanges` | PluginProcessor.cpp:600-623 | every float default lies within its range (low cut 20 and high cut 20000 and peak 750 in [20, 20000], gain 0 in [-24, 24], Q 1 in [0.1, 10]) and each choice default names a choice |
| `Settings.LayoutIdsDistinct` | PluginProcessor.cpp:600-640 | no two parameters share an identifier |
| `Settings.DefaultSettingsFromLayout` | PluginProcessor.cpp:574-623 | a store created from the layout satisfies the snapshot's needs and yields low cut 20, high cut 20000, peak 750 Hz at 0 dB with Q 1, both slopes 12 dB/Oct |
| `Chain.Configured` | PluginProcessor.cpp:374-413 | a configured cut filter has slot i bypassed exactly when i > slope, slots 0..slope hold `cascade[i]`, and the later slots keep their previous coefficients |
| `Chain.ActiveFromConfigured` | PluginProcessor.cpp:374-413 | from slot i on, a configured cut filter runs the cascade's sections i through slope, in order |
| `Chain.ActiveSectionsOfConfigured` | PluginProcessor.cpp:374-413 | a configured cut filter runs exactly the first slope + 1 designed sections in slot order, whatever it ran before; that is 1 to 4 stages for 12 to 48 dB/Oct |
| `Chain.ConfiguredIdempotent` | PluginProcessor.cpp:374-413 | configuring twice equals configuring once; because all slots are bypassed first, two different prior states end with the same bypass flags and the same enabled slots, so a lower slope leaves no stale active slot |
| `Chain.CutFilter.constructor` | PluginProcessor.h:84 | a new cut filter has exactly four slots, all pass-through and none bypassed |
| `Chain.CutFilter.SetBypassed` | PluginProcessor.cpp:375-378 | only slot i's bypass flag changes |
| `Chain.CutFilter.SetCoefficients` | PluginProcessor.cpp:384 | only slot i's coefficients change, to the given set |
| `Chain.CutFilter.Configure` | PluginProcessor.cpp:374-413 | afterwards slot i is bypassed exactly when i > slope; slots 0..slope hold `cascade[i]`; the later slots keep their old coefficients; the new state is `Configured(old state)` |
| `Chain.MonoChain.constructor` | PluginProcessor.h:85-86 | a new chain is low cut, peak, high cut, in their default state, in freshly allocated objects of its own |
| `Processor.Reconfigured` | PluginProcessor.cpp:348-534 | after one reconfiguration the peak is the designed set when the design is non-null and the previous one otherwise; each cut filter's slot i is bypassed exactly when i > its slope, and its enabled slots hold the designed cascade's sections |
| `Processor.EffectiveCascadeAfterReconfigure` | PluginProcessor.cpp:348-534 | after reconfiguration a chain runs the low-cut cascade's first slope + 1 sections, then the peak section, then the high-cut cascade's first slope + 1 sections; the peak is the designed set when the design is non-null and the previous one otherwise |
| `Processor.ReconfiguredIdempotent` | PluginProcessor.cpp:348-534 | reconfiguring twice with the same snapshot, rates and designers gives the same chain state as once |
| `Processor.ReconfiguredSynchronises` | PluginProcessor.cpp:354-534 | two chains reconfigured together get identical bypass flags whatever they held before, and run identical sections when the peak design is non-null or their previous peaks agreed |
| `Processor.ClearChannel` | PluginProcessor.cpp:338 | the given samples of the given channel become zero and nothing else changes |
| `Processor.ClearUnusedOutputs` | PluginProcessor.cpp:337-338 | every channel with index in [inputs, outputs) becomes all zeros and every other channel is unchanged |
| `Processor.EqualizerProcessor.constructor` | PluginProcessor.h:74-86 | both chains start in the default state, with no shared objects, and the value store holds the layout's defaults |
| `Processor.EqualizerProcessor.UpdateFilters` | PluginProcessor.cpp:348-534 | each chain's new state is `Reconfigured` of its old state, computed from one set of designs, and the left and right chains stay equal |
| `Processor.EqualizerProcessor.PrepareToPlay` | PluginProcessor.cpp:94-291 | both chains are reconfigured from the current snapshot, with peak and low cut designed at the argument rate and high cut at the host's rate, and they stay equal |
| `Processor.EqualizerProcessor.ProcessBlock` | PluginProcessor.cpp:325-547 | output channels from index 2 on that have no input are zeroed and the other channels from index 2 on are unchanged; both chains are reconfigured at the host's rate and stay equal; the buffer must have two channels |
| `Buses.DefaultLayout` | PluginProcessor.cpp:13-25 | a MIDI effect has no buses; otherwise the output is stereo, and the input is stereo too except in a synth, which has none |
| `Buses.IsBusesLayoutSupported` | PluginProcessor.cpp:300-322 | a MIDI effect accepts every layout; an accepted layout of any other build has one or two output channels and, unless a synth, as many input channels as output channels |
| `Buses.SupportedLayouts` | PluginProcessor.cpp:300-322 | a layout is accepted exactly when the build is a MIDI effect, or the main output is mono or stereo and (unless a synth) the main input is the same set; outputs of more than two channels are refused outside a MIDI effect |
| `Buses.DefaultLayoutSupported` | PluginProcessor.cpp:13-25 | the buses the processor is constructed with pass its own check, with two output channels unless the build is a MIDI effect |
| `Buses.MonoLayoutAccepted` | PluginProcessor.cpp:310-320 | a mono layout is accepted even though it has fewer than the two channels block processing reads |

## Left out

- Coefficient design: `makePeakFilter`, `decibelsToGain` and the two high-order Butterworth designers are floating-point routines inside JUCE. They are function-valued parameters (`Designers`). The only thing assumed of them is that a cut cascade has order / 2 sections (`CascadesFit`). The peak design may yield no set, and that case is modelled.
- Per-sample filtering: `leftChain.process` and `rightChain.process` on the audio block, lines 537-546, are not modelled. `EffectiveCascade` gives the ordered sections a chain would run.
- `Processor.EqualizerProcessor.ProcessBlock`: it states nothing about channels 0 and 1 after the block, because the filtering that overwrites them is not modelled. The requirement of two channels comes from the source taking channel 1 unconditionally.
- Filter history: each IIR filter's internal state and its reset by `prepare(spec)` (lines 99-104) are not modelled, so `samplesPerBlock` has no effect.
- Numbers: `float` values are modelled as `real`. Rounding, denormal flushing, and the range snapping and skew of `NormalisableRange` are not modelled. The ranges are only carried as data.
- The parameter store: the atomic loads are plain map reads. The host and the editor change `parameters` and `hostSampleRate` directly. The host's setting of the sample rate, and automation, are not part of this model.
- Parameters declared but never read: the three bypass toggles and the analyzer switch are in the layout, but the snapshot ignores them, as the source does.
- Host boilerplate: name, MIDI flags, programs, tail length, `releaseResources`, state persistence, the editor and `createPluginFilter` are not part of this model. The same goes for the variant built with preferred channel configurations.
- Bus layouts: a channel set is modelled as a set of speaker positions. No other part of JUCE's channel-set type is modelled.
