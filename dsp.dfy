/** The filter-design collaborators the processor calls into (JUCE's dsp
    module), seen only through their interface: coefficient sets are values,
    and the designers are function-valued parameters about which nothing but
    the length of their result is assumed. */
module Dsp {

  datatype Option<+T> = None | Some(value: T)

  /** One IIR section's coefficients, normalised by a0, as JUCE's
      IIR::Coefficients stores them (five values for a biquad, three for a
      first-order section). Assigning a set copies it by value. */
  datatype Coefficients = Coefficients(values: seq<real>)

  /** What a default-constructed IIR::Filter holds: the first-order section
      b0 = 1, b1 = 0, a1 = 0, which passes its input through unchanged. */
  const PassThrough: Coefficients := Coefficients([1.0, 0.0, 0.0])

  /** The four design routines the reconfiguration calls:
      - peakFilter(sampleRate, frequency, Q, linearGain), which may yield no
        set (IIR::Coefficients::makePeakFilter hands back a reference the
        caller compares with null);
      - decibelsToGain(dB);
      - highpass(frequency, sampleRate, order) and lowpass(...), the
        high-order Butterworth designers, each returning a cascade of
        order / 2 second-order sections. */
  datatype Designers = Designers(
    peakFilter: (real, real, real, real) -> Option<Coefficients>,
    decibelsToGain: real -> real,
    highpass: (real, real, nat) -> seq<Coefficients>,
    lowpass: (real, real, nat) -> seq<Coefficients>)
}
