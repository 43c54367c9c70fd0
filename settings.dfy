/** The parameter side of the processor: the Slope and ChainPosition
    enumerations, the ChainSettings snapshot read once per block, and the
    parameter layout the value store is built from. */
module Settings {

  /** Cut-filter steepness: 12, 24, 36 or 48 dB per octave, declared in that
      order so that the ordinal of SlopeN is N / 12 - 1. */
  datatype Slope = Slope12 | Slope24 | Slope36 | Slope48

  /** The enumerator's integer value. */
  function Ordinal(s: Slope): (n: nat)
    ensures n < 4
  {
    match s
    case Slope12 => 0
    case Slope24 => 1
    case Slope36 => 2
    case Slope48 => 3
  }

  /** The enumerator whose value is `i`. */
  function SlopeFromIndex(i: nat): (s: Slope)
    requires i < 4
    ensures Ordinal(s) == i
  {
    if i == 0 then Slope12 else if i == 1 then Slope24 else if i == 2 then Slope36 else Slope48
  }

  /** The Butterworth order requested from the designers, 2 * (slope + 1):
      an even order whose cascade has exactly one second-order section per
      cut slot the slope enables. */
  function DesignOrder(s: Slope): (order: nat)
    ensures order % 2 == 0 && 2 <= order <= 8
    ensures order / 2 == Ordinal(s) + 1
  {
    2 * (Ordinal(s) + 1)
  }

  /** The attenuation per octave a slope stands for. */
  function DbPerOctave(s: Slope): nat
  {
    12 * (Ordinal(s) + 1)
  }

  lemma SlopeOrdinalsBijective()
    ensures forall s: Slope :: SlopeFromIndex(Ordinal(s)) == s
    ensures forall i: nat :: i < 4 ==> Ordinal(SlopeFromIndex(i)) == i
    ensures [Ordinal(Slope12), Ordinal(Slope24), Ordinal(Slope36), Ordinal(Slope48)] == [0, 1, 2, 3]
  {
    forall s: Slope ensures SlopeFromIndex(Ordinal(s)) == s {
      match s
      case Slope12 =>
      case Slope24 =>
      case Slope36 =>
      case Slope48 =>
    }
  }

  /** The three links of a channel's processor chain, in processing order. */
  datatype ChainPosition = LowCut | Peak | HighCut

  /** Where a link sits in the chain. */
  function PositionIndex(p: ChainPosition): (i: nat)
    ensures i < 3
    ensures PositionAt(i) == p
  {
    match p
    case LowCut => 0
    case Peak => 1
    case HighCut => 2
  }

  /** The link at index `i` of the chain. */
  function PositionAt(i: nat): ChainPosition
    requires i < 3
  {
    if i == 0 then LowCut else if i == 1 then Peak else HighCut
  }

  /** The snapshot of the seven filter parameters, read once per block. */
  datatype ChainSettings = ChainSettings(
    peakFreq: real,
    peakGainInDecibels: real,
    peakQuality: real,
    lowCutFreq: real,
    highCutFreq: real,
    lowCutSlope: Slope,
    highCutSlope: Slope)

  /** The snapshot's member initialisers: all zero but the quality, which is
      1, and both slopes 12 dB/octave. */
  const DefaultChainSettings: ChainSettings :=
    ChainSettings(0.0, 0.0, 1.0, 0.0, 0.0, Slope12, Slope12)

  /** A snapshot nobody has written to: peak frequency, peak gain and both
      cut frequencies 0, quality 1, both slopes 12 dB/octave. */
  lemma ChainSettingsInitialisers()
    ensures DefaultChainSettings.peakFreq == 0.0 && DefaultChainSettings.peakGainInDecibels == 0.0
    ensures DefaultChainSettings.lowCutFreq == 0.0 && DefaultChainSettings.highCutFreq == 0.0
    ensures DefaultChainSettings.peakQuality == 1.0
    ensures DefaultChainSettings.lowCutSlope == Slope12 && DefaultChainSettings.highCutSlope == Slope12
    ensures DbPerOctave(DefaultChainSettings.lowCutSlope) == 12
    ensures DbPerOctave(DefaultChainSettings.highCutSlope) == 12
  {
  }

  // Parameter identifiers, which double as display names.
  const LowCutFreqId: string := "LowCut Freq"
  const HighCutFreqId: string := "HighCut Freq"
  const PeakFreqId: string := "Peak Freq"
  const PeakGainId: string := "Peak Gain"
  const PeakQualityId: string := "Peak Quality"
  const LowCutSlopeId: string := "LowCut Slope"
  const HighCutSlopeId: string := "HighCut Slope"

  /** The value store's raw (denormalised) parameter values by identifier:
      physical units for a float parameter, the selected index for a choice,
      0 or 1 for a toggle. */
  type ParameterValues = map<string, real>

  /** A raw choice value that converts to a Slope: the conversion truncates
      toward zero, and only 0 through 3 name an enumerator. */
  predicate IsSlopeValue(raw: real)
  {
    0.0 <= raw < 4.0
  }

  /** The store holds every parameter the snapshot reads, and both slope
      choices hold a value that converts to a Slope. */
  predicate HasChainParameters(values: ParameterValues)
  {
    LowCutFreqId in values && HighCutFreqId in values && PeakFreqId in values &&
    PeakGainId in values && PeakQualityId in values &&
    LowCutSlopeId in values && HighCutSlopeId in values &&
    IsSlopeValue(values[LowCutSlopeId]) && IsSlopeValue(values[HighCutSlopeId])
  }

  /** The cast from a raw choice value to Slope (truncation toward zero). */
  function SlopeFromRaw(raw: real): (s: Slope)
    requires IsSlopeValue(raw)
    ensures Ordinal(s) as real <= raw < Ordinal(s) as real + 1.0
  {
    SlopeFromIndex(raw.Floor)
  }

  /** Reads the snapshot out of the value store: starting from the member
      initialisers, every one of the seven fields is overwritten by its
      parameter's raw value. */
  function GetChainSettings(values: ParameterValues): (s: ChainSettings)
    requires HasChainParameters(values)
    ensures s.lowCutFreq == values[LowCutFreqId] && s.highCutFreq == values[HighCutFreqId]
    ensures s.peakFreq == values[PeakFreqId] && s.peakGainInDecibels == values[PeakGainId]
    ensures s.peakQuality == values[PeakQualityId]
    ensures Ordinal(s.lowCutSlope) == values[LowCutSlopeId].Floor
    ensures Ordinal(s.highCutSlope) == values[HighCutSlopeId].Floor
  {
    DefaultChainSettings.(
      lowCutFreq := values[LowCutFreqId],
      highCutFreq := values[HighCutFreqId],
      peakFreq := values[PeakFreqId],
      peakGainInDecibels := values[PeakGainId],
      peakQuality := values[PeakQualityId],
      lowCutSlope := SlopeFromRaw(values[LowCutSlopeId]),
      highCutSlope := SlopeFromRaw(values[HighCutSlopeId]))
  }

  /** Selecting choice `i` of a slope parameter yields the Slope whose
      ordinal is `i`, and that Slope's label is choice `i`'s label. */
  lemma ChoiceIndexSelectsSlope(values: ParameterValues, i: nat)
    requires HasChainParameters(values) && i < 4
    ensures values[LowCutSlopeId] == i as real ==>
      GetChainSettings(values).lowCutSlope == SlopeFromIndex(i) &&
      SlopeLabel(GetChainSettings(values).lowCutSlope) == SlopeChoiceLabels()[i]
    ensures values[HighCutSlopeId] == i as real ==>
      GetChainSettings(values).highCutSlope == SlopeFromIndex(i) &&
      SlopeLabel(GetChainSettings(values).highCutSlope) == SlopeChoiceLabels()[i]
  {
    SlopeOrdinalsBijective();
  }

  // Decimal text of a non-negative integer, as a string's << operator
  // writes it.

  function DigitChar(d: nat): char
    requires d < 10
  {
    ('0' as int + d) as char
  }

  function DigitValue(c: char): nat
  {
    if '0' <= c <= '9' then c as int - '0' as int else 0
  }

  predicate IsDigits(s: string)
  {
    forall i :: 0 <= i < |s| ==> '0' <= s[i] <= '9'
  }

  function DecimalString(n: nat): (s: string)
    ensures |s| >= 1 && IsDigits(s)
    ensures n >= 10 ==> s[0] != '0'
    decreases n
  {
    if n < 10 then [DigitChar(n)] else DecimalString(n / 10) + [DigitChar(n % 10)]
  }

  /** Reads a string of digits back as a number. */
  function DecimalValue(s: string): nat
    decreases |s|
  {
    if s == [] then 0 else 10 * DecimalValue(s[..|s| - 1]) + DigitValue(s[|s| - 1])
  }

  lemma {:induction false} DecimalRoundTrip(n: nat)
    ensures DecimalValue(DecimalString(n)) == n
    decreases n
  {
    var s := DecimalString(n);
    if n >= 10 {
      DecimalRoundTrip(n / 10);
      assert s[..|s| - 1] == DecimalString(n / 10);
    }
  }

  /** The label of a slope choice: its dB per octave followed by " db/Oct". */
  function SlopeLabel(s: Slope): string
  {
    DecimalString(DbPerOctave(s)) + " db/Oct"
  }

  /** The choices of both slope parameters, in Slope order. */
  function SlopeChoiceLabels(): (labels: seq<string>)
    ensures |labels| == 4
    ensures forall i :: 0 <= i < 4 ==> labels[i] == SlopeLabel(SlopeFromIndex(i))
  {
    [SlopeLabel(Slope12), SlopeLabel(Slope24), SlopeLabel(Slope36), SlopeLabel(Slope48)]
  }

  lemma SlopeLabelsSpelledOut()
    ensures SlopeChoiceLabels() == ["12 db/Oct", "24 db/Oct", "36 db/Oct", "48 db/Oct"]
  {
    assert SlopeLabel(Slope12) == "12 db/Oct" by { assert DecimalString(12) == "12"; }
    assert SlopeLabel(Slope24) == "24 db/Oct" by { assert DecimalString(24) == "24"; }
    assert SlopeLabel(Slope36) == "36 db/Oct" by { assert DecimalString(36) == "36"; }
    assert SlopeLabel(Slope48) == "48 db/Oct" by { assert DecimalString(48) == "48"; }
  }

  /** Different slopes are offered under different labels: the number in
      front of " db/Oct" reads back as the slope's dB per octave. */
  lemma {:induction false} SlopeLabelsDistinct(a: Slope, b: Slope)
    requires SlopeLabel(a) == SlopeLabel(b)
    ensures a == b
  {
    var da, db := DecimalString(DbPerOctave(a)), DecimalString(DbPerOctave(b));
    assert da == SlopeLabel(a)[..|SlopeLabel(a)| - 7];
    assert db == SlopeLabel(b)[..|SlopeLabel(b)| - 7];
    DecimalRoundTrip(DbPerOctave(a));
    DecimalRoundTrip(DbPerOctave(b));
    SlopeOrdinalsBijective();
  }

  /** A normalisable range: [start, end], snapping interval and skew. */
  datatype NormalisableRange = NormalisableRange(start: real, end: real, interval: real, skew: real)

  datatype Parameter =
    | FloatParameter(id: string, name: string, range: NormalisableRange, defaultValue: real)
    | ChoiceParameter(id: string, name: string, choices: seq<string>, defaultIndex: nat)
    | BoolParameter(id: string, name: string, defaultOn: bool)

  const FrequencyRange: NormalisableRange := NormalisableRange(20.0, 20000.0, 1.0, 0.25)
  const GainRange: NormalisableRange := NormalisableRange(-24.0, 24.0, 0.5, 1.0)
  const QualityRange: NormalisableRange := NormalisableRange(0.1, 10.0, 0.05, 1.0)

  const LowCutFreqParameter: Parameter := FloatParameter(LowCutFreqId, LowCutFreqId, FrequencyRange, 20.0)
  const HighCutFreqParameter: Parameter := FloatParameter(HighCutFreqId, HighCutFreqId, FrequencyRange, 20000.0)
  const PeakFreqParameter: Parameter := FloatParameter(PeakFreqId, PeakFreqId, FrequencyRange, 750.0)
  const PeakGainParameter: Parameter := FloatParameter(PeakGainId, PeakGainId, GainRange, 0.0)
  const PeakQualityParameter: Parameter := FloatParameter(PeakQualityId, PeakQualityId, QualityRange, 1.0)
  const LowCutBypassedParameter: Parameter := BoolParameter("LowCut Bypassed", "LowCut Bypassed", false)
  const PeakBypassedParameter: Parameter := BoolParameter("Peak Bypassed", "Peak Bypassed", false)
  const HighCutBypassedParameter: Parameter := BoolParameter("HighCut Bypassed", "HighCut Bypassed", false)
  const AnalyzerEnabledParameter: Parameter := BoolParameter("Analyzer Enabled", "Analyzer Enabled", true)

  /** The eleven parameters the value store is created with, in the order
      they are added. */
  function ParameterLayout(): (layout: seq<Parameter>)
    ensures |layout| == 11
    ensures [layout[0].id, layout[1].id, layout[2].id, layout[3].id, layout[4].id] ==
      [LowCutFreqId, HighCutFreqId, PeakFreqId, PeakGainId, PeakQualityId]
    ensures forall i :: 0 <= i < 5 ==> layout[i].FloatParameter?
    ensures layout[5].id == LowCutSlopeId && layout[6].id == HighCutSlopeId
    ensures forall i :: 5 <= i < 7 ==> layout[i].ChoiceParameter? && layout[i].choices == SlopeChoiceLabels()
    ensures forall i :: 7 <= i < 11 ==> layout[i].BoolParameter?
  {
    [LowCutFreqParameter, HighCutFreqParameter, PeakFreqParameter, PeakGainParameter,
     PeakQualityParameter,
     ChoiceParameter(LowCutSlopeId, LowCutSlopeId, SlopeChoiceLabels(), 0),
     ChoiceParameter(HighCutSlopeId, HighCutSlopeId, SlopeChoiceLabels(), 0),
     LowCutBypassedParameter, PeakBypassedParameter, HighCutBypassedParameter,
     AnalyzerEnabledParameter]
  }

  /** Builds the layout, writing the slope labels out one by one. */
  method CreateParameterLayout() returns (layout: seq<Parameter>)
    ensures layout == ParameterLayout()
  {
    layout := [];
    layout := layout + [LowCutFreqParameter];
    layout := layout + [HighCutFreqParameter];
    layout := layout + [PeakFreqParameter];
    layout := layout + [PeakGainParameter];
    layout := layout + [PeakQualityParameter];

    var stringArray: seq<string> := [];
    for i := 0 to 4
      invariant stringArray == SlopeChoiceLabels()[..i]
    {
      var str := DecimalString(12 + i * 12);
      str := str + " db/Oct";
      stringArray := stringArray + [str];
    }
    assert stringArray == SlopeChoiceLabels();

    layout := layout + [ChoiceParameter(LowCutSlopeId, LowCutSlopeId, stringArray, 0)];
    layout := layout + [ChoiceParameter(HighCutSlopeId, HighCutSlopeId, stringArray, 0)];
    layout := layout + [LowCutBypassedParameter];
    layout := layout + [PeakBypassedParameter];
    layout := layout + [HighCutBypassedParameter];
    layout := layout + [AnalyzerEnabledParameter];
  }

  /** The raw value a parameter holds before anyone moves it. */
  function RawDefault(p: Parameter): real
  {
    match p
    case FloatParameter(_, _, _, d) => d
    case ChoiceParameter(_, _, _, k) => k as real
    case BoolParameter(_, _, on) => if on then 1.0 else 0.0
  }

  predicate IdsDistinct(layout: seq<Parameter>)
  {
    forall i, j :: 0 <= i < j < |layout| ==> layout[i].id != layout[j].id
  }

  /** No parameter after index `i` reuses its identifier. */
  predicate LastWithId(layout: seq<Parameter>, i: nat)
    requires i < |layout|
  {
    forall j :: i < j < |layout| ==> layout[j].id != layout[i].id
  }

  /** The value store as created from `layout`: one raw value per
      identifier, each parameter at its default. */
  function DefaultValues(layout: seq<Parameter>): (values: ParameterValues)
    ensures forall i :: 0 <= i < |layout| ==> layout[i].id in values
    decreases |layout|
  {
    if layout == [] then map[]
    else
      var last := layout[|layout| - 1];
      DefaultValues(layout[..|layout| - 1])[last.id := RawDefault(last)]
  }

  /** A parameter whose identifier no later parameter reuses starts out at
      its own default. */
  lemma {:induction false} DefaultValueAt(layout: seq<Parameter>, i: nat)
    requires i < |layout| && LastWithId(layout, i)
    ensures DefaultValues(layout)[layout[i].id] == RawDefault(layout[i])
    decreases |layout|
  {
    if i < |layout| - 1 {
      var init := layout[..|layout| - 1];
      assert init[i] == layout[i];
      assert LastWithId(init, i) by {
        forall j | i < j < |init| ensures init[j].id != init[i].id {
          assert init[j] == layout[j];
        }
      }
      DefaultValueAt(init, i);
    }
  }

  /** Every default lies inside its declared range, and every choice default
      names one of its choices. */
  lemma DefaultsWithinRanges()
    ensures forall p :: p in ParameterLayout() && p.FloatParameter? ==>
      p.range.start <= p.defaultValue <= p.range.end
    ensures forall p :: p in ParameterLayout() && p.ChoiceParameter? ==>
      p.defaultIndex < |p.choices|
    ensures 20.0 <= LowCutFreqParameter.defaultValue <= 20000.0
    ensures 20.0 <= HighCutFreqParameter.defaultValue <= 20000.0
    ensures 20.0 <= PeakFreqParameter.defaultValue <= 20000.0
    ensures -24.0 <= PeakGainParameter.defaultValue <= 24.0
    ensures 0.1 <= PeakQualityParameter.defaultValue <= 10.0
  {
  }

  lemma LayoutIdsDistinct()
    ensures IdsDistinct(ParameterLayout())
  {
  }

  /** A store created from the layout satisfies the snapshot's needs, and
      the snapshot it yields holds the declared defaults: low cut 20 Hz,
      high cut 20 kHz, peak 750 Hz at 0 dB with Q 1, both slopes 12 dB/Oct. */
  lemma DefaultSettingsFromLayout()
    ensures HasChainParameters(DefaultValues(ParameterLayout()))
    ensures GetChainSettings(DefaultValues(ParameterLayout())) ==
      ChainSettings(750.0, 0.0, 1.0, 20.0, 20000.0, Slope12, Slope12)
  {
    var layout := ParameterLayout();
    LayoutIdsDistinct();
    forall i | 0 <= i < 7 ensures DefaultValues(layout)[layout[i].id] == RawDefault(layout[i]) {
      DefaultValueAt(layout, i);
    }
    assert layout[0].id == LowCutFreqId && layout[1].id == HighCutFreqId;
    assert layout[2].id == PeakFreqId && layout[3].id == PeakGainId;
    assert layout[4].id == PeakQualityId && layout[5].id == LowCutSlopeId;
    assert layout[6].id == HighCutSlopeId;
  }
}
