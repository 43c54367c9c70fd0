/** One channel's signal path: a four-slot low-cut filter, one peak filter
    and a four-slot high-cut filter, processed in that order. The values
    CutState and ChainState describe what the classes CutFilter and MonoChain
    hold; the functions over them are the specification the classes' methods
    are proved against. */
module Chain {
  import opened Dsp
  import opened Settings

  /** A cut filter is a processor chain of exactly four IIR filters. */
  const Stages: nat := 4

  /** The contents of a cut filter: slot i holds coefficients[i] and is
      skipped while bypassed[i] is set. */
  datatype CutState = CutState(coefficients: seq<Coefficients>, bypassed: seq<bool>)

  predicate WellFormed(c: CutState)
  {
    |c.coefficients| == Stages && |c.bypassed| == Stages
  }

  /** A newly constructed cut filter: every slot passes through, none is
      bypassed. */
  const DefaultCut: CutState := CutState(seq(Stages, _ => PassThrough), seq(Stages, _ => false))

  /** The contents of a channel's chain, link by link. */
  datatype ChainState = ChainState(lowCut: CutState, peak: Coefficients, highCut: CutState)

  predicate ChainWellFormed(st: ChainState)
  {
    WellFormed(st.lowCut) && WellFormed(st.highCut)
  }

  const DefaultChain: ChainState := ChainState(DefaultCut, PassThrough, DefaultCut)

  /** A cut filter once it has been configured for `slope` from the designed
      `cascade`: slots 0 through the slope's ordinal run cascade[i], every
      later slot is bypassed and keeps whatever coefficients it had. */
  function Configured(c: CutState, slope: Slope, cascade: seq<Coefficients>): (r: CutState)
    requires WellFormed(c) && Ordinal(slope) < |cascade|
    ensures WellFormed(r)
    ensures forall i :: 0 <= i < Stages ==> (r.bypassed[i] <==> i > Ordinal(slope))
    ensures forall i :: 0 <= i <= Ordinal(slope) ==> r.coefficients[i] == cascade[i]
    ensures forall i :: Ordinal(slope) < i < Stages ==> r.coefficients[i] == c.coefficients[i]
  {
    var k := Ordinal(slope);
    CutState(
      seq(Stages, i requires 0 <= i < Stages => if i <= k then cascade[i] else c.coefficients[i]),
      seq(Stages, i => i > k))
  }

  /** The sections a cut filter runs, in slot order from slot `i` on: the
      coefficients of every slot that is not bypassed. */
  function ActiveFrom(c: CutState, i: nat): seq<Coefficients>
    requires WellFormed(c) && i <= Stages
    decreases Stages - i
  {
    if i == Stages then []
    else (if c.bypassed[i] then [] else [c.coefficients[i]]) + ActiveFrom(c, i + 1)
  }

  function ActiveSections(c: CutState): seq<Coefficients>
    requires WellFormed(c)
  {
    ActiveFrom(c, 0)
  }

  lemma {:induction false} ActiveFromConfigured(c: CutState, slope: Slope, cascade: seq<Coefficients>, i: nat)
    requires WellFormed(c) && Ordinal(slope) < |cascade| && i <= Stages
    ensures ActiveFrom(Configured(c, slope, cascade), i) ==
      if i <= Ordinal(slope) then cascade[i..Ordinal(slope) + 1] else []
    decreases Stages - i
  {
    if i < Stages {
      ActiveFromConfigured(c, slope, cascade, i + 1);
      var k := Ordinal(slope);
      if i < k {
        assert cascade[i..k + 1] == [cascade[i]] + cascade[i + 1..k + 1];
      }
    }
  }

  /** After configuration a cut filter runs exactly the first slope + 1
      designed sections, in order, whatever it ran before: the number of
      active stages is 1, 2, 3 or 4 for 12, 24, 36 or 48 dB/Oct. */
  lemma ActiveSectionsOfConfigured(c: CutState, slope: Slope, cascade: seq<Coefficients>)
    requires WellFormed(c) && Ordinal(slope) < |cascade|
    ensures ActiveSections(Configured(c, slope, cascade)) == cascade[..Ordinal(slope) + 1]
    ensures |ActiveSections(Configured(c, slope, cascade))| == DbPerOctave(slope) / 12
  {
    ActiveFromConfigured(c, slope, cascade, 0);
  }

  /** Configuring twice with the same slope and cascade is configuring once;
      configuring from two different states yields the same bypass flags and
      the same active slots, so no slot enabled by an earlier, steeper slope
      stays active. */
  lemma ConfiguredIdempotent(c: CutState, d: CutState, slope: Slope, cascade: seq<Coefficients>)
    requires WellFormed(c) && WellFormed(d) && Ordinal(slope) < |cascade|
    ensures Configured(Configured(c, slope, cascade), slope, cascade) == Configured(c, slope, cascade)
    ensures Configured(c, slope, cascade).bypassed == Configured(d, slope, cascade).bypassed
    ensures forall i :: 0 <= i <= Ordinal(slope) ==>
      Configured(c, slope, cascade).coefficients[i] == Configured(d, slope, cascade).coefficients[i]
  {
    var once := Configured(c, slope, cascade);
    var twice := Configured(once, slope, cascade);
    assert twice.coefficients == once.coefficients;
  }

  /** The sections processed at one link of the chain. */
  function Sections(st: ChainState, p: ChainPosition): seq<Coefficients>
    requires ChainWellFormed(st)
  {
    match p
    case LowCut => ActiveSections(st.lowCut)
    case Peak => [st.peak]
    case HighCut => ActiveSections(st.highCut)
  }

  /** Every section a sample passes through, link after link in chain order. */
  function EffectiveCascade(st: ChainState): seq<Coefficients>
    requires ChainWellFormed(st)
  {
    Sections(st, PositionAt(0)) + Sections(st, PositionAt(1)) + Sections(st, PositionAt(2))
  }

  /** A cut filter: four IIR filters, each with its own coefficient set, and
      the chain's per-slot bypass flags. */
  class CutFilter {
    const coefficients: array<Coefficients>
    const bypassed: array<bool>

    ghost predicate Valid()
    {
      coefficients.Length == Stages && bypassed.Length == Stages
    }

    ghost function Repr(): set<object>
    {
      {coefficients, bypassed}
    }

    ghost function View(): (c: CutState)
      requires Valid()
      reads coefficients, bypassed
      ensures WellFormed(c)
    {
      CutState(coefficients[..], bypassed[..])
    }

    constructor ()
      ensures Valid() && fresh(coefficients) && fresh(bypassed)
      ensures View() == DefaultCut
    {
      coefficients := new Coefficients[Stages](_ => PassThrough);
      bypassed := new bool[Stages](_ => false);
    }

    /** Sets or clears slot `i`'s bypass flag. */
    method SetBypassed(i: nat, b: bool)
      requires Valid() && i < Stages
      modifies bypassed
      ensures View() == old(View()).(bypassed := old(View()).bypassed[i := b])
    {
      bypassed[i] := b;
    }

    /** Copies a coefficient set into slot `i`'s filter. */
    method SetCoefficients(i: nat, c: Coefficients)
      requires Valid() && i < Stages
      modifies coefficients
      ensures View() == old(View()).(coefficients := old(View()).coefficients[i := c])
    {
      coefficients[i] := c;
    }

    /** Configures the filter for `slope`: bypasses all four slots, then
        gives slots 0 through the slope's ordinal their designed section and
        enables them. Only those slots' coefficients change. */
    method Configure(slope: Slope, cascade: seq<Coefficients>)
      requires Valid() && Ordinal(slope) < |cascade|
      modifies coefficients, bypassed
      ensures View() == Configured(old(View()), slope, cascade)
      ensures forall i :: 0 <= i < Stages ==> (bypassed[i] <==> i > Ordinal(slope))
      ensures forall i :: 0 <= i <= Ordinal(slope) ==> coefficients[i] == cascade[i]
      ensures forall i :: Ordinal(slope) < i < Stages ==> coefficients[i] == old(coefficients[i])
    {
      SetBypassed(0, true);
      SetBypassed(1, true);
      SetBypassed(2, true);
      SetBypassed(3, true);

      match slope
      case Slope12 =>
        SetCoefficients(0, cascade[0]);
        SetBypassed(0, false);
      case Slope24 =>
        SetCoefficients(0, cascade[0]);
        SetBypassed(0, false);
        SetCoefficients(1, cascade[1]);
        SetBypassed(1, false);
      case Slope36 =>
        SetCoefficients(0, cascade[0]);
        SetBypassed(0, false);
        SetCoefficients(1, cascade[1]);
        SetBypassed(1, false);
        SetCoefficients(2, cascade[2]);
        SetBypassed(2, false);
      case Slope48 =>
        SetCoefficients(0, cascade[0]);
        SetBypassed(0, false);
        SetCoefficients(1, cascade[1]);
        SetBypassed(1, false);
        SetCoefficients(2, cascade[2]);
        SetBypassed(2, false);
        SetCoefficients(3, cascade[3]);
        SetBypassed(3, false);
    }
  }

  /** A channel's chain: low cut, then peak, then high cut. Each chain owns
      its filters; nothing in it is shared with another chain. */
  class MonoChain {
    const lowCut: CutFilter
    var peak: Coefficients
    const highCut: CutFilter

    ghost function Repr(): set<object>
    {
      {this} + lowCut.Repr() + highCut.Repr()
    }

    ghost predicate Valid()
    {
      lowCut.Valid() && highCut.Valid() && lowCut.Repr() !! highCut.Repr()
    }

    ghost function View(): (st: ChainState)
      requires Valid()
      reads this, lowCut.Repr(), highCut.Repr()
      ensures ChainWellFormed(st)
    {
      ChainState(lowCut.View(), peak, highCut.View())
    }

    constructor ()
      ensures Valid() && fresh(Repr())
      ensures View() == DefaultChain
    {
      lowCut := new CutFilter();
      peak := PassThrough;
      highCut := new CutFilter();
    }
  }
}
