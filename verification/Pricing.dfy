/** Exposure-based line movement (internal/pricing), over exact reals. The
    exponential is a parameter: any positive, monotone function with exp(0) = 1. */
module Pricing {
  import opened Results
  import opened Ledger
  import opened Odds
  import opened RealSums

  const MAX_TILT_EXPONENT := 40.0
  const ARBITRAGE_SAFETY_FRACTION := 0.8
  const MAX_ROUNDING_STEPS := 32

  datatype SelectionInput = SelectionInput(openingOdds: int, stakeCents: int)

  ghost predicate IsExponential(exp: real -> real) {
    && exp(0.0) == 1.0
    && (forall x :: exp(x) > 0.0)
    && (forall x, y :: x <= y ==> exp(x) <= exp(y))
  }

  predicate ValidSelection(s: SelectionInput) {
    ValidOdds(s.openingOdds) && s.stakeCents >= 0
  }

  predicate AllValid(selections: seq<SelectionInput>) {
    forall i :: 0 <= i < |selections| ==> ValidSelection(selections[i])
  }

  predicate ValidInputs(selections: seq<SelectionInput>) {
    |selections| >= 2 && AllValid(selections)
  }

  // ---- What the engine computes, declaratively -------------------------------

  function Priors(selections: seq<SelectionInput>): (r: seq<real>)
    requires AllValid(selections)
    ensures |r| == |selections|
  {
    if selections == [] then []
    else Priors(selections[..|selections| - 1]) + [Implied(selections[|selections| - 1].openingOdds)]
  }

  lemma {:induction false} PriorAt(selections: seq<SelectionInput>, i: nat)
    requires AllValid(selections) && i < |selections|
    ensures Priors(selections)[i] == Implied(selections[i].openingOdds)
  {
    if i < |selections| - 1 {
      PriorAt(selections[..|selections| - 1], i);
    }
  }

  function Exponent(stakeCents: int, liquidityCents: int): real
    requires liquidityCents > 0
  {
    var exponent := stakeCents as real / liquidityCents as real;
    if exponent > MAX_TILT_EXPONENT then MAX_TILT_EXPONENT else exponent
  }

  function Weight(exp: real -> real, s: SelectionInput, liquidityCents: int): real
    requires ValidSelection(s) && liquidityCents > 0
  {
    Implied(s.openingOdds) * exp(Exponent(s.stakeCents, liquidityCents))
  }

  function Weights(exp: real -> real, selections: seq<SelectionInput>, liquidityCents: int): (r: seq<real>)
    requires AllValid(selections) && liquidityCents > 0
    ensures |r| == |selections|
  {
    if selections == [] then []
    else
      Weights(exp, selections[..|selections| - 1], liquidityCents)
      + [Weight(exp, selections[|selections| - 1], liquidityCents)]
  }

  lemma {:induction false} WeightAt(exp: real -> real, selections: seq<SelectionInput>, liquidityCents: int, i: nat)
    requires AllValid(selections) && liquidityCents > 0 && i < |selections|
    ensures Weights(exp, selections, liquidityCents)[i] == Weight(exp, selections[i], liquidityCents)
  {
    if i < |selections| - 1 {
      WeightAt(exp, selections[..|selections| - 1], liquidityCents, i);
    }
  }

  /** The share of its probability every selection may give up. */
  function DriftFraction(overround: real): real {
    if overround <= 1.0 then 0.0
    else (overround - 1.0) / overround * ARBITRAGE_SAFETY_FRACTION
  }

  /** The floors keep all of the overround but four fifths of the margin. */
  lemma DriftKeeps(overround: real)
    requires overround > 0.0
    ensures 0.0 <= DriftFraction(overround) < 1.0
    ensures overround * (1.0 - DriftFraction(overround)) == Kept(overround)
  {
    if overround > 1.0 {
      var margin := (overround - 1.0) / overround;
      assert margin * overround == overround - 1.0;
      assert 0.0 < margin < 1.0;
    }
  }

  function Kept(overround: real): real {
    if overround > 1.0 then 1.0 + 0.2 * (overround - 1.0) else overround
  }

  function Larger(a: real, b: real): real {
    if a < b then b else a
  }

  /** `result` is every tilted probability scaled by one common factor, or its
      floor where that is larger, with the overround preserved. */
  ghost predicate IsFlooredScaling(tilted: seq<real>, floors: seq<real>, overround: real, scale: real, result: seq<real>) {
    && |tilted| == |floors| == |result|
    && scale > 0.0
    && (forall i :: 0 <= i < |result| ==> result[i] == Larger(floors[i], Scale(tilted, scale)[i]))
    && Sum(result) == overround
  }

  /** Some selection still carries its scaled probability rather than its floor. */
  ghost predicate SomeUnclamped(tilted: seq<real>, floors: seq<real>, scale: real)
    requires |tilted| == |floors|
  {
    exists i :: 0 <= i < |tilted| && floors[i] <= Scale(tilted, scale)[i]
  }

  // ---- applyDriftFloors --------------------------------------------------------

  /** The loop's state, against the tilted input `u` at the current scale:
      clamped entries sit on floors they would otherwise be under. */
  ghost predicate Clamping(u: seq<real>, floors: seq<real>, p: seq<real>, clamped: seq<bool>) {
    && |u| == |floors| == |p| == |clamped|
    && (forall i :: 0 <= i < |u| ==> u[i] > 0.0 && floors[i] > 0.0)
    && (forall i :: 0 <= i < |u| ==> if clamped[i] then p[i] == floors[i] && u[i] <= floors[i] else p[i] == u[i])
  }

  ghost predicate IsRaised(before: seq<real>, floors: seq<real>, wasClamped: seq<bool>,
                           p: seq<real>, clamped: seq<bool>) {
    && |before| == |floors| == |wasClamped| == |p| == |clamped|
    && (forall i :: 0 <= i < |p| ==> clamped[i] == (wasClamped[i] || before[i] < floors[i]))
    && (forall i :: 0 <= i < |p| ==>
          p[i] == if !wasClamped[i] && before[i] < floors[i] then floors[i] else before[i])
  }

  lemma SumIfNext(xs: seq<real>, flags: seq<bool>, wanted: bool, i: nat)
    requires i < |xs| == |flags|
    ensures SumIf(xs[..i + 1], flags[..i + 1], wanted)
         == SumIf(xs[..i], flags[..i], wanted) + if flags[i] == wanted then xs[i] else 0.0
  {
    assert xs[..i + 1][..i] == xs[..i] && flags[..i + 1][..i] == flags[..i];
  }

  /** One pass clamps what fell below its floor and totals both groups. */
  method ClampPass(p: array<real>, floors: array<real>, clamped: array<bool>)
    returns (fixed: real, free: real, newlyClamped: bool)
    requires p != floors && p.Length == floors.Length == clamped.Length
    modifies p, clamped
    ensures floors[..] == old(floors[..])
    ensures IsRaised(old(p[..]), floors[..], old(clamped[..]), p[..], clamped[..])
    ensures newlyClamped <==> clamped[..] != old(clamped[..])
    ensures fixed == SumIf(floors[..], clamped[..], true)
    ensures free == SumIf(p[..], clamped[..], false)
  {
    fixed, free, newlyClamped := 0.0, 0.0, false;
    ghost var at := 0;
    for i := 0 to p.Length
      invariant forall k :: 0 <= k < i ==>
        && clamped[k] == (old(clamped[k]) || old(p[k]) < floors[k])
        && p[k] == if !old(clamped[k]) && old(p[k]) < floors[k] then floors[k] else old(p[k])
      invariant forall k :: i <= k < p.Length ==> clamped[k] == old(clamped[k]) && p[k] == old(p[k])
      invariant newlyClamped ==> 0 <= at < i && clamped[at] != old(clamped[at])
      invariant !newlyClamped ==> forall k :: 0 <= k < i ==> clamped[k] == old(clamped[k])
      invariant fixed == SumIf(floors[..i], clamped[..i], true)
      invariant free == SumIf(p[..i], clamped[..i], false)
    {
      ghost var pBefore, cBefore := p[..i], clamped[..i];
      if clamped[i] {
        fixed := fixed + floors[i];
      } else if p[i] < floors[i] {
        p[i] := floors[i];
        clamped[i] := true;
        fixed := fixed + floors[i];
        newlyClamped, at := true, i;
      } else {
        free := free + p[i];
      }
      assert p[..i] == pBefore && clamped[..i] == cBefore;
      SumIfNext(floors[..], clamped[..], true, i);
      SumIfNext(p[..], clamped[..], false, i);
    }
    assert floors[..p.Length] == floors[..] && p[..p.Length] == p[..] && clamped[..p.Length] == clamped[..];
  }

  /** A pass that clamped something leaves room to rescale the rest, by a factor
      strictly between 0 and 1. */
  lemma PassMakesRoom(u: seq<real>, floors: seq<real>, before: seq<real>, wasClamped: seq<bool>,
                      raised: seq<real>, clamped: seq<bool>, overround: real)
    requires Clamping(u, floors, before, wasClamped)
    requires IsRaised(before, floors, wasClamped, raised, clamped)
    requires clamped != wasClamped
    requires Sum(before) == overround && Sum(floors) <= overround
    ensures 0.0 < overround - SumIf(floors, clamped, true) < SumIf(raised, clamped, false)
    ensures false in clamped
  {
    SumSplits(raised, clamped);
    SumSplits(floors, clamped);
    SumIfAgrees(raised, floors, clamped, true);
    var k :| 0 <= k < |raised| && clamped[k] != wasClamped[k];
    assert before[k] < floors[k] == raised[k];
    SumStrict(before, raised);
    UnflaggedShare(floors, floors, clamped);
    UnflaggedShare(raised, floors, clamped);
  }

  /** Rescaling the free entries by the pass's factor restores the overround. */
  lemma RescaledSum(before: seq<real>, floors: seq<real>, wasClamped: seq<bool>, raised: seq<real>,
                    clamped: seq<bool>, after: seq<real>, overround: real, factor: real)
    requires IsRaised(before, floors, wasClamped, raised, clamped)
    requires forall i :: 0 <= i < |before| && wasClamped[i] ==> before[i] == floors[i]
    requires IsRescaled(raised, clamped, factor, after)
    requires factor * SumIf(raised, clamped, false) == overround - SumIf(floors, clamped, true)
    ensures Sum(after) == overround
  {
    SumRescaled(raised, after, clamped, factor);
    SumIfAgrees(raised, floors, clamped, true);
  }

  ghost predicate IsRescaled(raised: seq<real>, clamped: seq<bool>, factor: real, after: seq<real>) {
    && |after| == |clamped| == |raised|
    && forall i :: 0 <= i < |after| ==> after[i] == if clamped[i] then raised[i] else Scale(raised, factor)[i]
  }

  /** Shrinking the free entries keeps the loop's state at the smaller scale. */
  lemma RescaledClamping(u: seq<real>, floors: seq<real>, before: seq<real>, wasClamped: seq<bool>,
                         raised: seq<real>, clamped: seq<bool>, after: seq<real>, factor: real)
    requires Clamping(u, floors, before, wasClamped)
    requires IsRaised(before, floors, wasClamped, raised, clamped)
    requires IsRescaled(raised, clamped, factor, after)
    requires 0.0 < factor <= 1.0
    ensures Clamping(Scale(u, factor), floors, after, clamped)
  {
    var v := Scale(u, factor);
    forall i | 0 <= i < |u|
      ensures v[i] > 0.0
      ensures if clamped[i] then after[i] == floors[i] && v[i] <= floors[i] else after[i] == v[i]
    {
      ScaleDown(u, factor, i);
      if !clamped[i] {
        ScaleAt(u, factor, i);
        ScaleAt(raised, factor, i);
      }
    }
  }

  lemma ShrinkScale(t: seq<real>, u: seq<real>, scale: real, factor: real) returns (scale': real, u': seq<real>)
    requires 0.0 < scale <= 1.0 && 0.0 < factor <= 1.0 && u == Scale(t, scale)
    ensures 0.0 < scale' <= 1.0 && u' == Scale(t, scale') && u' == Scale(u, factor)
  {
    scale', u' := scale * factor, Scale(u, factor);
    Shrink(scale, factor);
    ScaleCompose(t, scale, factor);
  }

  /** One iteration of the loop: clamp, then return or rescale what is free. */
  method DriftPass(p: array<real>, floors: array<real>, clamped: array<bool>, overround: real, ghost u: seq<real>)
    returns (returned: bool, ghost factor: real)
    requires p != floors
    requires Clamping(u, floors[..], p[..], clamped[..])
    requires Sum(p[..]) == overround && Sum(floors[..]) <= overround && false in clamped[..]
    modifies p, clamped
    ensures floors[..] == old(floors[..])
    ensures 0.0 < factor <= 1.0
    ensures Clamping(Scale(u, factor), floors[..], p[..], clamped[..])
    ensures Sum(p[..]) == overround && false in clamped[..]
    ensures if returned then factor == 1.0 && forall i :: 0 <= i < p.Length ==> p[i] >= floors[i]
            else Count(clamped[..]) > Count(old(clamped[..]))
  {
    ghost var bounds, before, wasClamped := floors[..], p[..], clamped[..];
    var fixed, free, newlyClamped := ClampPass(p, floors, clamped);
    ghost var raised, nowClamped := p[..], clamped[..];
    if newlyClamped {
      PassMakesRoom(u, bounds, before, wasClamped, raised, nowClamped, overround);
    }
    if !newlyClamped || free <= 0.0 {
      assert raised == before;
      ScaleOne(u);
      return true, 1.0;
    }
    factor := RescaleFree(p, clamped, overround - fixed, free);
    RescaledSum(before, bounds, wasClamped, raised, nowClamped, p[..], overround, factor);
    RescaledClamping(u, bounds, before, wasClamped, raised, nowClamped, p[..], factor);
    CountGrows(wasClamped, nowClamped);
    returned := false;
  }

  /** applyDriftFloors, in place. The pass bound is never what ends the loop,
      and at least one selection is never clamped. */
  method ApplyDriftFloors(p: array<real>, floors: array<real>, overround: real) returns (ghost scale: real)
    requires p != floors && p.Length == floors.Length > 0
    requires forall i :: 0 <= i < p.Length ==> p[i] > 0.0 && floors[i] > 0.0
    requires Sum(p[..]) == overround && Sum(floors[..]) <= overround
    modifies p
    ensures IsFlooredScaling(old(p[..]), floors[..], overround, scale, p[..])
    ensures scale <= 1.0 && SomeUnclamped(old(p[..]), floors[..], scale)
  {
    ghost var t, u := p[..], p[..];
    scale := 1.0;
    ScaleOne(t);
    var clamped := new bool[p.Length](_ => false);
    assert !clamped[..][0];
    var pass := 0;
    var returned := false;
    while pass <= p.Length && !returned
      invariant 0 <= pass <= p.Length + 1
      invariant floors[..] == old(floors[..])
      invariant 0.0 < scale <= 1.0 && u == Scale(t, scale)
      invariant Clamping(u, floors[..], p[..], clamped[..])
      invariant Sum(p[..]) == overround && false in clamped[..]
      invariant if returned then forall i :: 0 <= i < p.Length ==> p[i] >= floors[i] else Count(clamped[..]) >= pass
      decreases p.Length + 1 - pass, !returned
    {
      ghost var factor;
      returned, factor := DriftPass(p, floors, clamped, overround, u);
      scale, u := ShrinkScale(t, u, scale, factor);
      if !returned {
        pass := pass + 1;
      }
    }
    CountBelowLength(clamped[..]);
    assert returned;
    LoopResult(t, floors[..], p[..], clamped[..], overround, scale);
  }

  lemma LoopResult(t: seq<real>, floors: seq<real>, p: seq<real>, clamped: seq<bool>, overround: real, scale: real)
    requires scale > 0.0 && Clamping(Scale(t, scale), floors, p, clamped)
    requires Sum(p) == overround && false in clamped
    requires forall i :: 0 <= i < |p| ==> p[i] >= floors[i]
    ensures IsFlooredScaling(t, floors, overround, scale, p)
    ensures SomeUnclamped(t, floors, scale)
  {
    var k :| 0 <= k < |p| && !clamped[k];
    assert floors[k] <= Scale(t, scale)[k];
  }

  lemma ProperFraction(room: real, free: real)
    requires 0.0 < room < free
    ensures 0.0 < room / free <= 1.0 && room / free * free == room
  {
    QuotientOrder(room, room, free);
  }

  /** Scale every free entry by room / free. */
  method RescaleFree(p: array<real>, clamped: array<bool>, room: real, free: real) returns (factor: real)
    requires p.Length == clamped.Length && 0.0 < room < free
    modifies p
    ensures factor * free == room && 0.0 < factor <= 1.0
    ensures IsRescaled(old(p[..]), clamped[..], factor, p[..])
  {
    factor := room / free;
    ProperFraction(room, free);
    for i := 0 to p.Length
      invariant forall k :: 0 <= k < i ==> p[k] == if clamped[k] then old(p[k]) else Scale(old(p[..]), factor)[k]
      invariant forall k :: i <= k < p.Length ==> p[k] == old(p[k])
    {
      ScaleAt(old(p[..]), factor, i);
      if !clamped[i] {
        p[i] := p[i] * factor;
      }
    }
  }

  // ---- Reprice -----------------------------------------------------------------

  function Floors(selections: seq<SelectionInput>): (r: seq<real>)
    requires ValidInputs(selections)
    ensures |r| == |selections|
  {
    Scale(Priors(selections), 1.0 - DriftFraction(Sum(Priors(selections))))
  }

  lemma OverroundPositive(selections: seq<SelectionInput>)
    requires ValidInputs(selections)
    ensures Sum(Priors(selections)) > 0.0
  {
    forall i | 0 <= i < |selections| ensures Priors(selections)[i] > 0.0 {
      PriorAt(selections, i);
    }
    SumPositive(Priors(selections));
  }

  /** A market, its action, and one repricing of it: the probabilities the line
      is set from and the posted odds. */
  datatype Board = Board(
    selections: seq<SelectionInput>,
    liquidityCents: int,
    scale: real,
    probabilities: seq<real>,
    odds: seq<int>)

  /** The probabilities behind a line: the weights under one common scale, held
      up by the floors, summing to the opening overround. */
  ghost predicate IsDrifted(exp: real -> real, b: Board) {
    && ValidInputs(b.selections) && b.liquidityCents > 0
    && |b.odds| == |b.selections|
    && IsFlooredScaling(Weights(exp, b.selections, b.liquidityCents), Floors(b.selections),
                        Sum(Priors(b.selections)), b.scale, b.probabilities)
  }

  /** `b` is a result of Reprice. */
  ghost predicate IsRepriced(exp: real -> real, b: Board) {
    && IsDrifted(exp, b)
    && forall i :: 0 <= i < |b.odds| ==> b.odds[i] == Posted(b.probabilities[i], Floors(b.selections)[i])
  }

  lemma FloorAt(selections: seq<SelectionInput>, i: nat)
    requires ValidInputs(selections) && i < |selections|
    ensures 0.0 < Floors(selections)[i] <= Implied(selections[i].openingOdds)
  {
    var overround := Sum(Priors(selections));
    OverroundPositive(selections);
    DriftKeeps(overround);
    PriorAt(selections, i);
    ScaleDown(Priors(selections), 1.0 - DriftFraction(overround), i);
  }

  lemma FloorSum(selections: seq<SelectionInput>)
    requires ValidInputs(selections)
    ensures Sum(Floors(selections)) == Kept(Sum(Priors(selections)))
  {
    var overround := Sum(Priors(selections));
    OverroundPositive(selections);
    DriftKeeps(overround);
    SumScale(Priors(selections), 1.0 - DriftFraction(overround));
  }

  lemma FloorBounds(selections: seq<SelectionInput>)
    requires ValidInputs(selections)
    ensures forall i :: 0 <= i < |selections| ==> Floors(selections)[i] > 0.0
    ensures Sum(Floors(selections)) <= Sum(Priors(selections))
  {
    FloorSum(selections);
    forall i | 0 <= i < |selections| ensures Floors(selections)[i] > 0.0 {
      FloorAt(selections, i);
    }
  }

  lemma WeightsPositive(exp: real -> real, selections: seq<SelectionInput>, liquidityCents: int)
    requires IsExponential(exp) && ValidInputs(selections) && liquidityCents > 0
    ensures forall i :: 0 <= i < |selections| ==> Weights(exp, selections, liquidityCents)[i] > 0.0
    ensures Sum(Weights(exp, selections, liquidityCents)) > 0.0
  {
    forall i | 0 <= i < |selections| ensures Weights(exp, selections, liquidityCents)[i] > 0.0 {
      var s := selections[i];
      WeightAt(exp, selections, liquidityCents, i);
      var tilt := exp(Exponent(s.stakeCents, liquidityCents));
      ProductPositive(Implied(s.openingOdds), tilt);
    }
    SumPositive(Weights(exp, selections, liquidityCents));
  }

  lemma ProductPositive(a: real, b: real)
    requires a > 0.0 && b > 0.0
    ensures a * b > 0.0
  {
  }

  /** Validates the inputs, filling the priors and their overround. */
  method LoadPriors(selections: seq<SelectionInput>) returns (problem: Option<Error>, priors: array<real>, overround: real)
    requires |selections| >= 2
    ensures problem.None? <==> ValidInputs(selections)
    ensures problem.None? ==> fresh(priors) && priors[..] == Priors(selections) && overround == Sum(Priors(selections))
  {
    priors := new real[|selections|](_ => 0.0);
    overround := 0.0;
    for i := 0 to |selections|
      invariant AllValid(selections[..i])
      invariant priors[..i] == Priors(selections[..i])
      invariant overround == Sum(priors[..i])
    {
      if !ValidOdds(selections[i].openingOdds) {
        assert !ValidSelection(selections[i]);
        return Some(InvalidOdds), priors, overround;
      }
      if selections[i].stakeCents < 0 {
        assert !ValidSelection(selections[i]);
        return Some(Invalid), priors, overround;
      }
      priors[i] := Implied(selections[i].openingOdds);
      overround := overround + priors[i];
      assert priors[..i + 1][..i] == priors[..i];
      assert selections[..i + 1][..i] == selections[..i];
    }
    assert priors[..] == priors[..|selections|] && selections[..|selections|] == selections;
    problem := None;
  }

  method TiltOne(exp: real -> real, s: SelectionInput, liquidityCents: int, prior: real) returns (weight: real)
    requires ValidSelection(s) && liquidityCents > 0 && prior == Implied(s.openingOdds)
    ensures weight == Weight(exp, s, liquidityCents)
  {
    var exponent := s.stakeCents as real / liquidityCents as real;
    if exponent > MAX_TILT_EXPONENT {
      exponent := MAX_TILT_EXPONENT;
    }
    weight := prior * exp(exponent);
  }

  method TiltWeights(exp: real -> real, selections: seq<SelectionInput>, liquidityCents: int, priors: array<real>)
    returns (weights: array<real>, weightSum: real)
    requires ValidInputs(selections) && liquidityCents > 0 && priors[..] == Priors(selections)
    ensures fresh(weights)
    ensures weights[..] == Weights(exp, selections, liquidityCents) && weightSum == Sum(weights[..])
  {
    var n := |selections|;
    weights := new real[n](_ => 0.0);
    weightSum := 0.0;
    for i := 0 to n
      invariant weights[..i] == Weights(exp, selections[..i], liquidityCents)
      invariant weightSum == Sum(weights[..i])
    {
      PriorAt(selections, i);
      assert priors[..][i] == priors[i];
      weights[i] := TiltOne(exp, selections[i], liquidityCents, priors[i]);
      weightSum := weightSum + weights[i];
      assert weights[..i + 1][..i] == weights[..i];
      assert selections[..i + 1][..i] == selections[..i];
    }
    assert weights[..] == weights[..n] && selections[..n] == selections;
  }

  /** A copy of `source` with every entry multiplied by `factor`. */
  method Scaled(source: array<real>, factor: real) returns (scaled: array<real>)
    ensures fresh(scaled) && scaled[..] == Scale(source[..], factor)
  {
    scaled := new real[source.Length](_ => 0.0);
    ghost var target := Scale(source[..], factor);
    for i := 0 to source.Length
      invariant forall k :: 0 <= k < i ==> scaled[k] == target[k]
    {
      scaled[i] := source[i] * factor;
      ScaleAt(source[..], factor, i);
    }
  }

  method PostLines(probabilities: array<real>, floors: array<real>) returns (odds: seq<int>)
    requires probabilities.Length == floors.Length
    requires forall i :: 0 <= i < floors.Length ==> floors[i] <= probabilities[i]
    ensures |odds| == floors.Length
    ensures forall i :: 0 <= i < |odds| ==> odds[i] == Posted(probabilities[i], floors[i])
  {
    odds := [];
    for i := 0 to floors.Length
      invariant |odds| == i
      invariant forall k :: 0 <= k < i ==> odds[k] == Posted(probabilities[k], floors[k])
    {
      var line := WalkBack(probabilities[i], floors[i], MAX_ROUNDING_STEPS);
      odds := odds + [line];
    }
  }

  /** The tilted probabilities, brought back to the overround and above their floors. */
  method DriftedProbabilities(weights: array<real>, weightSum: real, floors: array<real>, overround: real)
    returns (probabilities: array<real>, ghost scale: real)
    requires weights.Length == floors.Length > 0
    requires overround > 0.0 && weightSum == Sum(weights[..]) > 0.0
    requires forall i :: 0 <= i < weights.Length ==> weights[..][i] > 0.0 && floors[..][i] > 0.0
    requires Sum(floors[..]) <= overround
    ensures fresh(probabilities) && floors[..] == old(floors[..])
    ensures IsFlooredScaling(weights[..], floors[..], overround, scale, probabilities[..])
  {
    ghost var w := weights[..];
    var normal := overround / weightSum;
    RatioFacts(overround, weightSum);
    probabilities := Scaled(weights, normal);
    SumScale(w, normal);
    ghost var tilted := probabilities[..];
    forall i | 0 <= i < |w| ensures tilted[i] > 0.0 {
      ScaleAt(w, normal, i);
      ProductPositive(w[i], normal);
    }
    scale := ApplyDriftFloors(probabilities, floors, overround);
    FoldScale(w, tilted, floors[..], overround, normal, scale, probabilities[..]);
    scale := normal * scale;
  }

  method Reprice(exp: real -> real, selections: seq<SelectionInput>, liquidityCents: int)
    returns (result: Result<seq<int>>, ghost board: Board)
    requires IsExponential(exp)
    ensures |selections| < 2 ==> result == Err(TooFewSelections)
    ensures |selections| >= 2 && liquidityCents <= 0 ==> result == Err(LiquidityNotPositive)
    ensures result.Ok? <==> ValidInputs(selections) && liquidityCents > 0
    ensures result.Ok? ==> IsRepriced(exp, board)
    ensures result.Ok? ==> board.selections == selections && board.liquidityCents == liquidityCents
    ensures result.Ok? ==> board.odds == result.value
  {
    board := Board([], 0, 0.0, [], []);
    if |selections| < 2 {
      return Err(TooFewSelections), board;
    }
    if liquidityCents <= 0 {
      return Err(LiquidityNotPositive), board;
    }
    var problem, priors, overround := LoadPriors(selections);
    if problem.Some? {
      return Err(problem.value), board;
    }
    OverroundPositive(selections);
    FloorBounds(selections);
    WeightsPositive(exp, selections, liquidityCents);
    var weights, weightSum := TiltWeights(exp, selections, liquidityCents, priors);
    var floors := Scaled(priors, 1.0 - DriftFraction(overround));
    ghost var bounds := floors[..];
    var probabilities;
    ghost var scale;
    probabilities, scale := DriftedProbabilities(weights, weightSum, floors, overround);
    var odds := PostLines(probabilities, floors);
    board := Board(selections, liquidityCents, scale, probabilities[..], odds);
    assert forall i :: 0 <= i < |odds| ==> odds[i] == Posted(board.probabilities[i], bounds[i]);
    return Ok(odds), board;
  }

  lemma RatioFacts(a: real, b: real)
    requires a > 0.0 && b > 0.0
    ensures a / b > 0.0 && b * (a / b) == a
  {
  }

  /** Two scalings in a row are one. */
  lemma FoldScale(weights: seq<real>, tilted: seq<real>, floors: seq<real>, overround: real,
                  normal: real, scale: real, result: seq<real>)
    requires normal > 0.0 && tilted == Scale(weights, normal)
    requires IsFlooredScaling(tilted, floors, overround, scale, result)
    ensures IsFlooredScaling(weights, floors, overround, normal * scale, result)
  {
    ProductPositive(normal, scale);
    ScaleCompose(weights, normal, scale);
  }
}
