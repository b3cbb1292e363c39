/** Pricing and grading of parlays (internal/betting/parlay.go, parlayprice.go,
    and the grading half of internal/bettingpg/parlay.go). */
module Parlays {
  import opened Results
  import opened Ledger
  import opened Wagers
  import opened Odds
  import opened RealSums

  const DEFAULT_JUICE := 350
  const MIN_LEGS := 2
  const MAX_LEGS := 8
  const MIN_PARLAY_ODDS := 100

  datatype Leg = Leg(market: Id, selection: Id, odds: int, result: Option<Grade>)

  datatype Parlay = Parlay(
    id: Id,
    user: Id,
    funding: Funding,
    stake: Money,
    odds: int,
    potentialProfit: int,
    legs: seq<Leg>,
    state: WagerState,
    key: string)

  datatype ParlayOutcome = ParlayOutcome(grade: Grade, odds: int, profit: int, returned: int)

  // ---- The combined price ------------------------------------------------------

  predicate AllValidOdds(legs: seq<int>) {
    forall i :: 0 <= i < |legs| ==> ValidOdds(legs[i])
  }

  /** The probability that every leg lands, each leg's own margin included. */
  function Combined(legs: seq<int>): real
    requires AllValidOdds(legs)
  {
    Product(Probabilities(legs))
  }

  function Probabilities(legs: seq<int>): (r: seq<real>)
    requires AllValidOdds(legs)
    ensures |r| == |legs|
  {
    if legs == [] then [] else Probabilities(legs[..|legs| - 1]) + [Implied(legs[|legs| - 1])]
  }

  /** `p` with one unit of juice per extra leg. */
  function Juiced(p: real, extraLegs: nat, juice: int): real {
    if extraLegs == 0 then p else Juiced(p, extraLegs - 1, juice) * (1.0 + juice as real / 10000.0)
  }

  function JuicedProbability(legs: seq<int>, juice: int): real
    requires AllValidOdds(legs) && legs != []
  {
    Juiced(Combined(legs), |legs| - 1, juice)
  }

  /** ParlayOddsFor: one American line for the whole combination. */
  function ParlayOdds(legs: seq<int>, juice: int): Result<int> {
    if |legs| < MIN_LEGS then Err(TooFewLegs)
    else if |legs| > MAX_LEGS then Err(TooManyLegs)
    else if juice < 0 then Err(Invalid)
    else if !AllValidOdds(legs) then Err(InvalidOdds)
    else LineFor(JuicedProbability(legs, juice))
  }

  function LineFor(p: real): Result<int> {
    if p <= 0.0 || p >= 1.0 then Err(TooShort)
    else if American(p) < MIN_PARLAY_ODDS then Err(TooShort)
    else Ok(American(p))
  }

  lemma CombinedStep(legs: seq<int>, i: nat)
    requires i < |legs| && AllValidOdds(legs[..i + 1])
    ensures AllValidOdds(legs[..i]) && Combined(legs[..i + 1]) == Combined(legs[..i]) * Implied(legs[i])
  {
    var grown := legs[..i + 1];
    assert grown[..i] == legs[..i];
    var p := Probabilities(grown);
    assert p[..|p| - 1] == Probabilities(legs[..i]);
  }

  method CombineLegs(legs: seq<int>) returns (probability: Option<real>)
    ensures probability == if AllValidOdds(legs) then Some(Combined(legs)) else None
  {
    var p := 1.0;
    for i := 0 to |legs|
      invariant AllValidOdds(legs[..i]) && p == Combined(legs[..i])
    {
      if !ValidOdds(legs[i]) {
        return None;
      }
      CombinedStep(legs, i);
      p := p * Implied(legs[i]);
    }
    assert legs[..|legs|] == legs;
    return Some(p);
  }

  method AddJuice(combined: real, legs: nat, juice: int) returns (probability: real)
    requires legs > 0
    ensures probability == Juiced(combined, legs - 1, juice)
  {
    probability := combined;
    for i := 1 to legs
      invariant probability == Juiced(combined, i - 1, juice)
    {
      probability := probability * (1.0 + juice as real / 10000.0);
    }
  }

  method ParlayOddsFor(legs: seq<int>, juice: int) returns (line: Result<int>)
    ensures line == ParlayOdds(legs, juice)
  {
    if |legs| < MIN_LEGS {
      return Err(TooFewLegs);
    }
    if |legs| > MAX_LEGS {
      return Err(TooManyLegs);
    }
    if juice < 0 {
      return Err(Invalid);
    }
    var combined := CombineLegs(legs);
    if combined.None? {
      return Err(InvalidOdds);
    }
    var probability := AddJuice(combined.value, |legs|, juice);
    return LineFor(probability);
  }

  lemma LineForBounds(p: real)
    requires p > 0.0
    ensures LineFor(p).Ok? <==> p <= 0.5
    ensures LineFor(p).Ok? ==> LineFor(p).value == American(p) && MIN_PARLAY_ODDS <= American(p) <= MAX_ODDS
  {
    AmericanIsALine(p);
  }

  lemma {:induction false} CombinedBounds(legs: seq<int>)
    requires AllValidOdds(legs)
    ensures 0.0 < Combined(legs) <= 1.0
  {
    if legs == [] {
    } else {
      var init := legs[..|legs| - 1];
      CombinedBounds(init);
      SmallerProduct(Combined(init), Implied(legs[|legs| - 1]));
      assert Probabilities(legs)[..|init|] == Probabilities(init);
    }
  }

  lemma SmallerProduct(a: real, b: real)
    requires 0.0 < a && 0.0 < b
    ensures 0.0 < a * b
    ensures b <= 1.0 ==> a * b <= a
    ensures b >= 1.0 ==> a * b >= a
  {
  }

  lemma {:induction false} JuicedGrows(p: real, extraLegs: nat, juice: int)
    requires p > 0.0 && juice >= 0
    ensures Juiced(p, extraLegs, juice) >= p
  {
    if extraLegs == 0 {
    } else {
      JuicedGrows(p, extraLegs - 1, juice);
      SmallerProduct(Juiced(p, extraLegs - 1, juice), 1.0 + juice as real / 10000.0);
    }
  }

  /** A combination has a price exactly when its juiced probability is at most
      one half: even money is the shortest line a parlay is written at. */
  lemma ParlayPricedExactly(legs: seq<int>, juice: int)
    requires MIN_LEGS <= |legs| <= MAX_LEGS && AllValidOdds(legs) && juice >= 0
    ensures ParlayOdds(legs, juice).Ok? <==> JuicedProbability(legs, juice) <= 0.5
    ensures ParlayOdds(legs, juice).Err? ==> ParlayOdds(legs, juice) == Err(TooShort)
    ensures ParlayOdds(legs, juice).Ok? ==> ValidOdds(ParlayOdds(legs, juice).value)
  {
    CombinedBounds(legs);
    JuicedGrows(Combined(legs), |legs| - 1, juice);
    LineForBounds(JuicedProbability(legs, juice));
  }

  /** A leg alone has its own probability, and each further leg multiplies by its
      own and by one unit of juice. */
  lemma JuicedByLeg(legs: seq<int>, leg: int, juice: int, unit: real)
    requires AllValidOdds(legs) && ValidOdds(leg) && unit == 1.0 + juice as real / 10000.0
    ensures AllValidOdds(legs + [leg])
    ensures legs == [] ==> JuicedProbability(legs + [leg], juice) == Implied(leg)
    ensures legs != [] ==> JuicedProbability(legs + [leg], juice) == JuicedProbability(legs, juice) * Implied(leg) * unit
  {
    CombinedMore(legs, leg);
    if legs != [] {
      JuicedMore(legs, legs + [leg], Implied(leg), juice, unit);
    }
  }

  lemma JuicedMore(legs: seq<int>, all: seq<int>, q: real, juice: int, unit: real)
    requires legs != [] && AllValidOdds(legs) && |all| == |legs| + 1 && AllValidOdds(all)
    requires Combined(all) == Combined(legs) * q && unit == 1.0 + juice as real / 10000.0
    ensures JuicedProbability(all, juice) == JuicedProbability(legs, juice) * q * unit
  {
    var p, n := Combined(legs), |legs|;
    JuicedScales(p, q, Combined(all), n - 1, juice);
    OneUnitMore(Combined(all), n, juice, unit);
    Chained(Juiced(p, n - 1, juice), q, unit, Juiced(Combined(all), n - 1, juice), Juiced(Combined(all), n, juice));
  }

  lemma Chained(a: real, b: real, c: real, ab: real, abc: real)
    requires ab == a * b && abc == ab * c
    ensures abc == a * b * c
  {
  }

  lemma OneUnitMore(p: real, extraLegs: nat, juice: int, unit: real)
    requires extraLegs > 0 && unit == 1.0 + juice as real / 10000.0
    ensures Juiced(p, extraLegs, juice) == Juiced(p, extraLegs - 1, juice) * unit
  {
  }

  lemma CombinedMore(legs: seq<int>, leg: int)
    requires AllValidOdds(legs) && ValidOdds(leg)
    ensures AllValidOdds(legs + [leg]) && Combined(legs + [leg]) == Combined(legs) * Implied(leg)
    ensures legs == [] ==> Combined(legs + [leg]) == Implied(leg)
  {
    var all := legs + [leg];
    assert all[..|legs|] == legs && all[..|legs| + 1] == all;
    CombinedStep(all, |legs|);
  }

  lemma {:induction false} JuicedScales(p: real, q: real, scaled: real, extraLegs: nat, juice: int)
    requires scaled == p * q
    ensures Juiced(scaled, extraLegs, juice) == Juiced(p, extraLegs, juice) * q
  {
    if extraLegs > 0 {
      JuicedScales(p, q, scaled, extraLegs - 1, juice);
      var unit := 1.0 + juice as real / 10000.0;
      SwapFactors(Juiced(p, extraLegs - 1, juice), q, unit);
    }
  }

  /** A parlay is written at the line nearest its juiced probability. */
  lemma ParlayLineIsNearest(legs: seq<int>, juice: int)
    requires ParlayOdds(legs, juice).Ok?
    ensures 2 <= |legs| <= 8 && juice >= 0 && AllValidOdds(legs)
    ensures var p, line := JuicedProbability(legs, juice), ParlayOdds(legs, juice).value as real;
      && 0.0 < p <= 0.5
      && (if p >= 100.0 / 10100.0 then -0.5 < line - (100.0 / p - 100.0) <= 0.5 else line == 10000.0)
  {
    var p := JuicedProbability(legs, juice);
    ParlayPricedExactly(legs, juice);
    CombinedBounds(legs);
    JuicedGrows(Combined(legs), |legs| - 1, juice);
    AmericanIsNearest(p);
  }

  function LegProbability(odds: int): real {
    if ValidOdds(odds) then Implied(odds) else 1.0
  }

  lemma {:induction false} ProbabilitiesAreMapped(legs: seq<int>)
    requires AllValidOdds(legs)
    ensures Probabilities(legs) == Map(LegProbability, legs)
  {
    if legs == [] {
    } else {
      ProbabilitiesAreMapped(legs[..|legs| - 1]);
    }
  }

  /** The combined probability does not depend on the order of the legs. */
  lemma CombinedIgnoresOrder(a: seq<int>, b: seq<int>)
    requires AllValidOdds(a) && AllValidOdds(b) && multiset(a) == multiset(b)
    ensures |a| == |b| && Combined(a) == Combined(b)
  {
    assert |a| == |multiset(a)| == |multiset(b)| == |b|;
    ProbabilitiesAreMapped(a);
    ProbabilitiesAreMapped(b);
    MapIgnoresOrder(LegProbability, a, b);
    ProductIgnoresOrder(Probabilities(a), Probabilities(b));
  }

  // ---- Grading --------------------------------------------------------------------

  datatype Scan = Surviving(odds: seq<int>) | Lost | Unresolved

  /** The leg loop of GradeParlay: winners survive, the first loss or missing
      result ends it. */
  function ScanLegs(legs: seq<Leg>): Scan {
    if legs == [] then Surviving([])
    else
      var init := ScanLegs(legs[..|legs| - 1]);
      if !init.Surviving? then init
      else
        match legs[|legs| - 1].result
        case None => Unresolved
        case Some(Loss) => Lost
        case Some(Win) => Surviving(init.odds + [legs[|legs| - 1].odds])
        case Some(_) => init
  }

  /** A lone survivor is no longer a parlay and pays its own price. */
  function SurvivingPrice(surviving: seq<int>, juice: int): Result<int> {
    if |surviving| == 1 then Ok(surviving[0]) else ParlayOdds(surviving, juice)
  }

  function GradeParlay(p: Parlay, juice: int): Result<ParlayOutcome> {
    if p.legs == [] then Err(Invalid)
    else
      match ScanLegs(p.legs)
      case Unresolved => Err(Invalid)
      case Lost => Ok(ParlayOutcome(Loss, p.odds, 0, 0))
      case Surviving(odds) =>
        if odds == [] then Ok(ParlayOutcome(Push, p.odds, 0, p.stake.cents)) else GradeAt(p, SurvivingPrice(odds, juice))
  }

  /** The win at the surviving price. */
  function GradeAt(p: Parlay, surviving: Result<int>): Result<ParlayOutcome> {
    var price :- surviving;
    var profit :- Profit(price, p.stake.cents);
    var returned :- Add(p.stake, Money(profit, p.stake.currency));
    Ok(ParlayOutcome(Win, price, profit, returned.cents))
  }

  method GradeParlayLegs(p: Parlay, juice: int) returns (outcome: Result<ParlayOutcome>)
    ensures outcome == GradeParlay(p, juice)
  {
    if p.legs == [] {
      return Err(Invalid);
    }
    var surviving := [];
    for i := 0 to |p.legs|
      invariant ScanLegs(p.legs[..i]) == Surviving(surviving)
    {
      assert p.legs[..i + 1][..i] == p.legs[..i];
      match p.legs[i].result
      case Some(Win) =>
        surviving := surviving + [p.legs[i].odds];
      case Some(Loss) =>
        ScanStops(p.legs, i + 1);
        return Ok(ParlayOutcome(Loss, p.odds, 0, 0));
      case Some(_) =>
      case None =>
        ScanStops(p.legs, i + 1);
        return Err(Invalid);
    }
    assert p.legs[..|p.legs|] == p.legs;
    if surviving == [] {
      return Ok(ParlayOutcome(Push, p.odds, 0, p.stake.cents));
    }
    var price: Result<int>;
    if |surviving| == 1 {
      price := Ok(surviving[0]);
    } else {
      price := ParlayOddsFor(surviving, juice);
    }
    if price.Err? {
      return Err(price.error);
    }
    var profit := Profit(price.value, p.stake.cents);
    if profit.Err? {
      return Err(profit.error);
    }
    var returned := Add(p.stake, Money(profit.value, p.stake.currency));
    if returned.Err? {
      return Err(returned.error);
    }
    return Ok(ParlayOutcome(Win, price.value, profit.value, returned.value.cents));
  }

  lemma {:induction false} ScanStops(legs: seq<Leg>, n: nat)
    requires n <= |legs| && !ScanLegs(legs[..n]).Surviving?
    ensures ScanLegs(legs) == ScanLegs(legs[..n])
    decreases |legs|
  {
    if n == |legs| {
      assert legs[..n] == legs;
    } else {
      assert legs[..|legs| - 1][..n] == legs[..n];
      ScanStops(legs[..|legs| - 1], n);
    }
  }

  predicate AllResolved(legs: seq<Leg>) {
    forall i :: 0 <= i < |legs| ==> legs[i].result.Some?
  }

  predicate HasLoss(legs: seq<Leg>) {
    exists i :: 0 <= i < |legs| && legs[i].result == Some(Loss)
  }

  function Winners(legs: seq<Leg>): seq<int> {
    if legs == [] then []
    else
      var last := legs[|legs| - 1];
      Winners(legs[..|legs| - 1]) + if last.result == Some(Win) then [last.odds] else []
  }

  lemma {:induction false} ScanResolved(legs: seq<Leg>)
    requires AllResolved(legs)
    ensures ScanLegs(legs) == if HasLoss(legs) then Lost else Surviving(Winners(legs))
  {
    if legs == [] {
    } else {
      var init, last := legs[..|legs| - 1], legs[|legs| - 1];
      ScanResolved(init);
      assert legs == init + [last];
      if last.result == Some(Loss) {
        assert legs[|legs| - 1].result == Some(Loss);
      }
      assert HasLoss(legs) <==> HasLoss(init) || last.result == Some(Loss);
    }
  }

  /** A resolved parlay loses with a loss, is returned without a winner, and
      otherwise wins at its winners' price. */
  lemma GradeResolved(p: Parlay, juice: int)
    requires AllResolved(p.legs) && p.legs != []
    ensures GradeParlay(p, juice)
         == if HasLoss(p.legs) then Ok(ParlayOutcome(Loss, p.odds, 0, 0))
            else if Winners(p.legs) == [] then Ok(ParlayOutcome(Push, p.odds, 0, p.stake.cents))
            else GradeAt(p, SurvivingPrice(Winners(p.legs), juice))
  {
    ScanResolved(p.legs);
  }

  // ---- settleParlayIfCompleteTx: early losses ----------------------------------------

  predicate HasOpenLeg(legs: seq<Leg>) {
    exists i :: 0 <= i < |legs| && legs[i].result.None?
  }

  /** Open legs of a dead parlay count as void. */
  function Filled(legs: seq<Leg>): (r: seq<Leg>)
    ensures |r| == |legs|
    ensures forall i :: 0 <= i < |legs| ==>
      r[i] == if legs[i].result.None? then legs[i].(result := Some(Void)) else legs[i]
  {
    seq(|legs|, i requires 0 <= i < |legs| =>
      if legs[i].result.None? then legs[i].(result := Some(Void)) else legs[i])
  }

  /** None while the parlay has to wait; otherwise how it grades now. */
  function Decide(p: Parlay, juice: int): Option<Result<ParlayOutcome>> {
    if HasLoss(p.legs) then Some(GradeParlay(p.(legs := Filled(p.legs)), juice))
    else if HasOpenLeg(p.legs) then None
    else Some(GradeParlay(p, juice))
  }

  /** `full` is `p` with every open leg given some result. */
  predicate IsCompletion(p: Parlay, full: Parlay) {
    && full == p.(legs := full.legs)
    && |full.legs| == |p.legs|
    && AllResolved(full.legs)
    && forall i :: 0 <= i < |p.legs| ==>
      full.legs[i] == if p.legs[i].result.Some? then p.legs[i] else p.legs[i].(result := full.legs[i].result)
  }

  /** Settling at the first loss gives what every completion of the open legs
      would give in the end. */
  lemma EarlyLossIsFinal(p: Parlay, full: Parlay, juice: int)
    requires HasLoss(p.legs) && IsCompletion(p, full)
    ensures Decide(p, juice) == Some(GradeParlay(full, juice))
    ensures GradeParlay(full, juice) == Ok(ParlayOutcome(Loss, p.odds, 0, 0))
  {
    var k :| 0 <= k < |p.legs| && p.legs[k].result == Some(Loss);
    assert full.legs[k].result == Some(Loss) && Filled(p.legs)[k].result == Some(Loss);
    ScanResolved(full.legs);
    ScanResolved(Filled(p.legs));
  }

  // ---- Order of legs ------------------------------------------------------------------

  function WonAt(leg: Leg): multiset<int> {
    if leg.result == Some(Win) then multiset{leg.odds} else multiset{}
  }

  lemma WinnersGrow(init: seq<Leg>, last: Leg)
    ensures multiset(Winners(init + [last])) == multiset(Winners(init)) + WonAt(last)
  {
    assert (init + [last])[..|init|] == init;
  }

  lemma {:induction false} WinnersWithout(legs: seq<Leg>, k: nat)
    requires k < |legs|
    ensures multiset(Winners(legs)) == multiset(Winners(Without(legs, k))) + WonAt(legs[k])
  {
    var init, last := legs[..|legs| - 1], legs[|legs| - 1];
    WithoutSnoc(legs, k);
    if k < |init| {
      WinnersWithout(init, k);
      WinnersGrow(Without(init, k), last);
    }
    WinnersGrow(init, last);
  }

  lemma {:induction false} WinnersIgnoreOrder(a: seq<Leg>, b: seq<Leg>)
    requires multiset(a) == multiset(b)
    ensures multiset(Winners(a)) == multiset(Winners(b))
  {
    assert |a| == |multiset(a)| == |multiset(b)| == |b|;
    if a != [] {
      var k := Matching(a, b);
      WinnersIgnoreOrder(a[..|a| - 1], Without(b, k));
      WinnersWithout(b, k);
    }
  }

  lemma SameLegs(a: seq<Leg>, b: seq<Leg>)
    requires multiset(a) == multiset(b)
    ensures forall x :: x in a <==> x in b
  {
    forall x ensures x in a <==> x in b {
      assert x in a <==> x in multiset(a);
      assert x in b <==> x in multiset(b);
    }
  }

  predicate LegOddsValid(legs: seq<Leg>) {
    forall leg :: leg in legs ==> ValidOdds(leg.odds)
  }

  lemma {:induction false} WinnersValid(legs: seq<Leg>)
    requires LegOddsValid(legs)
    ensures AllValidOdds(Winners(legs)) && |Winners(legs)| <= |legs|
  {
    if legs == [] {
    } else {
      WinnersValid(legs[..|legs| - 1]);
    }
  }

  lemma SurvivingPriceIgnoresOrder(a: seq<int>, b: seq<int>, juice: int)
    requires AllValidOdds(a) && AllValidOdds(b) && multiset(a) == multiset(b) && a != []
    ensures b != [] && SurvivingPrice(a, juice) == SurvivingPrice(b, juice)
  {
    CombinedIgnoresOrder(a, b);
    if |a| == 1 {
      assert a == [a[0]] && b == [b[0]];
      assert a[0] in multiset(b);
    }
  }

  lemma LossIgnoresOrder(a: seq<Leg>, b: seq<Leg>)
    requires multiset(a) == multiset(b)
    ensures HasLoss(a) ==> HasLoss(b)
    ensures AllResolved(a) ==> AllResolved(b)
    ensures |a| == |b|
  {
    assert |a| == |multiset(a)| == |multiset(b)| == |b|;
    SameLegs(a, b);
    if HasLoss(a) {
      var i :| 0 <= i < |a| && a[i].result == Some(Loss);
      assert a[i] in b;
    }
    if AllResolved(a) {
      forall i | 0 <= i < |b| ensures b[i].result.Some? {
        assert b[i] in a;
      }
    }
  }

  lemma SamePrice(a: seq<Leg>, b: seq<Leg>, juice: int)
    requires LegOddsValid(a) && LegOddsValid(b) && multiset(a) == multiset(b)
    ensures Winners(a) == [] <==> Winners(b) == []
    ensures Winners(a) != [] ==> SurvivingPrice(Winners(a), juice) == SurvivingPrice(Winners(b), juice)
  {
    WinnersIgnoreOrder(a, b);
    WinnersValid(a);
    WinnersValid(b);
    assert |Winners(a)| == |multiset(Winners(a))| == |multiset(Winners(b))| == |Winners(b)|;
    if Winners(a) != [] {
      SurvivingPriceIgnoresOrder(Winners(a), Winners(b), juice);
    }
  }

  lemma GradeAtIgnoresLegs(p: Parlay, legs: seq<Leg>, price: Result<int>)
    ensures GradeAt(p.(legs := legs), price) == GradeAt(p, price)
  {
  }

  /** Grading a fully resolved parlay does not depend on the order of its legs. */
  lemma GradingIgnoresLegOrder(p: Parlay, legs: seq<Leg>, juice: int)
    requires AllResolved(p.legs) && LegOddsValid(p.legs)
    requires multiset(legs) == multiset(p.legs)
    ensures GradeParlay(p.(legs := legs), juice) == GradeParlay(p, juice)
  {
    SameLegs(p.legs, legs);
    LossIgnoresOrder(p.legs, legs);
    LossIgnoresOrder(legs, p.legs);
    if p.legs != [] {
      GradeResolved(p, juice);
      GradeResolved(p.(legs := legs), juice);
      SamePrice(p.legs, legs, juice);
      GradeAtIgnoresLegs(p, legs, SurvivingPrice(Winners(p.legs), juice));
    }
  }

  // ---- Placement and an all-win parlay ---------------------------------------------------

  function LegOdds(legs: seq<Leg>): (r: seq<int>)
    ensures |r| == |legs|
  {
    if legs == [] then [] else LegOdds(legs[..|legs| - 1]) + [legs[|legs| - 1].odds]
  }

  /** PlaceParlay's pricing: the combined line, its profit and the payout ceiling. */
  function PriceParlay(legs: seq<Leg>, stake: int, juice: int, maxPayout: int): Result<(int, int)> {
    var price :- ParlayOdds(LegOdds(legs), juice);
    var profit :- Profit(price, stake);
    if profit <= 0 then Err(InvalidStake)
    else if maxPayout > 0 && profit > maxPayout then Err(InvalidStake)
    else Ok((price, profit))
  }

  /** A parlay is priced exactly with two to eight valid legs whose juiced
      probability is at most one half, and a profit at the combined line that is at
      least a cent and no more than the ceiling; then it has that line and profit. */
  lemma ParlayWrittenExactly(legs: seq<Leg>, stake: int, juice: int, maxPayout: int)
    requires stake > 0
    ensures PriceParlay(legs, stake, juice, maxPayout).Ok? <==>
      && 2 <= |legs| <= 8 && juice >= 0 && AllValidOdds(LegOdds(legs)) && JuicedProbability(LegOdds(legs), juice) <= 0.5
      && var line := American(JuicedProbability(LegOdds(legs), juice));
         && line > 0 && stake * line <= MAX_INT64 && stake * line >= 50
         && (maxPayout > 0 ==> 2 * (stake * line) < 200 * maxPayout + 100)
    ensures PriceParlay(legs, stake, juice, maxPayout).Ok? ==>
      var (line, profit) := PriceParlay(legs, stake, juice, maxPayout).value;
      && line == American(JuicedProbability(LegOdds(legs), juice))
      && 2 * (stake * line) - 100 < 200 * profit <= 2 * (stake * line) + 100
  {
    var odds := LegOdds(legs);
    if ParlayOdds(odds, juice).Ok? {
      ParlayLineIsNearest(odds, juice);
      LineForBounds(JuicedProbability(odds, juice));
      LongLineProfit(ParlayOdds(odds, juice).value, stake);
    } else if 2 <= |legs| <= 8 && juice >= 0 && AllValidOdds(odds) {
      ParlayPricedExactly(odds, juice);
    }
  }

  /** The profit at a line of at least even money. */
  lemma LongLineProfit(line: int, stake: int)
    requires line >= 100 && stake > 0
    ensures Profit(line, stake).Ok? <==> stake * line <= MAX_INT64
    ensures Profit(line, stake).Ok? ==>
      var profit := Profit(line, stake).value;
      && 2 * (stake * line) - 100 < 200 * profit <= 2 * (stake * line) + 100
      && (profit > 0 <==> stake * line >= 50)
  {
    ProfitFailsExactlyOnOverflow(line, stake);
    if Profit(line, stake).Ok? {
      ProfitIsNearestCent(line, stake);
    }
  }

  lemma {:induction false} AllWinnersAreAllLegs(legs: seq<Leg>)
    requires forall i :: 0 <= i < |legs| ==> legs[i].result == Some(Win)
    ensures Winners(legs) == LegOdds(legs) && !HasLoss(legs)
  {
    if legs == [] {
    } else {
      AllWinnersAreAllLegs(legs[..|legs| - 1]);
    }
  }

  lemma {:induction false} ResultsDoNotReprice(a: seq<Leg>, b: seq<Leg>)
    requires |a| == |b| && forall i :: 0 <= i < |a| ==> a[i].odds == b[i].odds
    ensures LegOdds(a) == LegOdds(b)
  {
    if a == [] {
    } else {
      ResultsDoNotReprice(a[..|a| - 1], b[..|b| - 1]);
    }
  }

  /** An all-win parlay pays exactly the potential profit struck at placement. */
  lemma AllWinPaysTheStruckProfit(p: Parlay, placed: seq<Leg>, juice: int, maxPayout: int)
    requires |p.legs| == |placed| && forall i :: 0 <= i < |placed| ==> p.legs[i] == placed[i].(result := Some(Win))
    requires PriceParlay(placed, p.stake.cents, juice, maxPayout) == Ok((p.odds, p.potentialProfit))
    requires p.stake.cents + p.potentialProfit <= MAX_INT64
    ensures GradeParlay(p, juice)
         == Ok(ParlayOutcome(Win, p.odds, p.potentialProfit, p.stake.cents + p.potentialProfit))
  {
    AllWinnersAreAllLegs(p.legs);
    ResultsDoNotReprice(p.legs, placed);
    ScanResolved(p.legs);
  }

  // ---- When a decided parlay cannot be settled ------------------------------------------

  /** The settlement transaction of a graded parlay. */
  function ParlayPostings(p: Parlay, outcome: ParlayOutcome): seq<Posting> {
    var currency := p.stake.currency;
    var escrow, member := Escrow(currency), Member(p.user, p.funding, currency);
    match outcome.grade
    case Win => [Posting(escrow, Money(-p.stake.cents, currency)),
                 Posting(House(currency), Money(-outcome.profit, currency)),
                 Posting(member, Money(outcome.returned, currency))]
    case Loss => [Posting(escrow, Money(-p.stake.cents, currency)), Posting(House(currency), p.stake)]
    case _ => [Posting(escrow, Money(-p.stake.cents, currency)), Posting(member, p.stake)]
  }

  predicate ValidParlay(p: Parlay) {
    && ValidStake(p.stake) && ValidOdds(p.odds)
    && MIN_LEGS <= |p.legs| <= MAX_LEGS && LegOddsValid(p.legs)
  }

  /** Grading and posting, as one refusable step. */
  function SettleParlay(p: Parlay, juice: int): Option<Result<ParlayOutcome>> {
    match Decide(p, juice)
    case None => None
    case Some(Err(e)) => Some(Err(e))
    case Some(Ok(outcome)) =>
      if ValidPostings(p.stake.currency, ParlayPostings(p, outcome)) then Some(Ok(outcome)) else Some(Err(Unbalanced))
  }

  lemma ParlayPostingsMove(p: Parlay, outcome: ParlayOutcome)
    requires ValidStake(p.stake)
    requires match outcome.grade
      case Win => outcome.profit >= 0 && outcome.returned == p.stake.cents + outcome.profit <= MAX_INT64
      case Loss => outcome.returned == 0
      case _ => outcome.returned == p.stake.cents
    ensures ValidPostings(p.stake.currency, ParlayPostings(p, outcome))
      <==> (outcome.grade == Win ==> outcome.profit > 0)
    ensures forall x :: NetTo(ParlayPostings(p, outcome), x) == ParlayMovement(p, outcome.returned, x)
  {
    var currency := p.stake.currency;
    var postings := ParlayPostings(p, outcome);
    if outcome.grade == Win {
      if outcome.profit > 0 {
        ThreePostingsValid(currency, postings[0], postings[1], postings[2]);
      } else {
        assert postings[1].amount.cents == 0;
      }
      ThreePostings(postings[0], postings[1], postings[2]);
    } else {
      TwoPostingsValid(currency, postings[0], postings[1]);
      TwoPostings(postings[0], postings[1]);
    }
  }

  function ParlayMovement(p: Parlay, returned: int, x: Account): int {
    if x == Escrow(p.stake.currency) then -p.stake.cents
    else if x == House(p.stake.currency) then p.stake.cents - returned
    else if x == Member(p.user, p.funding, p.stake.currency) then returned
    else 0
  }

  /** The line winning legs are paid at. */
  function WinnersLine(winners: seq<int>, juice: int): int
    requires AllValidOdds(winners) && winners != []
  {
    if |winners| == 1 then winners[0]
    else American(JuicedProbability(winners, juice))
  }

  /** The winners can be paid: one alone at its own price, several when together
      they are no shorter than even money; and the profit at that line is at
      least a cent and fits int64 with the stake. */
  predicate WinnersPay(winners: seq<int>, stake: int, juice: int)
    requires AllValidOdds(winners) && winners != []
  {
    && (|winners| == 1 || JuicedProbability(winners, juice) <= 0.5)
    && PaysWithin(WinnersLine(winners, juice), stake) && PaysSomething(WinnersLine(winners, juice), stake)
  }

  predicate LegsPay(legs: seq<Leg>, stake: int, juice: int)
    requires LegOddsValid(legs)
  {
    WinnersValid(legs);
    HasLoss(legs) || HasOpenLeg(legs) || Winners(legs) == [] || WinnersPay(Winners(legs), stake, juice)
  }

  predicate IsRefused(p: Parlay, juice: int) {
    match SettleParlay(p, juice)
    case Some(Err(_)) => true
    case _ => false
  }

  lemma PricedWinners(winners: seq<int>, juice: int)
    requires AllValidOdds(winners) && 1 <= |winners| <= MAX_LEGS && juice >= 0
    ensures SurvivingPrice(winners, juice)
         == if |winners| == 1 || JuicedProbability(winners, juice) <= 0.5 then Ok(WinnersLine(winners, juice)) else Err(TooShort)
    ensures SurvivingPrice(winners, juice).Ok? ==> ValidOdds(SurvivingPrice(winners, juice).value)
  {
    if |winners| > 1 {
      ParlayPricedExactly(winners, juice);
      CombinedBounds(winners);
      JuicedGrows(Combined(winners), |winners| - 1, juice);
      LineForBounds(JuicedProbability(winners, juice));
    }
  }

  predicate IsPosted(p: Parlay, graded: Result<ParlayOutcome>) {
    graded.Ok? && ValidPostings(p.stake.currency, ParlayPostings(p, graded.value))
  }

  /** Grading at a line pays when the profit is at least a cent and fits. */
  lemma GradeAtPays(p: Parlay, line: int)
    requires ValidStake(p.stake) && ValidOdds(line)
    ensures IsPosted(p, GradeAt(p, Ok(line))) <==> PaysWithin(line, p.stake.cents) && PaysSomething(line, p.stake.cents)
  {
    ProfitExactly(line, p.stake.cents);
    var graded := GradeAt(p, Ok(line));
    if graded.Ok? {
      ProfitIsNearestCent(line, p.stake.cents);
      ParlayPostingsMove(p, graded.value);
    }
  }

  /** A resolved parlay without a loss and with winners settles exactly when its
      winners can be paid. */
  lemma WinnersSettleExactly(p: Parlay, juice: int)
    requires ValidParlay(p) && AllResolved(p.legs) && !HasLoss(p.legs) && Winners(p.legs) != [] && juice >= 0
    ensures AllValidOdds(Winners(p.legs))
    ensures !IsRefused(p, juice) <==> WinnersPay(Winners(p.legs), p.stake.cents, juice)
  {
    WinnersValid(p.legs);
    GradeResolved(p, juice);
    PricedWinners(Winners(p.legs), juice);
    var price := SurvivingPrice(Winners(p.legs), juice);
    if price.Ok? {
      GradeAtPays(p, price.value);
    }
  }

  lemma LosersSettle(p: Parlay, juice: int)
    requires ValidParlay(p) && juice >= 0
    requires HasLoss(p.legs) || (AllResolved(p.legs) && Winners(p.legs) == [])
    ensures SettleParlay(p, juice).Some? && SettleParlay(p, juice).value.Ok?
  {
    if HasLoss(p.legs) {
      EarlyLossIsFinal(p, p.(legs := Filled(p.legs)), juice);
      ParlayPostingsMove(p, ParlayOutcome(Loss, p.odds, 0, 0));
    } else {
      GradeResolved(p, juice);
      ParlayPostingsMove(p, ParlayOutcome(Push, p.odds, 0, p.stake.cents));
    }
  }

  /** A parlay is refused exactly when all its legs have come in without a loss
      and its winners cannot be paid. */
  lemma SettlementRefusedExactly(p: Parlay, juice: int)
    requires ValidParlay(p) && juice >= 0
    ensures IsRefused(p, juice) <==> !LegsPay(p.legs, p.stake.cents, juice)
  {
    if HasLoss(p.legs) || (AllResolved(p.legs) && Winners(p.legs) == []) {
      LosersSettle(p, juice);
    } else if !HasOpenLeg(p.legs) {
      WinnersSettleExactly(p, juice);
    }
  }

  /** Two -1000 favourites that have won and a +400 leg still open. */
  function OpenStranding(): seq<Leg> {
    [Leg(0, 0, -1000, Some(Win)), Leg(1, 0, -1000, Some(Win)), Leg(2, 0, 400, None)]
  }

  lemma StrandingPrices()
    ensures JuicedProbability([-1000, -1000], DEFAULT_JUICE) > 0.5
    ensures var p := JuicedProbability([-1000, -1000, 400], DEFAULT_JUICE); 0.1770 < p < 0.1771
  {
    var juice := 1.0 + 350.0 / 10000.0;
    var a, b, c := Probabilities([-1000]), Probabilities([-1000, -1000]), Probabilities([-1000, -1000, 400]);
    assert [-1000][..0] == [] && [-1000, -1000][..1] == [-1000] && [-1000, -1000, 400][..2] == [-1000, -1000];
    assert a == [Implied(-1000)] && b == a + [Implied(-1000)] && c == b + [Implied(400)];
    assert a[..0] == [] && b[..1] == a && c[..2] == b;
    assert Implied(-1000) == 1000.0 / 1100.0 && Implied(400) == 0.2;
    assert Product(a) == 1000.0 / 1100.0;
    assert Product(b) == Product(a) * (1000.0 / 1100.0);
    assert Product(c) == Product(b) * 0.2;
    assert Juiced(Product(b), 1, DEFAULT_JUICE) == Juiced(Product(b), 0, DEFAULT_JUICE) * juice;
    assert Juiced(Product(c), 1, DEFAULT_JUICE) == Juiced(Product(c), 0, DEFAULT_JUICE) * juice;
    assert Juiced(Product(c), 2, DEFAULT_JUICE) == Juiced(Product(c), 1, DEFAULT_JUICE) * juice;
  }

  lemma NoPriceNoSettlement(p: Parlay, juice: int)
    requires AllResolved(p.legs) && p.legs != [] && !HasLoss(p.legs) && Winners(p.legs) != []
    requires SurvivingPrice(Winners(p.legs), juice).Err?
    ensures SettleParlay(p, juice) == Some(Err(SurvivingPrice(Winners(p.legs), juice).error))
  {
    GradeResolved(p, juice);
  }

  lemma StrandedWinnersHaveNoLine()
    ensures SurvivingPrice([-1000, -1000], DEFAULT_JUICE) == Err(TooShort)
  {
    StrandingPrices();
    ParlayPricedExactly([-1000, -1000], DEFAULT_JUICE);
  }

  function Dropped(dropped: Grade): seq<Leg> {
    OpenStranding()[2 := Leg(2, 0, 400, Some(dropped))]
  }

  lemma DroppedIsRefused(p: Parlay, dropped: Grade)
    requires p.legs == Dropped(dropped) && dropped in {Push, Void}
    ensures SettleParlay(p, DEFAULT_JUICE) == Some(Err(TooShort))
  {
    assert p.legs[..2] == OpenStranding()[..2];
    StrandingWinners(p.legs);
    StrandedWinnersHaveNoLine();
    NoPriceNoSettlement(p, DEFAULT_JUICE);
  }

  /** The book writes this parlay at +465, but once its favourites have won no
      settlement can void or push the last leg: the survivors have no line, so
      the settling market's transaction is refused. */
  lemma VoidingTheLastLegIsRefused(p: Parlay, dropped: Grade)
    requires p.legs == OpenStranding() && p.stake.cents == 10000 && dropped in {Push, Void}
    ensures PriceParlay(p.legs, 10000, DEFAULT_JUICE, 500000) == Ok((465, 46500))
    ensures SettleParlay(p.(legs := Dropped(dropped)), DEFAULT_JUICE) == Some(Err(TooShort))
  {
    WrittenAtStrandingLine(p.legs);
    DroppedIsRefused(p.(legs := Dropped(dropped)), dropped);
  }

  lemma StrandingOdds(legs: seq<Leg>)
    requires legs == OpenStranding()
    ensures LegOdds(legs) == [-1000, -1000, 400]
  {
    assert legs[..2][..1] == legs[..1] && legs[..1][..0] == [];
    assert LegOdds(legs[..1]) == [-1000] && LegOdds(legs[..2]) == [-1000, -1000];
  }

  lemma StrandingIsPriced()
    ensures ParlayOdds([-1000, -1000, 400], DEFAULT_JUICE) == Ok(465)
  {
    StrandingPrices();
    ParlayPricedExactly([-1000, -1000, 400], DEFAULT_JUICE);
    StrandingLine(JuicedProbability([-1000, -1000, 400], DEFAULT_JUICE));
  }

  lemma WrittenAtStrandingLine(legs: seq<Leg>)
    requires legs == OpenStranding()
    ensures PriceParlay(legs, 10000, DEFAULT_JUICE, 500000) == Ok((465, 46500))
  {
    StrandingOdds(legs);
    StrandingIsPriced();
  }

  lemma StrandingWinners(legs: seq<Leg>)
    requires |legs| == 3 && legs[..2] == OpenStranding()[..2]
    requires legs[2].result in {Some(Push), Some(Void)}
    ensures Winners(legs) == [-1000, -1000]
  {
    var won := legs[..2];
    assert won[..1][..0] == [] && Winners(won[..1]) == Winners(won[..1][..0]) + [-1000];
    assert Winners(won) == Winners(won[..1]) + [-1000];
  }

  lemma StrandingLine(p: real)
    requires 0.1770 < p < 0.1771
    ensures American(p) == 465
  {
    UnderdogLine(p);
    QuotientOrder(100.0, 0.1770, p);
    QuotientOrder(100.0, p, 0.1771);
  }
}
