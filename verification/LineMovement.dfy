/** What line movement guarantees: it is determined by the action, monotone in
    it, and can never be arbitraged against itself (internal/pricing). */
module LineMovement {
  import opened Ledger
  import opened Odds
  import opened RealSums
  import opened Pricing

  // ---- Monotonicity ------------------------------------------------------------

  lemma {:induction false} PriorsIgnoreStakes(a: seq<SelectionInput>, b: seq<SelectionInput>)
    requires AllValid(a) && AllValid(b) && |a| == |b|
    requires forall i :: 0 <= i < |a| ==> a[i].openingOdds == b[i].openingOdds
    ensures Priors(a) == Priors(b)
  {
    if a == [] {
    } else {
      PriorsIgnoreStakes(a[..|a| - 1], b[..|b| - 1]);
    }
  }

  /** `after` is `before` with stake added on selection k only. */
  predicate AddsStake(before: seq<SelectionInput>, after: seq<SelectionInput>, k: nat) {
    && k < |before| == |after|
    && after[k].openingOdds == before[k].openingOdds
    && after[k].stakeCents >= before[k].stakeCents
    && forall i :: 0 <= i < |before| && i != k ==> after[i] == before[i]
  }

  lemma WeightGrows(exp: real -> real, before: SelectionInput, after: SelectionInput, liquidityCents: int)
    requires IsExponential(exp) && liquidityCents > 0
    requires ValidSelection(before) && ValidSelection(after)
    requires after.openingOdds == before.openingOdds && after.stakeCents >= before.stakeCents
    ensures Weight(exp, before, liquidityCents) <= Weight(exp, after, liquidityCents)
  {
    StakeOrder(before.stakeCents as real, after.stakeCents as real, liquidityCents as real);
    var x, y := Exponent(before.stakeCents, liquidityCents), Exponent(after.stakeCents, liquidityCents);
    assert x <= y;
    ProductOrder(Implied(before.openingOdds), Implied(before.openingOdds), exp(x), exp(y));
  }

  lemma StakeOrder(small: real, large: real, liquidity: real)
    requires small <= large && liquidity > 0.0
    ensures small / liquidity <= large / liquidity
  {
  }

  /** If every other entry is no larger and the sums agree, entry k is no smaller. */
  lemma RestGivesToOne(a: seq<real>, b: seq<real>, k: nat)
    requires k < |a| == |b| && Sum(a) == Sum(b)
    requires forall i :: 0 <= i < |a| && i != k ==> b[i] <= a[i]
    ensures b[k] >= a[k]
  {
    if b[k] < a[k] {
      SumStrict(b, a);
    }
  }

  /** Two floored scalings to one total: raising weight k alone raises entry k
      alone, whichever way the common scale moves. */
  lemma FlooredScalingMonotone(w: seq<real>, w': seq<real>, floors: seq<real>, total: real,
                               scale: real, scale': real, p: seq<real>, p': seq<real>, k: nat)
    requires IsFlooredScaling(w, floors, total, scale, p) && IsFlooredScaling(w', floors, total, scale', p')
    requires k < |w| && forall i :: 0 <= i < |w| ==> 0.0 <= w[i] <= w'[i] && (i != k ==> w[i] == w'[i])
    ensures p'[k] >= p[k]
    ensures forall i :: 0 <= i < |p| && i != k ==> p'[i] <= p[i]
  {
    if scale' <= scale {
      forall i | 0 <= i < |w| && i != k ensures p'[i] <= p[i] {
        ScaleOrder(w', scale', w, scale, i);
      }
      RestGivesToOne(p, p', k);
    } else {
      forall i | 0 <= i < |w| ensures p[i] <= p'[i] {
        ScaleOrder(w, scale, w', scale', i);
      }
      SumSqueeze(p, p');
    }
  }

  lemma WeightsGrow(exp: real -> real, before: seq<SelectionInput>, after: seq<SelectionInput>, liquidityCents: int, k: nat)
    requires IsExponential(exp) && liquidityCents > 0
    requires ValidInputs(before) && ValidInputs(after) && AddsStake(before, after, k)
    ensures var w, w' := Weights(exp, before, liquidityCents), Weights(exp, after, liquidityCents);
      forall i :: 0 <= i < |w| ==> 0.0 <= w[i] <= w'[i] && (i != k ==> w[i] == w'[i])
  {
    var w, w' := Weights(exp, before, liquidityCents), Weights(exp, after, liquidityCents);
    WeightsPositive(exp, before, liquidityCents);
    forall i | 0 <= i < |w| ensures 0.0 <= w[i] <= w'[i] && (i != k ==> w[i] == w'[i]) {
      WeightAt(exp, before, liquidityCents, i);
      WeightAt(exp, after, liquidityCents, i);
      WeightGrows(exp, before[i], after[i], liquidityCents);
    }
  }

  /** The probabilities behind the line move toward the stake. */
  lemma ProbabilitiesMonotone(exp: real -> real, before: Board, after: Board, k: nat)
    requires IsExponential(exp) && IsDrifted(exp, before) && IsDrifted(exp, after)
    requires before.liquidityCents == after.liquidityCents
    requires AddsStake(before.selections, after.selections, k)
    ensures Floors(before.selections) == Floors(after.selections)
    ensures after.probabilities[k] >= before.probabilities[k]
    ensures forall i :: 0 <= i < |before.odds| && i != k ==> after.probabilities[i] <= before.probabilities[i]
  {
    PriorsIgnoreStakes(before.selections, after.selections);
    var floors, total := Floors(before.selections), Sum(Priors(before.selections));
    var w := Weights(exp, before.selections, before.liquidityCents);
    var w' := Weights(exp, after.selections, after.liquidityCents);
    assert IsFlooredScaling(w, floors, total, before.scale, before.probabilities);
    assert IsFlooredScaling(w', floors, total, after.scale, after.probabilities);
    BoardsMonotone(exp, before, after, k, w, w', floors, total);
  }

  lemma BoardsMonotone(exp: real -> real, before: Board, after: Board, k: nat,
                       w: seq<real>, w': seq<real>, floors: seq<real>, total: real)
    requires IsExponential(exp) && ValidInputs(before.selections) && ValidInputs(after.selections)
    requires before.liquidityCents == after.liquidityCents > 0
    requires AddsStake(before.selections, after.selections, k)
    requires w == Weights(exp, before.selections, before.liquidityCents)
    requires w' == Weights(exp, after.selections, after.liquidityCents)
    requires IsFlooredScaling(w, floors, total, before.scale, before.probabilities)
    requires IsFlooredScaling(w', floors, total, after.scale, after.probabilities)
    ensures after.probabilities[k] >= before.probabilities[k]
    ensures forall i :: 0 <= i < |w| && i != k ==> after.probabilities[i] <= before.probabilities[i]
  {
    WeightsGrow(exp, before.selections, after.selections, before.liquidityCents, k);
    FlooredScalingMonotone(w, w', floors, total, before.scale, after.scale, before.probabilities, after.probabilities, k);
  }

  lemma ClearsOwnFloor(exp: real -> real, b: Board, i: nat)
    requires IsRepriced(exp, b) && i < |b.odds|
    ensures Floors(b.selections)[i] <= b.probabilities[i]
    ensures ValidOdds(b.odds[i])
  {
    PostedClearsFloor(b.probabilities[i], Floors(b.selections)[i]);
  }

  /** Repricing is monotone: stake added to one selection never lengthens that
      selection's posted line and never shortens any other's. */
  lemma RepricingIsMonotone(exp: real -> real, before: Board, after: Board, k: nat)
    requires IsExponential(exp) && IsRepriced(exp, before) && IsRepriced(exp, after)
    requires before.liquidityCents == after.liquidityCents
    requires AddsStake(before.selections, after.selections, k)
    ensures forall i :: 0 <= i < |before.odds| ==> ValidOdds(before.odds[i]) && ValidOdds(after.odds[i])
    ensures Position(after.odds[k]) >= Position(before.odds[k])
    ensures forall i :: 0 <= i < |before.odds| && i != k ==> Position(after.odds[i]) <= Position(before.odds[i])
  {
    ProbabilitiesMonotone(exp, before, after, k);
    var floors := Floors(before.selections);
    forall i | 0 <= i < |before.odds|
      ensures ValidOdds(before.odds[i]) && ValidOdds(after.odds[i])
      ensures if i == k then Position(after.odds[i]) >= Position(before.odds[i])
              else Position(after.odds[i]) <= Position(before.odds[i])
    {
      ClearsOwnFloor(exp, before, i);
      ClearsOwnFloor(exp, after, i);
      if i == k {
        PostedMonotone(before.probabilities[i], after.probabilities[i], floors[i]);
      } else {
        PostedMonotone(after.probabilities[i], before.probabilities[i], floors[i]);
      }
    }
  }

  /** The line depends on the opening odds, the stakes and the liquidity alone. */
  lemma RepricingIsDetermined(exp: real -> real, a: Board, b: Board)
    requires IsExponential(exp) && IsRepriced(exp, a) && IsRepriced(exp, b)
    requires a.liquidityCents == b.liquidityCents && a.selections == b.selections
    ensures a.probabilities == b.probabilities && a.odds == b.odds
  {
    ProbabilitiesMonotone(exp, a, b, 0);
    ProbabilitiesMonotone(exp, b, a, 0);
  }

  // ---- An untouched market and a market without margin ---------------------------

  /** Probabilities that sum to the priors' total without exceeding them are the priors. */
  lemma UnmovedProbabilities(exp: real -> real, b: Board)
    requires IsDrifted(exp, b)
    requires Weights(exp, b.selections, b.liquidityCents) == Priors(b.selections)
    ensures b.probabilities == Priors(b.selections)
  {
    var priors := Priors(b.selections);
    ScaleOne(priors);
    forall i | 0 <= i < |priors|
      ensures b.scale > 1.0 ==> b.probabilities[i] >= priors[i]
      ensures b.scale <= 1.0 ==> b.probabilities[i] <= priors[i]
    {
      PriorAt(b.selections, i);
      FloorAt(b.selections, i);
      if b.scale > 1.0 {
        ScaleOrder(priors, 1.0, priors, b.scale, i);
      } else {
        ScaleOrder(priors, b.scale, priors, 1.0, i);
      }
    }
    if b.scale > 1.0 {
      SumSqueeze(priors, b.probabilities);
    } else {
      SumSqueeze(b.probabilities, priors);
    }
  }

  lemma {:induction false} NoStakeWeights(exp: real -> real, selections: seq<SelectionInput>, liquidityCents: int)
    requires IsExponential(exp) && AllValid(selections) && liquidityCents > 0
    requires forall i :: 0 <= i < |selections| ==> selections[i].stakeCents == 0
    ensures Weights(exp, selections, liquidityCents) == Priors(selections)
  {
    if selections == [] {
    } else {
      NoStakeWeights(exp, selections[..|selections| - 1], liquidityCents);
      assert 0.0 / liquidityCents as real == 0.0;
    }
  }

  /** With no stake anywhere a selection keeps its opening line, except that a
      -100 opening is posted as +100 and one beyond MAX_ODDS is pulled in. */
  lemma UntouchedLine(exp: real -> real, b: Board, i: nat)
    requires IsExponential(exp) && IsRepriced(exp, b) && i < |b.odds|
    requires forall j :: 0 <= j < |b.selections| ==> b.selections[j].stakeCents == 0
    ensures b.odds[i] == b.selections[i].openingOdds
      <==> b.selections[i].openingOdds != -100 && -MAX_ODDS <= b.selections[i].openingOdds <= MAX_ODDS
    ensures b.selections[i].openingOdds == -100 ==> b.odds[i] == 100
  {
    NoStakeWeights(exp, b.selections, b.liquidityCents);
    UnmovedProbabilities(exp, b);
    PriorAt(b.selections, i);
    FloorAt(b.selections, i);
    var opening := b.selections[i].openingOdds;
    AmericanIsALine(Implied(opening));
    if -MAX_ODDS <= opening <= MAX_ODDS {
      AmericanOfImplied(opening);
      assert Implied(100) == Implied(-100);
    }
  }

  /** A market posted at or below even money does not move whatever is bet on it. */
  lemma NoMarginNoMovement(exp: real -> real, b: Board)
    requires IsExponential(exp) && IsDrifted(exp, b)
    requires Sum(Priors(b.selections)) <= 1.0
    ensures b.probabilities == Priors(b.selections)
  {
    var priors := Priors(b.selections);
    forall i | 0 <= i < |priors| ensures Floors(b.selections)[i] == priors[i] {
      ScaleAt(priors, 1.0, i);
    }
    SumSqueeze(priors, b.probabilities);
  }

  // ---- No arbitrage against the line's own movement ------------------------------

  /** One posted line per selection of a single opening board, each taken from a
      repricing under stakes of its own. */
  ghost predicate AreQuotes(exp: real -> real, opening: seq<SelectionInput>, quotes: seq<Board>) {
    && ValidInputs(opening)
    && |quotes| == |opening|
    && forall k {:trigger IsQuote(exp, opening, quotes[k])} :: 0 <= k < |quotes| ==> IsQuote(exp, opening, quotes[k])
  }

  ghost predicate IsQuote(exp: real -> real, opening: seq<SelectionInput>, quote: Board) {
    IsRepriced(exp, quote) && SameOpening(opening, quote.selections)
  }

  predicate SameOpening(a: seq<SelectionInput>, b: seq<SelectionInput>) {
    |a| == |b| && forall i :: 0 <= i < |a| ==> a[i].openingOdds == b[i].openingOdds
  }

  predicate WithinMaxOdds(opening: seq<SelectionInput>) {
    forall i :: 0 <= i < |opening| ==> -MAX_ODDS <= opening[i].openingOdds <= MAX_ODDS
  }

  /** One plus a fifth of the opening margin. */
  function MarginKept(opening: seq<SelectionInput>): real
    requires AllValid(opening)
  {
    1.0 + 0.2 * (Sum(Priors(opening)) - 1.0)
  }

  /** The implied probabilities of the quoted lines. */
  function Quoted(quotes: seq<Board>): (r: seq<real>)
    requires forall k :: 0 <= k < |quotes| ==> k < |quotes[k].odds| && ValidOdds(quotes[k].odds[k])
    ensures |r| == |quotes|
    ensures forall k :: 0 <= k < |quotes| ==> r[k] == Implied(quotes[k].odds[k])
  {
    seq(|quotes|, k requires 0 <= k < |quotes| => Implied(quotes[k].odds[k]))
  }

  lemma QuoteClearsFloor(exp: real -> real, opening: seq<SelectionInput>, quotes: seq<Board>, k: nat)
    requires AreQuotes(exp, opening, quotes) && WithinMaxOdds(opening) && k < |quotes|
    ensures k < |quotes[k].odds|
    ensures ValidOdds(quotes[k].odds[k]) && Implied(quotes[k].odds[k]) >= Floors(opening)[k]
  {
    var b := quotes[k];
    assert IsQuote(exp, opening, b);
    PriorsIgnoreStakes(opening, b.selections);
    FloorAt(b.selections, k);
    ImpliedByPosition(b.selections[k].openingOdds, -MAX_ODDS);
    assert Implied(-MAX_ODDS) == MAX_PROBABILITY;
    PostedClearsFloor(b.probabilities[k], Floors(b.selections)[k]);
  }

  /** Whatever each side is bet to before its line is taken, the quoted lines
      together keep at least a fifth of the opening margin. */
  lemma QuotesKeepMargin(exp: real -> real, opening: seq<SelectionInput>, quotes: seq<Board>)
    requires AreQuotes(exp, opening, quotes) && WithinMaxOdds(opening)
    requires Sum(Priors(opening)) > 1.0
    ensures forall k :: 0 <= k < |quotes| ==> k < |quotes[k].odds| && ValidOdds(quotes[k].odds[k])
    ensures Sum(Quoted(quotes)) >= MarginKept(opening)
  {
    forall k | 0 <= k < |quotes|
      ensures k < |quotes[k].odds|
      ensures ValidOdds(quotes[k].odds[k]) && Implied(quotes[k].odds[k]) >= Floors(opening)[k]
    {
      QuoteClearsFloor(exp, opening, quotes, k);
    }
    FloorSum(opening);
    SumAtMost(Floors(opening), Quoted(quotes));
  }

  /** What a stake returns if its side wins; an empty stake returns nothing. */
  function Payout(odds: int, stake: nat): int
    requires stake > 0 ==> Profit(odds, stake).Ok?
  {
    if stake == 0 then 0 else stake + Profit(odds, stake).value
  }

  lemma PayoutAgainstProbability(odds: int, stake: nat)
    requires ValidOdds(odds) && (stake > 0 ==> Profit(odds, stake).Ok?)
    ensures (Payout(odds, stake) as real - 0.5) * Implied(odds) <= stake as real
  {
    if stake > 0 {
      ProfitIsNearestCent(odds, stake);
      NearestAgainstProbability(odds, stake, Profit(odds, stake).value);
    } else {
      assert (0.0 - 0.5) * Implied(odds) <= 0.0;
    }
  }

  lemma NearestAgainstProbability(odds: int, stake: nat, profit: int)
    requires ValidOdds(odds) && IsNearestCent(odds, stake, profit)
    ensures ((stake + profit) as real - 0.5) * Implied(odds) <= stake as real
  {
    var (numerator, denominator) := PayoutRatio(odds);
    ImpliedAsRatio(odds);
    NearestAsReals(stake, profit, numerator, denominator);
    PayoutBound(stake as real, profit as real, numerator as real, denominator as real, Implied(odds));
  }

  lemma NearestAsReals(stake: int, profit: int, numerator: int, denominator: int)
    requires 2 * (denominator * profit) <= 2 * (stake * numerator) + denominator
    ensures 2.0 * (denominator as real * profit as real)
         <= 2.0 * (stake as real * numerator as real) + denominator as real
  {
    assert (denominator * profit) as real == denominator as real * profit as real;
    assert (stake * numerator) as real == stake as real * numerator as real;
  }

  lemma ImpliedAsRatio(odds: int)
    requires ValidOdds(odds)
    ensures Implied(odds) * (PayoutRatio(odds).0 as real + PayoutRatio(odds).1 as real) == PayoutRatio(odds).1 as real
  {
  }

  lemma PayoutBound(s: real, p: real, a: real, b: real, implied: real)
    requires a > 0.0 && b > 0.0 && implied > 0.0
    requires 2.0 * (b * p) <= 2.0 * (s * a) + b
    requires implied * (a + b) == b
    ensures (s + p - 0.5) * implied <= s
  {
    var x := s + p - 0.5;
    assert b * x == b * s + b * p - 0.5 * b <= b * s + s * a;
    assert b * x <= s * (a + b);
    assert implied * (b * x) <= implied * (s * (a + b)) == s * b;
    assert b * (x * implied) <= b * s;
    if x * implied > s {
      ProductStrict(b, s, x * implied);
    }
  }

  lemma ProductStrict(b: real, small: real, large: real)
    requires b > 0.0 && small < large
    ensures b * small < b * large
  {
  }

  function Reals(stakes: seq<nat>): (r: seq<real>)
    ensures |r| == |stakes| && forall i :: 0 <= i < |stakes| ==> r[i] == stakes[i] as real
  {
    seq(|stakes|, i requires 0 <= i < |stakes| => stakes[i] as real)
  }

  lemma FairShare(total: real, keep: real)
    requires total >= 0.0 && keep > 0.0
    ensures total / keep >= 0.0 && keep * (total / keep) == total
  {
  }

  lemma Overcharged(payout: real, implied: real, fair: real, stake: real)
    requires implied > 0.0 && (payout - 0.5) * implied <= stake && payout > fair + 0.5
    ensures implied * fair < stake
  {
    ProductStrict(implied, fair, payout - 0.5);
  }

  ghost predicate AreBets(quotes: seq<Board>, stakes: seq<nat>) {
    && |stakes| == |quotes|
    && (forall k :: 0 <= k < |quotes| ==> k < |quotes[k].odds| && ValidOdds(quotes[k].odds[k]))
    && forall k :: 0 <= k < |quotes| && stakes[k] > 0 ==> Profit(quotes[k].odds[k], stakes[k]).Ok?
  }

  /** What each side's stake returns if that side wins. */
  function Returns(quotes: seq<Board>, stakes: seq<nat>): (r: seq<real>)
    requires AreBets(quotes, stakes)
    ensures |r| == |quotes|
  {
    seq(|quotes|, k requires 0 <= k < |quotes| => Payout(quotes[k].odds[k], stakes[k]) as real)
  }

  /** Either side k returns little, or its fair charge is less than its stake. */
  lemma ReturnOrCharge(quotes: seq<Board>, stakes: seq<nat>, fair: real, k: nat)
    requires AreBets(quotes, stakes) && k < |quotes|
    ensures Returns(quotes, stakes)[k] <= fair + 0.5 || Scale(Quoted(quotes), fair)[k] < Reals(stakes)[k]
  {
    ReturnsAgainstCharge(quotes, stakes, Quoted(quotes), fair, k);
  }

  lemma ReturnsAgainstCharge(quotes: seq<Board>, stakes: seq<nat>, prices: seq<real>, fair: real, k: nat)
    requires AreBets(quotes, stakes) && k < |quotes| == |prices|
    requires prices[k] == Implied(quotes[k].odds[k])
    ensures Returns(quotes, stakes)[k] <= fair + 0.5 || Scale(prices, fair)[k] < stakes[k] as real
  {
    var returned, price := Returns(quotes, stakes)[k], prices[k];
    assert (returned - 0.5) * price <= stakes[k] as real && price > 0.0 by {
      PayoutAgainstProbability(quotes[k].odds[k], stakes[k]);
    }
    assert Scale(prices, fair)[k] == price * fair by {
      ScaleAt(prices, fair, k);
    }
    if returned > fair + 0.5 {
      Overcharged(returned, price, fair, stakes[k] as real);
    }
  }

  lemma SomeSideIsCovered(charged: seq<real>, stakes: seq<real>, returned: seq<real>, limit: real)
    requires |charged| == |stakes| == |returned| > 0
    requires forall k :: 0 <= k < |charged| ==> returned[k] <= limit || charged[k] < stakes[k]
    requires Sum(stakes) <= Sum(charged)
    ensures exists k :: 0 <= k < |returned| && returned[k] <= limit
  {
    if forall k :: 0 <= k < |charged| ==> charged[k] < stakes[k] {
      assert charged[0] != stakes[0];
      SumStrict(charged, stakes);
    }
  }

  /** No arbitrage: whatever is staked on the quoted lines, some outcome returns
      at most the total stake less the kept margin, plus half a cent of rounding. */
  lemma NoArbitrage(exp: real -> real, opening: seq<SelectionInput>, quotes: seq<Board>, stakes: seq<nat>)
    requires AreQuotes(exp, opening, quotes) && WithinMaxOdds(opening)
    requires Sum(Priors(opening)) > 1.0 && AreBets(quotes, stakes)
    ensures var fair := FairReturn(Sum(Reals(stakes)), MarginKept(opening));
      exists k :: 0 <= k < |quotes| && Returns(quotes, stakes)[k] <= fair + 0.5
  {
    QuotesKeepMargin(exp, opening, quotes);
    CoveredAgainst(quotes, stakes, MarginKept(opening));
  }

  /** The return of `total` spread over prices that sum to `keep`. */
  function FairReturn(total: real, keep: real): real
    requires keep > 0.0
  {
    total / keep
  }

  lemma CoveredAgainst(quotes: seq<Board>, stakes: seq<nat>, keep: real)
    requires AreBets(quotes, stakes) && |quotes| > 0 && 0.0 < keep <= Sum(Quoted(quotes))
    ensures exists k :: 0 <= k < |quotes| && Returns(quotes, stakes)[k] <= FairReturn(Sum(Reals(stakes)), keep) + 0.5
  {
    var fair := FairCharge(Quoted(quotes), Sum(Reals(stakes)), keep) by {
      StakesNonNegative(Reals(stakes));
    }
    forall k | 0 <= k < |quotes|
      ensures Returns(quotes, stakes)[k] <= fair + 0.5 || Scale(Quoted(quotes), fair)[k] < Reals(stakes)[k]
    {
      ReturnOrCharge(quotes, stakes, fair, k);
    }
    SomeSideIsCovered(Scale(Quoted(quotes), fair), Reals(stakes), Returns(quotes, stakes), fair + 0.5);
  }

  /** Charging every price the fair return covers the total staked. */
  lemma FairCharge(prices: seq<real>, total: real, keep: real) returns (fair: real)
    requires total >= 0.0 && 0.0 < keep <= Sum(prices)
    ensures fair == FairReturn(total, keep)
    ensures total <= Sum(Scale(prices, fair))
  {
    fair := total / keep;
    FairShare(total, keep);
    SumScale(prices, fair);
    ProductOrder(keep, Sum(prices), fair, fair);
  }

  lemma {:induction false} StakesNonNegative(s: seq<real>)
    requires forall i :: 0 <= i < |s| ==> s[i] >= 0.0
    ensures Sum(s) >= 0.0
  {
    if s == [] {
    } else {
      StakesNonNegative(s[..|s| - 1]);
    }
  }

  // ---- What a line is worth in its inputs ----------------------------------------------

  /** The exponent of the tilt: stake over liquidity, at most 40. */
  lemma WeightIs(exp: real -> real, s: SelectionInput, liquidityCents: int, x: real)
    requires ValidSelection(s) && liquidityCents > 0
    requires x == s.stakeCents as real / liquidityCents as real
    ensures Weight(exp, s, liquidityCents) == Implied(s.openingOdds) * exp(if x < 40.0 then x else 40.0)
  {
  }

  lemma AboveFloorIsScaled(w: seq<real>, floors: seq<real>, total: real, scale: real, p: seq<real>, i: nat)
    requires IsFlooredScaling(w, floors, total, scale, p) && i < |p| && p[i] > floors[i]
    ensures p[i] == w[i] * scale
  {
    ScaleAt(w, scale, i);
  }

  /** A selection above its floor, as far as the scale common to all. */
  lemma AboveFloor(exp: real -> real, b: Board, i: nat, x: real) returns (v: real)
    requires IsDrifted(exp, b) && i < |b.selections| && b.probabilities[i] > Floors(b.selections)[i]
    requires x == b.selections[i].stakeCents as real / b.liquidityCents as real
    ensures v == Implied(b.selections[i].openingOdds) * exp(if x < 40.0 then x else 40.0)
    ensures b.probabilities[i] == v * b.scale
  {
    v := Weight(exp, b.selections[i], b.liquidityCents);
    WeightIs(exp, b.selections[i], b.liquidityCents, x);
    WeightAt(exp, b.selections, b.liquidityCents, i);
    AboveFloorIsScaled(Weights(exp, b.selections, b.liquidityCents), Floors(b.selections), Sum(Priors(b.selections)),
                       b.scale, b.probabilities, i);
  }

  lemma CrossProducts(scale: real, v: real, w: real, p: real, q: real)
    requires p == v * scale && q == w * scale
    ensures p * w == q * v
  {
    assert v * scale * w == w * scale * v;
  }

  /** Two selections above their floors stand as their opening probabilities do,
      each tilted by the exponential of its stake over the liquidity, up to 40. */
  lemma TiltedTogether(exp: real -> real, b: Board, i: nat, j: nat, x: real, y: real) returns (v: real, w: real)
    requires IsDrifted(exp, b) && i < |b.odds| && j < |b.odds|
    requires b.probabilities[i] > Floors(b.selections)[i] && b.probabilities[j] > Floors(b.selections)[j]
    requires x == b.selections[i].stakeCents as real / b.liquidityCents as real
    requires y == b.selections[j].stakeCents as real / b.liquidityCents as real
    ensures v == Implied(b.selections[i].openingOdds) * exp(if x < 40.0 then x else 40.0)
    ensures w == Implied(b.selections[j].openingOdds) * exp(if y < 40.0 then y else 40.0)
    ensures b.probabilities[i] * w == b.probabilities[j] * v
  {
    v := AboveFloor(exp, b, i, x);
    w := AboveFloor(exp, b, j, y);
    CrossProducts(b.scale, v, w, b.probabilities[i], b.probabilities[j]);
  }

  lemma ShareOf(prior: real, keep: real, total: real, kept: real, floor: real)
    requires floor == prior * keep && total * keep == kept
    ensures floor * total == prior * kept
  {
    assert prior * keep * total == prior * (total * keep);
  }

  lemma KeptIs(total: real)
    ensures Kept(total) == if total > 1.0 then 1.0 + (total - 1.0) / 5.0 else total
  {
  }

  /** A selection is never posted under its floor, and the floor is its opening
      probability's share of what must be kept: all of an overround up to one, and
      a fifth of the margin above. */
  lemma FloorIsAShare(exp: real -> real, b: Board, i: nat) returns (total: real, kept: real)
    requires IsDrifted(exp, b) && i < |b.odds|
    ensures total == Sum(Priors(b.selections)) && kept == if total > 1.0 then 1.0 + (total - 1.0) / 5.0 else total
    ensures b.probabilities[i] >= Floors(b.selections)[i]
    ensures Floors(b.selections)[i] * total == Implied(b.selections[i].openingOdds) * kept
  {
    total := Sum(Priors(b.selections));
    kept := Kept(total);
    KeptIs(total);
    OverroundPositive(b.selections);
    DriftKeeps(total);
    PriorAt(b.selections, i);
    FloorShare(b.selections, i, total, 1.0 - DriftFraction(total), kept, Implied(b.selections[i].openingOdds));
  }

  lemma FloorShare(selections: seq<SelectionInput>, i: nat, total: real, keep: real, kept: real, prior: real)
    requires ValidInputs(selections) && i < |selections| && Floors(selections) == Scale(Priors(selections), keep)
    requires Priors(selections)[i] == prior && total * keep == kept
    ensures Floors(selections)[i] * total == prior * kept
  {
    FloorIs(selections, i, keep, prior);
    ShareOf(prior, keep, total, kept, Floors(selections)[i]);
  }

  lemma FloorIs(selections: seq<SelectionInput>, i: nat, keep: real, prior: real)
    requires ValidInputs(selections) && i < |selections| && Floors(selections) == Scale(Priors(selections), keep)
    requires Priors(selections)[i] == prior
    ensures Floors(selections)[i] == prior * keep
  {
    ScaleAt(Priors(selections), keep, i);
  }

  lemma SameRatio(a: int, b: int, k: int, c: int, d: int)
    requires b > 0 && k > 0 && c == k * a && d == k * b && d > 0
    ensures c as real / d as real == a as real / b as real
  {
    var q := a as real / b as real;
    assert q * b as real == a as real;
    assert c as real == k as real * a as real && d as real == k as real * b as real;
    assert q * (k as real * b as real) == k as real * (q * b as real);
    assert q * d as real == c as real;
  }

  /** The same selection with `k` times the stake. */
  predicate HasTimes(k: int, s: SelectionInput, t: SelectionInput) {
    t.openingOdds == s.openingOdds && t.stakeCents == k * s.stakeCents
  }

  predicate AllTimes(k: int, a: seq<SelectionInput>, b: seq<SelectionInput>) {
    |a| == |b| && forall i :: 0 <= i < |a| ==> HasTimes(k, a[i], b[i])
  }

  lemma SameWeight(exp: real -> real, s: SelectionInput, t: SelectionInput, liquidity: int, scaled: int, k: int)
    requires ValidSelection(s) && ValidSelection(t) && liquidity > 0 && scaled == k * liquidity && scaled > 0 && k > 0
    requires HasTimes(k, s, t)
    ensures Weight(exp, t, scaled) == Weight(exp, s, liquidity)
  {
    SameRatio(s.stakeCents, liquidity, k, t.stakeCents, scaled);
  }

  lemma {:induction false} ScaledWeights(exp: real -> real, a: seq<SelectionInput>, b: seq<SelectionInput>, liquidity: int, scaled: int, k: int)
    requires AllTimes(k, a, b) && AllValid(a) && AllValid(b)
    requires liquidity > 0 && scaled == k * liquidity && scaled > 0 && k > 0
    ensures Weights(exp, b, scaled) == Weights(exp, a, liquidity) && Priors(b) == Priors(a)
  {
    if a != [] {
      var n := |a| - 1;
      ScaledWeights(exp, a[..n], b[..n], liquidity, scaled, k);
      SameWeight(exp, a[n], b[n], liquidity, scaled, k);
    }
  }

  /** Only the stakes' ratio to the liquidity counts: multiplying every stake and
      the liquidity by one factor leaves the board as it is. */
  lemma LiquidityIsAScale(exp: real -> real, a: Board, b: Board, k: int)
    requires IsExponential(exp) && IsRepriced(exp, a) && IsRepriced(exp, b) && k > 0
    requires b.liquidityCents == k * a.liquidityCents && |a.selections| == |b.selections|
    requires forall i :: 0 <= i < |a.selections| ==>
      b.selections[i] == SelectionInput(a.selections[i].openingOdds, k * a.selections[i].stakeCents)
    ensures a.probabilities == b.probabilities && a.odds == b.odds
  {
    assert AllTimes(k, a.selections, b.selections);
    ScaledWeights(exp, a.selections, b.selections, a.liquidityCents, b.liquidityCents, k);
    SameBoards(exp, a, b);
  }

  lemma SameScaling(w: seq<real>, floors: seq<real>, total: real, scale: real, scale': real, p: seq<real>, p': seq<real>)
    requires IsFlooredScaling(w, floors, total, scale, p) && IsFlooredScaling(w, floors, total, scale', p')
    requires w != [] && forall i :: 0 <= i < |w| ==> w[i] > 0.0
    ensures p == p'
  {
    FlooredScalingMonotone(w, w, floors, total, scale, scale', p, p', 0);
    FlooredScalingMonotone(w, w, floors, total, scale', scale, p', p, 0);
  }

  lemma SameBoards(exp: real -> real, a: Board, b: Board)
    requires IsExponential(exp) && IsRepriced(exp, a) && IsRepriced(exp, b) && Priors(a.selections) == Priors(b.selections)
    requires Weights(exp, a.selections, a.liquidityCents) == Weights(exp, b.selections, b.liquidityCents)
    ensures a.probabilities == b.probabilities && a.odds == b.odds
  {
    var w, floors, total := Weights(exp, a.selections, a.liquidityCents), Floors(a.selections), Sum(Priors(a.selections));
    WeightsPositive(exp, a.selections, a.liquidityCents);
    SameFloors(a.selections, b.selections);
    assert IsFlooredScaling(w, floors, total, a.scale, a.probabilities);
    assert IsFlooredScaling(w, floors, total, b.scale, b.probabilities);
    SameScaling(w, floors, total, a.scale, b.scale, a.probabilities, b.probabilities);
  }

  lemma SameFloors(a: seq<SelectionInput>, b: seq<SelectionInput>)
    requires ValidInputs(a) && ValidInputs(b) && Priors(a) == Priors(b)
    ensures Floors(a) == Floors(b)
  {
  }
}
