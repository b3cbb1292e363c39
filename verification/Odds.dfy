/** Implied probability and the integer American line (internal/pricing),
    over exact reals. */
module Odds {
  import opened Ledger

  const MAX_ODDS := 10000

  // The window of probabilities a line of magnitude MAX_ODDS can express.
  const MIN_PROBABILITY := 100.0 / (MAX_ODDS as real + 100.0)
  const MAX_PROBABILITY := MAX_ODDS as real / (MAX_ODDS as real + 100.0)

  function Implied(odds: int): (p: real)
    requires ValidOdds(odds)
    ensures 0.0 < p < 1.0
  {
    if odds > 0 then 100.0 / (odds as real + 100.0)
    else (-odds) as real / ((-odds) as real + 100.0)
  }

  /** math.Round on a non-negative argument. */
  function Round(x: real): int {
    (x + 0.5).Floor
  }

  function Clamp(p: real): real {
    if p < MIN_PROBABILITY then MIN_PROBABILITY
    else if p > MAX_PROBABILITY then MAX_PROBABILITY
    else p
  }

  /** AmericanFromProbability: the nearest line, clamped to MAX_ODDS. */
  function American(probability: real): int {
    var p := Clamp(probability);
    if p <= 0.5 then
      var value := Round(100.0 * (1.0 - p) / p);
      if value < 100 then 100 else if value > MAX_ODDS then MAX_ODDS else value
    else
      var value := -Round(100.0 * p / (1.0 - p));
      if value > -100 then -100 else if value < -MAX_ODDS then -MAX_ODDS else value
  }

  /** shortenOnePoint: one American point toward the book. */
  function Shorten(odds: int): int {
    if odds > 100 then odds - 1
    else if odds == 100 then -100
    else if odds > -MAX_ODDS then odds - 1
    else odds
  }

  /** Where a line stands when lines are listed from longest to shortest:
      ..., +101, +100, -100, -101, ... */
  function Position(odds: int): int
    requires ValidOdds(odds)
  {
    if odds > 0 then 100 - odds else -odds - 99
  }

  // ---- Reciprocals ---------------------------------------------------------

  lemma QuotientOrder(a: real, small: real, large: real)
    requires a >= 0.0 && 0.0 < small <= large
    ensures a / large <= a / small
  {
    var q := a / large;
    assert q * large == a;
    assert q >= 0.0;
    assert q * small <= q * large;
  }

  lemma UnderdogLine(p: real)
    requires 0.0 < p
    ensures 100.0 * (1.0 - p) / p == 100.0 / p - 100.0
  {
    var x := 100.0 / p;
    assert x * p == 100.0;
    assert (x - 100.0) * p == 100.0 * (1.0 - p);
  }

  lemma FavouriteLine(p: real)
    requires p < 1.0
    ensures 100.0 * p / (1.0 - p) == 100.0 / (1.0 - p) - 100.0
  {
    var x := 100.0 / (1.0 - p);
    assert x * (1.0 - p) == 100.0;
    assert (x - 100.0) * (1.0 - p) == 100.0 * p;
  }

  /** 100 / (v + 100) against p, decided by v against 100 / p - 100. */
  lemma LineAgainst(v: real, p: real)
    requires v >= 0.0 && 0.0 < p
    ensures v <= 100.0 / p - 100.0 ==> p <= 100.0 / (v + 100.0)
    ensures v >= 100.0 / p - 100.0 ==> p >= 100.0 / (v + 100.0)
  {
    var x := 100.0 / p;
    assert x * p == 100.0;
    if v + 100.0 <= x {
      QuotientOrder(100.0, v + 100.0, x);
      assert 100.0 / x == p;
    }
    if v + 100.0 >= x {
      assert x > 0.0;
      QuotientOrder(100.0, x, v + 100.0);
      assert 100.0 / x == p;
    }
  }

  lemma Complement(m: real)
    requires m >= 0.0
    ensures m / (m + 100.0) == 1.0 - 100.0 / (m + 100.0)
  {
    var q := 100.0 / (m + 100.0);
    assert q * (m + 100.0) == 100.0;
    assert (1.0 - q) * (m + 100.0) == m;
  }

  // ---- The line is monotone and at most one point off ------------------------

  lemma ImpliedByPosition(a: int, b: int)
    requires ValidOdds(a) && ValidOdds(b) && Position(a) <= Position(b)
    ensures Implied(a) <= Implied(b)
  {
    if a > 0 && b > 0 {
      QuotientOrder(100.0, b as real + 100.0, a as real + 100.0);
    } else if a < 0 && b < 0 {
      Complement((-a) as real);
      Complement((-b) as real);
      QuotientOrder(100.0, (-a) as real + 100.0, (-b) as real + 100.0);
    } else {
      QuotientOrder(100.0, 200.0, a as real + 100.0);
      Complement((-b) as real);
      QuotientOrder(100.0, 200.0, (-b) as real + 100.0);
    }
  }

  lemma UnderdogRecovered(odds: int)
    requires 100 <= odds <= MAX_ODDS
    ensures American(Implied(odds)) == odds
  {
    var p := Implied(odds);
    ImpliedByPosition(MAX_ODDS, odds);
    ImpliedByPosition(odds, 100);
    UnderdogLine(p);
    assert p * (odds as real + 100.0) == 100.0;
    assert 100.0 / p == odds as real + 100.0;
  }

  lemma FavouriteRecovered(odds: int)
    requires -MAX_ODDS <= odds < -100
    ensures American(Implied(odds)) == odds
  {
    var p := Implied(odds);
    ImpliedByPosition(odds, -MAX_ODDS);
    StrictlyShorter(odds);
    Complement((-odds) as real);
    FavouriteLine(p);
    assert (1.0 - p) * ((-odds) as real + 100.0) == 100.0;
    assert 100.0 / (1.0 - p) == (-odds) as real + 100.0;
  }

  /** A line's probability is recovered exactly, and -100 reads back as +100. */
  lemma AmericanOfImplied(odds: int)
    requires ValidOdds(odds) && -MAX_ODDS <= odds <= MAX_ODDS
    ensures American(Implied(odds)) == if odds == -100 then 100 else odds
  {
    if odds > 0 {
      UnderdogRecovered(odds);
    } else if odds == -100 {
      assert Implied(odds) == 0.5;
    } else {
      FavouriteRecovered(odds);
    }
  }

  lemma StrictlyShorter(odds: int)
    requires odds < -100
    ensures Implied(odds) > 0.5
  {
    var m := (-odds) as real;
    assert Implied(odds) * (m + 100.0) == m;
    assert 0.5 * (m + 100.0) < m;
  }

  lemma AmericanIsALine(p: real)
    ensures var odds := American(p);
      ValidOdds(odds) && -MAX_ODDS <= odds <= MAX_ODDS && (odds > 0 <==> Clamp(p) <= 0.5)
  {
  }

  lemma AmericanMonotone(p: real, p': real)
    requires p <= p'
    ensures ValidOdds(American(p)) && ValidOdds(American(p'))
    ensures Position(American(p)) <= Position(American(p'))
  {
    AmericanIsALine(p);
    AmericanIsALine(p');
    var c, c' := Clamp(p), Clamp(p');
    assert 0.0 < c <= c' < 1.0;
    if c' <= 0.5 {
      UnderdogLine(c);
      UnderdogLine(c');
      QuotientOrder(100.0, c, c');
    } else if c > 0.5 {
      FavouriteLine(c);
      FavouriteLine(c');
      QuotientOrder(100.0, 1.0 - c', 1.0 - c);
    }
  }

  lemma RoundIsNearest(x: real)
    ensures -0.5 < Round(x) as real - x <= 0.5
  {
  }

  lemma UnderdogIsNearest(p: real)
    requires 100.0 / 10100.0 <= p <= 0.5
    ensures 100 <= American(p) <= 10000 && -0.5 < American(p) as real - (100.0 / p - 100.0) <= 0.5
  {
    UnderdogLine(p);
    QuotientOrder(100.0, 100.0 / 10100.0, p);
    QuotientOrder(100.0, p, 0.5);
    assert 100.0 / (100.0 / 10100.0) == 10100.0;
    RoundIsNearest(100.0 / p - 100.0);
  }

  lemma FavouriteIsNearest(p: real)
    requires 0.5 < p <= 10000.0 / 10100.0
    ensures -10000 <= American(p) <= -100 && -0.5 <= American(p) as real + (100.0 / (1.0 - p) - 100.0) < 0.5
  {
    FavouriteLine(p);
    QuotientOrder(100.0, 1.0 - 10000.0 / 10100.0, 1.0 - p);
    QuotientOrder(100.0, 1.0 - p, 0.5);
    assert 100.0 / (1.0 - 10000.0 / 10100.0) == 10100.0;
    RoundIsNearest(100.0 / (1.0 - p) - 100.0);
  }

  /** The line nearest to a probability, exact halves away from even money; a
      probability no posted line expresses gets the last line on its side. */
  lemma AmericanIsNearest(p: real)
    ensures 100.0 / 10100.0 <= p <= 0.5 ==> -0.5 < American(p) as real - (100.0 / p - 100.0) <= 0.5
    ensures 0.5 < p <= 10000.0 / 10100.0 ==> -0.5 <= American(p) as real + (100.0 / (1.0 - p) - 100.0) < 0.5
    ensures p <= 100.0 / 10100.0 ==> American(p) == 10000
    ensures p >= 10000.0 / 10100.0 ==> American(p) == -10000
  {
    if 100.0 / 10100.0 <= p <= 0.5 {
      UnderdogIsNearest(p);
    } else if 0.5 < p <= 10000.0 / 10100.0 {
      FavouriteIsNearest(p);
    }
    if p <= 100.0 / 10100.0 {
      AmericanOfImplied(10000);
    } else if p >= 10000.0 / 10100.0 {
      AmericanOfImplied(-10000);
    }
  }

  /** A line's probability is what makes its payout fair. */
  lemma ImpliedIsFair(odds: int)
    requires ValidOdds(odds)
    ensures odds > 0 ==> Implied(odds) * (100.0 + odds as real) == 100.0
    ensures odds < 0 ==> Implied(odds) * (100.0 + (-odds) as real) == (-odds) as real
    ensures Implied(odds) * (PayoutRatio(odds).0 + PayoutRatio(odds).1) as real == PayoutRatio(odds).1 as real
  {
  }

  lemma UnderdogWithinOnePoint(p: real)
    requires MIN_PROBABILITY <= p <= 0.5
    ensures var odds := American(p);
      odds >= 100 && (odds == 100 || Implied(Shorten(odds)) >= p) && (odds == 100 ==> Implied(odds) >= p)
  {
    UnderdogLine(p);
    LineAgainst(100.0, 0.5);
    QuotientOrder(100.0, MIN_PROBABILITY, p);
    QuotientOrder(100.0, p, 0.5);
    var x := 100.0 / p - 100.0;
    var odds := American(p);
    assert 100.0 / MIN_PROBABILITY == MAX_ODDS as real + 100.0;
    assert 100.0 <= x <= MAX_ODDS as real;
    if odds > 100 {
      assert Shorten(odds) as real <= x;
      LineAgainst(Shorten(odds) as real, p);
    }
  }

  lemma FavouriteWithinOnePoint(p: real)
    requires 0.5 < p <= MAX_PROBABILITY
    ensures var odds := American(p);
      odds <= -100 && (odds == -MAX_ODDS ==> Implied(odds) >= p) && (odds > -MAX_ODDS ==> Implied(Shorten(odds)) >= p)
  {
    FavouriteLine(p);
    var c := 1.0 - p;
    QuotientOrder(100.0, 1.0 - MAX_PROBABILITY, c);
    QuotientOrder(100.0, c, 0.5);
    var y := 100.0 / c - 100.0;
    assert 100.0 / (1.0 - MAX_PROBABILITY) == MAX_ODDS as real + 100.0;
    assert 100.0 <= y <= MAX_ODDS as real;
    var odds := American(p);
    if odds > -MAX_ODDS {
      var m := (-Shorten(odds)) as real;
      assert m >= y;
      LineAgainst(m, c);
      Complement(m);
    }
  }

  // ---- The walk back to the floor --------------------------------------------

  /** The posted line: the nearest one, moved a single point when rounding left
      it more generous than the floor. */
  function Posted(probability: real, floor: real): int {
    var odds := American(probability);
    if Implied(odds) < floor then Shorten(odds) else odds
  }

  /** One point is always enough: the posted line clears its floor exactly when
      the floor is a probability MAX_ODDS can express. */
  lemma PostedClearsFloor(p: real, floor: real)
    requires floor <= p
    ensures ValidOdds(Posted(p, floor))
    ensures Implied(Posted(p, floor)) >= floor <==> floor <= MAX_PROBABILITY
  {
    AmericanIsALine(p);
    var c, odds := Clamp(p), American(p);
    assert American(c) == odds;
    if c <= 0.5 {
      UnderdogWithinOnePoint(c);
    } else {
      FavouriteWithinOnePoint(c);
    }
    ImpliedByPosition(Posted(p, floor), -MAX_ODDS);
  }

  /** The posted line is the first that clears its floor, counted from the nearest
      line toward the book. */
  lemma PostedIsFirstClear(p: real, floor: real, odds: int)
    requires ValidOdds(odds) && Position(American(p)) <= Position(odds) && Implied(odds) >= floor
    ensures ValidOdds(Posted(p, floor))
    ensures Position(American(p)) <= Position(Posted(p, floor)) <= Position(odds)
  {
    AmericanIsALine(p);
  }

  /** A larger probability never posts a longer line. */
  lemma PostedMonotone(p: real, p': real, floor: real)
    requires floor <= p <= p'
    ensures ValidOdds(Posted(p, floor)) && ValidOdds(Posted(p', floor))
    ensures Position(Posted(p, floor)) <= Position(Posted(p', floor))
  {
    AmericanMonotone(p, p');
    AmericanIsALine(p);
    AmericanIsALine(p');
  }

  /** The loop of Reprice: walk back until the floor is cleared, the line stops
      moving or maxSteps is reached. It takes at most one step. */
  method WalkBack(probability: real, floor: real, maxSteps: nat) returns (odds: int)
    requires floor <= probability && maxSteps >= 1
    ensures odds == Posted(probability, floor)
    ensures ValidOdds(odds) && -MAX_ODDS <= odds <= MAX_ODDS
  {
    AmericanIsALine(probability);
    PostedClearsFloor(probability, floor);
    odds := American(probability);
    var step := 0;
    while step < maxSteps && Implied(odds) < floor
      invariant 0 <= step <= maxSteps
      invariant ValidOdds(odds) && -MAX_ODDS <= odds <= MAX_ODDS
      invariant odds == American(probability) || odds == Posted(probability, floor)
      invariant step == 0 ==> odds == American(probability)
      invariant step > 0 ==> odds == Posted(probability, floor) && odds != American(probability)
      decreases maxSteps - step
    {
      var shorter := Shorten(odds);
      if shorter == odds {
        break;
      }
      odds := shorter;
      step := step + 1;
    }
  }
}
