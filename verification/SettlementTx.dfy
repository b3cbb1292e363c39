/** The loops inside a settlement transaction, on its working copy of the
    tables: posting each wager, marking open legs, settling decided parlays. */
module SettlementTx {
  import opened Results
  import opened Ledger
  import opened Wagers
  import opened Settlement
  import opened Parlays
  import opened BookState
  import opened BookSettlement

  lemma {:induction false} RefusedPrefix(b: Book, ss: seq<WagerSettlement>, version: nat, n: nat)
    requires n <= |ss| && ApplySettlements(b, ss[..n], version).Err?
    ensures ApplySettlements(b, ss, version) == ApplySettlements(b, ss[..n], version)
    decreases |ss|
  {
    if n == |ss| {
      assert ss[..n] == ss;
    } else {
      assert ss[..|ss| - 1][..n] == ss[..n];
      RefusedPrefix(b, ss[..|ss| - 1], version, n);
    }
  }

  /** settleWith's loop over the computed settlements. */
  method PostSettlements(b: Book, ss: seq<WagerSettlement>, version: nat) returns (r: Result<Book>)
    ensures r == ApplySettlements(b, ss, version)
  {
    var work := b;
    for i := 0 to |ss|
      invariant ApplySettlements(b, ss[..i], version) == Ok(work)
    {
      assert ss[..i + 1][..i] == ss[..i];
      var posted := Post(work, SettleTxn(ss[i], version));
      if posted.Err? {
        RefusedPrefix(b, ss, version, i + 1);
        return Err(posted.error);
      }
      if ss[i].wager !in posted.value.wagers {
        RefusedPrefix(b, ss, version, i + 1);
        return Err(NotFound);
      }
      work := Put(posted.value, posted.value.wagers[ss[i].wager].(state := NextState(ss[i].grade)));
    }
    assert ss[..|ss|] == ss;
    return Ok(work);
  }

  // ---- Marking open legs ---------------------------------------------------------------------

  predicate OpenLegsGraded(legs: seq<Leg>, market: Id, outcome: Option<map<Id, Grade>>) {
    outcome.Some? ==>
      forall i :: 0 <= i < |legs| && IsOpenOn(legs[i], market) ==> legs[i].selection in outcome.value
  }

  predicate HasOpenOn(legs: seq<Leg>, market: Id) {
    exists i :: 0 <= i < |legs| && IsOpenOn(legs[i], market)
  }

  /** Mark one parlay's open legs on the market, or report an ungraded one. */
  method MarkOpenLegs(legs: seq<Leg>, market: Id, outcome: Option<map<Id, Grade>>)
    returns (marked: Option<seq<Leg>>, touched: bool)
    ensures marked == if OpenLegsGraded(legs, market, outcome) then Some(MarkLegs(legs, market, outcome)) else None
    ensures marked.Some? ==> touched == HasOpenOn(legs, market)
  {
    touched := false;
    var done := legs;
    for i := 0 to |legs|
      invariant |done| == |legs|
      invariant OpenLegsGraded(legs[..i], market, outcome)
      invariant forall k :: 0 <= k < i ==> done[k] == MarkLegs(legs, market, outcome)[k]
      invariant forall k :: i <= k < |legs| ==> done[k] == legs[k]
      invariant touched == HasOpenOn(legs[..i], market)
    {
      if IsOpenOn(legs[i], market) {
        if outcome.Some? && legs[i].selection !in outcome.value {
          return None, touched;
        }
        touched := true;
        done := done[i := legs[i].(result := Some(LegGrade(legs[i], outcome)))];
        assert IsOpenOn(legs[..i + 1][i], market);
      }
      SameOpen(legs, market, i);
    }
    assert legs[..|legs|] == legs;
    assert done == MarkLegs(legs, market, outcome);
    return Some(done), touched;
  }

  lemma SameOpen(legs: seq<Leg>, market: Id, i: nat)
    requires i < |legs|
    ensures HasOpenOn(legs[..i + 1], market) <==> HasOpenOn(legs[..i], market) || IsOpenOn(legs[i], market)
  {
    assert legs[..i + 1] == legs[..i] + [legs[i]];
    if HasOpenOn(legs[..i], market) {
      var k :| 0 <= k < i && IsOpenOn(legs[..i][k], market);
      assert IsOpenOn(legs[..i + 1][k], market);
    }
    if IsOpenOn(legs[i], market) {
      assert IsOpenOn(legs[..i + 1][i], market);
    }
  }

  ghost predicate MarkedSoFar(b: Book, market: Id, outcome: Option<map<Id, Grade>>, rest: set<Id>,
                        parlays: map<Id, Parlay>, affected: set<Id>) {
    && parlays.Keys == b.parlays.Keys
    && (forall id :: id in b.parlays ==>
          parlays[id] == if id in rest then b.parlays[id] else MarkedParlay(b.parlays[id], market, outcome))
    && (forall id :: id in affected <==> id in b.parlays && id !in rest && IsAffected(b.parlays[id], market))
    && (forall id :: id in b.parlays && id !in rest && outcome.Some? ==> LegsGraded(b.parlays[id], market, outcome.value))
  }

  /** Mark one parlay, if it is accepted. */
  method MarkOne(p: Parlay, market: Id, outcome: Option<map<Id, Grade>>) returns (marked: Option<Parlay>, touched: bool)
    ensures marked.Some? <==> (outcome.Some? ==> LegsGraded(p, market, outcome.value))
    ensures marked.Some? ==> marked.value == MarkedParlay(p, market, outcome) && touched == IsAffected(p, market)
  {
    if p.state != Accepted {
      return Some(p), false;
    }
    var legs;
    legs, touched := MarkOpenLegs(p.legs, market, outcome);
    if legs.None? {
      return None, touched;
    }
    assert touched == IsAffected(p, market);
    if !touched {
      return Some(p), false;
    }
    return Some(p.(legs := legs.value)), true;
  }

  lemma MarkedStep(b: Book, market: Id, outcome: Option<map<Id, Grade>>, rest: set<Id>, parlays: map<Id, Parlay>,
                   affected: set<Id>, id: Id)
    requires MarkedSoFar(b, market, outcome, rest, parlays, affected) && id in rest && id in b.parlays
    requires outcome.Some? ==> LegsGraded(b.parlays[id], market, outcome.value)
    ensures MarkedSoFar(b, market, outcome, rest - {id}, parlays[id := MarkedParlay(b.parlays[id], market, outcome)],
                        if IsAffected(b.parlays[id], market) then affected + {id} else affected)
  {
  }

  lemma MarkedAll(b: Book, market: Id, outcome: Option<map<Id, Grade>>, parlays: map<Id, Parlay>, affected: set<Id>)
    requires MarkedSoFar(b, market, outcome, {}, parlays, affected)
    ensures LegsCovered(b, market, outcome)
    ensures parlays == MarkParlays(b, market, outcome).parlays && affected == Affected(b, market)
  {
  }

  /** resolveParlayLegsTx's first loop: every open leg of every accepted parlay. */
  method MarkAccepted(b: Book, market: Id, outcome: Option<map<Id, Grade>>)
    returns (r: Result<map<Id, Parlay>>, affected: set<Id>)
    ensures r == if LegsCovered(b, market, outcome) then Ok(MarkParlays(b, market, outcome).parlays) else Err(IncompleteOutcome)
    ensures r.Ok? ==> affected == Affected(b, market)
  {
    affected := {};
    var parlays, rest := b.parlays, b.parlays.Keys;
    while rest != {}
      invariant rest <= b.parlays.Keys
      invariant MarkedSoFar(b, market, outcome, rest, parlays, affected)
      decreases rest
    {
      var id :| id in rest;
      var marked, touched := MarkOne(b.parlays[id], market, outcome);
      if marked.None? {
        return Err(IncompleteOutcome), affected;
      }
      MarkedStep(b, market, outcome, rest, parlays, affected, id);
      parlays := parlays[id := marked.value];
      if touched {
        affected := affected + {id};
      }
      rest := rest - {id};
    }
    MarkedAll(b, market, outcome, parlays, affected);
    return Ok(parlays), affected;
  }

  // ---- Settling decided parlays ----------------------------------------------------------------

  /** settleParlayIfCompleteTx's scan and its fill of a dead parlay's open legs. */
  method DecideParlay(p: Parlay) returns (outcome: Option<Result<ParlayOutcome>>)
    ensures outcome == Decide(p, DEFAULT_JUICE)
  {
    var open, lost := 0, false;
    for i := 0 to |p.legs|
      invariant open > 0 <==> exists k :: 0 <= k < i && p.legs[k].result.None?
      invariant lost <==> exists k :: 0 <= k < i && p.legs[k].result == Some(Loss)
    {
      match p.legs[i].result
      case None => open := open + 1;
      case Some(Loss) => lost := true;
      case _ =>
    }
    if open > 0 && !lost {
      return None;
    }
    var legs := p.legs;
    if lost {
      for i := 0 to |legs|
        invariant |legs| == |p.legs|
        invariant forall k :: 0 <= k < i ==> legs[k] == Filled(p.legs)[k]
        invariant forall k :: i <= k < |legs| ==> legs[k] == p.legs[k]
      {
        if legs[i].result.None? {
          legs := legs[i := legs[i].(result := Some(Void))];
        }
      }
      assert legs == Filled(p.legs);
    }
    var graded := GradeParlayLegs(p.(legs := legs), DEFAULT_JUICE);
    return Some(graded);
  }

  method SettleOneParlay(b: Book, id: Id) returns (r: Result<Book>)
    ensures r == SettleParlayIfComplete(b, id)
  {
    if id !in b.parlays {
      return Err(NotFound);
    }
    var parlay := b.parlays[id];
    var decided := DecideParlay(parlay);
    match decided
    case None => return Ok(b);
    case Some(Err(e)) => return Err(e);
    case Some(Ok(outcome)) =>
      var verdict := ValidatePostings(parlay.stake.currency, ParlayPostings(parlay, outcome));
      if verdict.Err? {
        return Err(Unbalanced);
      }
      var posted := Post(b, ParlaySettleTxn(parlay, outcome));
      if posted.Err? {
        return Err(posted.error);
      }
      return Ok(PutParlay(posted.value, parlay.(state := Graded)));
  }

  lemma {:induction false} RefusedVisit(b: Book, order: seq<Id>, n: nat)
    requires n <= |order| && SettleParlays(b, order[..n]).Err?
    ensures SettleParlays(b, order) == SettleParlays(b, order[..n])
    decreases |order|
  {
    if n == |order| {
      assert order[..n] == order;
    } else {
      assert order[..|order| - 1][..n] == order[..n];
      RefusedVisit(b, order[..|order| - 1], n);
    }
  }

  method VisitParlays(b: Book, order: seq<Id>) returns (r: Result<Book>)
    ensures r == SettleParlays(b, order)
  {
    var work := b;
    for i := 0 to |order|
      invariant SettleParlays(b, order[..i]) == Ok(work)
    {
      assert order[..i + 1][..i] == order[..i];
      var next := SettleOneParlay(work, order[i]);
      if next.Err? {
        RefusedVisit(b, order, i + 1);
        return Err(next.error);
      }
      work := next.value;
    }
    assert order[..|order|] == order;
    return Ok(work);
  }

  ghost predicate Enumerates(order: seq<Id>, ids: set<Id>) {
    DistinctOrder(order) && forall id :: id in order <==> id in ids
  }

  /** A map's keys in some order. */
  method InSomeOrder(ids: set<Id>) returns (order: seq<Id>)
    ensures Enumerates(order, ids)
  {
    order := [];
    var rest := ids;
    while rest != {}
      invariant rest <= ids && Enumerates(order, ids - rest)
      decreases rest
    {
      var id :| id in rest;
      rest := rest - {id};
      order := order + [id];
    }
    assert ids - rest == ids;
  }

  /** resolveParlayLegsTx: mark, then settle the affected parlays in any order. */
  method ResolveParlayLegs(b: Book, market: Id, outcome: Option<map<Id, Grade>>)
    returns (r: Result<Book>, order: seq<Id>)
    ensures Enumerates(order, Affected(b, market)) || !LegsCovered(b, market, outcome)
    ensures r == ResolveParlays(b, market, outcome, order)
  {
    var marked, affected := MarkAccepted(b, market, outcome);
    if marked.Err? {
      return Err(marked.error), [];
    }
    order := InSomeOrder(affected);
    r := VisitParlays(b.(parlays := marked.value), order);
  }
}
