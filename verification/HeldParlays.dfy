/** How a held parlay ends, and when none of its ways out is left: it waits on a
    market that was decided before its acceptance committed. */
module HeldParlays {
  import opened Results
  import opened Ledger
  import opened Wagers
  import opened Settlement
  import opened Parlays
  import opened BookState
  import opened BookInvariant
  import opened BookSettlement
  import opened BookChanges
  import opened BookHistory
  import opened BookPayments
  import opened BookRuns
  import opened BookOutcomes

  // ---- How a held parlay ends --------------------------------------------------------------------

  lemma MarkedLoses(p: Parlay, market: Id, outcome: map<Id, Grade>, i: nat)
    requires i < |p.legs| && IsOpenOn(p.legs[i], market)
    requires p.legs[i].selection in outcome && outcome[p.legs[i].selection] == Loss
    ensures HasLoss(MarkLegs(p.legs, market, Some(outcome)))
  {
    assert MarkLegs(p.legs, market, Some(outcome))[i].result == Some(Loss);
  }

  /** Grading an open leg a loss settles the parlay, other open legs or not. */
  lemma LosingLegEndsTheParlay(b: Book, market: Id, outcome: map<Id, Grade>, declared: bool, plan: Plan, id: Id, i: nat)
    requires Sound(b) && IsPlan(b, market, plan) && id in b.parlays && b.parlays[id].state == Accepted
    requires i < |b.parlays[id].legs| && IsOpenOn(b.parlays[id].legs[i], market)
    requires b.parlays[id].legs[i].selection in outcome && outcome[b.parlays[id].legs[i].selection] == Loss
    requires SettleWith(b, market, Some(outcome), false, declared, 0, plan).Ok?
    ensures var after := SettleWith(b, market, Some(outcome), false, declared, 0, plan).value;
      id in after.parlays && after.parlays[id].state == Graded
  {
    var divisor, ss, posted := SettleWithSettles(b, market, Some(outcome), false, declared, 0, plan);
    var after := SettleWith(b, market, Some(outcome), false, declared, 0, plan).value;
    EndsGraded(b, market, outcome, after, id, i);
  }

  lemma EndsGraded(b: Book, market: Id, outcome: map<Id, Grade>, after: Book, id: Id, i: nat)
    requires ParlaysSettled(b.parlays, market, Some(outcome), after.parlays)
    requires id in b.parlays && b.parlays[id].state == Accepted
    requires i < |b.parlays[id].legs| && IsOpenOn(b.parlays[id].legs[i], market)
    requires b.parlays[id].legs[i].selection in outcome && outcome[b.parlays[id].legs[i].selection] == Loss
    ensures id in after.parlays && after.parlays[id].state == Graded
  {
    assert IsNextParlay(b.parlays[id], market, Some(outcome), after.parlays[id]);
    MarkedLoses(b.parlays[id], market, outcome, i);
  }

  /** Every selection loses. */
  function AllLoss(m: Market): map<Id, Grade> {
    map s | s in m.lines :: Loss
  }

  lemma AllLossPays(b: Book, market: Id)
    requires ShapesSound(b) && market in b.markets
    ensures ParlaysPay(b, market, Some(AllLoss(b.markets[market])))
    ensures EveryAccepted(b.wagers, market, Fits(Some(AllLoss(b.markets[market])), 1))
  {
    var outcome := AllLoss(b.markets[market]);
    forall id | id in b.parlays && IsAffected(b.parlays[id], market) ensures Pays(MarkedParlay(b.parlays[id], market, Some(outcome))) {
      var p := b.parlays[id];
      assert ParlayShape(b.markets, p);
      var i :| 0 <= i < |p.legs| && IsOpenOn(p.legs[i], market);
      assert LegShape(b.markets, p.legs[i]);
      MarkedLoses(p, market, outcome, i);
      MarkedShape(b.markets, p, market, Some(outcome));
    }
    forall id | id in b.wagers && AcceptedOn(b.wagers[id], market)
      ensures Fits(Some(outcome), 1)(b.wagers[id])
    {
      assert GradeIn(Some(outcome), b.wagers[id].selection) != Win;
    }
  }

  predicate IsHeld(b: Book, id: Id) {
    id in b.parlays && b.parlays[id].state == Accepted
  }

  /** Leg `i` is open on a market that is still to be decided. */
  predicate WaitsOn(b: Book, id: Id, i: nat)
    requires id in b.parlays && i < |b.parlays[id].legs|
  {
    var leg := b.parlays[id].legs[i];
    leg.result.None? && leg.market in b.markets && !IsDecided(b.markets[leg.market].state)
  }

  /** Every open leg on an undecided market is a way out: grading all of that
      market's selections as losses commits, whatever else is held, and settles
      the parlay. */
  lemma HeldParlaysHaveAWayOut(ops: seq<Op>, id: Id, i: nat, plan: Plan)
    requires IsHeld(Run(ops), id) && i < |Run(ops).parlays[id].legs| && WaitsOn(Run(ops), id, i)
    requires IsPlan(Run(ops), Run(ops).parlays[id].legs[i].market, plan)
    ensures IsGradedAway(Run(ops), Run(ops).parlays[id].legs[i].market, id, plan)
  {
    RunIsHealthy(ops);
    WayOut(Run(ops), SlackOf(ops), id, i, plan);
  }

  /** The settlement that grades everything a loss commits and grades the parlay. */
  predicate IsGradedAway(b: Book, market: Id, id: Id, plan: Plan)
    requires market in b.markets
  {
    var settled := SettleWith(b, market, Some(AllLoss(b.markets[market])), false, false, 0, plan);
    settled.Ok? && id in settled.value.parlays && settled.value.parlays[id].state == Graded
  }

  lemma WayOut(b: Book, slack: Slack, id: Id, i: nat, plan: Plan)
    requires Healthy(b, slack) && IsHeld(b, id) && i < |b.parlays[id].legs| && WaitsOn(b, id, i)
    requires IsPlan(b, b.parlays[id].legs[i].market, plan)
    ensures IsGradedAway(b, b.parlays[id].legs[i].market, id, plan)
  {
    var p, market := b.parlays[id], b.parlays[id].legs[i].market;
    SoundShapes(b);
    OfferedLeg(b, id, i);
    AllLossCommits(b, market, plan);
    LosingLegEndsTheParlay(b, market, AllLoss(b.markets[market]), false, plan, id, i);
  }

  lemma AllLossCommits(b: Book, market: Id, plan: Plan)
    requires Sound(b) && IsPlan(b, market, plan)
    requires market in b.markets && b.markets[market].state in {Open, Closed, SettlementPending}
    ensures SettleWith(b, market, Some(AllLoss(b.markets[market])), false, false, 0, plan).Ok?
  {
    SoundShapes(b);
    AllLossPays(b, market);
    CommitsIn(b, market, Some(AllLoss(b.markets[market])), false, 1, plan);
  }

  lemma OfferedLeg(b: Book, id: Id, i: nat)
    requires ShapesSound(b) && IsHeld(b, id) && i < |b.parlays[id].legs| && WaitsOn(b, id, i)
    ensures var market := b.parlays[id].legs[i].market;
      && market in b.markets && b.markets[market].state in {Open, Closed, SettlementPending}
      && b.parlays[id].legs[i].selection in b.markets[market].lines
  {
    assert ParlayShape(b.markets, b.parlays[id]);
    assert LegShape(b.markets, b.parlays[id].legs[i]);
  }

  // ---- A settlement can always be planned --------------------------------------------------

  ghost predicate ListsWagers(b: Book, ids: set<Id>, rows: seq<Wager>) {
    DistinctIds(rows) && forall w :: w in rows <==> w.id in ids && w.id in b.wagers && b.wagers[w.id] == w
  }

  lemma {:induction false} WagersCanBeListed(b: Book, ids: set<Id>) returns (rows: seq<Wager>)
    requires OwnRows(b) && ids <= b.wagers.Keys
    ensures ListsWagers(b, ids, rows)
    decreases ids
  {
    if ids == {} {
      rows := [];
    } else {
      var id :| id in ids;
      var rest := WagersCanBeListed(b, ids - {id});
      rows := [b.wagers[id]] + rest;
    }
  }

  lemma {:induction false} IdsCanBeListed(ids: set<Id>) returns (order: seq<Id>)
    ensures (forall i, j :: 0 <= i < j < |order| ==> order[i] != order[j]) && forall id :: id in order <==> id in ids
    decreases ids
  {
    if ids == {} {
      order := [];
    } else {
      var id :| id in ids;
      var rest := IdsCanBeListed(ids - {id});
      order := [id] + rest;
    }
  }

  lemma SomePlan(b: Book, market: Id) returns (plan: Plan)
    requires OwnRows(b)
    ensures IsPlan(b, market, plan)
  {
    var rows := WagersCanBeListed(b, set id | id in b.wagers && b.wagers[id].market == market);
    var order := IdsCanBeListed(Affected(b, market));
    plan := Plan(rows, order);
  }

  /** A parlay with an open leg on an undecided market can be ended. */
  lemma HeldParlayCanEnd(ops: seq<Op>, id: Id, i: nat) returns (op: Op)
    requires IsHeld(Run(ops), id) && i < |Run(ops).parlays[id].legs| && WaitsOn(Run(ops), id, i)
    ensures op.OpSettle? && id in Run(ops + [op]).parlays && Run(ops + [op]).parlays[id].state == Graded
  {
    var b, market := Run(ops), Run(ops).parlays[id].legs[i].market;
    RunIsHealthy(ops);
    SoundParlays(b);
    var plan := SomePlan(b, market);
    HeldParlaysHaveAWayOut(ops, id, i, plan);
    op := OpSettle(market, AllLoss(b.markets[market]), false, plan);
    assert (ops + [op])[..|ops|] == ops;
    StepCommits(b, op);
  }

  // ---- Accepted behind a decision -------------------------------------------------------------

  lemma SettlesAcceptsNobody(b: Book, after: Book, id: Id)
    requires Settles(b, after) && id in b.parlays && b.parlays[id].state == Pending
    ensures id in after.parlays && after.parlays[id].state == Pending
  {
    var market, outcome, divisor, ss, posted :| SettleChange(b, market, outcome, divisor, ss, posted, after);
    assert IsNextParlay(b.parlays[id], market, outcome, after.parlays[id]);
  }

  lemma NewlyBehind(b: Book, how: Check, after: Book, id: Id)
    requires Change(b, how, after) && id in BehindIn(b, after)
    ensures how == Earlier && ParlayChange(b, id, how, after)
  {
    if Settles(b, after) {
      SettlesAcceptsNobody(b, after, id);
    }
    var x :| ParlayChange(b, x, how, after);
    assert x == id;
  }

  /** `op` commits an acceptance that had found every leg's market undecided,
      though one is decided by now. */
  ghost predicate AcceptsBehind(b: Book, op: Op, id: Id) {
    op.OpAcceptParlayLate? && op.id == id && id in BehindIn(b, Step(b, op))
  }

  lemma BehindOp(b: Book, op: Op, id: Id)
    requires Sound(b) && KindsMatch(b.log) && id in BehindIn(b, Step(b, op))
    ensures AcceptsBehind(b, op, id)
  {
    StepIsAChange(b, op);
    NewlyBehind(b, CheckOf(op), Step(b, op), id);
    SoundParlays(b);
    BehindOpIs(b, op, id);
  }

  lemma BehindOpIs(b: Book, op: Op, id: Id)
    requires OwnRows(b) && CheckOf(op) == Earlier && id in BehindIn(b, Step(b, op))
    ensures op.OpAcceptParlayLate? && op.id == id
  {
    if Perform(b, op).Ok? {
      if op.OpPlaceLate? {
        WagerOps(b, op);
      } else {
        ParlayOps(b, op);
      }
    }
  }

  /** The parlays that may wait on a decided market are those of which the run
      committed the acceptance behind a decision. */
  lemma {:induction false} BehindWereAcceptedLate(ops: seq<Op>, id: Id) returns (n: nat)
    requires id in SlackOf(ops).behind
    ensures n < |ops| && AcceptsBehind(Run(ops[..n]), ops[n], id)
  {
    var init := ops[..|ops| - 1];
    if id in SlackOf(init).behind {
      n := BehindWereAcceptedLate(init, id);
      assert init[..n] == ops[..n];
    } else {
      RunIsHealthy(init);
      PaymentsMatchKinds(Run(init));
      BehindOp(Run(init), ops[|ops| - 1], id);
      n := |ops| - 1;
    }
  }

  /** When every acceptance counts the decided legs as it commits, every accepted
      parlay waits only on undecided markets. */
  lemma OnTimeParlaysWait(ops: seq<Op>, id: Id)
    requires ParlaysOnTime(ops) && IsHeld(Run(ops), id)
    ensures OpenLegsUndecided(Run(ops).markets, Run(ops).parlays[id].legs)
  {
    AcceptedParlaysWait(ops, id);
    if id in SlackOf(ops).behind {
      var n := BehindWereAcceptedLate(ops, id);
    }
  }

  // ---- No way out -------------------------------------------------------------------------------

  /** Held, and every leg still open is on a decided market. */
  predicate IsStuck(b: Book, id: Id) {
    && IsHeld(b, id) && !HasLoss(b.parlays[id].legs)
    && forall i :: 0 <= i < |b.parlays[id].legs| ==> !WaitsOn(b, id, i)
  }

  /** A first settlement is of a market that is still to be decided. */
  lemma FirstIsUndecided(b: Book, market: Id, outcome: Option<map<Id, Grade>>, declared: bool, plan: Plan)
    requires SettleWith(b, market, outcome, false, declared, 0, plan).Ok?
    ensures market in b.markets && !IsDecided(b.markets[market].state)
  {
  }

  lemma NotAffected(b: Book, id: Id, market: Id)
    requires IsStuck(b, id) && market in b.markets && !IsDecided(b.markets[market].state)
    ensures !IsAffected(b.parlays[id], market)
  {
    forall i | 0 <= i < |b.parlays[id].legs| ensures !IsOpenOn(b.parlays[id].legs[i], market) {
      assert !WaitsOn(b, id, i);
    }
  }

  lemma SettlementPassesBy(b: Book, market: Id, outcome: Option<map<Id, Grade>>, declared: bool, plan: Plan, id: Id)
    requires Sound(b) && IsPlan(b, market, plan) && IsStuck(b, id)
    requires SettleWith(b, market, outcome, false, declared, 0, plan).Ok?
    ensures var after := SettleWith(b, market, outcome, false, declared, 0, plan).value;
      id in after.parlays && after.parlays[id] == b.parlays[id]
  {
    FirstIsUndecided(b, market, outcome, declared, plan);
    NotAffected(b, id, market);
    var divisor, ss, posted := SettleWithSettles(b, market, outcome, false, declared, 0, plan);
    var after := SettleWith(b, market, outcome, false, declared, 0, plan).value;
    assert IsNextParlay(b.parlays[id], market, outcome, after.parlays[id]);
  }

  lemma SettleStepPassesBy(b: Book, op: Op, id: Id)
    requires Sound(b) && IsStuck(b, id) && IsSettleOp(op) && (op.OpRegrade? ==> Step(b, op) == b)
    ensures id in Step(b, op).parlays && Step(b, op).parlays[id] == b.parlays[id]
  {
    if Enabled(b, op) && Perform(b, op).Ok? {
      StepCommits(b, op);
      match op
      case OpSettle(market, outcome, deadHeat, plan) => SettlementPassesBy(b, market, Some(outcome), deadHeat, plan, id);
      case OpVoidMarket(market, plan) => SettlementPassesBy(b, market, None, false, plan, id);
      case _ =>
    }
  }

  /** Only a settlement touches the row of an accepted parlay. */
  lemma OtherStepPassesBy(b: Book, op: Op, id: Id)
    requires OwnRows(b) && IsHeld(b, id) && !IsSettleOp(op)
    ensures id in Step(b, op).parlays && Step(b, op).parlays[id] == b.parlays[id]
  {
    if Enabled(b, op) && Perform(b, op).Ok? {
      StepCommits(b, op);
      if op.OpCreate? || op.OpOpen? || op.OpClose? || op.OpMoveLine? || op.OpCloseWithoutAction? {
        MarketOps(b, op);
      } else if IsWagerOp(op) {
        WagerOps(b, op);
      } else if IsParlayOp(op) {
        ParlayOps(b, op);
      } else {
        CashOps(b, op);
      }
    }
  }

  lemma DecidedStays(b: Book, after: Book, id: Id)
    requires ShapesSound(b) && Grows(b, after) && IsStuck(b, id)
    requires id in after.parlays && after.parlays[id] == b.parlays[id]
    ensures IsStuck(after, id)
  {
    assert ParlayShape(b.markets, b.parlays[id]);
    forall i | 0 <= i < |after.parlays[id].legs| ensures !WaitsOn(after, id, i) {
      var leg := b.parlays[id].legs[i];
      assert LegShape(b.markets, leg) && !WaitsOn(b, id, i);
      assert MarketGrows(b.markets[leg.market], after.markets[leg.market]);
    }
  }

  lemma StuckStep(b: Book, slack: Slack, op: Op, id: Id)
    requires Healthy(b, slack) && IsStuck(b, id) && (op.OpRegrade? ==> Step(b, op) == b)
    ensures IsStuck(Step(b, op), id)
  {
    SoundParlays(b);
    SoundShapes(b);
    if IsSettleOp(op) {
      SettleStepPassesBy(b, op, id);
    } else {
      OtherStepPassesBy(b, op, id);
    }
    StepKeepsHealthy(b, op, slack);
    DecidedStays(b, Step(b, op), id);
  }

  lemma StuckAfter(ops: seq<Op>, op: Op, id: Id)
    requires IsChecked(ops) && IsStuck(Run(ops), id)
    ensures IsStuck(Step(Run(ops), op), id)
  {
    if op.OpRegrade? {
      NothingIsStranded(ops, op.id, op.plan);
    }
    RunIsHealthy(ops);
    StuckStep(Run(ops), SlackOf(ops), op, id);
  }

  lemma CheckedSoFar(ops: seq<Op>, op: Op)
    requires IsChecked(ops + [op])
    ensures IsChecked(ops) && Run(ops + [op]) == Step(Run(ops), op)
  {
    assert (ops + [op])[..|ops|] == ops;
    assert forall i :: 0 <= i < |ops| ==> ops[i] == (ops + [op])[i];
  }

  /** A stuck parlay stays as it is through every further run with the market
      check: its stake is never released. */
  lemma {:induction false} StuckForGood(ops: seq<Op>, more: seq<Op>, id: Id)
    requires IsChecked(ops + more) && IsStuck(Run(ops), id)
    ensures IsStuck(Run(ops + more), id)
  {
    if more == [] {
      assert ops + more == ops;
    } else {
      var init, op := more[..|more| - 1], more[|more| - 1];
      assert ops + more == ops + init + [op];
      CheckedSoFar(ops + init, op);
      StuckForGood(ops, init, id);
      StuckAfter(ops + init, op, id);
    }
  }

  /** Some further run with the market check ends the parlay. */
  ghost predicate CanEnd(ops: seq<Op>, id: Id) {
    exists more :: IsChecked(ops + more) && id in Run(ops + more).parlays && Run(ops + more).parlays[id].state != Accepted
  }

  lemma EndsBySettling(ops: seq<Op>, id: Id, i: nat)
    requires IsChecked(ops) && IsHeld(Run(ops), id) && i < |Run(ops).parlays[id].legs| && WaitsOn(Run(ops), id, i)
    ensures CanEnd(ops, id)
  {
    var op := HeldParlayCanEnd(ops, id, i);
    assert IsChecked(ops + [op]);
  }

  /** With the market check a held parlay can end exactly when one of its open
      legs is on a market still to be decided. */
  lemma HeldParlayEndsExactly(ops: seq<Op>, id: Id)
    requires IsChecked(ops) && IsHeld(Run(ops), id)
    ensures CanEnd(ops, id) <==> exists i: nat :: i < |Run(ops).parlays[id].legs| && WaitsOn(Run(ops), id, i)
  {
    if i: nat :| i < |Run(ops).parlays[id].legs| && WaitsOn(Run(ops), id, i) {
      EndsBySettling(ops, id, i);
    } else {
      AcceptedParlaysWait(ops, id);
      forall more | IsChecked(ops + more) ensures IsStuck(Run(ops + more), id) {
        StuckForGood(ops, more, id);
      }
    }
  }
}
