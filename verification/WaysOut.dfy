/** Whether every staked cent of a wager has a way out: what can be held on a
    market that will never be graded, and when a regrade commits. */
module WaysOut {
  import opened Results
  import opened Ledger
  import opened Wagers
  import opened Settlement
  import opened BookState
  import opened BookInvariant
  import opened BookChanges
  import opened BookHistory
  import opened BookPayments
  import opened BookRuns
  import opened BookOutcomes

  // ---- Held on a market closed without action ------------------------------------------

  predicate IsHeldWithoutAction(b: Book, id: Id) {
    id in b.wagers && b.wagers[id].state == Accepted && OnNoAction(b, b.wagers[id])
  }

  /** `id` was inserted by `op`, a placement that had read its market open, on a
      market by then closed without action. */
  ghost predicate InsertsLate(b: Book, op: Op, id: Id) {
    && op.OpPlaceLate? && op.wager.id == id && id !in b.wagers
    && id in Step(b, op).wagers && OnNoAction(Step(b, op), Step(b, op).wagers[id])
  }

  /** A new row on a market closed without action came from an earlier look. */
  lemma NewLateRow(b: Book, how: Check, after: Book, id: Id)
    requires Change(b, how, after) && id in LateIn(b, after)
    ensures WagerChange(b, id, how, after) && how == Earlier
  {
    if Settles(b, after) {
      SettlesNoNewWager(b, after);
    }
    var x :| WagerChange(b, x, how, after);
    assert x == id;
  }

  lemma LateInsert(b: Book, op: Op, id: Id)
    requires Sound(b) && KindsMatch(b.log) && id in LateIn(b, Step(b, op))
    ensures InsertsLate(b, op, id)
  {
    StepIsAChange(b, op);
    NewLateRow(b, CheckOf(op), Step(b, op), id);
    SoundRows(b);
    LateOpInserts(b, op, id);
  }

  lemma LateOpInserts(b: Book, op: Op, id: Id)
    requires OwnRows(b) && CheckOf(op) == Earlier && id in LateIn(b, Step(b, op))
    ensures op.OpPlaceLate? && op.wager.id == id
  {
    if Perform(b, op).Ok? {
      if op.OpPlaceLate? {
        WagerOps(b, op);
      } else {
        ParlayOps(b, op);
      }
    }
  }

  lemma SettlesNoNewWager(b: Book, after: Book)
    requires Settles(b, after)
    ensures after.wagers.Keys == b.wagers.Keys
  {
  }

  /** The late wagers of a run are those a late placement inserted. */
  lemma {:induction false} LateWagersWereInsertedLate(ops: seq<Op>, id: Id) returns (n: nat)
    requires id in SlackOf(ops).late
    ensures n < |ops| && InsertsLate(Run(ops[..n]), ops[n], id)
  {
    var init := ops[..|ops| - 1];
    if id in SlackOf(init).late {
      n := LateWagersWereInsertedLate(init, id);
      assert init[..n] == ops[..n];
    } else {
      RunIsHealthy(init);
      PaymentsMatchKinds(Run(init));
      LateInsert(Run(init), ops[|ops| - 1], id);
      n := |ops| - 1;
    }
  }

  /** A late wager is never moved off its market, and that stays as it is. */
  lemma {:induction false} LateStays(ops: seq<Op>, id: Id)
    requires id in SlackOf(ops).late
    ensures id in Run(ops).wagers && OnNoAction(Run(ops), Run(ops).wagers[id])
  {
    var init, op := ops[..|ops| - 1], ops[|ops| - 1];
    if id in SlackOf(init).late {
      LateStays(init, id);
      RunIsHealthy(init);
      StepGrows(Run(init), SlackOf(init), op);
      StillNoAction(Run(init), Run(ops), id);
    } else {
      RunIsHealthy(init);
      PaymentsMatchKinds(Run(init));
      LateInsert(Run(init), op, id);
    }
  }

  lemma StepGrows(b: Book, slack: Slack, op: Op)
    requires Healthy(b, slack)
    ensures Grows(b, Step(b, op))
  {
    StepKeepsHealthy(b, op, slack);
  }

  /** With the market check, an accepted wager is held either on an undecided
      market or on one closed without action, and on such a market exactly when
      it was inserted late. */
  lemma HeldOnDecidedExactly(ops: seq<Op>, id: Id)
    requires IsChecked(ops) && id in Run(ops).wagers && Run(ops).wagers[id].state == Accepted
    ensures IsHeldUndecided(Run(ops), id) <==> !IsHeldWithoutAction(Run(ops), id)
    ensures IsHeldWithoutAction(Run(ops), id) <==> id in SlackOf(ops).late
  {
    AcceptedWagersAreUndecided(ops, id);
    if id in SlackOf(ops).late {
      LateStays(ops, id);
    }
  }

  predicate IsHeldUndecided(b: Book, id: Id)
    requires id in b.wagers
  {
    b.wagers[id].market in b.markets && !IsDecided(b.markets[b.wagers[id].market].state)
  }

  /** A pending wager on a market closed without action can be accepted: only
      settled, voided and cancelled markets are refused. */
  lemma LateWagerCanBeHeld(ops: seq<Op>, id: Id, creditLimit: int)
    requires id in Run(ops).wagers && Run(ops).wagers[id].state == Pending && OnNoAction(Run(ops), Run(ops).wagers[id])
    requires Balance(Run(ops), FundingAccount(Run(ops).wagers[id])) + creditLimit >= Run(ops).wagers[id].stake.cents
    ensures IsHeldWithoutAction(Step(Run(ops), OpAccept(id, creditLimit)), id)
  {
    RunIsHealthy(ops);
    PendingIsAccepted(Run(ops), SlackOf(ops), id, creditLimit);
  }

  lemma PendingIsAccepted(b: Book, slack: Slack, id: Id, creditLimit: int)
    requires Healthy(b, slack) && id in b.wagers && b.wagers[id].state == Pending && OnNoAction(b, b.wagers[id])
    requires Balance(b, FundingAccount(b.wagers[id])) + creditLimit >= b.wagers[id].stake.cents
    ensures IsHeldWithoutAction(Step(b, OpAccept(id, creditLimit)), id)
  {
    SoundWager(b, id);
    PendingPosts(b, id);
    AcceptIsPut(b, id, creditLimit);
    StepCommits(b, OpAccept(id, creditLimit));
  }

  lemma AcceptIsPut(b: Book, id: Id, creditLimit: int)
    requires id in b.wagers && b.wagers[id].id == id && b.wagers[id].state == Pending && OnNoAction(b, b.wagers[id])
    requires Balance(b, FundingAccount(b.wagers[id])) + creditLimit >= b.wagers[id].stake.cents
    requires Post(b, AcceptanceTxn(b.wagers[id])) == Ok(b.(log := b.log + [AcceptanceTxn(b.wagers[id])]))
    ensures Perform(b, OpAccept(id, creditLimit)).Ok?
    ensures IsHeldWithoutAction(Perform(b, OpAccept(id, creditLimit)).value, id)
  {
    assert Perform(b, OpAccept(id, creditLimit)) == AcceptWager(b, id, creditLimit, false);
  }

  lemma PendingPosts(b: Book, id: Id)
    requires Sound(b) && id in b.wagers && b.wagers[id].state == Pending
    ensures Post(b, AcceptanceTxn(b.wagers[id])) == Ok(b.(log := b.log + [AcceptanceTxn(b.wagers[id])]))
  {
    var w := b.wagers[id];
    SoundWager(b, id);
    MoveIsGood(FundingAccount(w), Escrow(w.stake.currency), w.stake);
    NoAcceptanceYet(b.log, w);
  }

  // ---- Only a void releases it ------------------------------------------------------------

  predicate StillAccepted(b: Book, id: Id) {
    id in b.wagers && b.wagers[id].state == Accepted
  }

  lemma AcceptKeeps(b: Book, x: Id, creditLimit: int, unchecked: bool, id: Id)
    requires OwnRows(b) && AcceptWager(b, x, creditLimit, unchecked).Ok? && StillAccepted(b, id)
    ensures StillAccepted(AcceptWager(b, x, creditLimit, unchecked).value, id)
  {
  }

  lemma ReduceKeeps(b: Book, x: Id, newStake: int, id: Id)
    requires OwnRows(b) && ReduceWager(b, x, newStake).Ok? && StillAccepted(b, id)
    ensures StillAccepted(ReduceWager(b, x, newStake).value, id)
  {
  }

  lemma VoidKeeps(b: Book, x: Id, id: Id)
    requires OwnRows(b) && VoidWager(b, x).Ok? && x != id && StillAccepted(b, id)
    ensures StillAccepted(VoidWager(b, x).value, id)
  {
  }

  lemma RejectKeeps(b: Book, x: Id, reason: string, id: Id)
    requires OwnRows(b) && RejectWager(b, x, reason).Ok? && StillAccepted(b, id)
    ensures StillAccepted(RejectWager(b, x, reason).value, id)
  {
  }

  lemma PlaceKeeps(b: Book, r: WagerRequest, admitted: bool, earlier: Option<int>, id: Id)
    requires PlaceWager(b, r, admitted, earlier).Ok? && StillAccepted(b, id)
    ensures StillAccepted(PlaceWager(b, r, admitted, earlier).value, id)
  {
  }

  lemma KeepsAccepted(b: Book, op: Op, id: Id)
    requires IsWagerOp(op) && OwnRows(b) && Perform(b, op).Ok? && op != OpVoid(id) && StillAccepted(b, id)
    ensures StillAccepted(Perform(b, op).value, id)
  {
    match op
    case OpPlace(wager, admitted) => PlaceKeeps(b, wager, admitted, None, id);
    case OpPlaceLate(wager, admitted, odds) => PlaceKeeps(b, wager, admitted, Some(odds), id);
    case OpAccept(x, creditLimit) => AcceptKeeps(b, x, creditLimit, false, id);
    case OpAcceptUnchecked(x, creditLimit) => AcceptKeeps(b, x, creditLimit, true, id);
    case OpReject(x, reason) => RejectKeeps(b, x, reason, id);
    case OpCancel(x, user) => RejectKeeps(b, x, CANCEL_REASON, id);
    case OpReduce(x, newStake) => ReduceKeeps(b, x, newStake, id);
    case OpVoid(x) => VoidKeeps(b, x, id);
    case _ =>
  }

  lemma OtherOpsKeepWagers(b: Book, op: Op, id: Id)
    requires Sound(b) && KindsMatch(b.log) && !IsWagerOp(op) && IsHeldWithoutAction(b, id)
    ensures id in Step(b, op).wagers && Step(b, op).wagers[id].state == Accepted
  {
    if Enabled(b, op) && Perform(b, op).Ok? {
      StepCommits(b, op);
      SoundRows(b);
      if IsSettleOp(op) {
        SettleOps(b, op);
        SettleKeepsHeld(b, Step(b, op), id);
      } else if op.OpCreate? || op.OpOpen? || op.OpClose? || op.OpMoveLine? || op.OpCloseWithoutAction? {
        MarketOps(b, op);
      } else if op.OpSettleUp? || op.OpReverse? {
        CashOps(b, op);
      } else {
        ParlayOps(b, op);
      }
    }
  }

  /** A settlement never meets a market closed without action. */
  lemma SettleKeepsHeld(b: Book, after: Book, id: Id)
    requires Settles(b, after) && IsHeldWithoutAction(b, id)
    ensures id in after.wagers && after.wagers[id].state == Accepted
  {
    var market, outcome, divisor, ss, posted :| SettleChange(b, market, outcome, divisor, ss, posted, after);
    assert market != b.wagers[id].market;
    SettledRow(b.wagers, market, ss, after.wagers, id);
  }

  lemma HeldAfterStep(b: Book, slack: Slack, op: Op, id: Id)
    requires Healthy(b, slack) && IsHeldWithoutAction(b, id) && op != OpVoid(id)
    ensures IsHeldWithoutAction(Step(b, op), id)
  {
    PaymentsMatchKinds(b);
    StepKeepsHealthy(b, op, slack);
    if IsWagerOp(op) {
      if Perform(b, op).Ok? {
        SoundRows(b);
        KeepsAccepted(b, op, id);
      }
    } else {
      OtherOpsKeepWagers(b, op, id);
    }
    StillNoAction(b, Step(b, op), id);
  }

  lemma StillNoAction(b: Book, after: Book, id: Id)
    requires Grows(b, after) && id in b.wagers && OnNoAction(b, b.wagers[id])
    ensures id in after.wagers && OnNoAction(after, after.wagers[id])
  {
    assert WagerGrows(b.wagers[id], after.wagers[id]);
    assert MarketGrows(b.markets[b.wagers[id].market], after.markets[b.wagers[id].market]);
  }

  lemma HeldAfter(ops: seq<Op>, op: Op, id: Id)
    requires IsHeldWithoutAction(Run(ops), id) && op != OpVoid(id)
    ensures IsHeldWithoutAction(Run(ops + [op]), id)
  {
    assert (ops + [op])[..|ops|] == ops;
    RunIsHealthy(ops);
    HeldAfterStep(Run(ops), SlackOf(ops), op, id);
  }

  /** Once held there, a wager stays held until an administrator voids it: no
      settlement, regrade or reduction ever releases the whole stake. */
  lemma {:induction false} HeldUntilVoided(ops: seq<Op>, more: seq<Op>, id: Id)
    requires IsHeldWithoutAction(Run(ops), id) && OpVoid(id) !in more
    ensures IsHeldWithoutAction(Run(ops + more), id)
  {
    if more == [] {
      assert ops + more == ops;
    } else {
      var init, op := more[..|more| - 1], more[|more| - 1];
      HeldUntilVoided(ops, init, id);
      HeldAfter(ops + init, op, id);
      assert ops + more == ops + init + [op];
    }
  }

  // ---- When a regrade commits ----------------------------------------------------------------

  /** The settlement a regrade repeats: its outcome and the divisor it applied. */
  ghost predicate Repeats(b: Book, market: Id, outcome: map<Id, Grade>, divisor: int) {
    && market in b.markets && b.markets[market].state == Settled && Records(b, market) != []
    && outcome == Records(b, market)[0].outcome
    && exists declared :: AppliedAs(Records(b, market)[0], declared, divisor)
  }

  lemma RegradeIsRows(b: Book, market: Id, plan: Plan, outcome: map<Id, Grade>, divisor: int)
    requires RecordsSound(b) && HasStranded(b, market) && Repeats(b, market, outcome, divisor)
    ensures Regrade(b, market, plan) == SettleRows(b, market, Some(outcome), divisor, plan)
    ensures outcome.Keys == b.markets[market].lines.Keys
  {
    var records := Records(b, market);
    var record := records[0];
    assert MarketRecords(b.markets[market], records);
    assert LastGraded(records) == Some(records[|records| - 1]);
    var declared :| AppliedAs(record, declared, divisor);
    var d := LargestDivisor(record.divisors);
    assert record.divisors.Keys == record.outcome.Keys;
    RecordedDivisorReplays(declared, outcome, divisor, d);
    RegradeIs(b, market, plan, record, d, divisor);
  }

  lemma RegradeIs(b: Book, market: Id, plan: Plan, record: Record, d: int, divisor: int)
    requires HasStranded(b, market) && LastGraded(Records(b, market)) == Some(record) && d == LargestDivisor(record.divisors)
    requires DeadHeatDivisor(d > 1, d, record.outcome) == Ok(divisor) && record.outcome.Keys == b.markets[market].lines.Keys
    ensures Regrade(b, market, plan) == SettleRows(b, market, Some(record.outcome), divisor, plan)
  {
    var id :| id in b.wagers && b.wagers[id].market == market && b.wagers[id].state == Accepted
              && b.wagers[id].selection in record.outcome;
    assert record.outcome != map[];
  }

  /** When wagers are stranded, a regrade commits exactly when every one of them
      that wins under the recorded outcome fits, and so does every parlay that
      was accepted behind the decision and that its marks decide. */
  lemma RegradeCommitsExactly(ops: seq<Op>, market: Id, plan: Plan, outcome: map<Id, Grade>, divisor: int)
    requires IsPlan(Run(ops), market, plan) && HasStranded(Run(ops), market)
    requires Repeats(Run(ops), market, outcome, divisor)
    ensures Regrade(Run(ops), market, plan).Ok?
      <==> EveryAccepted(Run(ops).wagers, market, Fits(Some(outcome), divisor)) && ParlaysPay(Run(ops), market, Some(outcome))
    ensures SlackOf(ops).behind == {} ==> ParlaysPay(Run(ops), market, Some(outcome))
  {
    RunIsHealthy(ops);
    RegradeCommitsIn(Run(ops), SlackOf(ops), market, plan, outcome, divisor);
    OnlyBehindWait(Run(ops), SlackOf(ops), market, Some(outcome));
  }

  /** Only a parlay accepted behind the decision waits on a settled market. */
  lemma OnlyBehindWait(b: Book, slack: Slack, market: Id, outcome: Option<map<Id, Grade>>)
    requires Healthy(b, slack) && market in b.markets && b.markets[market].state == Settled
    ensures slack.behind == {} ==> ParlaysPay(b, market, outcome)
  {
    if slack.behind == {} {
      forall id | id in b.parlays ensures !IsAffected(b.parlays[id], market) {
        assert ParlayLive(b.markets, b.parlays[id], slack);
      }
    }
  }

  lemma RegradeCommitsIn(b: Book, slack: Slack, market: Id, plan: Plan, outcome: map<Id, Grade>, divisor: int)
    requires Healthy(b, slack) && IsPlan(b, market, plan) && HasStranded(b, market) && Repeats(b, market, outcome, divisor)
    ensures Regrade(b, market, plan).Ok?
      <==> EveryAccepted(b.wagers, market, Fits(Some(outcome), divisor)) && ParlaysPay(b, market, Some(outcome))
  {
    RegradeIsRows(b, market, plan, outcome, divisor);
    SoundShapes(b);
    SoundParlays(b);
    PaysExactly(b, market, Some(outcome));
    SettlementsFit(b, market, Some(outcome), plan, divisor);
    RowsCommit(b, market, Some(outcome), divisor, plan);
  }
}
