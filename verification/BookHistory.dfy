/** What the tables of a reachable book say about each other: which live rows may
    wait on a decided market, and that every settlement version repeats the first. */
module BookHistory {
  import opened Results
  import opened Ledger
  import opened Wagers
  import opened Settlement
  import opened Parlays
  import opened BookState
  import opened BookInvariant
  import opened BookSettlement
  import opened BookChanges

  // ---- Settlement records --------------------------------------------------------------

  ghost predicate AppliedAs(record: Record, declared: bool, divisor: int) {
    && DeadHeatDivisor(declared, 0, record.outcome) == Ok(divisor)
    && record.divisors == RecordedDivisors(record.outcome, divisor)
  }

  ghost predicate Decision(m: Market, record: Record) {
    && record.graded && record.outcome.Keys == m.lines.Keys
    && exists declared, divisor :: AppliedAs(record, declared, divisor)
  }

  const VoidRecord := Record(false, map[], map[])

  /** Every version of a graded market repeats its first decision. */
  ghost predicate MarketRecords(m: Market, records: seq<Record>) {
    match m.state
    case Settled => records != [] && Decision(m, records[0]) && forall i :: 0 <= i < |records| ==> records[i] == records[0]
    case Voided => records == [VoidRecord]
    case _ => records == []
  }

  ghost predicate RecordsSound(b: Book) {
    && b.records.Keys <= b.markets.Keys
    && forall id :: id in b.markets ==> MarketRecords(b.markets[id], Records(b, id))
  }

  /** Replaying the recorded divisor of a decision gives the same record. */
  lemma ReplayRepeats(m: Market, record: Record, divisor: int)
    requires Decision(m, record) && Replays(record, divisor)
    ensures MarketRecord(Some(record.outcome), divisor) == record
  {
    var declared, applied :| AppliedAs(record, declared, applied);
    var d := LargestDivisor(record.divisors);
    assert record.divisors.Keys == record.outcome.Keys;
    RecordedDivisorReplays(declared, record.outcome, applied, d);
  }

  lemma SettleKeepsRecords(b: Book, market: Id, outcome: Option<map<Id, Grade>>, divisor: int, after: Book)
    requires RecordsSound(b) && SettlementAllowed(b, market, outcome, divisor)
    requires after.markets == Decided(b, market, outcome) && after.records == Recorded(b, market, outcome, divisor)
    ensures RecordsSound(after)
  {
    var records, m := Records(b, market), b.markets[market];
    assert MarketRecords(m, records);
    if m.state == Settled {
      assert LastGraded(records) == Some(records[|records| - 1]);
      ReplayRepeats(m, records[0], divisor);
    } else if outcome.Some? {
      var declared :| DeadHeatDivisor(declared, 0, outcome.value) == Ok(divisor);
      assert AppliedAs(MarketRecord(outcome, divisor), declared, divisor);
      assert Decision(m, MarketRecord(outcome, divisor));
    }
    forall id | id in after.markets ensures MarketRecords(after.markets[id], Records(after, id)) {
      if id != market {
        assert MarketRecords(b.markets[id], Records(b, id));
        assert Records(after, id) == Records(b, id);
      } else {
        assert Records(after, id) == records + [MarketRecord(outcome, divisor)];
        if outcome.Some? {
          assert Decision(after.markets[id], MarketRecord(outcome, divisor));
        }
      }
    }
  }

  lemma MarketKeepsRecords(b: Book, id: Id, after: Book)
    requires RecordsSound(b) && MarketChange(b, id, after)
    ensures RecordsSound(after)
  {
    forall x | x in after.markets ensures MarketRecords(after.markets[x], Records(after, x)) {
      if x in b.markets {
        assert MarketRecords(b.markets[x], Records(b, x));
        if x == id && b.markets[x].state == Settled {
          DecisionKept(b.markets[x], after.markets[x], Records(b, x)[0]);
        }
      }
    }
  }

  lemma DecisionKept(m: Market, next: Market, record: Record)
    requires Decision(m, record) && SameSelections(m, next)
    ensures Decision(next, record)
  {
  }

  lemma SameTablesKeepRecords(b: Book, after: Book)
    requires RecordsSound(b) && after.markets == b.markets && after.records == b.records
    ensures RecordsSound(after)
  {
    forall x | x in after.markets ensures MarketRecords(after.markets[x], Records(after, x)) {
      assert MarketRecords(b.markets[x], Records(b, x));
    }
  }

  lemma ChangeKeepsRecords(b: Book, how: Check, after: Book)
    requires RecordsSound(b) && Change(b, how, after)
    ensures RecordsSound(after)
  {
    if id :| MarketChange(b, id, after) {
      MarketKeepsRecords(b, id, after);
    } else if Settles(b, after) {
      var market, outcome, divisor, ss, posted :| SettleChange(b, market, outcome, divisor, ss, posted, after);
      SettleKeepsRecords(b, market, outcome, divisor, after);
    } else {
      SameTablesKeepRecords(b, after);
    }
  }

  // ---- Live rows and decided markets ----------------------------------------------------------

  predicate MarketLive(m: Market) {
    m.isMatch ==> m.state != NoAction
  }

  /** An accepted parlay has lost nothing and still waits on a leg; and unless it
      was accepted behind a decision, it waits only on undecided markets. */
  predicate ParlayLive(markets: map<Id, Market>, p: Parlay, slack: Slack) {
    p.state == Accepted ==>
      !HasLoss(p.legs) && HasOpenLeg(p.legs) && (p.id in slack.behind || OpenLegsUndecided(markets, p.legs))
  }

  predicate OpenLegsUndecided(markets: map<Id, Market>, legs: seq<Leg>) {
    forall i :: 0 <= i < |legs| && legs[i].result.None? ==> legs[i].market in markets && !IsDecided(markets[legs[i].market].state)
  }

  /** What a run did beside the checks: whether it accepted wagers without the
      market check, which wagers it inserted on a market that was already closed
      without action, and which parlays it accepted with a leg already decided. */
  datatype Slack = Slack(unchecked: bool, late: set<Id>, behind: set<Id>)

  /** On a market closed without action only late wagers are live; and unless the
      market check was left out, no accepted wager is on any other decided market. */
  predicate WagerLive(markets: map<Id, Market>, w: Wager, slack: Slack) {
    w.market in markets
    && (w.state == Pending || w.state == Accepted ==> markets[w.market].state == NoAction ==> w.id in slack.late)
    && (w.state == Accepted && !slack.unchecked ==>
          markets[w.market].state == NoAction || !IsDecided(markets[w.market].state))
  }

  predicate LiveSound(b: Book, slack: Slack) {
    && (forall id :: id in b.markets ==> MarketLive(b.markets[id]))
    && (forall id :: id in b.parlays ==> ParlayLive(b.markets, b.parlays[id], slack))
    && (forall id :: id in b.wagers ==> WagerLive(b.markets, b.wagers[id], slack))
  }

  lemma MarketKeepsParlay(b: Book, id: Id, slack: Slack, after: Book, p: Parlay)
    requires MarketChange(b, id, after) && ParlayLive(b.markets, p, slack) && ParlayShape(b.markets, p)
    ensures ParlayLive(after.markets, p, slack)
  {
    if p.state == Accepted && p.id !in slack.behind {
      forall i | 0 <= i < |p.legs| && p.legs[i].result.None?
        ensures p.legs[i].market in after.markets && !IsDecided(after.markets[p.legs[i].market].state)
      {
        assert LegShape(b.markets, p.legs[i]);
      }
    }
  }

  lemma MarketKeepsLive(b: Book, id: Id, slack: Slack, after: Book)
    requires LiveSound(b, slack) && ShapesSound(b) && MarketChange(b, id, after)
    ensures LiveSound(after, slack)
  {
    forall x | x in after.parlays ensures ParlayLive(after.markets, after.parlays[x], slack) {
      assert ParlayLive(b.markets, b.parlays[x], slack) && ParlayShape(b.markets, b.parlays[x]);
      MarketKeepsParlay(b, id, slack, after, b.parlays[x]);
    }
    forall x | x in after.wagers ensures WagerLive(after.markets, after.wagers[x], slack) {
      assert WagerLive(b.markets, b.wagers[x], slack);
    }
    assert id in b.markets ==> MarketLive(b.markets[id]);
  }

  /** The wagers that `after` has new on a market closed without action. */
  function LateIn(b: Book, after: Book): set<Id> {
    set id | id in after.wagers && id !in b.wagers && OnNoAction(after, after.wagers[id])
  }

  predicate OnNoAction(b: Book, w: Wager) {
    w.market in b.markets && b.markets[w.market].state == NoAction
  }

  function Later(slack: Slack, how: Check, b: Book, after: Book): Slack {
    Slack(slack.unchecked || how == Unchecked, slack.late + LateIn(b, after), slack.behind + BehindIn(b, after))
  }

  /** The parlays that `after` has newly accepted with a leg already decided. */
  function BehindIn(b: Book, after: Book): set<Id> {
    set id | id in after.parlays && IsAcceptedBehind(b, id, after)
  }

  predicate IsAcceptedBehind(b: Book, id: Id, after: Book)
    requires id in after.parlays
  {
    id in b.parlays && b.parlays[id].state == Pending && after.parlays[id].state == Accepted && !NoLegDecided(b, b.parlays[id])
  }

  lemma LooserIsSound(b: Book, slack: Slack, looser: Slack)
    requires LiveSound(b, slack) && (slack.unchecked ==> looser.unchecked) && slack.late <= looser.late && slack.behind <= looser.behind
    ensures LiveSound(b, looser)
  {
    forall x | x in b.parlays ensures ParlayLive(b.markets, b.parlays[x], looser) {
      assert ParlayLive(b.markets, b.parlays[x], slack);
    }
    forall x | x in b.wagers ensures WagerLive(b.markets, b.wagers[x], looser) {
      assert WagerLive(b.markets, b.wagers[x], slack);
    }
  }

  lemma WagerKeepsLive(b: Book, id: Id, how: Check, slack: Slack, after: Book)
    requires LiveSound(b, slack) && WagerChange(b, id, how, after)
    ensures LiveSound(after, Later(slack, how, b, after))
  {
    var later := Later(slack, how, b, after);
    LooserIsSound(b, slack, later);
    if id in b.wagers {
      assert WagerLive(b.markets, b.wagers[id], slack);
    } else {
      assert OnNoAction(after, after.wagers[id]) ==> id in LateIn(b, after);
    }
  }

  lemma AcceptedParlayIsLive(b: Book, p: Parlay, slack: Slack)
    requires ParlayShape(b.markets, p) && p.state == Pending && (NoLegDecided(b, p) || p.id in slack.behind)
    ensures ParlayLive(b.markets, p.(state := Accepted), slack)
  {
    assert p.legs[0].result.None?;
    if NoLegDecided(b, p) {
      forall i | 0 <= i < |p.legs|
        ensures p.legs[i].market in b.markets && !IsDecided(b.markets[p.legs[i].market].state)
      {
        assert LegShape(b.markets, p.legs[i]) && !LegDecided(b, p.legs[i]);
      }
    }
  }

  lemma ParlayKeepsLive(b: Book, id: Id, how: Check, slack: Slack, after: Book)
    requires LiveSound(b, slack) && ShapesSound(b) && ParlayChange(b, id, how, after)
    ensures LiveSound(after, Later(slack, how, b, after))
  {
    var later := Later(slack, how, b, after);
    LooserIsSound(b, slack, later);
    if id in b.parlays && after.parlays[id].state == Accepted {
      assert ParlayShape(b.markets, b.parlays[id]);
      assert !NoLegDecided(b, b.parlays[id]) ==> id in BehindIn(b, after);
      AcceptedParlayIsLive(b, b.parlays[id], later);
    }
  }

  /** A parlay that settlement leaves accepted still waits, and on other markets. */
  lemma SettledParlayIsLive(b: Book, market: Id, outcome: Option<map<Id, Grade>>, slack: Slack, p: Parlay, next: Parlay)
    requires market in b.markets && ParlayLive(b.markets, p, slack) && IsNextParlay(p, market, outcome, next)
    ensures ParlayLive(Decided(b, market, outcome), next, slack)
  {
    if next.state == Accepted && p.id !in slack.behind {
      forall i | 0 <= i < |next.legs| && next.legs[i].result.None?
        ensures next.legs[i].market in b.markets && !IsDecided(Decided(b, market, outcome)[next.legs[i].market].state)
      {
        assert p.legs[i].result.None?;
        assert !IsOpenOn(p.legs[i], market);
      }
    }
  }

  lemma SettleKeepsParlays(b: Book, market: Id, outcome: Option<map<Id, Grade>>, slack: Slack, after: map<Id, Parlay>)
    requires forall id :: id in b.parlays ==> ParlayLive(b.markets, b.parlays[id], slack)
    requires market in b.markets && ParlaysSettled(b.parlays, market, outcome, after)
    ensures forall id :: id in after ==> ParlayLive(Decided(b, market, outcome), after[id], slack)
  {
    forall id | id in after ensures ParlayLive(Decided(b, market, outcome), after[id], slack) {
      assert IsNextParlay(b.parlays[id], market, outcome, after[id]);
      SettledParlayIsLive(b, market, outcome, slack, b.parlays[id], after[id]);
    }
  }

  /** Settlement moves every accepted wager of its market to a terminal state
      and leaves all other wagers alone. */
  lemma SettledRow(before: map<Id, Wager>, market: Id, ss: seq<WagerSettlement>, after: map<Id, Wager>, id: Id)
    requires SettlesMarket(before, market, ss) && IsSettledTable(before, ss, after) && id in before
    ensures id in after && after[id] == before[id].(state := after[id].state)
    ensures if AcceptedOn(before[id], market) then IsTerminal(after[id].state) else after[id] == before[id]
  {
    if IsSettledIn(ss, id) {
      var i :| 0 <= i < |ss| && ss[i].wager == id;
      assert MovedOn(before, ss[i], after) && SettlesOn(before, market, ss[i]);
    }
  }

  lemma SettleKeepsWagers(b: Book, market: Id, outcome: Option<map<Id, Grade>>, ss: seq<WagerSettlement>,
                          after: Book, slack: Slack)
    requires SettlesMarket(b.wagers, market, ss) && IsSettledTable(b.wagers, ss, after.wagers)
    requires market in b.markets && b.markets[market].state != NoAction && after.markets == Decided(b, market, outcome)
    requires forall id :: id in b.wagers ==> WagerLive(b.markets, b.wagers[id], slack)
    ensures forall id :: id in after.wagers ==> WagerLive(after.markets, after.wagers[id], slack)
  {
    forall id | id in after.wagers ensures WagerLive(after.markets, after.wagers[id], slack) {
      assert WagerLive(b.markets, b.wagers[id], slack);
      SettledRow(b.wagers, market, ss, after.wagers, id);
    }
  }

  lemma SettleKeepsLive(b: Book, slack: Slack, after: Book)
    requires LiveSound(b, slack) && Settles(b, after)
    ensures LiveSound(after, slack)
  {
    var market, outcome, divisor, ss, posted :| SettleChange(b, market, outcome, divisor, ss, posted, after);
    SettleKeepsWagers(b, market, outcome, ss, after, slack);
    SettleKeepsParlays(b, market, outcome, slack, after.parlays);
  }

  lemma ChangeKeepsLive(b: Book, how: Check, slack: Slack, after: Book)
    requires ShapesSound(b) && LiveSound(b, slack) && Change(b, how, after)
    ensures LiveSound(after, Later(slack, how, b, after))
  {
    if id :| WagerChange(b, id, how, after) {
      WagerKeepsLive(b, id, how, slack, after);
    } else if id :| ParlayChange(b, id, how, after) {
      ParlayKeepsLive(b, id, how, slack, after);
    } else {
      OtherKeepsLive(b, how, slack, after);
      LooserIsSound(after, slack, Later(slack, how, b, after));
    }
  }

  lemma OtherKeepsLive(b: Book, how: Check, slack: Slack, after: Book)
    requires ShapesSound(b) && LiveSound(b, slack) && Change(b, how, after)
    requires forall id :: !WagerChange(b, id, how, after) && !ParlayChange(b, id, how, after)
    ensures LiveSound(after, slack)
  {
    if id :| MarketChange(b, id, after) {
      MarketKeepsLive(b, id, slack, after);
    } else if Settles(b, after) {
      SettleKeepsLive(b, slack, after);
    }
  }
}
