/** The exposure board (internal/privatepg/bookpulse.go): what each outcome of
    a market would cost the house, and that settlement costs exactly that. */
module Exposure {
  import opened Ledger

  // ---- The board ---------------------------------------------------------------------

  /** One row of exposureSQL: the accepted action on one selection. */
  datatype Row = Row(market: Id, selection: Id, wagers: nat, stake: int, payout: int)

  datatype Outcome = Outcome(selection: Id, wagers: nat, stake: int, payout: int, houseNet: int, worst: bool)

  datatype Exposure = Exposure(market: Id, wagers: nat, stake: int, outcomes: seq<Outcome>)

  function StakeOf(rows: seq<Row>): int {
    if rows == [] then 0 else StakeOf(rows[..|rows| - 1]) + rows[|rows| - 1].stake
  }

  function WagersOf(rows: seq<Row>): nat {
    if rows == [] then 0 else WagersOf(rows[..|rows| - 1]) + rows[|rows| - 1].wagers
  }

  /** The rows of one market, in the order they were read. */
  function On(rows: seq<Row>, market: Id): seq<Row> {
    if rows == [] then []
    else On(rows[..|rows| - 1], market) + if rows[|rows| - 1].market == market then [rows[|rows| - 1]] else []
  }

  /** An outcome as first read, before the market's total is known. */
  predicate IsRead(o: Outcome, row: Row) {
    o == Outcome(row.selection, row.wagers, row.stake, row.payout, 0, false)
  }

  predicate AllRead(outcomes: seq<Outcome>, rows: seq<Row>) {
    |outcomes| == |rows| && forall i :: 0 <= i < |rows| ==> IsRead(outcomes[i], rows[i])
  }

  /** `m` collects `rows`, all of its market. */
  predicate Collects(m: Exposure, rows: seq<Row>) {
    m.stake == StakeOf(rows) && m.wagers == WagersOf(rows) && AllRead(m.outcomes, rows)
  }

  predicate EntryOf(m: Exposure, rows: seq<Row>) {
    Collects(m, On(rows, m.market))
  }

  predicate Entries(result: seq<Exposure>, rows: seq<Row>) {
    forall k :: 0 <= k < |result| ==> EntryOf(result[k], rows)
  }

  /** `index` gives each entry's position by its market. */
  predicate Indexed(result: seq<Exposure>, index: map<Id, nat>) {
    && (forall k :: 0 <= k < |result| ==> result[k].market in index && index[result[k].market] == k)
    && (forall m :: m in index ==> index[m] < |result| && result[index[m]].market == m)
  }

  predicate Covered(rows: seq<Row>, index: map<Id, nat>) {
    forall i :: 0 <= i < |rows| ==> rows[i].market in index
  }

  lemma NothingOn(rows: seq<Row>, market: Id)
    requires forall i :: 0 <= i < |rows| ==> rows[i].market != market
    ensures On(rows, market) == []
  {
    if rows != [] {
      NothingOn(rows[..|rows| - 1], market);
    }
  }

  lemma OnStep(rows: seq<Row>, i: nat, market: Id)
    requires i < |rows|
    ensures On(rows[..i + 1], market)
         == if rows[i].market == market then On(rows[..i], market) + [rows[i]] else On(rows[..i], market)
  {
    assert rows[..i + 1][..i] == rows[..i];
  }

  function AddRow(m: Exposure, row: Row): Exposure {
    Exposure(m.market, m.wagers + row.wagers, m.stake + row.stake,
             m.outcomes + [Outcome(row.selection, row.wagers, row.stake, row.payout, 0, false)])
  }

  lemma CollectsMore(m: Exposure, rows: seq<Row>, row: Row)
    requires Collects(m, rows)
    ensures Collects(AddRow(m, row), rows + [row])
  {
    var more := rows + [row];
    assert more[..|more| - 1] == rows;
    var outcomes := AddRow(m, row).outcomes;
    forall i | 0 <= i < |more| ensures IsRead(outcomes[i], more[i]) {
      if i < |rows| {
        assert IsRead(m.outcomes[i], rows[i]);
      }
    }
  }

  lemma EntryKept(m: Exposure, rows: seq<Row>, i: nat)
    requires i < |rows| && EntryOf(m, rows[..i]) && rows[i].market != m.market
    ensures EntryOf(m, rows[..i + 1])
  {
    OnStep(rows, i, m.market);
  }

  lemma EntryJoined(m: Exposure, rows: seq<Row>, i: nat)
    requires i < |rows| && EntryOf(m, rows[..i]) && rows[i].market == m.market
    ensures EntryOf(AddRow(m, rows[i]), rows[..i + 1])
  {
    OnStep(rows, i, m.market);
    CollectsMore(m, On(rows[..i], m.market), rows[i]);
  }

  /** A row of a market not seen before starts a new entry. */
  lemma NewEntry(result: seq<Exposure>, index: map<Id, nat>, rows: seq<Row>, i: nat)
    requires i < |rows| && Entries(result, rows[..i]) && Indexed(result, index) && Covered(rows[..i], index)
    requires rows[i].market !in index
    ensures Entries(result + [AddRow(Exposure(rows[i].market, 0, 0, []), rows[i])], rows[..i + 1])
  {
    var m := Exposure(rows[i].market, 0, 0, []);
    NothingOn(rows[..i], m.market);
    EntryJoined(m, rows, i);
    forall k | 0 <= k < |result| ensures EntryOf(result[k], rows[..i + 1]) {
      EntryKept(result[k], rows, i);
    }
  }

  /** A row of a known market joins its entry. */
  lemma OldEntry(result: seq<Exposure>, index: map<Id, nat>, rows: seq<Row>, i: nat)
    requires i < |rows| && Entries(result, rows[..i]) && Indexed(result, index) && rows[i].market in index
    ensures var p := index[rows[i].market]; Entries(result[p := AddRow(result[p], rows[i])], rows[..i + 1])
  {
    var p := index[rows[i].market];
    assert EntryOf(result[p], rows[..i]);
    EntryJoined(result[p], rows, i);
    forall k | 0 <= k < |result| && k != p ensures EntryOf(result[k], rows[..i + 1]) {
      assert index[result[k].market] == k;
      EntryKept(result[k], rows, i);
    }
  }

  lemma CoveredMore(rows: seq<Row>, index: map<Id, nat>, i: nat)
    requires i < |rows| && Covered(rows[..i], index) && rows[i].market in index
    ensures Covered(rows[..i + 1], index)
  {
    assert rows[..i + 1] == rows[..i] + [rows[i]];
  }

  /** exposureRows' reading loop. */
  method ReadRows(rows: seq<Row>) returns (result: seq<Exposure>, ghost index: map<Id, nat>)
    ensures Entries(result, rows) && Indexed(result, index) && Covered(rows, index)
  {
    result := [];
    var positions: map<Id, nat> := map[];
    for i := 0 to |rows|
      invariant Entries(result, rows[..i]) && Indexed(result, positions) && Covered(rows[..i], positions)
    {
      var row := rows[i];
      if row.market !in positions {
        NewEntry(result, positions, rows, i);
        positions := positions[row.market := |result|];
        result := result + [AddRow(Exposure(row.market, 0, 0, []), row)];
      } else {
        var position := positions[row.market];
        OldEntry(result, positions, rows, i);
        result := result[position := AddRow(result[position], row)];
      }
      CoveredMore(rows, positions, i);
    }
    assert rows[..|rows|] == rows;
    index := positions;
  }

  /** marketSwing: the house's net on the market's worst and best outcomes. */
  method MarketSwing(outcomes: seq<Outcome>) returns (worst: int, best: int)
    ensures outcomes == [] ==> worst == 0 && best == 0
    ensures forall o :: o in outcomes ==> worst <= o.houseNet <= best
    ensures outcomes != [] ==> (exists o :: o in outcomes && o.houseNet == worst) && (exists o :: o in outcomes && o.houseNet == best)
  {
    if outcomes == [] {
      return 0, 0;
    }
    worst, best := outcomes[0].houseNet, outcomes[0].houseNet;
    for i := 1 to |outcomes|
      invariant forall k :: 0 <= k < i ==> worst <= outcomes[k].houseNet <= best
      invariant exists k :: 0 <= k < i && outcomes[k].houseNet == worst
      invariant exists k :: 0 <= k < i && outcomes[k].houseNet == best
    {
      if outcomes[i].houseNet < worst {
        worst := outcomes[i].houseNet;
      }
      if outcomes[i].houseNet > best {
        best := outcomes[i].houseNet;
      }
    }
  }

  /** The finished entry: every outcome's net is the market's stake less its
      payout, and the first least one is marked when the nets differ. */
  predicate IsFinished(m: Exposure, rows: seq<Row>) {
    && m.stake == StakeOf(rows) && m.wagers == WagersOf(rows) && |m.outcomes| == |rows|
    && (forall i :: 0 <= i < |rows| ==> IsOutcome(m.outcomes[i], rows[i], m.stake))
    && AllMarkedRight(m.outcomes)
  }

  predicate AllMarkedRight(outcomes: seq<Outcome>) {
    forall i {:trigger MarkedRight(outcomes, i)} :: 0 <= i < |outcomes| ==> MarkedRight(outcomes, i)
  }

  predicate MarkedRight(outcomes: seq<Outcome>, i: nat)
    requires i < |outcomes|
  {
    outcomes[i].worst <==> IsFirstWorst(outcomes, i)
  }

  predicate IsOutcome(o: Outcome, row: Row, stake: int) {
    && o.selection == row.selection && o.wagers == row.wagers && o.stake == row.stake && o.payout == row.payout
    && o.houseNet == stake - row.payout
  }

  predicate IsFirstWorst(outcomes: seq<Outcome>, i: nat)
    requires i < |outcomes|
  {
    && (forall k :: 0 <= k < |outcomes| ==> outcomes[i].houseNet <= outcomes[k].houseNet)
    && (forall k :: 0 <= k < i ==> outcomes[i].houseNet < outcomes[k].houseNet)
    && exists k :: 0 <= k < |outcomes| && outcomes[i].houseNet < outcomes[k].houseNet
  }

  /** exposureRows' second loop over one market. */
  method FinishMarket(m: Exposure, ghost rows: seq<Row>) returns (finished: Exposure)
    requires Collects(m, rows)
    ensures IsFinished(finished, rows) && finished.market == m.market
  {
    var outcomes := m.outcomes;
    for j := 0 to |outcomes|
      invariant |outcomes| == |rows|
      invariant forall k :: 0 <= k < j ==> IsOutcome(outcomes[k], rows[k], m.stake) && !outcomes[k].worst
      invariant forall k :: j <= k < |rows| ==> IsRead(outcomes[k], rows[k])
    {
      assert IsRead(outcomes[j], rows[j]);
      outcomes := outcomes[j := outcomes[j].(houseNet := m.stake - outcomes[j].payout)];
    }
    var worst, best := MarketSwing(outcomes);
    if worst != best {
      var j := 0;
      while outcomes[j].houseNet != worst
        invariant 0 <= j < |outcomes|
        invariant forall k :: 0 <= k < j ==> outcomes[k].houseNet != worst
        invariant exists k :: j <= k < |outcomes| && outcomes[k].houseNet == worst
        decreases |outcomes| - j
      {
        j := j + 1;
      }
      ghost var nets := outcomes;
      outcomes := outcomes[j := outcomes[j].(worst := true)];
      MarkedFirst(nets, outcomes, j, worst, best);
    }
    finished := Exposure(m.market, m.wagers, m.stake, outcomes);
  }

  lemma MarkedFirst(before: seq<Outcome>, after: seq<Outcome>, j: nat, worst: int, best: int)
    requires j < |before| && after == before[j := before[j].(worst := true)]
    requires forall k :: 0 <= k < |before| ==> worst <= before[k].houseNet <= best && !before[k].worst
    requires before[j].houseNet == worst && worst != best && exists o :: o in before && o.houseNet == best
    requires forall k :: 0 <= k < j ==> before[k].houseNet != worst
    ensures AllMarkedRight(after)
  {
    var o :| o in before && o.houseNet == best;
    var b :| 0 <= b < |before| && before[b] == o;
    assert after[b].houseNet == best && after[j].houseNet == worst;
    forall i {:trigger MarkedRight(after, i)} | 0 <= i < |after| ensures MarkedRight(after, i) {
      assert IsFirstWorst(after, i) ==> after[i].houseNet <= after[j].houseNet;
    }
  }

  predicate HasEntry(result: seq<Exposure>, market: Id) {
    exists k :: 0 <= k < |result| && result[k].market == market
  }

  predicate FinishedEntry(m: Exposure, rows: seq<Row>) {
    IsFinished(m, On(rows, m.market))
  }

  predicate AllFinished(result: seq<Exposure>, rows: seq<Row>) {
    forall k :: 0 <= k < |result| ==> FinishedEntry(result[k], rows)
  }

  method FinishEntry(m: Exposure, ghost rows: seq<Row>) returns (finished: Exposure)
    requires EntryOf(m, rows)
    ensures AllFinished([finished], rows) && finished.market == m.market
  {
    finished := FinishMarket(m, On(rows, m.market));
    assert FinishedEntry([finished][0], rows);
  }

  lemma AllFinishedTwice(a: seq<Exposure>, b: seq<Exposure>, rows: seq<Row>)
    requires AllFinished(a, rows) && AllFinished(b, rows)
    ensures AllFinished(a + b, rows)
  {
  }

  predicate DistinctMarkets(result: seq<Exposure>) {
    forall i, j :: 0 <= i < j < |result| ==> result[i].market != result[j].market
  }

  lemma OneEntryEach(read: seq<Exposure>, index: map<Id, nat>, rows: seq<Row>, result: seq<Exposure>)
    requires Indexed(read, index) && Covered(rows, index)
    requires |result| == |read| && forall k :: 0 <= k < |read| ==> result[k].market == read[k].market
    ensures DistinctMarkets(result) && forall i :: 0 <= i < |rows| ==> HasEntry(result, rows[i].market)
  {
    forall i | 0 <= i < |rows| ensures HasEntry(result, rows[i].market) {
      assert result[index[rows[i].market]].market == rows[i].market;
    }
    forall i, j | 0 <= i < j < |result| ensures result[i].market != result[j].market {
      assert index[read[i].market] == i && index[read[j].market] == j;
    }
  }

  /** exposureRows: one finished entry for each market that has a row. */
  method ExposureRows(rows: seq<Row>) returns (result: seq<Exposure>)
    ensures AllFinished(result, rows) && DistinctMarkets(result)
    ensures forall i :: 0 <= i < |rows| ==> HasEntry(result, rows[i].market)
  {
    var read, index := ReadRows(rows);
    result := [];
    for i := 0 to |read|
      invariant |result| == i && AllFinished(result, rows)
      invariant forall k :: 0 <= k < i ==> result[k].market == read[k].market
    {
      assert EntryOf(read[i], rows);
      var finished := FinishEntry(read[i], rows);
      AllFinishedTwice(result, [finished], rows);
      result := result + [finished];
    }
    OneEntryEach(read, index, rows, result);
  }
}
