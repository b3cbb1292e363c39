/** The event outbox (internal/events/dispatcher.go, internal/eventspg/store.go)
    as interleaved steps: every store statement and every consumer call is one
    step of one claim, and claims of any number of workers interleave freely. */
module Outbox {
  import opened Ledger

  // ---- Rows, claims and receipts -----------------------------------------------------

  datatype State = Pending | Processing | Completed | Failed

  /** `releases` counts stale releases, `retried` the attempts put back for retry. */
  datatype Row = Row(
    kind: Id,
    state: State,
    attempts: nat,
    maxAttempts: nat,
    availableAt: int,
    occurredAt: int,
    lockedAt: int,
    releases: nat,
    retried: set<nat>)

  datatype Consumer = Consumer(name: Id, kinds: set<Id>)

  datatype Phase = Checking | Handling | Recording | Failing

  /** One worker's claim of one event, at consumer number `step`. */
  datatype Claim = Claim(event: Id, kind: Id, attempt: nat, maxAttempts: nat, step: nat, phase: Phase)

  /** `receipts` pairs a consumer's name with an event. */
  datatype World = World(rows: map<Id, Row>, receipts: set<(Id, Id)>, claims: map<Id, Claim>)

  const Empty := World(map[], {}, map[])

  datatype Action =
    | Publish(event: Id, kind: Id, maxAttempts: nat, availableAt: int, occurredAt: int)
    | Take(claim: Id, event: Id, now: int)
    | Check(claim: Id, ok: bool)
    | Handle(claim: Id, ok: bool)
    | Record(claim: Id, ok: bool)
    | Finish(claim: Id)
    | Give(claim: Id, availableAt: int)
    | Crash(claim: Id)
    | Release(event: Id)

  // ---- Store statements ------------------------------------------------------------------

  predicate IsDue(row: Row, now: int) {
    row.state == Pending && row.availableAt <= now
  }

  function Claimed(row: Row, now: int): Row {
    row.(state := Processing, lockedAt := now, attempts := row.attempts + 1)
  }

  /** MarkCompleted, MarkRetry and MarkFailed ask only for a processing row, not
      for the claim that is processing it. */
  function MarkCompleted(rows: map<Id, Row>, event: Id): map<Id, Row> {
    if event in rows && rows[event].state == Processing then rows[event := rows[event].(state := Completed)] else rows
  }

  function MarkRetry(rows: map<Id, Row>, event: Id, attempt: nat, availableAt: int): map<Id, Row> {
    if event in rows && rows[event].state == Processing then
      rows[event := rows[event].(state := Pending, availableAt := availableAt, retried := rows[event].retried + {attempt})]
    else rows
  }

  function MarkFailed(rows: map<Id, Row>, event: Id): map<Id, Row> {
    if event in rows && rows[event].state == Processing then rows[event := rows[event].(state := Failed)] else rows
  }

  function Released(row: Row): Row {
    row.(state := Pending, releases := row.releases + 1)
  }

  /** handleFailure. */
  function AfterFailure(rows: map<Id, Row>, c: Claim, availableAt: int): map<Id, Row> {
    if c.attempt >= c.maxAttempts then MarkFailed(rows, c.event) else MarkRetry(rows, c.event, c.attempt, availableAt)
  }

  // ---- Steps --------------------------------------------------------------------------------

  function Advance(c: Claim): Claim {
    c.(step := c.step + 1, phase := Checking)
  }

  /** A claim's consumer loop: skip, find a receipt, handle, record. */
  function ClaimStep(consumers: seq<Consumer>, w: World, a: Action): World
    requires a.Check? || a.Handle? || a.Record?
  {
    if a.claim !in w.claims || w.claims[a.claim].step >= |consumers| then w
    else
      var c := w.claims[a.claim];
      var consumer := consumers[c.step];
      match a
      case Check(_, ok) =>
        if c.phase != Checking then w
        else if c.kind !in consumer.kinds then w.(claims := w.claims[a.claim := Advance(c)])
        else if !ok then w.(claims := w.claims[a.claim := c.(phase := Failing)])
        else if (consumer.name, c.event) in w.receipts then w.(claims := w.claims[a.claim := Advance(c)])
        else w.(claims := w.claims[a.claim := c.(phase := Handling)])
      case Handle(_, ok) =>
        if c.phase != Handling then w
        else w.(claims := w.claims[a.claim := c.(phase := if ok then Recording else Failing)])
      case Record(_, ok) =>
        if c.phase != Recording then w
        else if !ok then w.(claims := w.claims[a.claim := c.(phase := Failing)])
        else w.(receipts := w.receipts + {(consumer.name, c.event)}, claims := w.claims[a.claim := Advance(c)])
  }

  function Next(consumers: seq<Consumer>, w: World, a: Action): World {
    match a
    case Publish(event, kind, maxAttempts, availableAt, occurredAt) =>
      if event in w.rows || maxAttempts == 0 then w
      else w.(rows := w.rows[event := Row(kind, Pending, 0, maxAttempts, availableAt, occurredAt, 0, 0, {})])
    case Take(claim, event, now) =>
      if claim in w.claims || event !in w.rows || !IsDue(w.rows[event], now) then w
      else
        var row := Claimed(w.rows[event], now);
        w.(rows := w.rows[event := row], claims := w.claims[claim := NewClaim(event, row)])
    case Finish(claim) =>
      if claim !in w.claims || w.claims[claim].phase != Checking || w.claims[claim].step < |consumers| then w
      else w.(rows := MarkCompleted(w.rows, w.claims[claim].event), claims := w.claims - {claim})
    case Give(claim, availableAt) =>
      if claim !in w.claims || w.claims[claim].phase != Failing then w
      else w.(rows := AfterFailure(w.rows, w.claims[claim], availableAt), claims := w.claims - {claim})
    case Crash(claim) => w.(claims := w.claims - {claim})
    case Release(event) =>
      if event !in w.rows || w.rows[event].state != Processing then w
      else w.(rows := w.rows[event := Released(w.rows[event])])
    case _ => ClaimStep(consumers, w, a)
  }

  function NewClaim(event: Id, row: Row): Claim {
    Claim(event, row.kind, row.attempts, row.maxAttempts, 0, Checking)
  }

  function Run(consumers: seq<Consumer>, actions: seq<Action>): World {
    if actions == [] then Empty
    else Next(consumers, Run(consumers, actions[..|actions| - 1]), actions[|actions| - 1])
  }

  // ---- What every interleaving keeps ------------------------------------------------------------

  /** The first `step` consumers that handle the event have a receipt for it. */
  predicate ReceiptedTo(consumers: seq<Consumer>, receipts: set<(Id, Id)>, event: Id, kind: Id, step: nat) {
    forall i :: 0 <= i < step && i < |consumers| && kind in consumers[i].kinds ==> (consumers[i].name, event) in receipts
  }

  /** Every claim but the one in progress ended in a retry or a release, and only
      attempts below the maximum are retried. */
  predicate RowSound(consumers: seq<Consumer>, receipts: set<(Id, Id)>, event: Id, row: Row) {
    && row.maxAttempts >= 1
    && row.attempts == |row.retried| + row.releases + (if row.state == Pending then 0 else 1)
    && (forall a :: a in row.retried ==> 1 <= a < row.maxAttempts && a <= row.attempts)
    && (row.state == Completed ==> ReceiptedTo(consumers, receipts, event, row.kind, |consumers|))
    && (row.state == Failed ==> row.attempts >= row.maxAttempts)
  }

  predicate ClaimSound(consumers: seq<Consumer>, w: World, c: Claim) {
    && c.event in w.rows
    && c.kind == w.rows[c.event].kind && c.maxAttempts == w.rows[c.event].maxAttempts
    && 1 <= c.attempt <= w.rows[c.event].attempts && c.attempt !in w.rows[c.event].retried
    && c.step <= |consumers|
    && ReceiptedTo(consumers, w.receipts, c.event, c.kind, c.step)
  }

  predicate Sound(consumers: seq<Consumer>, w: World) {
    && (forall e :: e in w.rows ==> RowSound(consumers, w.receipts, e, w.rows[e]))
    && (forall id :: id in w.claims ==> ClaimSound(consumers, w, w.claims[id]))
    && (forall i, j :: i in w.claims && j in w.claims && i != j && w.claims[i].event == w.claims[j].event ==>
          w.claims[i].attempt != w.claims[j].attempt)
  }

  /** More receipts, and one claim moved on: everything else is as it was. */
  lemma ClaimMoves(consumers: seq<Consumer>, w: World, after: World, claim: Id)
    requires Sound(consumers, w) && claim in w.claims && claim in after.claims
    requires after.rows == w.rows && w.receipts <= after.receipts
    requires after.claims == w.claims[claim := after.claims[claim]]
    requires var c, next := w.claims[claim], after.claims[claim];
      next == c.(step := next.step, phase := next.phase) && next.step <= |consumers|
      && ReceiptedTo(consumers, after.receipts, c.event, c.kind, next.step)
    ensures Sound(consumers, after)
  {
    forall e | e in after.rows ensures RowSound(consumers, after.receipts, e, after.rows[e]) {
      assert RowSound(consumers, w.receipts, e, w.rows[e]);
    }
    forall id | id in after.claims ensures ClaimSound(consumers, after, after.claims[id]) {
      assert ClaimSound(consumers, w, w.claims[id]);
    }
  }

  lemma ClaimStepIsSound(consumers: seq<Consumer>, w: World, a: Action)
    requires Sound(consumers, w) && (a.Check? || a.Handle? || a.Record?)
    ensures Sound(consumers, ClaimStep(consumers, w, a))
  {
    var after := ClaimStep(consumers, w, a);
    if after != w {
      var c := w.claims[a.claim];
      assert ClaimSound(consumers, w, c);
      ClaimMoves(consumers, w, after, a.claim);
    }
  }

  /** A row moves on while its claims stay; `gone` is a claim that just left. */
  lemma RowStepIsSound(consumers: seq<Consumer>, w: World, after: World, event: Id)
    requires Sound(consumers, w) && event in w.rows && event in after.rows
    requires after.receipts == w.receipts && after.rows == w.rows[event := after.rows[event]]
    requires RowSound(consumers, w.receipts, event, after.rows[event])
    requires after.rows[event].kind == w.rows[event].kind && after.rows[event].maxAttempts == w.rows[event].maxAttempts
    requires after.rows[event].attempts >= w.rows[event].attempts
    requires forall id :: id in after.claims ==> id in w.claims && after.claims[id] == w.claims[id]
    requires forall id :: id in after.claims && after.claims[id].event == event ==>
      after.claims[id].attempt !in after.rows[event].retried
    ensures Sound(consumers, after)
  {
    forall id | id in after.claims ensures ClaimSound(consumers, after, after.claims[id]) {
      assert ClaimSound(consumers, w, w.claims[id]);
    }
    forall e | e in after.rows ensures RowSound(consumers, after.receipts, e, after.rows[e]) {
      if e != event {
        assert RowSound(consumers, w.receipts, e, w.rows[e]);
      }
    }
  }

  lemma DropIsSound(consumers: seq<Consumer>, w: World, claim: Id)
    requires Sound(consumers, w)
    ensures Sound(consumers, w.(claims := w.claims - {claim}))
  {
    var after := w.(claims := w.claims - {claim});
    forall id | id in after.claims ensures ClaimSound(consumers, after, after.claims[id]) {
      assert ClaimSound(consumers, w, w.claims[id]);
    }
  }

  lemma FinishIsSound(consumers: seq<Consumer>, w: World, claim: Id)
    requires Sound(consumers, w) && claim in w.claims
    ensures Sound(consumers, Next(consumers, w, Finish(claim)))
  {
    var c, after := w.claims[claim], Next(consumers, w, Finish(claim));
    if after != w {
      assert ClaimSound(consumers, w, c) && RowSound(consumers, w.receipts, c.event, w.rows[c.event]);
      DropIsSound(consumers, w, claim);
      var left := w.(claims := w.claims - {claim});
      forall id | id in left.claims && left.claims[id].event == c.event
        ensures left.claims[id].attempt !in after.rows[c.event].retried
      {
        assert ClaimSound(consumers, left, left.claims[id]);
      }
      RowStepIsSound(consumers, left, after, c.event);
    }
  }

  lemma RetryRow(consumers: seq<Consumer>, receipts: set<(Id, Id)>, event: Id, row: Row, attempt: nat, availableAt: int)
    requires RowSound(consumers, receipts, event, row) && row.state == Processing
    requires 1 <= attempt < row.maxAttempts && attempt <= row.attempts && attempt !in row.retried
    ensures RowSound(consumers, receipts, event,
                     row.(state := Pending, availableAt := availableAt, retried := row.retried + {attempt}))
  {
    assert |row.retried + {attempt}| == |row.retried| + 1;
  }

  lemma GiveIsSound(consumers: seq<Consumer>, w: World, claim: Id, availableAt: int)
    requires Sound(consumers, w) && claim in w.claims
    ensures Sound(consumers, Next(consumers, w, Give(claim, availableAt)))
  {
    var c, after := w.claims[claim], Next(consumers, w, Give(claim, availableAt));
    if after != w {
      assert ClaimSound(consumers, w, c) && RowSound(consumers, w.receipts, c.event, w.rows[c.event]);
      DropIsSound(consumers, w, claim);
      var left := w.(claims := w.claims - {claim});
      if w.rows[c.event].state == Processing && c.attempt < c.maxAttempts {
        RetryRow(consumers, w.receipts, c.event, w.rows[c.event], c.attempt, availableAt);
      }
      forall id | id in left.claims && left.claims[id].event == c.event
        ensures left.claims[id].attempt !in after.rows[c.event].retried
      {
        assert ClaimSound(consumers, left, left.claims[id]);
      }
      RowStepIsSound(consumers, left, after, c.event);
    }
  }

  lemma TakeIsSound(consumers: seq<Consumer>, w: World, claim: Id, event: Id, now: int)
    requires Sound(consumers, w)
    ensures Sound(consumers, Next(consumers, w, Take(claim, event, now)))
  {
    var after := Next(consumers, w, Take(claim, event, now));
    if after != w {
      assert RowSound(consumers, w.receipts, event, w.rows[event]);
      forall id | id in after.claims ensures ClaimSound(consumers, after, after.claims[id]) {
        if id != claim {
          assert ClaimSound(consumers, w, w.claims[id]);
        }
      }
      forall e | e in after.rows ensures RowSound(consumers, after.receipts, e, after.rows[e]) {
        assert RowSound(consumers, w.receipts, e, w.rows[e]);
      }
      forall i, j | i in after.claims && j in after.claims && i != j && after.claims[i].event == after.claims[j].event
        ensures after.claims[i].attempt != after.claims[j].attempt
      {
        assert i != claim ==> ClaimSound(consumers, w, w.claims[i]);
        assert j != claim ==> ClaimSound(consumers, w, w.claims[j]);
      }
    }
  }

  lemma ReleaseIsSound(consumers: seq<Consumer>, w: World, event: Id)
    requires Sound(consumers, w)
    ensures Sound(consumers, Next(consumers, w, Release(event)))
  {
    var after := Next(consumers, w, Release(event));
    if after != w {
      assert RowSound(consumers, w.receipts, event, w.rows[event]);
      forall id | id in after.claims && after.claims[id].event == event
        ensures after.claims[id].attempt !in after.rows[event].retried
      {
        assert ClaimSound(consumers, w, w.claims[id]);
      }
      RowStepIsSound(consumers, w, after, event);
    }
  }

  lemma PublishIsSound(consumers: seq<Consumer>, w: World, a: Action)
    requires Sound(consumers, w) && a.Publish?
    ensures Sound(consumers, Next(consumers, w, a))
  {
    var after := Next(consumers, w, a);
    forall id | id in after.claims ensures ClaimSound(consumers, after, after.claims[id]) {
      assert ClaimSound(consumers, w, w.claims[id]);
    }
  }

  lemma NextIsSound(consumers: seq<Consumer>, w: World, a: Action)
    requires Sound(consumers, w)
    ensures Sound(consumers, Next(consumers, w, a))
  {
    match a
    case Publish(_, _, _, _, _) => PublishIsSound(consumers, w, a);
    case Take(claim, event, now) => TakeIsSound(consumers, w, claim, event, now);
    case Finish(claim) => if claim in w.claims { FinishIsSound(consumers, w, claim); }
    case Give(claim, availableAt) => if claim in w.claims { GiveIsSound(consumers, w, claim, availableAt); }
    case Crash(claim) => DropIsSound(consumers, w, claim);
    case Release(event) => ReleaseIsSound(consumers, w, event);
    case _ => ClaimStepIsSound(consumers, w, a);
  }

  lemma {:induction false} RunIsSound(consumers: seq<Consumer>, actions: seq<Action>)
    ensures Sound(consumers, Run(consumers, actions))
  {
    if actions != [] {
      var init := actions[..|actions| - 1];
      RunIsSound(consumers, init);
      NextIsSound(consumers, Run(consumers, init), actions[|actions| - 1]);
    }
  }

  // ---- The guarantees ----------------------------------------------------------------------------

  /** A completed event has a receipt from every consumer that handles its type,
      however workers, crashes, releases and late finishers interleave. */
  lemma CompletedWasHandledByAll(consumers: seq<Consumer>, actions: seq<Action>, event: Id, i: nat)
    requires event in Run(consumers, actions).rows && Run(consumers, actions).rows[event].state == Completed
    requires i < |consumers| && Run(consumers, actions).rows[event].kind in consumers[i].kinds
    ensures (consumers[i].name, event) in Run(consumers, actions).receipts
  {
    RunIsSound(consumers, actions);
    assert RowSound(consumers, Run(consumers, actions).receipts, event, Run(consumers, actions).rows[event]);
  }

  lemma RetriesAreFew(retried: set<nat>, limit: nat)
    requires limit >= 1 && forall a :: a in retried ==> 1 <= a < limit
    ensures |retried| <= limit - 1
    decreases limit
  {
    if limit == 1 {
      assert retried == {};
    } else {
      var fewer := retried - {limit - 1};
      RetriesAreFew(fewer, limit - 1);
      assert retried <= fewer + {limit - 1};
      assert |retried| <= |fewer| + 1;
    }
  }

  /** No event is claimed more often than its maximum plus its stale releases;
      and a failed one has used up its attempts. */
  lemma AttemptsAreBounded(consumers: seq<Consumer>, actions: seq<Action>, event: Id)
    requires event in Run(consumers, actions).rows
    ensures var row := Run(consumers, actions).rows[event];
      row.attempts <= row.maxAttempts + row.releases && (row.state == Failed ==> row.attempts >= row.maxAttempts)
  {
    RunIsSound(consumers, actions);
    var row := Run(consumers, actions).rows[event];
    assert RowSound(consumers, Run(consumers, actions).receipts, event, row);
    RetriesAreFew(row.retried, row.maxAttempts);
  }

  predicate Progressed(row: Row, next: Row) {
    && next.kind == row.kind && next.maxAttempts == row.maxAttempts
    && next.attempts >= row.attempts && next.releases >= row.releases
    && (row.state == Completed || row.state == Failed ==> next == row)
  }

  predicate Later(w: World, after: World) {
    w.receipts <= after.receipts
    && forall e :: e in w.rows ==> e in after.rows && Progressed(w.rows[e], after.rows[e])
  }

  lemma NextIsLater(consumers: seq<Consumer>, w: World, a: Action)
    ensures Later(w, Next(consumers, w, a))
  {
  }

  /** Completed and failed are final, and receipts are never lost. */
  lemma {:induction false} OutcomesAreFinal(consumers: seq<Consumer>, actions: seq<Action>, n: nat)
    requires n <= |actions|
    ensures Later(Run(consumers, actions[..n]), Run(consumers, actions))
    decreases |actions|
  {
    if n == |actions| {
      assert actions[..n] == actions;
    } else {
      var init := actions[..|actions| - 1];
      assert init[..n] == actions[..n];
      OutcomesAreFinal(consumers, init, n);
      NextIsLater(consumers, Run(consumers, init), actions[|actions| - 1]);
      LaterTwice(Run(consumers, actions[..n]), Run(consumers, init), Run(consumers, actions));
    }
  }

  lemma LaterTwice(a: World, b: World, c: World)
    requires Later(a, b) && Later(b, c)
    ensures Later(a, c)
  {
    forall e | e in a.rows ensures e in c.rows && Progressed(a.rows[e], c.rows[e]) {
      assert Progressed(a.rows[e], b.rows[e]) && Progressed(b.rows[e], c.rows[e]);
    }
  }
}
