/** The outbox table and the dispatcher loop that drives it, updating rows in
    place. `history` records each statement as a step of Outbox. */
module OutboxStore {
  import opened Results
  import opened Ledger
  import opened Outbox

  datatype ClaimedEvent = ClaimedEvent(event: Id, kind: Id, attempt: nat, maxAttempts: nat)

  /** ORDER BY available_at, occurred_at, id. */
  predicate Before(rows: map<Id, Row>, a: Id, b: Id)
    requires a in rows && b in rows
  {
    if rows[a].availableAt != rows[b].availableAt then rows[a].availableAt < rows[b].availableAt
    else if rows[a].occurredAt != rows[b].occurredAt then rows[a].occurredAt < rows[b].occurredAt
    else a < b
  }

  /** Due, and not locked by another transaction: locked rows are skipped. */
  predicate IsOpen(row: Row, event: Id, now: int, locked: set<Id>) {
    IsDue(row, now) && event !in locked
  }

  predicate IsClaimed(claimed: seq<ClaimedEvent>, event: Id) {
    exists i :: 0 <= i < |claimed| && claimed[i].event == event
  }

  /** `claimed` are the earliest open rows of `before`, each once and in no promised
      order, and `after` has exactly those claimed. */
  predicate ClaimsEarliest(before: map<Id, Row>, now: int, locked: set<Id>, limit: nat, claimed: seq<ClaimedEvent>, after: map<Id, Row>) {
    && |claimed| <= limit
    && after.Keys == before.Keys
    && (forall i :: 0 <= i < |claimed| ==> ClaimsRow(before, now, locked, claimed[i]))
    && (forall i, j :: 0 <= i < j < |claimed| ==> claimed[i].event != claimed[j].event)
    && (forall e :: e in before ==> after[e] == if IsClaimed(claimed, e) then Claimed(before[e], now) else before[e])
    && (forall e :: e in before && IsOpen(before[e], e, now, locked) && !IsClaimed(claimed, e) ==>
          forall i :: 0 <= i < |claimed| ==> Before(before, claimed[i].event, e))
  }

  /** The row was pending, due and free; it is processing, locked now and counted
      once more, and the rest of it is as it was. */
  predicate TakenUp(before: map<Id, Row>, now: int, locked: set<Id>, c: ClaimedEvent, after: map<Id, Row>) {
    && c.event in before && c.event in after && c.event !in locked
    && var row := before[c.event];
       && row.state == Pending && row.availableAt <= now
       && after[c.event] == row.(state := Processing, lockedAt := now, attempts := row.attempts + 1)
       && c.kind == row.kind && c.attempt == row.attempts + 1 && c.maxAttempts == row.maxAttempts
  }

  /** A due and free row that was left over is later by availability, then
      occurrence, then ID than the claimed one. */
  predicate LeavesLater(before: map<Id, Row>, now: int, locked: set<Id>, claimed: seq<ClaimedEvent>, i: nat, e: Id)
    requires i < |claimed|
  {
    e in before && e !in locked && before[e].state == Pending && before[e].availableAt <= now
    && (forall k :: 0 <= k < |claimed| ==> claimed[k].event != e) && claimed[i].event in before ==>
      var a, b := before[claimed[i].event], before[e];
      || a.availableAt < b.availableAt
      || (a.availableAt == b.availableAt && a.occurredAt < b.occurredAt)
      || (a.availableAt == b.availableAt && a.occurredAt == b.occurredAt && claimed[i].event < e)
  }

  lemma BatchIs(before: map<Id, Row>, now: int, locked: set<Id>, limit: nat, claimed: seq<ClaimedEvent>, after: map<Id, Row>)
    requires ClaimsEarliest(before, now, locked, limit, claimed, after)
    ensures forall i :: 0 <= i < |claimed| ==> TakenUp(before, now, locked, claimed[i], after)
    ensures forall i, e :: 0 <= i < |claimed| ==> LeavesLater(before, now, locked, claimed, i, e)
  {
    forall i | 0 <= i < |claimed| ensures TakenUp(before, now, locked, claimed[i], after) {
      assert ClaimsRow(before, now, locked, claimed[i]) && IsClaimed(claimed, claimed[i].event);
    }
    forall i, e | 0 <= i < |claimed| ensures LeavesLater(before, now, locked, claimed, i, e) {
      if e in before && IsOpen(before[e], e, now, locked) && !IsClaimed(claimed, e) {
        assert Before(before, claimed[i].event, e);
      }
    }
  }

  predicate ClaimsRow(before: map<Id, Row>, now: int, locked: set<Id>, c: ClaimedEvent) {
    && c.event in before && IsOpen(before[c.event], c.event, now, locked)
    && c == ClaimedEvent(c.event, before[c.event].kind, before[c.event].attempts + 1, before[c.event].maxAttempts)
  }

  lemma RunNext(consumers: seq<Consumer>, history: seq<Action>, a: Action)
    ensures Run(consumers, history + [a]) == Next(consumers, Run(consumers, history), a)
  {
    assert (history + [a])[..|history|] == history;
  }

  class Store {
    const consumers: seq<Consumer>
    var rows: map<Id, Row>
    var receipts: set<(Id, Id)>
    ghost var claims: map<Id, Claim>
    ghost var nextClaim: Id
    ghost var history: seq<Action>

    ghost predicate Valid()
      reads this
    {
      && World(rows, receipts, claims) == Run(consumers, history)
      && forall id :: id in claims ==> id < nextClaim
    }

    constructor (consumers: seq<Consumer>)
      ensures Valid() && this.consumers == consumers && rows == map[] && claims == map[]
    {
      this.consumers := consumers;
      rows, receipts := map[], {};
      claims, nextClaim, history := map[], 0, [];
    }

    ghost method Did(a: Action)
      requires World(rows, receipts, claims) == Next(consumers, Run(consumers, history), a)
      requires forall id :: id in claims ==> id < nextClaim
      modifies this`history
      ensures Valid() && history == old(history) + [a]
    {
      RunNext(consumers, history, a);
      history := history + [a];
    }

    /** The earliest row that is pending, due and not locked. */
    method EarliestOpen(now: int, locked: set<Id>) returns (event: Option<Id>)
      ensures event.None? ==> forall e :: e in rows ==> !IsOpen(rows[e], e, now, locked)
      ensures event.Some? ==> event.value in rows && IsOpen(rows[event.value], event.value, now, locked)
      ensures event.Some? ==>
        forall e :: e in rows && IsOpen(rows[e], e, now, locked) && e != event.value ==> Before(rows, event.value, e)
    {
      event := None;
      var rest := rows.Keys;
      while rest != {}
        invariant rest <= rows.Keys
        invariant event.None? ==> forall e :: e in rows && e !in rest ==> !IsOpen(rows[e], e, now, locked)
        invariant event.Some? ==> event.value in rows && event.value !in rest && IsOpen(rows[event.value], event.value, now, locked)
        invariant event.Some? ==>
          forall e :: e in rows && e !in rest && IsOpen(rows[e], e, now, locked) && e != event.value ==> Before(rows, event.value, e)
        decreases rest
      {
        var e :| e in rest;
        rest := rest - {e};
        if IsOpen(rows[e], e, now, locked) && (event.None? || Before(rows, e, event.value)) {
          event := Some(e);
        }
      }
    }

    /** Claim one due row. */
    method ClaimOne(event: Id, now: int) returns (claimed: ClaimedEvent, ghost id: Id)
      requires Valid() && event in rows && IsDue(rows[event], now)
      modifies this`rows, this`claims, this`nextClaim, this`history
      ensures Valid() && rows == old(rows)[event := Claimed(old(rows)[event], now)]
      ensures claimed == ClaimedEvent(event, rows[event].kind, rows[event].attempts, rows[event].maxAttempts)
      ensures id !in old(claims) && claims == old(claims)[id := NewClaim(event, rows[event])]
    {
      id := nextClaim;
      var row := Claimed(rows[event], now);
      rows := rows[event := row];
      claims := claims[id := NewClaim(event, row)];
      nextClaim := nextClaim + 1;
      Did(Take(id, event, now));
      claimed := ClaimedEvent(event, row.kind, row.attempts, row.maxAttempts);
    }

    /** ClaimBatch, while other transactions hold the `locked` rows. */
    method ClaimBatch(now: int, locked: set<Id>, limit: nat) returns (claimed: seq<ClaimedEvent>, ghost ids: seq<Id>)
      requires Valid()
      modifies this`rows, this`claims, this`nextClaim, this`history
      ensures Valid() && ClaimsEarliest(old(rows), now, locked, limit, claimed, rows)
      ensures forall i :: 0 <= i < |claimed| ==> TakenUp(old(rows), now, locked, claimed[i], rows)
      ensures forall i, e :: 0 <= i < |claimed| ==> LeavesLater(old(rows), now, locked, claimed, i, e)
      ensures |claimed| < limit ==>
        forall e :: e in rows && e !in locked ==> rows[e].state != Pending || rows[e].availableAt > now
      ensures |ids| == |claimed| && forall i :: 0 <= i < |ids| ==> HasClaim(ids[i], claimed[i])
    {
      claimed, ids := [], [];
      while |claimed| < limit
        invariant Valid() && |ids| == |claimed|
        invariant ClaimsEarliest(old(rows), now, locked, limit, claimed, rows)
        invariant forall i :: 0 <= i < |ids| ==> HasClaim(ids[i], claimed[i])
        decreases limit - |claimed|
      {
        var due := EarliestOpen(now, locked);
        if due.None? {
          BatchIs(old(rows), now, locked, limit, claimed, rows);
          return;
        }
        assert !IsClaimed(claimed, due.value);
        ClaimedNext(old(rows), now, locked, limit, claimed, rows, due.value);
        var one;
        ghost var id;
        one, id := ClaimOne(due.value, now);
        claimed, ids := claimed + [one], ids + [id];
      }
      BatchIs(old(rows), now, locked, limit, claimed, rows);
    }

    /** The claim behind a claimed event, not yet worked on. */
    ghost predicate HasClaim(id: Id, c: ClaimedEvent)
      reads this`claims
    {
      id in claims && claims[id] == Claim(c.event, c.kind, c.attempt, c.maxAttempts, 0, Checking)
    }

    /** MarkCompleted; `updated` tells whether a row was still processing. */
    method MarkCompleted(event: Id, ghost id: Id) returns (updated: bool)
      requires Valid() && id in claims && claims[id].event == event
      requires claims[id].phase == Checking && claims[id].step >= |consumers|
      modifies this`rows, this`claims, this`history
      ensures Valid() && rows == Outbox.MarkCompleted(old(rows), event) && claims == old(claims) - {id}
      ensures updated <==> rows != old(rows)
    {
      updated := event in rows && rows[event].state == Processing;
      if updated {
        rows := rows[event := rows[event].(state := Completed)];
      }
      claims := claims - {id};
      Did(Finish(id));
    }

    /** MarkFailed on the last attempt, MarkRetry before. */
    method MarkFailure(event: ClaimedEvent, availableAt: int, ghost id: Id)
      requires Valid() && id in claims && claims[id].phase == Failing
      requires claims[id] == Claim(event.event, event.kind, event.attempt, event.maxAttempts, claims[id].step, Failing)
      modifies this`rows, this`claims, this`history
      ensures Valid() && claims == old(claims) - {id}
      ensures rows == AfterFailure(old(rows), old(claims)[id], availableAt)
    {
      if event.event in rows && rows[event.event].state == Processing {
        var row := rows[event.event];
        if event.attempt >= event.maxAttempts {
          rows := rows[event.event := row.(state := Failed)];
        } else {
          rows := rows[event.event := row.(state := Pending, availableAt := availableAt, retried := row.retried + {event.attempt})];
        }
      }
      claims := claims - {id};
      Did(Give(id, availableAt));
    }

    method RecordReceipt(consumer: Id, event: Id, ghost id: Id)
      requires Valid() && id in claims && claims[id].event == event && claims[id].phase == Recording
      requires claims[id].step < |consumers| && consumers[claims[id].step].name == consumer
      modifies this`receipts, this`claims, this`history
      ensures Valid() && receipts == old(receipts) + {(consumer, event)}
      ensures claims == old(claims)[id := Advance(old(claims)[id])]
    {
      receipts := receipts + {(consumer, event)};
      claims := claims[id := Advance(claims[id])];
      Did(Record(id, true));
    }

    /** Note a step that only this worker sees. */
    ghost method Move(a: Action, id: Id, next: Claim)
      requires Valid() && id in claims
      requires World(rows, receipts, claims[id := next]) == Next(consumers, World(rows, receipts, claims), a)
      modifies this`claims, this`history
      ensures Valid() && claims == old(claims)[id := next]
    {
      claims := claims[id := next];
      Did(a);
    }

    method ReleaseOne(event: Id)
      requires Valid() && event in rows && rows[event].state == Processing
      modifies this`rows, this`history
      ensures Valid() && rows == old(rows)[event := Released(old(rows)[event])]
    {
      rows := rows[event := Released(rows[event])];
      Did(Release(event));
    }

    /** Return processing rows locked before the cutoff to pending. */
    method ReleaseStale(cutoff: int) returns (count: nat)
      requires Valid()
      modifies this`rows, this`history
      ensures Valid() && ReleasesStale(old(rows), cutoff, rows)
      ensures forall e :: e in rows ==> e in old(rows) && WasReleased(old(rows)[e], cutoff, rows[e])
      ensures count == |StaleRows(old(rows), cutoff)|
    {
      count := 0;
      var rest := rows.Keys;
      ghost var stale: set<Id> := {};
      while rest != {}
        invariant Valid() && rest <= rows.Keys
        invariant ReleasedSoFar(old(rows), cutoff, rest, stale, rows)
        invariant count == |stale|
        decreases rest
      {
        var e :| e in rest;
        rest := rest - {e};
        if IsStale(rows[e], cutoff) {
          stale := stale + {e};
          ReleaseOne(e);
          count := count + 1;
        }
      }
      assert stale == StaleRows(old(rows), cutoff);
    }
  }

  function StaleRows(rows: map<Id, Row>, cutoff: int): set<Id> {
    set e | e in rows && IsStale(rows[e], cutoff)
  }

  /** Locked before the cutoff it is pending again, and counted as released. */
  predicate WasReleased(row: Row, cutoff: int, next: Row) {
    if row.state == Processing && row.lockedAt < cutoff then next == row.(state := Pending, releases := row.releases + 1)
    else next == row
  }

  predicate ReleasesStale(before: map<Id, Row>, cutoff: int, after: map<Id, Row>) {
    && after.Keys == before.Keys
    && forall e :: e in before ==> after[e] == if IsStale(before[e], cutoff) then Released(before[e]) else before[e]
  }

  ghost predicate ReleasedSoFar(before: map<Id, Row>, cutoff: int, rest: set<Id>, stale: set<Id>, after: map<Id, Row>) {
    && after.Keys == before.Keys
    && (forall e :: e in stale <==> e in before && e !in rest && IsStale(before[e], cutoff))
    && forall e :: e in before ==> after[e] == if e in stale then Released(before[e]) else before[e]
  }

  // ---- Backoff ----------------------------------------------------------------------------

  const MAX_SHIFT := 62

  function Pow2(k: nat): nat {
    if k == 0 then 1 else 2 * Pow2(k - 1)
  }

  /** int64 multiplication. */
  function Wrapped(x: int): int {
    (x + 0x8000_0000_0000_0000) % 0x1_0000_0000_0000_0000 - 0x8000_0000_0000_0000
  }

  function Shift(attempt: int): nat {
    var shift := (if attempt < 1 then 1 else attempt) - 1;
    if shift > MAX_SHIFT then MAX_SHIFT else shift
  }

  /** backoffDelay before jitter. */
  function Delay(base: int, cap: int, attempt: int): int {
    var delay := Wrapped(base * Pow2(Shift(attempt)));
    if delay <= 0 || delay > cap then cap else delay
  }

  /** backoffDelay: `random(n)` is a draw below n. */
  function BackoffDelay(base: int, cap: int, attempt: int, random: int -> int): int {
    var delay := Delay(base, cap, attempt);
    var half := delay / 2;
    half + if half > 0 then random(half + 1) else 0
  }

  /** The documented delay: doubling from the base, up to the cap. */
  function Documented(base: int, cap: int, attempt: int): int
    requires attempt >= 1
  {
    var delay := base * Pow2(attempt - 1);
    if delay > cap then cap else delay
  }

  lemma {:induction false} PowGrows(j: nat, k: nat)
    requires j <= k
    ensures 1 <= Pow2(j) <= Pow2(k)
  {
    if j < k {
      PowGrows(j, k - 1);
    } else if j > 0 {
      PowGrows(j - 1, k - 1);
    }
  }

  lemma Pow63()
    ensures Pow2(63) == 0x8000_0000_0000_0000
  {
    assert Pow2(8) == 0x100;
    assert Pow2(16) == 0x1_0000;
    assert Pow2(24) == 0x100_0000;
    assert Pow2(32) == 0x1_0000_0000;
    assert Pow2(40) == 0x100_0000_0000;
    assert Pow2(48) == 0x1_0000_0000_0000;
    assert Pow2(56) == 0x100_0000_0000_0000;
  }

  lemma ProductGrows(x: nat, small: nat, large: nat)
    requires small <= large
    ensures x * small <= x * large
  {
  }

  predicate ShiftIsHarmless(base: int, cap: int, attempt: int) {
    var product := base * Pow2(Shift(attempt));
    (attempt <= MAX_SHIFT + 1 && product <= MAX_INT64) || Wrapped(product) <= 0 || Wrapped(product) >= cap
  }

  /** The delay is the documented one exactly when the shifted base fits int64,
      or wraps to something that is not positive or at least the cap. */
  lemma DelayIsDocumentedExactly(base: int, cap: int, attempt: int)
    requires 1 <= base <= cap <= MAX_INT64 && attempt >= 1
    ensures Delay(base, cap, attempt) == Documented(base, cap, attempt) <==> ShiftIsHarmless(base, cap, attempt)
  {
    var product := base * Pow2(Shift(attempt));
    PowGrows(0, Shift(attempt));
    ProductGrows(base, 1, Pow2(Shift(attempt)));
    if attempt > MAX_SHIFT + 1 {
      PowGrows(63, attempt - 1);
      Pow63();
      ProductGrows(base, Pow2(63), Pow2(attempt - 1));
      ProductGrows(Pow2(63), 1, base);
    }
  }

  /** Every delay with jitter lies between half the delay and the delay. */
  lemma JitterStaysInRange(base: int, cap: int, attempt: int, random: int -> int)
    requires 1 <= base <= cap && forall n :: n > 0 ==> 0 <= random(n) < n
    ensures var delay := Delay(base, cap, attempt);
      1 <= delay <= cap && delay / 2 <= BackoffDelay(base, cap, attempt, random) <= delay
  {
    var half := Delay(base, cap, attempt) / 2;
    if half > 0 {
      assert 0 <= random(half + 1) < half + 1;
    }
  }

  /** Every whole delay in that range can be drawn. */
  lemma JitterReachesAll(base: int, cap: int, attempt: int, extra: int)
    requires 1 <= base <= cap && 0 <= extra <= Delay(base, cap, attempt) / 2
    ensures BackoffDelay(base, cap, attempt, n => extra) == Delay(base, cap, attempt) / 2 + extra
  {
  }

  /** The shipped settings, five seconds to five minutes over twenty attempts,
      never wrap. */
  lemma ShippedDelaysAreDocumented(attempt: int)
    requires 1 <= attempt <= 20
    ensures Delay(5_000_000_000, 300_000_000_000, attempt) == Documented(5_000_000_000, 300_000_000_000, attempt)
  {
    PowGrows(attempt - 1, 19);
    assert Pow2(8) == 256 && Pow2(16) == 65536;
    ProductGrows(5_000_000_000, Pow2(attempt - 1), Pow2(19));
    DelayIsDocumentedExactly(5_000_000_000, 300_000_000_000, attempt);
  }

  /** Other settings can: nine nanoseconds shifted by 61 wrap to a delay shorter
      than a cap of 2^62, where doubling has long passed it. */
  lemma DelayCanWrap()
    ensures Delay(9, Pow2(62), 62) == Pow2(61) < Documented(9, Pow2(62), 62) == Pow2(62)
  {
    Pow63();
    assert Pow2(62) == Pow2(63) / 2 && Pow2(61) == Pow2(62) / 2;
  }

  predicate IsStale(row: Row, cutoff: int) {
    row.state == Processing && row.lockedAt < cutoff
  }

  lemma ClaimedNext(before: map<Id, Row>, now: int, locked: set<Id>, limit: nat, claimed: seq<ClaimedEvent>, rows: map<Id, Row>, event: Id)
    requires ClaimsEarliest(before, now, locked, limit, claimed, rows) && |claimed| < limit
    requires event in rows && IsOpen(rows[event], event, now, locked) && !IsClaimed(claimed, event)
    requires forall e :: e in rows && IsOpen(rows[e], e, now, locked) && e != event ==> Before(rows, event, e)
    ensures var row := Claimed(rows[event], now);
      ClaimsEarliest(before, now, locked, limit, claimed + [ClaimedEvent(event, row.kind, row.attempts, row.maxAttempts)],
                     rows[event := row])
  {
    var row := Claimed(rows[event], now);
    var more := claimed + [ClaimedEvent(event, row.kind, row.attempts, row.maxAttempts)];
    forall e ensures IsClaimed(more, e) <==> IsClaimed(claimed, e) || e == event {
      if IsClaimed(claimed, e) {
        var i :| 0 <= i < |claimed| && claimed[i].event == e;
        assert more[i].event == e;
      }
      assert more[|claimed|].event == event;
    }
    forall e | e in before && IsOpen(before[e], e, now, locked) && !IsClaimed(more, e)
      ensures forall i :: 0 <= i < |more| ==> Before(before, more[i].event, e)
    {
      assert rows[e] == before[e] && rows[event] == before[event];
    }
  }

  // ---- The dispatcher ---------------------------------------------------------------------------

  /** What the outside answers at one consumer: the receipt lookup, the consumer
      itself, and the receipt insert. */
  datatype Answers = Answers(checked: bool, handled: bool, recorded: bool)

  /** Consumer `i` lets the event pass. */
  predicate Passes(consumers: seq<Consumer>, receipts: set<(Id, Id)>, event: ClaimedEvent, answers: seq<Answers>, i: nat)
    requires i < |consumers| && |answers| == |consumers|
  {
    event.kind in consumers[i].kinds ==>
      answers[i].checked && ((consumers[i].name, event.event) in receipts || (answers[i].handled && answers[i].recorded))
  }

  predicate AllPass(consumers: seq<Consumer>, receipts: set<(Id, Id)>, event: ClaimedEvent, answers: seq<Answers>, n: nat)
    requires n <= |consumers| && |answers| == |consumers|
  {
    forall i :: 0 <= i < n ==> Passes(consumers, receipts, event, answers, i)
  }

  predicate DistinctNames(consumers: seq<Consumer>) {
    forall i, j :: 0 <= i < j < |consumers| ==> consumers[i].name != consumers[j].name
  }

  /** The receipts of `event` after its first `n` consumers have passed. */
  predicate AddsReceipts(consumers: seq<Consumer>, before: set<(Id, Id)>, event: ClaimedEvent, n: nat, after: set<(Id, Id)>)
    requires n <= |consumers|
  {
    && before <= after
    && (forall i :: 0 <= i < n && event.kind in consumers[i].kinds ==> (consumers[i].name, event.event) in after)
    && forall r :: r in after && r !in before ==> r.1 == event.event && IsEarlierName(consumers, event.kind, n, r.0)
  }

  predicate IsEarlierName(consumers: seq<Consumer>, kind: Id, n: nat, name: Id)
    requires n <= |consumers|
  {
    exists i :: 0 <= i < n && consumers[i].name == name && kind in consumers[i].kinds
  }

  /** Consumer `i` is the first that does not pass, and the receipts are those of
      the consumers before it. */
  predicate FailsAt(consumers: seq<Consumer>, before: set<(Id, Id)>, event: ClaimedEvent, answers: seq<Answers>, i: nat,
                    after: set<(Id, Id)>)
    requires |answers| == |consumers|
  {
    && i < |consumers| && AllPass(consumers, before, event, answers, i) && !Passes(consumers, before, event, answers, i)
    && AddsReceipts(consumers, before, event, i, after)
  }

  /** The event's row, if still processing, is completed when every consumer passed
      it; on a failure it has failed on its last attempt and waits until `retryAt`
      before that. Any other row is as it was. */
  predicate IsProcessed(row: Row, e: Id, event: ClaimedEvent, ok: bool, retryAt: int, next: Row) {
    if e != event.event || row.state != Processing then next == row
    else if ok then next == row.(state := Completed)
    else if event.attempt >= event.maxAttempts then next == row.(state := Failed)
    else next == row.(state := Pending, availableAt := retryAt, retried := row.retried + {event.attempt})
  }

  class Dispatcher {
    const store: Store
    const base: int
    const cap: int

    constructor (store: Store, base: int, cap: int)
      requires 1 <= base <= cap
      ensures this.store == store && this.base == base && this.cap == cap
    {
      this.store, this.base, this.cap := store, base, cap;
    }

    /** Offer the event to each consumer in turn; complete it, or on the first
        failure retry or fail it. */
    method ProcessEvent(event: ClaimedEvent, answers: seq<Answers>, now: int, jitter: int -> int, ghost id: Id)
      returns (ok: bool)
      requires store.Valid() && store.HasClaim(id, event)
      requires DistinctNames(store.consumers) && |answers| == |store.consumers|
      modifies store`rows, store`receipts, store`claims, store`history
      ensures store.Valid() && store.claims == old(store.claims) - {id}
      ensures ok <==> AllPass(store.consumers, old(store.receipts), event, answers, |answers|)
      ensures ok ==> store.rows == Outbox.MarkCompleted(old(store.rows), event.event)
      ensures ok ==> AddsReceipts(store.consumers, old(store.receipts), event, |answers|, store.receipts)
      ensures !ok ==> exists i :: FailsAt(store.consumers, old(store.receipts), event, answers, i, store.receipts)
      ensures !ok ==> store.rows == AfterFailure(old(store.rows), old(store.claims)[id],
                                                 now + BackoffDelay(base, cap, event.attempt, jitter))
      ensures store.rows.Keys == old(store.rows).Keys
      ensures forall e :: e in store.rows ==>
        IsProcessed(old(store.rows)[e], e, event, ok, now + BackoffDelay(base, cap, event.attempt, jitter), store.rows[e])
    {
      ok := true;
      var i := 0;
      while i < |store.consumers| && ok
        invariant 0 <= i <= |store.consumers| && store.Valid() && store.rows == old(store.rows)
        invariant id in store.claims && store.claims == old(store.claims)[id := store.claims[id]]
        invariant store.claims[id] == Claim(event.event, event.kind, event.attempt, event.maxAttempts, i, if ok then Checking else Failing)
        invariant AllPass(store.consumers, old(store.receipts), event, answers, i)
        invariant AddsReceipts(store.consumers, old(store.receipts), event, i, store.receipts)
        invariant !ok ==> i < |store.consumers| && !Passes(store.consumers, old(store.receipts), event, answers, i)
        decreases |store.consumers| - i, ok
      {
        ok := Offer(event, answers[i], i, id);
        if ok {
          i := i + 1;
        }
      }
      if ok {
        var updated := store.MarkCompleted(event.event, id);
      } else {
        assert FailsAt(store.consumers, old(store.receipts), event, answers, i, store.receipts);
        store.MarkFailure(event, now + BackoffDelay(base, cap, event.attempt, jitter), id);
      }
    }

    /** One consumer's turn. */
    method Offer(event: ClaimedEvent, answer: Answers, i: nat, ghost id: Id) returns (ok: bool)
      requires store.Valid() && i < |store.consumers| && id in store.claims
      requires store.claims[id] == Claim(event.event, event.kind, event.attempt, event.maxAttempts, i, Checking)
      modifies store`receipts, store`claims, store`history
      ensures store.Valid() && id in store.claims && store.claims == old(store.claims)[id := store.claims[id]]
      ensures ok <==> event.kind in store.consumers[i].kinds ==>
        answer.checked && ((store.consumers[i].name, event.event) in old(store.receipts) || (answer.handled && answer.recorded))
      ensures store.receipts == if ok && event.kind in store.consumers[i].kinds
        then old(store.receipts) + {(store.consumers[i].name, event.event)} else old(store.receipts)
      ensures store.claims[id] == Claim(event.event, event.kind, event.attempt, event.maxAttempts,
                                        if ok then i + 1 else i, if ok then Checking else Failing)
    {
      ghost var c := store.claims[id];
      var consumer := store.consumers[i];
      if event.kind !in consumer.kinds {
        store.Move(Check(id, true), id, Advance(c));
        return true;
      }
      if !answer.checked {
        store.Move(Check(id, false), id, c.(phase := Failing));
        return false;
      }
      if (consumer.name, event.event) in store.receipts {
        store.Move(Check(id, true), id, Advance(c));
        return true;
      }
      store.Move(Check(id, true), id, c.(phase := Handling));
      if !answer.handled {
        store.Move(Handle(id, false), id, c.(phase := Failing));
        return false;
      }
      store.Move(Handle(id, true), id, c.(phase := Recording));
      if !answer.recorded {
        store.Move(Record(id, false), id, c.(phase := Failing));
        return false;
      }
      store.RecordReceipt(consumer.name, event.event, id);
      return true;
    }
  }
}
