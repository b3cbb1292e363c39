/** What every reachable book satisfies, and the two ledger steps that every
    money-moving operation is made of. */
module BookInvariant {
  import opened Results
  import opened Ledger
  import opened Wagers
  import opened Settlement
  import opened Parlays
  import opened Totals
  import opened BookState

  // ---- The ledger ----------------------------------------------------------------

  predicate InCurrency(currency: Currency, postings: seq<Posting>) {
    forall i :: 0 <= i < |postings| ==> postings[i].account.currency == currency
  }

  predicate AvoidsEscrow(postings: seq<Posting>) {
    forall i :: 0 <= i < |postings| ==> !postings[i].account.Escrow?
  }

  predicate GoodTxn(t: Txn) {
    && ValidPostings(t.currency, t.postings)
    && InCurrency(t.currency, t.postings)
    && (!IsBetting(t.kind) ==> AvoidsEscrow(t.postings))
  }

  predicate WellPosted(log: seq<Txn>) {
    && (forall i :: 0 <= i < |log| ==> GoodTxn(log[i]))
    && (forall i, j :: 0 <= i < j < |log| ==> log[i].key != log[j].key)
  }

  /** Only settle-ups and their reversals are not betting transactions. */
  predicate KindMatches(t: Txn) {
    IsBetting(t.kind) <==> !(t.key.Adjustment? || t.key.AdjustmentReversal?)
  }

  predicate KindsMatch(log: seq<Txn>) {
    forall i :: 0 <= i < |log| ==> KindMatches(log[i])
  }

  // ---- Escrow against live stakes ---------------------------------------------------

  function Held(w: Wager, currency: Currency): int {
    if w.state == Accepted && w.stake.currency == currency then w.stake.cents else 0
  }

  function HeldParlay(p: Parlay, currency: Currency): int {
    if p.state == Accepted && p.stake.currency == currency then p.stake.cents else 0
  }

  function HeldWagers(b: Book, currency: Currency): map<Id, int> {
    map id | id in b.wagers :: Held(b.wagers[id], currency)
  }

  function HeldParlays(b: Book, currency: Currency): map<Id, int> {
    map id | id in b.parlays :: HeldParlay(b.parlays[id], currency)
  }

  /** The escrow account holds the stakes of the accepted wagers and parlays. */
  ghost predicate EscrowMatches(b: Book, currency: Currency) {
    Balance(b, Escrow(currency)) == Total(HeldWagers(b, currency)) + Total(HeldParlays(b, currency))
  }

  // ---- One wager's history -----------------------------------------------------------

  predicate IsRelease(key: Key, wager: Id) {
    (key.WagerVoid? || key.WagerSettle?) && key.wager == wager
  }

  function Releases(wager: Id): Txn -> int {
    (t: Txn) => if IsRelease(t.key, wager) then 1 else 0
  }

  function ReleasedCents(wager: Id): Txn -> int {
    (t: Txn) => if IsRelease(t.key, wager) then -NetTo(t.postings, Escrow(t.currency)) else 0
  }

  /** The ledger's account of one wager: nothing before acceptance; then the
      accepted amount is the stake plus every reduction; and a terminal wager
      has exactly one release, of the stake it ended with. */
  predicate WagerBooks(log: seq<Txn>, w: Wager) {
    var rows, accepted := Tally(log, AcceptanceRows(w.id)), Tally(log, AcceptedCents(w.id));
    var reduced := Tally(log, ReducedCents(w.id));
    var releases, released := Tally(log, Releases(w.id)), Tally(log, ReleasedCents(w.id));
    match w.state
    case Pending => rows == 0 && accepted == 0 && reduced == 0 && releases == 0 && released == 0
    case Rejected => rows == 0 && accepted == 0 && reduced == 0 && releases == 0 && released == 0
    case Accepted => rows == 2 && accepted == w.stake.cents + reduced && releases == 0 && released == 0
    case _ => rows == 2 && accepted == w.stake.cents + reduced && releases == 1 && released == w.stake.cents
  }

  predicate WagerShape(markets: map<Id, Market>, w: Wager) {
    && ValidWager(w)
    && w.market in markets && w.selection in markets[w.market].lines
    && w.stake.currency == markets[w.market].currency && markets[w.market].state != Draft
  }

  // ---- One parlay's history ------------------------------------------------------------

  function ParlayAcceptances(parlay: Id): Txn -> int {
    (t: Txn) => if t.key == ParlayAcceptance(parlay) then 1 else 0
  }

  function ParlaySettlements(parlay: Id): Txn -> int {
    (t: Txn) => if t.key == ParlaySettle(parlay) then 1 else 0
  }

  predicate ParlayBooks(log: seq<Txn>, p: Parlay) {
    var accepted, settled := Tally(log, ParlayAcceptances(p.id)), Tally(log, ParlaySettlements(p.id));
    match p.state
    case Pending => accepted == 0 && settled == 0
    case Rejected => accepted == 0 && settled == 0
    case Accepted => accepted == 1 && settled == 0
    case Graded => accepted == 1 && settled == 1
    case Refunded => false
  }

  predicate DistinctMarkets(legs: seq<Leg>) {
    forall i, j :: 0 <= i < j < |legs| ==> legs[i].market != legs[j].market
  }

  predicate LegShape(markets: map<Id, Market>, leg: Leg) {
    && leg.market in markets && leg.selection in markets[leg.market].lines
    && markets[leg.market].isMatch && markets[leg.market].state != Draft
  }

  predicate ParlayShape(markets: map<Id, Market>, p: Parlay) {
    && ValidParlay(p) && DistinctMarkets(p.legs)
    && (forall i :: 0 <= i < |p.legs| ==> LegShape(markets, p.legs[i]))
    && (p.state == Pending ==> forall i :: 0 <= i < |p.legs| ==> p.legs[i].result.None?)
  }

  // ---- Money safety ----------------------------------------------------------------------

  predicate KeyOwned(b: Book, key: Key) {
    match key
    case WagerAcceptance(id) => id in b.wagers
    case WagerReduction(id, _) => id in b.wagers
    case WagerVoid(id) => id in b.wagers
    case WagerSettle(id, _) => id in b.wagers
    case ParlayAcceptance(id) => id in b.parlays
    case ParlaySettle(id) => id in b.parlays
    case _ => true
  }

  /** Every row is stored under its own ID and agrees with the ledger. */
  predicate RowsSound(b: Book) {
    && (forall id :: id in b.wagers ==> b.wagers[id].id == id && WagerBooks(b.log, b.wagers[id]))
    && (forall id :: id in b.parlays ==> b.parlays[id].id == id && ParlayBooks(b.log, b.parlays[id]))
  }

  ghost predicate LedgerSound(b: Book) {
    && WellPosted(b.log)
    && (forall i :: 0 <= i < |b.log| ==> KeyOwned(b, b.log[i].key))
    && RowsSound(b)
    && (forall currency :: EscrowMatches(b, currency))
  }

  predicate ShapesSound(b: Book) {
    && (forall id :: id in b.wagers ==> WagerShape(b.markets, b.wagers[id]))
    && (forall id :: id in b.parlays ==> ParlayShape(b.markets, b.parlays[id]))
  }

  ghost predicate Sound(b: Book) {
    LedgerSound(b) && ShapesSound(b)
  }

  // ---- Facts about single postings ----------------------------------------------------------

  lemma MoveIsGood(from: Account, to: Account, amount: Money)
    requires from != to && ValidStake(amount)
    requires from.currency == amount.currency == to.currency
    ensures var p := MovePostings(from, to, amount);
      && ValidPostings(amount.currency, p) && InCurrency(amount.currency, p) && |p| == 2
      && Positive(p) == amount.cents
      && NetTo(p, from) == -amount.cents && NetTo(p, to) == amount.cents
      && forall x :: x != from && x != to ==> NetTo(p, x) == 0
  {
    MoveIsValid(from, to, amount);
    var p := MovePostings(from, to, amount);
    assert p[..1] == [p[0]] && p[..1][..0] == [];
    assert Positive(p[..1]) == Positive(p[..1][..0]) + 0;
  }

  lemma {:induction false} ElsewhereNothing(postings: seq<Posting>, account: Account)
    requires forall i :: 0 <= i < |postings| ==> postings[i].account != account
    ensures NetTo(postings, account) == 0
  {
    if postings == [] {
    } else {
      ElsewhereNothing(postings[..|postings| - 1], account);
    }
  }

  // ---- Keys ----------------------------------------------------------------------------------

  predicate AboutWager(key: Key, wager: Id) {
    (key.WagerAcceptance? || key.WagerReduction? || key.WagerVoid? || key.WagerSettle?) && key.wager == wager
  }

  predicate AboutParlay(key: Key, parlay: Id) {
    (key.ParlayAcceptance? || key.ParlaySettle?) && key.parlay == parlay
  }

  lemma ForeignTxn(log: seq<Txn>, t: Txn, w: Wager)
    requires !AboutWager(t.key, w.id)
    ensures WagerBooks(log + [t], w) <==> WagerBooks(log, w)
  {
    TallyAppend(log, t, AcceptanceRows(w.id));
    TallyAppend(log, t, AcceptedCents(w.id));
    TallyAppend(log, t, ReducedCents(w.id));
    TallyAppend(log, t, Releases(w.id));
    TallyAppend(log, t, ReleasedCents(w.id));
  }

  lemma ForeignParlayTxn(log: seq<Txn>, t: Txn, p: Parlay)
    requires !AboutParlay(t.key, p.id)
    ensures ParlayBooks(log + [t], p) <==> ParlayBooks(log, p)
  {
    TallyAppend(log, t, ParlayAcceptances(p.id));
    TallyAppend(log, t, ParlaySettlements(p.id));
  }

  /** A key whose measure is positive is absent while its tally is zero. */
  lemma KeyAbsent(log: seq<Txn>, key: Key, measure: Txn -> int)
    requires Tally(log, measure) == 0
    requires forall i :: 0 <= i < |log| ==> measure(log[i]) >= 0
    requires forall i :: 0 <= i < |log| && log[i].key == key ==> measure(log[i]) > 0
    ensures !HasKey(log, key)
  {
    TallyNonNegative(log, measure);
  }

  lemma NoAcceptanceYet(log: seq<Txn>, w: Wager)
    requires WellPosted(log) && WagerBooks(log, w) && (w.state == Pending || w.state == Rejected)
    ensures !HasKey(log, WagerAcceptance(w.id))
  {
    KeyAbsent(log, WagerAcceptance(w.id), AcceptanceRows(w.id));
  }

  lemma NotReleasedYet(log: seq<Txn>, w: Wager)
    requires WagerBooks(log, w) && !IsTerminal(w.state)
    ensures forall key :: IsRelease(key, w.id) ==> !HasKey(log, key)
  {
    forall key | IsRelease(key, w.id) ensures !HasKey(log, key) {
      KeyAbsent(log, key, Releases(w.id));
    }
  }

  lemma ParlayKeysAbsent(log: seq<Txn>, p: Parlay)
    requires ParlayBooks(log, p)
    ensures p.state == Pending ==> !HasKey(log, ParlayAcceptance(p.id))
    ensures p.state == Accepted ==> !HasKey(log, ParlaySettle(p.id))
  {
    if p.state == Pending {
      KeyAbsent(log, ParlayAcceptance(p.id), ParlayAcceptances(p.id));
    }
    if p.state == Accepted {
      KeyAbsent(log, ParlaySettle(p.id), ParlaySettlements(p.id));
    }
  }

  // ---- Totals under one change ----------------------------------------------------------------

  lemma HeldAfterPut(b: Book, w: Wager, currency: Currency)
    ensures Total(HeldWagers(Put(b, w), currency))
         == Total(HeldWagers(b, currency)) - (if w.id in b.wagers then Held(b.wagers[w.id], currency) else 0)
            + Held(w, currency)
  {
    assert HeldWagers(Put(b, w), currency) == HeldWagers(b, currency)[w.id := Held(w, currency)];
    TotalUpdate(HeldWagers(b, currency), w.id, Held(w, currency));
  }

  lemma HeldAfterPutParlay(b: Book, p: Parlay, currency: Currency)
    ensures Total(HeldParlays(PutParlay(b, p), currency))
         == Total(HeldParlays(b, currency)) - (if p.id in b.parlays then HeldParlay(b.parlays[p.id], currency) else 0)
            + HeldParlay(p, currency)
  {
    assert HeldParlays(PutParlay(b, p), currency) == HeldParlays(b, currency)[p.id := HeldParlay(p, currency)];
    TotalUpdate(HeldParlays(b, currency), p.id, HeldParlay(p, currency));
  }

  lemma LogGrows(log: seq<Txn>, t: Txn)
    requires WellPosted(log) && GoodTxn(t) && !HasKey(log, t.key)
    ensures WellPosted(log + [t])
  {
  }

  // ---- The two money steps ----------------------------------------------------------------------

  lemma OtherWagers(b: Book, t: Txn, id: Id)
    requires RowsSound(b) && id in b.wagers && !AboutWager(t.key, id)
    ensures WagerBooks(b.log + [t], b.wagers[id])
  {
    ForeignTxn(b.log, t, b.wagers[id]);
  }

  lemma OtherParlays(b: Book, t: Txn, id: Id)
    requires RowsSound(b) && id in b.parlays && !AboutParlay(t.key, id)
    ensures ParlayBooks(b.log + [t], b.parlays[id])
  {
    ForeignParlayTxn(b.log, t, b.parlays[id]);
  }

  lemma EscrowAfterWager(b: Book, t: Txn, next: Wager, c: Currency)
    requires EscrowMatches(b, c) && next.id in b.wagers
    requires NetTo(t.postings, Escrow(c)) == Held(next, c) - Held(b.wagers[next.id], c)
    ensures EscrowMatches(Put(b.(log := b.log + [t]), next), c)
  {
    var posted := b.(log := b.log + [t]);
    TallyAppend(b.log, t, To(Escrow(c)));
    HeldAfterPut(posted, next, c);
    assert HeldWagers(posted, c) == HeldWagers(b, c);
    assert HeldParlays(Put(posted, next), c) == HeldParlays(b, c);
  }

  lemma EscrowAfterParlay(b: Book, t: Txn, next: Parlay, c: Currency)
    requires EscrowMatches(b, c) && next.id in b.parlays
    requires NetTo(t.postings, Escrow(c)) == HeldParlay(next, c) - HeldParlay(b.parlays[next.id], c)
    ensures EscrowMatches(PutParlay(b.(log := b.log + [t]), next), c)
  {
    var posted := b.(log := b.log + [t]);
    TallyAppend(b.log, t, To(Escrow(c)));
    HeldAfterPutParlay(posted, next, c);
    assert HeldParlays(posted, c) == HeldParlays(b, c);
    assert HeldWagers(PutParlay(posted, next), c) == HeldWagers(b, c);
  }

  predicate IsPosted(b: Book, t: Txn) {
    GoodTxn(t) && !HasKey(b.log, t.key)
  }

  lemma PostedLog(b: Book, t: Txn)
    requires WellPosted(b.log) && IsPosted(b, t)
    requires forall i :: 0 <= i < |b.log| ==> KeyOwned(b, b.log[i].key)
    requires KeyOwned(b, t.key)
    ensures Post(b, t) == Ok(b.(log := b.log + [t]))
    ensures WellPosted(b.log + [t])
    ensures forall i :: 0 <= i < |b.log| + 1 ==> KeyOwned(b, (b.log + [t])[i].key)
  {
    LogGrows(b.log, t);
  }

  lemma KeysKept(b: Book, after: Book)
    requires forall i :: 0 <= i < |b.log| ==> KeyOwned(b, b.log[i].key)
    requires b.wagers.Keys <= after.wagers.Keys && b.parlays.Keys <= after.parlays.Keys && after.log == b.log
    ensures forall i :: 0 <= i < |after.log| ==> KeyOwned(after, after.log[i].key)
  {
  }

  lemma RowsAfterWager(b: Book, t: Txn, next: Wager)
    requires RowsSound(b) && next.id in b.wagers && AboutWager(t.key, next.id)
    requires WagerBooks(b.log + [t], next)
    ensures RowsSound(Put(b.(log := b.log + [t]), next))
  {
    var after := Put(b.(log := b.log + [t]), next);
    forall id | id in after.wagers ensures after.wagers[id].id == id && WagerBooks(after.log, after.wagers[id]) {
      if id != next.id {
        OtherWagers(b, t, id);
      }
    }
    forall id | id in after.parlays ensures after.parlays[id].id == id && ParlayBooks(after.log, after.parlays[id]) {
      OtherParlays(b, t, id);
    }
  }

  lemma RowsAfterParlay(b: Book, t: Txn, next: Parlay)
    requires RowsSound(b) && next.id in b.parlays && AboutParlay(t.key, next.id)
    requires ParlayBooks(b.log + [t], next)
    ensures RowsSound(PutParlay(b.(log := b.log + [t]), next))
  {
    var after := PutParlay(b.(log := b.log + [t]), next);
    forall id | id in after.parlays ensures after.parlays[id].id == id && ParlayBooks(after.log, after.parlays[id]) {
      if id != next.id {
        OtherParlays(b, t, id);
      }
    }
    forall id | id in after.wagers ensures after.wagers[id].id == id && WagerBooks(after.log, after.wagers[id]) {
      OtherWagers(b, t, id);
    }
  }

  lemma RowsAfterCash(b: Book, t: Txn)
    requires RowsSound(b) && (t.key.Adjustment? || t.key.AdjustmentReversal?)
    ensures RowsSound(b.(log := b.log + [t]))
  {
    var after := b.(log := b.log + [t]);
    forall id | id in after.wagers ensures WagerBooks(after.log, after.wagers[id]) {
      OtherWagers(b, t, id);
    }
    forall id | id in after.parlays ensures ParlayBooks(after.log, after.parlays[id]) {
      OtherParlays(b, t, id);
    }
  }

  /** Post one transaction about one wager and store the wager's next row. */
  lemma WagerStep(b: Book, t: Txn, next: Wager)
    requires LedgerSound(b) && next.id in b.wagers
    requires IsPosted(b, t) && AboutWager(t.key, next.id)
    requires WagerBooks(b.log + [t], next)
    requires forall c :: NetTo(t.postings, Escrow(c)) == Held(next, c) - Held(b.wagers[next.id], c)
    ensures Post(b, t).Ok? && LedgerSound(Put(Post(b, t).value, next))
  {
    PostedLog(b, t);
    var posted := b.(log := b.log + [t]);
    var after := Put(posted, next);
    RowsAfterWager(b, t, next);
    forall c ensures EscrowMatches(after, c) {
      EscrowAfterWager(b, t, next, c);
    }
    KeysKept(posted, after);
  }

  lemma ParlayStep(b: Book, t: Txn, next: Parlay)
    requires LedgerSound(b) && next.id in b.parlays
    requires IsPosted(b, t) && AboutParlay(t.key, next.id)
    requires ParlayBooks(b.log + [t], next)
    requires forall c :: NetTo(t.postings, Escrow(c)) == HeldParlay(next, c) - HeldParlay(b.parlays[next.id], c)
    ensures Post(b, t).Ok? && LedgerSound(PutParlay(Post(b, t).value, next))
  {
    PostedLog(b, t);
    var posted := b.(log := b.log + [t]);
    var after := PutParlay(posted, next);
    RowsAfterParlay(b, t, next);
    forall c ensures EscrowMatches(after, c) {
      EscrowAfterParlay(b, t, next, c);
    }
    KeysKept(posted, after);
  }

  /** Post a transaction that is about no wager or parlay and leaves escrow alone. */
  lemma CashStep(b: Book, t: Txn)
    requires LedgerSound(b) && IsPosted(b, t)
    requires t.key.Adjustment? || t.key.AdjustmentReversal?
    requires AvoidsEscrow(t.postings)
    ensures Post(b, t).Ok? && LedgerSound(Post(b, t).value)
  {
    PostedLog(b, t);
    var after := b.(log := b.log + [t]);
    RowsAfterCash(b, t);
    forall c ensures EscrowMatches(after, c) {
      assert EscrowMatches(b, c);
      TallyAppend(b.log, t, To(Escrow(c)));
      ElsewhereNothing(t.postings, Escrow(c));
      assert HeldWagers(after, c) == HeldWagers(b, c) && HeldParlays(after, c) == HeldParlays(b, c);
    }
  }

  /** Store a wager row that moves no money. */
  lemma WagerRow(b: Book, next: Wager)
    requires LedgerSound(b) && WagerBooks(b.log, next)
    requires next.state != Accepted && (next.id in b.wagers ==> b.wagers[next.id].state != Accepted)
    ensures LedgerSound(Put(b, next))
  {
    var after := Put(b, next);
    forall c ensures EscrowMatches(after, c) {
      assert EscrowMatches(b, c);
      HeldAfterPut(b, next, c);
      assert HeldParlays(after, c) == HeldParlays(b, c);
    }
    KeysKept(b, after);
  }

  /** Store a parlay row that holds what it held before. */
  lemma ParlayRow(b: Book, next: Parlay)
    requires LedgerSound(b) && ParlayBooks(b.log, next)
    requires forall c :: HeldParlay(next, c) == if next.id in b.parlays then HeldParlay(b.parlays[next.id], c) else 0
    ensures LedgerSound(PutParlay(b, next))
  {
    var after := PutParlay(b, next);
    forall c ensures EscrowMatches(after, c) {
      assert EscrowMatches(b, c);
      HeldAfterPutParlay(b, next, c);
      assert HeldWagers(after, c) == HeldWagers(b, c);
    }
    KeysKept(b, after);
  }

  /** Tables that carry no money may change freely. */
  lemma TablesStep(b: Book, markets: map<Id, Market>, records: map<Id, seq<Record>>)
    requires LedgerSound(b)
    ensures LedgerSound(b.(markets := markets, records := records))
  {
    var after := b.(markets := markets, records := records);
    forall c ensures EscrowMatches(after, c) {
      assert EscrowMatches(b, c);
      assert HeldWagers(after, c) == HeldWagers(b, c) && HeldParlays(after, c) == HeldParlays(b, c);
    }
    KeysKept(b, after);
  }

  predicate KeepsSelections(before: map<Id, Market>, after: map<Id, Market>) {
    forall m :: m in before ==> m in after && SameSelections(before[m], after[m])
  }

  predicate SameSelections(a: Market, b: Market) {
    && a.lines.Keys == b.lines.Keys && a.isMatch == b.isMatch && a.currency == b.currency
    && (a.state != Draft ==> b.state != Draft)
  }
}
