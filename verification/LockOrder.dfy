/** The rows that book transactions lock, in the order they lock them
    (internal/bettingpg), and which transactions can deadlock. An insert shares
    the rows its foreign keys name; every other lock is for one holder. */
module LockOrder {
  import opened Ledger

  datatype Row =
    | MarketRow(id: Id)
    | SelectionRow(id: Id)
    | WagerRow(id: Id)
    | ParlayRow(id: Id)
    | LegRow(parlay: Id, market: Id)
    | AccountRow(account: Account)

  datatype Lock = Lock(row: Row, shared: bool)

  function Take(row: Row): Lock {
    Lock(row, false)
  }

  function Share(row: Row): Lock {
    Lock(row, true)
  }

  predicate Conflicts(a: Lock, b: Lock) {
    a.row == b.row && !(a.shared && b.shared)
  }

  /** A transaction with the locks it will ask for and how many it has. */
  datatype Locker = Locker(plan: seq<Lock>, next: nat)

  /** It holds a lock that `lock` must wait for. */
  predicate Bars(t: Locker, lock: Lock) {
    exists i :: 0 <= i < t.next && i < |t.plan| && Conflicts(t.plan[i], lock)
  }

  predicate IsFree(w: map<Id, Locker>, process: Id, lock: Lock) {
    forall q :: q in w && q != process ==> !Bars(w[q], lock)
  }

  /** A transaction takes its next lock when nobody else bars it, and commits,
      letting all of them go, when it has every one. */
  function Advance(w: map<Id, Locker>, process: Id): map<Id, Locker> {
    if process !in w then w
    else
      var t := w[process];
      if t.next >= |t.plan| then w - {process}
      else if IsFree(w, process, t.plan[t.next]) then w[process := t.(next := t.next + 1)]
      else w
  }

  function RunFrom(start: map<Id, Locker>, schedule: seq<Id>): map<Id, Locker> {
    if schedule == [] then start else Advance(RunFrom(start, schedule[..|schedule| - 1]), schedule[|schedule| - 1])
  }

  predicate IsBlocked(w: map<Id, Locker>, process: Id) {
    process in w && w[process].next < |w[process].plan| && !IsFree(w, process, w[process].plan[w[process].next])
  }

  /** Transactions remain and every one waits for another. */
  predicate IsDeadlock(w: map<Id, Locker>) {
    w != map[] && forall p :: p in w ==> IsBlocked(w, p)
  }

  /** What anyone holds bars nobody else's locks. */
  ghost predicate Exclusive(w: map<Id, Locker>) {
    forall p, q, i :: p in w && q in w && p != q && 0 <= i < w[p].next && i < |w[p].plan| ==> !Bars(w[q], w[p].plan[i])
  }

  predicate NothingHeld(w: map<Id, Locker>) {
    forall p :: p in w ==> w[p].next == 0
  }

  /** Each transaction keeps its plan. */
  predicate SamePlans(start: map<Id, Locker>, w: map<Id, Locker>) {
    forall p :: p in w ==> p in start && w[p].plan == start[p].plan
  }

  lemma BarsMore(t: Locker, lock: Lock)
    requires t.next < |t.plan|
    ensures Bars(t.(next := t.next + 1), lock) <==> Bars(t, lock) || Conflicts(t.plan[t.next], lock)
  {
    if Conflicts(t.plan[t.next], lock) {
      assert t.(next := t.next + 1).plan[t.next] == t.plan[t.next];
    }
  }

  lemma AdvanceIsExclusive(w: map<Id, Locker>, process: Id)
    requires Exclusive(w)
    ensures Exclusive(Advance(w, process))
  {
    var after := Advance(w, process);
    if process in w && w[process].next < |w[process].plan| && after != w {
      forall p, q, i | p in after && q in after && p != q && 0 <= i < after[p].next && i < |after[p].plan|
        ensures !Bars(after[q], after[p].plan[i])
      {
        if q == process {
          BarsMore(w[q], w[p].plan[i]);
          assert !Bars(w[p], w[q].plan[w[q].next]);
        }
      }
    }
  }

  lemma {:induction false} RunIsExclusive(start: map<Id, Locker>, schedule: seq<Id>)
    requires NothingHeld(start)
    ensures Exclusive(RunFrom(start, schedule)) && SamePlans(start, RunFrom(start, schedule))
  {
    if schedule != [] {
      var init := schedule[..|schedule| - 1];
      RunIsExclusive(start, init);
      AdvanceIsExclusive(RunFrom(start, init), schedule[|schedule| - 1]);
    }
  }

  // ---- Ordered plans never deadlock ---------------------------------------------------------

  function Class(row: Row): nat {
    match row
    case MarketRow(_) => 0
    case SelectionRow(_) => 1
    case WagerRow(_) => 2
    case LegRow(_, _) => 3
    case ParlayRow(_) => 4
    case AccountRow(Member(_, _, _)) => 5
    case AccountRow(Escrow(_)) => 6
    case AccountRow(House(_)) => 7
  }

  function KeyOf(row: Row): nat {
    if row.WagerRow? || row.SelectionRow? then row.id else 0
  }

  /** The lock order: market, selections and wagers by ID, parlay, member, escrow, house. */
  predicate Below(a: Row, b: Row) {
    Class(a) < Class(b) || (Class(a) == Class(b) && KeyOf(a) < KeyOf(b))
  }

  /** Every row asked for the first time comes after all those asked for before. */
  predicate InOrder(plan: seq<Lock>) {
    forall j :: 0 <= j < |plan| ==> FirstIsAbove(plan, j)
  }

  predicate FirstIsAbove(plan: seq<Lock>, j: nat)
    requires j < |plan|
  {
    plan[j] in plan[..j] || forall i :: 0 <= i < j ==> Below(plan[i].row, plan[j].row)
  }

  predicate AllInOrder(w: map<Id, Locker>) {
    forall p :: p in w ==> InOrder(w[p].plan)
  }

  function Needed(t: Locker): Lock
    requires t.next < |t.plan|
  {
    t.plan[t.next]
  }

  /** Among blocked transactions one waits for a row that no other's is above. */
  lemma {:induction false} HighestNeed(w: map<Id, Locker>, among: set<Id>) returns (top: Id)
    requires among != {} && among <= w.Keys && forall p :: p in among ==> w[p].next < |w[p].plan|
    ensures top in among && forall p :: p in among ==> !Below(Needed(w[top]).row, Needed(w[p]).row)
    decreases among
  {
    top :| top in among;
    var rest := among - {top};
    if rest != {} {
      var other := HighestNeed(w, rest);
      if Below(Needed(w[top]).row, Needed(w[other]).row) {
        top := other;
      }
    }
  }

  /** Nobody bars a lock that its holder asks for again. */
  lemma BlockedAsksAnew(w: map<Id, Locker>, q: Id)
    requires Exclusive(w) && IsBlocked(w, q)
    ensures Needed(w[q]) !in w[q].plan[..w[q].next]
  {
    var r :| r in w && r != q && Bars(w[r], Needed(w[q]));
    forall k | 0 <= k < w[q].next ensures w[q].plan[k] != Needed(w[q]) {
      assert !Bars(w[r], w[q].plan[k]);
    }
  }

  /** Whoever bars a blocked transaction waits for a row above the one it wants. */
  lemma HolderWaitsAbove(w: map<Id, Locker>, p: Id, q: Id)
    requires Exclusive(w) && p in w && q in w && IsBlocked(w, q) && w[p].next < |w[p].plan|
    requires Bars(w[q], Needed(w[p])) && InOrder(w[q].plan)
    ensures Below(Needed(w[p]).row, Needed(w[q]).row)
  {
    BlockedAsksAnew(w, q);
    assert FirstIsAbove(w[q].plan, w[q].next);
  }

  /** Transactions that ask in the lock order never deadlock, however they interleave. */
  lemma OrderedNeverDeadlocks(start: map<Id, Locker>, schedule: seq<Id>)
    requires NothingHeld(start) && AllInOrder(start)
    ensures !IsDeadlock(RunFrom(start, schedule))
  {
    RunIsExclusive(start, schedule);
    var w := RunFrom(start, schedule);
    if IsDeadlock(w) {
      assert w.Keys != {};
      assert forall p :: p in w ==> IsBlocked(w, p);
      var top := HighestNeed(w, w.Keys);
      var q :| q in w && q != top && Bars(w[q], Needed(w[top]));
      HolderWaitsAbove(w, top, q);
    }
  }

  // ---- When two transactions deadlock --------------------------------------------------------------

  /** Nobody first shares a row and then takes it alone. */
  predicate KeepsModes(plan: seq<Lock>) {
    forall i, j :: 0 <= i < j < |plan| && plan[i].row == plan[j].row ==> plan[i] == plan[j]
  }

  predicate IsContended(lock: Lock, other: seq<Lock>) {
    exists j :: 0 <= j < |other| && Conflicts(lock, other[j])
  }

  /** `i` is the first lock of `plan` that `other` also wants. */
  predicate IsFirst(plan: seq<Lock>, other: seq<Lock>, i: nat) {
    i < |plan| && IsContended(plan[i], other) && forall k :: 0 <= k < i ==> !IsContended(plan[k], other)
  }

  /** Of the rows both want, each starts with another one. */
  ghost predicate StartApart(a: seq<Lock>, b: seq<Lock>) {
    exists i: nat, j: nat :: IsFirst(a, b, i) && IsFirst(b, a, j) && a[i].row != b[j].row
  }

  function At(a: seq<Lock>, n: nat, b: seq<Lock>, m: nat): map<Id, Locker> {
    map[0 := Locker(a, n), 1 := Locker(b, m)]
  }

  /** Some schedule of the two ends in a deadlock. */
  ghost predicate CanDeadlock(a: seq<Lock>, b: seq<Lock>) {
    exists schedule :: IsDeadlock(RunFrom(At(a, 0, b, 0), schedule))
  }

  lemma BlockedByAnother(w: map<Id, Locker>, p: Id) returns (q: Id)
    requires IsBlocked(w, p)
    ensures q in w && q != p
  {
    q :| q in w && q != p && Bars(w[q], Needed(w[p]));
  }

  lemma BothRemain(start: map<Id, Locker>, w: map<Id, Locker>)
    requires start.Keys == {0, 1} && w.Keys <= start.Keys && IsDeadlock(w)
    ensures w.Keys == {0, 1}
  {
    var p :| p in w;
    assert IsBlocked(w, p);
    var q := BlockedByAnother(w, p);
  }

  lemma PairIs(a: seq<Lock>, b: seq<Lock>, w: map<Id, Locker>)
    requires w.Keys == {0, 1} && w[0].plan == a && w[1].plan == b
    ensures w == At(a, w[0].next, b, w[1].next)
  {
  }

  /** No lock of one conflicts with one the other holds. */
  predicate Apart(a: seq<Lock>, from: nat, end: nat, b: seq<Lock>, m: nat)
    requires from <= end <= |a| && m <= |b|
  {
    forall i :: from <= i < end ==> IsClear(a[i], b, m)
  }

  predicate IsClear(lock: Lock, other: seq<Lock>, m: nat)
    requires m <= |other|
  {
    forall j :: 0 <= j < m ==> !Conflicts(lock, other[j])
  }

  lemma ClearIsFree(a: seq<Lock>, n: nat, b: seq<Lock>, m: nat)
    requires n < |a| && m <= |b|
    ensures IsFree(At(a, n, b, m), 0, a[n]) <==> IsClear(a[n], b, m)
    ensures IsFree(At(b, m, a, n), 1, a[n]) <==> IsClear(a[n], b, m)
  {
    if !IsClear(a[n], b, m) {
      var j :| 0 <= j < m && Conflicts(a[n], b[j]);
      assert Conflicts(b[j], a[n]);
      assert Bars(Locker(b, m), a[n]);
      assert At(a, n, b, m)[1] == Locker(b, m) && At(b, m, a, n)[0] == Locker(b, m);
    }
  }

  lemma CrossedAt(a: seq<Lock>, n: nat, b: seq<Lock>, m: nat)
    requires IsBlocked(At(a, n, b, m), 0) && IsBlocked(At(a, n, b, m), 1)
    ensures n < |a| && m < |b| && !IsClear(a[n], b, m) && !IsClear(b[m], a, n)
  {
    var w := At(a, n, b, m);
    assert w[0] == Locker(a, n) && w[1] == Locker(b, m);
    ClearIsFree(a, n, b, m);
    ClearIsFree(b, m, a, n);
  }

  /** A deadlocked pair has crossed: each wants what the other holds. */
  lemma Crossed(a: seq<Lock>, b: seq<Lock>, schedule: seq<Id>) returns (n: nat, m: nat)
    requires IsDeadlock(RunFrom(At(a, 0, b, 0), schedule))
    ensures n < |a| && m < |b| && !IsClear(a[n], b, m) && !IsClear(b[m], a, n) && Apart(a, 0, n, b, m)
  {
    var w := RunFrom(At(a, 0, b, 0), schedule);
    RunIsExclusive(At(a, 0, b, 0), schedule);
    BothRemain(At(a, 0, b, 0), w);
    n, m := w[0].next, w[1].next;
    PairIs(a, b, w);
    CrossedAt(a, n, b, m);
    ExclusiveIsApart(a, n, b, m);
  }

  lemma ExclusiveIsApart(a: seq<Lock>, n: nat, b: seq<Lock>, m: nat)
    requires Exclusive(At(a, n, b, m)) && n <= |a| && m <= |b|
    ensures Apart(a, 0, n, b, m)
  {
    var w := At(a, n, b, m);
    forall i | 0 <= i < n ensures IsClear(a[i], b, m) {
      assert !Bars(w[1], w[0].plan[i]);
      forall j | 0 <= j < m ensures !Conflicts(a[i], b[j]) {
        assert Conflicts(a[i], b[j]) ==> Conflicts(w[1].plan[j], w[0].plan[i]);
      }
    }
  }

  lemma FirstContended(plan: seq<Lock>, other: seq<Lock>, known: nat) returns (i: nat)
    requires known < |plan| && IsContended(plan[known], other)
    ensures i <= known && IsFirst(plan, other, i)
  {
    i := 0;
    while !IsContended(plan[i], other)
      invariant i <= known && forall k :: 0 <= k < i ==> !IsContended(plan[k], other)
      decreases known - i
    {
      i := i + 1;
    }
  }

  lemma DeadlockStartsApart(a: seq<Lock>, b: seq<Lock>)
    requires KeepsModes(a) && KeepsModes(b) && CanDeadlock(a, b)
    ensures StartApart(a, b)
  {
    var schedule :| IsDeadlock(RunFrom(At(a, 0, b, 0), schedule));
    var n, m := Crossed(a, b, schedule);
    var j: nat :| j < m && Conflicts(a[n], b[j]);
    var i: nat :| i < n && Conflicts(b[m], a[i]);
    assert Conflicts(b[j], a[n]) && Conflicts(a[i], b[m]);
    var first := FirstContended(a, b, i);
    var second := FirstContended(b, a, j);
    FirstRowsDiffer(a, b, first, second, n, m);
  }

  lemma FirstRowsDiffer(a: seq<Lock>, b: seq<Lock>, i: nat, j: nat, n: nat, m: nat)
    requires KeepsModes(b) && i < n <= |a| && j < m <= |b| && Apart(a, 0, n, b, m) && IsContended(a[i], b)
    ensures a[i].row != b[j].row
  {
    var k :| 0 <= k < |b| && Conflicts(a[i], b[k]);
    assert IsClear(a[i], b, m) && !Conflicts(a[i], b[j]);
  }

  function Times(process: Id, n: nat): seq<Id> {
    if n == 0 then [] else Times(process, n - 1) + [process]
  }

  lemma Then(start: map<Id, Locker>, schedule: seq<Id>, process: Id)
    ensures RunFrom(start, schedule + [process]) == Advance(RunFrom(start, schedule), process)
  {
    assert (schedule + [process])[..|schedule|] == schedule;
  }

  lemma OneMore(start: map<Id, Locker>, schedule: seq<Id>, process: Id, n: nat)
    requires n > 0
    ensures RunFrom(start, schedule + Times(process, n)) == Advance(RunFrom(start, schedule + Times(process, n - 1)), process)
  {
    assert schedule + Times(process, n) == schedule + Times(process, n - 1) + [process];
    Then(start, schedule + Times(process, n - 1), process);
  }

  lemma FirstAdvances(a: seq<Lock>, n: nat, b: seq<Lock>, m: nat)
    requires n < |a| && m <= |b| && IsClear(a[n], b, m)
    ensures Advance(At(a, n, b, m), 0) == At(a, n + 1, b, m)
  {
    ClearIsFree(a, n, b, m);
    assert At(a, n, b, m)[0] == Locker(a, n);
  }

  lemma SecondAdvances(a: seq<Lock>, n: nat, b: seq<Lock>, m: nat)
    requires n <= |a| && m < |b| && IsClear(b[m], a, n)
    ensures Advance(At(a, n, b, m), 1) == At(a, n, b, m + 1)
  {
    ClearIsFree(b, m, a, n);
    assert At(a, n, b, m)[1] == Locker(b, m);
  }

  /** The first of the two takes the locks that the other does not bar. */
  lemma {:induction false} FirstGoesOn(start: map<Id, Locker>, schedule: seq<Id>, a: seq<Lock>, n: nat, end: nat, b: seq<Lock>, m: nat)
    requires n <= end <= |a| && m <= |b| && Apart(a, n, end, b, m)
    requires RunFrom(start, schedule) == At(a, n, b, m)
    ensures RunFrom(start, schedule + Times(0, end - n)) == At(a, end, b, m)
    decreases end
  {
    if end == n {
      assert schedule + Times(0, 0) == schedule;
    } else {
      FirstGoesOn(start, schedule, a, n, end - 1, b, m);
      OneMore(start, schedule, 0, end - n);
      FirstAdvances(a, end - 1, b, m);
    }
  }

  /** The second does. */
  lemma {:induction false} SecondGoesOn(start: map<Id, Locker>, schedule: seq<Id>, a: seq<Lock>, n: nat, b: seq<Lock>, m: nat, end: nat)
    requires n <= |a| && m <= end <= |b| && Apart(b, m, end, a, n)
    requires RunFrom(start, schedule) == At(a, n, b, m)
    ensures RunFrom(start, schedule + Times(1, end - m)) == At(a, n, b, end)
    decreases end
  {
    if end == m {
      assert schedule + Times(1, 0) == schedule;
    } else {
      SecondGoesOn(start, schedule, a, n, b, m, end - 1);
      OneMore(start, schedule, 1, end - m);
      SecondAdvances(a, n, b, end - 1);
    }
  }

  /** The first lock from `from` on that is not clear of what the other holds. */
  lemma FirstBarred(plan: seq<Lock>, from: nat, known: nat, other: seq<Lock>, m: nat) returns (x: nat)
    requires from <= known < |plan| && m <= |other| && !IsClear(plan[known], other, m)
    ensures from <= x <= known && !IsClear(plan[x], other, m) && Apart(plan, from, x, other, m)
  {
    x := from;
    while IsClear(plan[x], other, m)
      invariant from <= x <= known && Apart(plan, from, x, other, m)
      decreases known - x
    {
      x := x + 1;
    }
  }

  ghost predicate Reaches(a: seq<Lock>, b: seq<Lock>, n: nat, m: nat) {
    exists schedule :: RunFrom(At(a, 0, b, 0), schedule) == At(a, n, b, m)
  }

  lemma FirstReaches(a: seq<Lock>, b: seq<Lock>, n: nat, end: nat, m: nat)
    requires Reaches(a, b, n, m) && n <= end <= |a| && m <= |b| && Apart(a, n, end, b, m)
    ensures Reaches(a, b, end, m)
  {
    var schedule :| RunFrom(At(a, 0, b, 0), schedule) == At(a, n, b, m);
    FirstGoesOn(At(a, 0, b, 0), schedule, a, n, end, b, m);
  }

  lemma SecondReaches(a: seq<Lock>, b: seq<Lock>, n: nat, m: nat, end: nat)
    requires Reaches(a, b, n, m) && n <= |a| && m <= end <= |b| && Apart(b, m, end, a, n)
    ensures Reaches(a, b, n, end)
  {
    var schedule :| RunFrom(At(a, 0, b, 0), schedule) == At(a, n, b, m);
    SecondGoesOn(At(a, 0, b, 0), schedule, a, n, b, m, end);
  }

  /** The second takes its first contended lock, the first goes on until that
      bars it, and the second until it is barred in turn. */
  lemma ApartCanDeadlock(a: seq<Lock>, b: seq<Lock>)
    requires StartApart(a, b)
    ensures CanDeadlock(a, b)
  {
    var i: nat, j: nat :| IsFirst(a, b, i) && IsFirst(b, a, j) && a[i].row != b[j].row;
    var x, y := CrossingPoints(a, b, i, j);
    assert RunFrom(At(a, 0, b, 0), []) == At(a, 0, b, 0);
    SecondReaches(a, b, 0, 0, j + 1);
    FirstReaches(a, b, 0, x, j + 1);
    SecondReaches(a, b, x, j + 1, y);
    BothBarred(a, x, b, y);
    DeadlockReached(a, b, x, y);
  }

  lemma DeadlockReached(a: seq<Lock>, b: seq<Lock>, n: nat, m: nat)
    requires Reaches(a, b, n, m) && IsDeadlock(At(a, n, b, m))
    ensures CanDeadlock(a, b)
  {
    var schedule :| RunFrom(At(a, 0, b, 0), schedule) == At(a, n, b, m);
    assert IsDeadlock(RunFrom(At(a, 0, b, 0), schedule));
  }

  /** Where each is barred: the first at `x` by the second's first contended lock,
      the second at `y` by what the first holds then. */
  lemma CrossingPoints(a: seq<Lock>, b: seq<Lock>, i: nat, j: nat) returns (x: nat, y: nat)
    requires IsFirst(a, b, i) && IsFirst(b, a, j) && a[i].row != b[j].row
    ensures x < |a| && j < y < |b| && Apart(b, 0, j + 1, a, 0)
    ensures Apart(a, 0, x, b, j + 1) && Apart(b, j + 1, y, a, x)
    ensures !IsClear(a[x], b, y) && !IsClear(b[y], a, x)
  {
    var known: nat :| known < |a| && Conflicts(b[j], a[known]);
    assert Conflicts(a[known], b[j]);
    x := FirstBarred(a, 0, known, b, j + 1);
    var l: nat :| l < j + 1 && Conflicts(a[x], b[l]);
    assert Conflicts(b[l], a[x]) && IsContended(b[l], a) && IsContended(a[x], b);
    assert l == j && i < x;
    var other: nat :| other < |b| && Conflicts(a[i], b[other]);
    assert Conflicts(b[other], a[i]) && IsClear(a[i], b, j + 1);
    y := FirstBarred(b, j + 1, other, a, x);
  }

  lemma BothBarred(a: seq<Lock>, x: nat, b: seq<Lock>, y: nat)
    requires x < |a| && y < |b| && !IsClear(a[x], b, y) && !IsClear(b[y], a, x)
    ensures IsDeadlock(At(a, x, b, y))
  {
    var w := At(a, x, b, y);
    ClearIsFree(a, x, b, y);
    ClearIsFree(b, y, a, x);
    assert w[0] == Locker(a, x) && w[1] == Locker(b, y);
    assert IsBlocked(w, 0) && IsBlocked(w, 1);
  }

  /** Two transactions can deadlock exactly when both want rows in common and do
      not start with the same one: a common first row is a gate that lets one of
      them through at a time. */
  lemma TwoDeadlockExactly(a: seq<Lock>, b: seq<Lock>)
    requires KeepsModes(a) && KeepsModes(b)
    ensures CanDeadlock(a, b) <==> StartApart(a, b)
  {
    if CanDeadlock(a, b) {
      DeadlockStartsApart(a, b);
    }
    if StartApart(a, b) {
      ApartCanDeadlock(a, b);
    }
  }
}
