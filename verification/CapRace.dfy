/** Placements on one market that run at the same time, with the side's row
    lock, the stake sums and the insert as separate steps (internal/bettingpg/
    place.go): which of the three stake caps no interleaving can break. */
module CapRace {
  import opened Ledger
  import opened Totals
  import opened Placement

  // ---- The world ---------------------------------------------------------------------

  /** A wager that is pending or accepted. */
  datatype Riding = Riding(user: Id, side: Id, cents: int)

  /** The three sums a placement is checked against. */
  datatype Scope = MemberOnMarket | MemberOnSide | BookOnSide

  /** Holding: has locked the side's row; `read` are the sums read since. */
  datatype Progress = Waiting | Holding(read: map<Scope, int>) | Finished

  datatype Placing = Placing(wager: Riding, progress: Progress)

  /** The market's cap on a member, and each side's caps on a member and on
      everybody. Zero is no cap. */
  datatype Caps = Caps(market: nat, member: map<Id, nat>, book: map<Id, nat>)

  datatype World = World(riding: map<Id, Riding>, placing: map<Id, Placing>, locks: map<Id, Id>)

  const Empty := World(map[], map[], map[])

  function CapOf(caps: Caps, scope: Scope, side: Id): nat {
    match scope
    case MemberOnMarket => caps.market
    case MemberOnSide => if side in caps.member then caps.member[side] else 0
    case BookOnSide => if side in caps.book then caps.book[side] else 0
  }

  predicate IsCounted(scope: Scope, r: Riding, user: Id, side: Id) {
    (scope == BookOnSide || r.user == user) && (scope == MemberOnMarket || r.side == side)
  }

  function Counted(riding: map<Id, Riding>, scope: Scope, user: Id, side: Id): map<Id, int> {
    map id | id in riding :: if IsCounted(scope, riding[id], user, side) then riding[id].cents else 0
  }

  ghost function Existing(riding: map<Id, Riding>, scope: Scope, user: Id, side: Id): int {
    Total(Counted(riding, scope, user, side))
  }

  // ---- Steps -----------------------------------------------------------------------------

  /** Shrink covers whatever lowers a live stake: a reduction, and at zero a
      rejection, a void or a settlement. */
  datatype Action =
    | Begin(id: Id, wager: Riding)
    | LockSide(id: Id)
    | ReadSum(id: Id, scope: Scope)
    | Finish(id: Id)
    | Abort(id: Id)
    | Shrink(id: Id, cents: nat)

  predicate HasRead(caps: Caps, p: Placing)
    requires p.progress.Holding?
  {
    forall scope :: CapOf(caps, scope, p.wager.side) > 0 ==> scope in p.progress.read
  }

  predicate IsAdmitted(caps: Caps, p: Placing)
    requires p.progress.Holding? && HasRead(caps, p)
  {
    forall scope :: CapOf(caps, scope, p.wager.side) > 0 ==>
      HasRoom(Cap(CapOf(caps, scope, p.wager.side), p.progress.read[scope]), p.wager.cents)
  }

  function Released(w: World, id: Id): World
    requires id in w.placing
  {
    var p := w.placing[id];
    w.(placing := w.placing[id := p.(progress := Finished)],
       locks := if p.progress.Holding? then w.locks - {p.wager.side} else w.locks)
  }

  ghost function PlacementStep(caps: Caps, w: World, a: Action): World
    requires !a.Begin? && !a.Shrink?
  {
    if a.id !in w.placing then w
    else
      var p := w.placing[a.id];
      match a
      case LockSide(id) =>
        if p.progress.Waiting? && p.wager.side !in w.locks then
          w.(placing := w.placing[id := p.(progress := Holding(map[]))], locks := w.locks[p.wager.side := id])
        else w
      case ReadSum(id, scope) =>
        if p.progress.Holding? && scope !in p.progress.read then
          var sum := Existing(w.riding, scope, p.wager.user, p.wager.side);
          w.(placing := w.placing[id := p.(progress := Holding(p.progress.read[scope := sum]))])
        else w
      case Finish(id) =>
        if p.progress.Holding? && HasRead(caps, p) then
          if IsAdmitted(caps, p) then Released(w, id).(riding := w.riding[id := p.wager]) else Released(w, id)
        else w
      case Abort(id) => if p.progress.Finished? then w else Released(w, id)
  }

  /** An action that is not enabled leaves the world as it is. */
  ghost function Next(caps: Caps, w: World, a: Action): World {
    match a
    case Begin(id, wager) =>
      if id !in w.placing && wager.cents > 0 then w.(placing := w.placing[id := Placing(wager, Waiting)]) else w
    case Shrink(id, cents) =>
      if id !in w.riding || w.riding[id].cents <= cents then w
      else if cents == 0 then w.(riding := w.riding - {id})
      else w.(riding := w.riding[id := w.riding[id].(cents := cents)])
    case _ => PlacementStep(caps, w, a)
  }

  ghost function Run(caps: Caps, actions: seq<Action>): World {
    if actions == [] then Empty else Next(caps, Run(caps, actions[..|actions| - 1]), actions[|actions| - 1])
  }

  // ---- The sums ------------------------------------------------------------------------------

  lemma AddedCounts(riding: map<Id, Riding>, id: Id, r: Riding, scope: Scope, user: Id, side: Id)
    ensures Existing(riding[id := r], scope, user, side)
         == Existing(riding, scope, user, side) - (if id in riding && IsCounted(scope, riding[id], user, side) then riding[id].cents else 0)
            + (if IsCounted(scope, r, user, side) then r.cents else 0)
  {
    var cents := if IsCounted(scope, r, user, side) then r.cents else 0;
    TotalUpdate(Counted(riding, scope, user, side), id, cents);
    assert Counted(riding[id := r], scope, user, side) == Counted(riding, scope, user, side)[id := cents];
  }

  lemma RemovedCounts(riding: map<Id, Riding>, id: Id, scope: Scope, user: Id, side: Id)
    requires id in riding && riding[id].cents > 0
    ensures Existing(riding - {id}, scope, user, side) <= Existing(riding, scope, user, side)
  {
    TotalWithout(Counted(riding, scope, user, side), id);
    assert Counted(riding - {id}, scope, user, side) == Counted(riding, scope, user, side) - {id};
  }

  lemma SideWithinMarket(riding: map<Id, Riding>, user: Id, side: Id)
    requires forall id :: id in riding ==> riding[id].cents > 0
    ensures Existing(riding, MemberOnSide, user, side) <= Existing(riding, MemberOnMarket, user, side)
  {
    TotalBelow(Counted(riding, MemberOnSide, user, side), Counted(riding, MemberOnMarket, user, side));
  }

  // ---- What every interleaving keeps ------------------------------------------------------------

  /** What a side's row lock protects of each sum: the market-wide sum only as
      far as it lies on that side. */
  function Guarded(scope: Scope): Scope {
    if scope == MemberOnMarket then MemberOnSide else scope
  }

  ghost predicate ReadsStand(w: World, p: Placing) {
    p.progress.Holding? ==> forall scope :: scope in p.progress.read ==>
      Existing(w.riding, Guarded(scope), p.wager.user, p.wager.side) <= p.progress.read[scope]
  }

  predicate HoldsItsSide(w: World, id: Id)
    requires id in w.placing
  {
    w.placing[id].progress.Holding? ==> w.placing[id].wager.side in w.locks && w.locks[w.placing[id].wager.side] == id
  }

  predicate Rows(w: World) {
    && (forall id :: id in w.placing ==> w.placing[id].wager.cents > 0 && HoldsItsSide(w, id))
    && (forall id :: id in w.riding ==> w.riding[id].cents > 0)
    && (forall id :: id in w.riding ==> id in w.placing && w.placing[id].progress.Finished?)
  }

  ghost predicate Guards(w: World) {
    forall id :: id in w.placing ==> ReadsStand(w, w.placing[id])
  }

  ghost predicate CapHolds(caps: Caps, w: World, scope: Scope, user: Id, side: Id) {
    CapOf(caps, scope, side) > 0 ==> Existing(w.riding, Guarded(scope), user, side) <= CapOf(caps, scope, side)
  }

  ghost predicate Inv(caps: Caps, w: World) {
    Rows(w) && Guards(w) && forall scope, user, side :: CapHolds(caps, w, scope, user, side)
  }

  lemma FewerRiding(caps: Caps, w: World, riding: map<Id, Riding>)
    requires Inv(caps, w)
    requires forall scope, user, side :: Existing(riding, scope, user, side) <= Existing(w.riding, scope, user, side)
    ensures Guards(w.(riding := riding))
    ensures forall scope, user, side :: CapHolds(caps, w.(riding := riding), scope, user, side)
  {
    var after := w.(riding := riding);
    forall id | id in w.placing ensures ReadsStand(after, w.placing[id]) {
      assert ReadsStand(w, w.placing[id]);
    }
    forall scope, user, side ensures CapHolds(caps, after, scope, user, side) {
      assert CapHolds(caps, w, scope, user, side);
    }
  }

  lemma ShrinkKeeps(caps: Caps, w: World, id: Id, cents: nat)
    requires Inv(caps, w)
    ensures Inv(caps, Next(caps, w, Shrink(id, cents)))
  {
    if id in w.riding && cents < w.riding[id].cents {
      var after := Next(caps, w, Shrink(id, cents));
      forall scope, user, side
        ensures Existing(after.riding, scope, user, side) <= Existing(w.riding, scope, user, side)
      {
        if cents == 0 {
          RemovedCounts(w.riding, id, scope, user, side);
        } else {
          AddedCounts(w.riding, id, w.riding[id].(cents := cents), scope, user, side);
        }
      }
      FewerRiding(caps, w, after.riding);
    }
  }

  lemma ReadKeeps(caps: Caps, w: World, id: Id, scope: Scope)
    requires Inv(caps, w)
    ensures Inv(caps, Next(caps, w, ReadSum(id, scope)))
  {
    var after := Next(caps, w, ReadSum(id, scope));
    forall q | q in after.placing ensures ReadsStand(after, after.placing[q]) {
      assert ReadsStand(w, w.placing[q]);
      SideWithinMarket(w.riding, w.placing[q].wager.user, w.placing[q].wager.side);
    }
    forall s, user, side ensures CapHolds(caps, after, s, user, side) {
      assert CapHolds(caps, w, s, user, side);
    }
  }

  /** A placement that adds no row. */
  lemma PassKeeps(caps: Caps, w: World, after: World)
    requires Inv(caps, w) && after.riding == w.riding && Rows(after)
    requires forall id :: id in after.placing && after.placing[id].progress.Holding? && after.placing[id].progress.read != map[] ==>
      id in w.placing && after.placing[id] == w.placing[id]
    ensures Inv(caps, after)
  {
    forall id | id in after.placing ensures ReadsStand(after, after.placing[id]) {
      if id in w.placing {
        assert ReadsStand(w, w.placing[id]);
      }
    }
    forall scope, user, side ensures CapHolds(caps, after, scope, user, side) {
      assert CapHolds(caps, w, scope, user, side);
    }
  }

  lemma InsertKeepsReads(caps: Caps, w: World, id: Id, q: Id)
    requires Inv(caps, w) && id in w.placing && w.placing[id].progress.Holding? && q in w.placing && q != id
    ensures ReadsStand(w.(riding := w.riding[id := w.placing[id].wager]), w.placing[q])
  {
    var r, p := w.placing[id].wager, w.placing[q];
    assert ReadsStand(w, p) && HoldsItsSide(w, id) && HoldsItsSide(w, q);
    if p.progress.Holding? {
      forall scope | scope in p.progress.read
        ensures Existing(w.riding[id := r], Guarded(scope), p.wager.user, p.wager.side) <= p.progress.read[scope]
      {
        AddedCounts(w.riding, id, r, Guarded(scope), p.wager.user, p.wager.side);
      }
    }
  }

  lemma InsertKeepsCaps(caps: Caps, w: World, id: Id, scope: Scope, user: Id, side: Id)
    requires Inv(caps, w) && id in w.placing && w.placing[id].progress.Holding?
    requires HasRead(caps, w.placing[id]) && IsAdmitted(caps, w.placing[id])
    ensures CapHolds(caps, w.(riding := w.riding[id := w.placing[id].wager]), scope, user, side)
  {
    var p := w.placing[id];
    assert CapHolds(caps, w, scope, user, side) && ReadsStand(w, p);
    AddedCounts(w.riding, id, p.wager, Guarded(scope), user, side);
    if IsCounted(Guarded(scope), p.wager, user, side) && CapOf(caps, scope, side) > 0 {
      assert side == p.wager.side && scope in p.progress.read;
      SameMember(w.riding, Guarded(scope), user, p.wager.user, side);
    }
  }

  /** Everybody's total on a side is the same whoever asks. */
  lemma SameMember(riding: map<Id, Riding>, scope: Scope, user: Id, other: Id, side: Id)
    ensures scope == BookOnSide ==> Existing(riding, scope, user, side) == Existing(riding, scope, other, side)
  {
    if scope == BookOnSide {
      assert Counted(riding, scope, user, side) == Counted(riding, scope, other, side);
    }
  }

  lemma FinishKeeps(caps: Caps, w: World, id: Id)
    requires Inv(caps, w)
    ensures Inv(caps, Next(caps, w, Finish(id)))
  {
    var after := Next(caps, w, Finish(id));
    if id in w.placing && w.placing[id].progress.Holding? && HasRead(caps, w.placing[id]) {
      assert HoldsItsSide(w, id);
      assert forall q :: q in w.placing ==> HoldsItsSide(w, q);
      if IsAdmitted(caps, w.placing[id]) {
        forall q | q in after.placing ensures ReadsStand(after, after.placing[q]) {
          if q != id {
            InsertKeepsReads(caps, w, id, q);
          }
        }
        forall scope, user, side ensures CapHolds(caps, after, scope, user, side) {
          InsertKeepsCaps(caps, w, id, scope, user, side);
        }
      } else {
        PassKeeps(caps, w, after);
      }
    }
  }

  lemma BeginKeeps(caps: Caps, w: World, id: Id, wager: Riding)
    requires Inv(caps, w)
    ensures Inv(caps, Next(caps, w, Begin(id, wager)))
  {
    assert forall q :: q in w.placing ==> HoldsItsSide(w, q);
    PassKeeps(caps, w, Next(caps, w, Begin(id, wager)));
  }

  lemma LockKeeps(caps: Caps, w: World, id: Id)
    requires Inv(caps, w)
    ensures Inv(caps, Next(caps, w, LockSide(id)))
  {
    assert forall q :: q in w.placing ==> HoldsItsSide(w, q);
    PassKeeps(caps, w, Next(caps, w, LockSide(id)));
  }

  lemma AbortKeeps(caps: Caps, w: World, id: Id)
    requires Inv(caps, w)
    ensures Inv(caps, Next(caps, w, Abort(id)))
  {
    assert forall q :: q in w.placing ==> HoldsItsSide(w, q);
    PassKeeps(caps, w, Next(caps, w, Abort(id)));
  }

  lemma NextKeeps(caps: Caps, w: World, a: Action)
    requires Inv(caps, w)
    ensures Inv(caps, Next(caps, w, a))
  {
    match a
    case Shrink(id, cents) => ShrinkKeeps(caps, w, id, cents);
    case ReadSum(id, scope) => ReadKeeps(caps, w, id, scope);
    case Finish(id) => FinishKeeps(caps, w, id);
    case Begin(id, wager) => BeginKeeps(caps, w, id, wager);
    case LockSide(id) => LockKeeps(caps, w, id);
    case Abort(id) => AbortKeeps(caps, w, id);
  }

  lemma {:induction false} RunKeeps(caps: Caps, actions: seq<Action>)
    ensures Inv(caps, Run(caps, actions))
  {
    if actions == [] {
      assert forall scope, user, side :: Counted(Empty.riding, scope, user, side) == map[];
    } else {
      RunKeeps(caps, actions[..|actions| - 1]);
      NextKeeps(caps, Run(caps, actions[..|actions| - 1]), actions[|actions| - 1]);
    }
  }

  /** No interleaving takes a member, or the book, past a side's cap. */
  lemma SideCapsHold(caps: Caps, actions: seq<Action>, user: Id, side: Id)
    ensures side in caps.member && caps.member[side] > 0 ==>
      Existing(Run(caps, actions).riding, MemberOnSide, user, side) <= caps.member[side]
    ensures side in caps.book && caps.book[side] > 0 ==>
      Existing(Run(caps, actions).riding, BookOnSide, user, side) <= caps.book[side]
  {
    RunKeeps(caps, actions);
    assert CapHolds(caps, Run(caps, actions), MemberOnSide, user, side);
    assert CapHolds(caps, Run(caps, actions), BookOnSide, user, side);
  }

  // ---- The market's own cap --------------------------------------------------------------------

  function Tighter(room: int, cap: nat): int {
    if 0 < cap < room then cap else room
  }

  /** The most one member can get onto one side. */
  function Room(caps: Caps, side: Id): int {
    Tighter(Tighter(caps.market, CapOf(caps, MemberOnSide, side)), CapOf(caps, BookOnSide, side))
  }

  function RoomOf(caps: Caps): Id -> int {
    (side: Id) => Room(caps, side)
  }

  predicate AreDistinct(sides: seq<Id>) {
    forall i, j :: 0 <= i < j < |sides| ==> sides[i] != sides[j]
  }

  /** The market's sides are `sides`. */
  predicate OnSides(actions: seq<Action>, sides: seq<Id>) {
    forall i :: 0 <= i < |actions| && actions[i].Begin? ==> actions[i].wager.side in sides
  }

  predicate StaysOn(w: World, sides: seq<Id>) {
    && (forall id :: id in w.placing ==> w.placing[id].wager.side in sides)
    && (forall id :: id in w.riding ==> w.riding[id].side in sides)
  }

  lemma {:induction false} RunStaysOn(caps: Caps, actions: seq<Action>, sides: seq<Id>)
    requires OnSides(actions, sides)
    ensures StaysOn(Run(caps, actions), sides)
  {
    if actions != [] {
      RunStaysOn(caps, actions[..|actions| - 1], sides);
    }
  }

  /** What the member has riding on the first sides. */
  function CountedAmong(riding: map<Id, Riding>, user: Id, sides: seq<Id>): map<Id, int> {
    map id | id in riding :: if riding[id].user == user && riding[id].side in sides then riding[id].cents else 0
  }

  lemma {:induction false} SidesAddUp(caps: Caps, riding: map<Id, Riding>, user: Id, sides: seq<Id>)
    requires AreDistinct(sides)
    requires forall side :: Existing(riding, MemberOnSide, user, side) <= Room(caps, side)
    ensures Total(CountedAmong(riding, user, sides)) <= Tally(sides, RoomOf(caps))
  {
    if sides == [] {
      TotalZero(CountedAmong(riding, user, sides));
    } else {
      var init, last := sides[..|sides| - 1], sides[|sides| - 1];
      SidesAddUp(caps, riding, user, init);
      assert last !in init && forall side :: side in sides <==> side in init || side == last;
      TotalAdds(CountedAmong(riding, user, sides), CountedAmong(riding, user, init), Counted(riding, MemberOnSide, user, last));
    }
  }

  lemma AllAmong(w: World, user: Id, sides: seq<Id>)
    requires StaysOn(w, sides)
    ensures CountedAmong(w.riding, user, sides) == Counted(w.riding, MemberOnMarket, user, 0)
  {
  }

  lemma WithinRoom(caps: Caps, w: World, user: Id, side: Id)
    requires caps.market > 0 && Inv(caps, w)
    ensures Existing(w.riding, MemberOnSide, user, side) <= Room(caps, side)
  {
    assert CapHolds(caps, w, MemberOnMarket, user, side);
    assert CapHolds(caps, w, MemberOnSide, user, side);
    assert CapHolds(caps, w, BookOnSide, user, side);
    TotalBelow(Counted(w.riding, MemberOnSide, user, side), Counted(w.riding, BookOnSide, user, side));
  }

  lemma MarketTotalBounded(caps: Caps, actions: seq<Action>, sides: seq<Id>, user: Id)
    requires caps.market > 0 && AreDistinct(sides) && OnSides(actions, sides)
    ensures Existing(Run(caps, actions).riding, MemberOnMarket, user, 0) <= Tally(sides, RoomOf(caps))
  {
    var w := Run(caps, actions);
    RunKeeps(caps, actions);
    RunStaysOn(caps, actions, sides);
    forall side ensures Existing(w.riding, MemberOnSide, user, side) <= Room(caps, side) {
      WithinRoom(caps, w, user, side);
    }
    SidesAddUp(caps, w.riding, user, sides);
    AllAmong(w, user, sides);
  }

  // ---- How far past it a member can get -------------------------------------------------------------

  const NothingRead := map[MemberOnMarket := 0, MemberOnSide := 0, BookOnSide := 0]

  /** One placement on a side, as far as its sums. */
  function Asks(caps: Caps, user: Id, side: Id): seq<Action> {
    [Begin(side, Full(caps, user, side)), LockSide(side),
     ReadSum(side, MemberOnMarket), ReadSum(side, MemberOnSide), ReadSum(side, BookOnSide)]
  }

  function AskAll(caps: Caps, user: Id, sides: seq<Id>): seq<Action> {
    if sides == [] then [] else AskAll(caps, user, sides[..|sides| - 1]) + Asks(caps, user, sides[|sides| - 1])
  }

  function FinishAll(sides: seq<Id>): seq<Action> {
    if sides == [] then [] else FinishAll(sides[..|sides| - 1]) + [Finish(sides[|sides| - 1])]
  }

  function Full(caps: Caps, user: Id, side: Id): Riding {
    Riding(user, side, Room(caps, side))
  }

  function Asked(caps: Caps, user: Id, w: World, side: Id, read: map<Scope, int>): World {
    w.(placing := w.placing[side := Placing(Full(caps, user, side), Holding(read))], locks := w.locks[side := side])
  }

  function SetOf(sides: seq<Id>): set<Id> {
    set side | side in sides
  }

  function Filled(caps: Caps, user: Id, done: set<Id>): map<Id, Riding> {
    map side | side in done :: Full(caps, user, side)
  }

  /** Some sides asked, some of them finished. */
  function Reached(caps: Caps, user: Id, asked: set<Id>, done: set<Id>): World {
    World(Filled(caps, user, done),
          map side | side in asked :: Placing(Full(caps, user, side), if side in done then Finished else Holding(NothingRead)),
          map side | side in asked - done :: side)
  }

  lemma RunAppend(caps: Caps, actions: seq<Action>, a: Action)
    ensures Run(caps, actions + [a]) == Next(caps, Run(caps, actions), a)
  {
    assert (actions + [a])[..|actions|] == actions;
  }

  lemma LockStep(caps: Caps, user: Id, w: World, side: Id)
    requires caps.market > 0 && side !in w.placing && side !in w.locks
    ensures Next(caps, Next(caps, w, Begin(side, Full(caps, user, side))), LockSide(side)) == Asked(caps, user, w, side, map[])
  {
  }

  lemma ReadStep(caps: Caps, user: Id, w: World, side: Id, read: map<Scope, int>, scope: Scope)
    requires w.riding == map[] && scope !in read
    ensures Next(caps, Asked(caps, user, w, side, read), ReadSum(side, scope)) == Asked(caps, user, w, side, read[scope := 0])
  {
    assert Counted(map[], scope, user, side) == map[];
  }

  lemma AskStep(caps: Caps, user: Id, actions: seq<Action>, w: World, side: Id)
    requires caps.market > 0 && w == Run(caps, actions) && w.riding == map[] && side !in w.placing && side !in w.locks
    ensures Run(caps, actions + Asks(caps, user, side)) == Asked(caps, user, w, side, NothingRead)
  {
    var asks := Asks(caps, user, side);
    var begun := actions + [asks[0]];
    var locked := begun + [asks[1]];
    var first := locked + [asks[2]];
    var second := first + [asks[3]];
    RunAppend(caps, actions, asks[0]);
    RunAppend(caps, begun, asks[1]);
    LockStep(caps, user, w, side);
    RunAppend(caps, locked, asks[2]);
    ReadStep(caps, user, w, side, map[], MemberOnMarket);
    RunAppend(caps, first, asks[3]);
    ReadStep(caps, user, w, side, map[MemberOnMarket := 0], MemberOnSide);
    RunAppend(caps, second, asks[4]);
    ReadStep(caps, user, w, side, map[MemberOnMarket := 0, MemberOnSide := 0], BookOnSide);
    assert actions + asks == second + [asks[4]];
  }

  lemma LastIsNew(sides: seq<Id>)
    requires sides != [] && AreDistinct(sides)
    ensures var init, last := sides[..|sides| - 1], sides[|sides| - 1];
      AreDistinct(init) && last !in SetOf(init) && SetOf(sides) == SetOf(init) + {last}
  {
    assert sides == sides[..|sides| - 1] + [sides[|sides| - 1]];
  }

  lemma AskedOneMore(caps: Caps, user: Id, asked: set<Id>, side: Id)
    requires side !in asked
    ensures Asked(caps, user, Reached(caps, user, asked, {}), side, NothingRead) == Reached(caps, user, asked + {side}, {})
  {
    var next, aim := Asked(caps, user, Reached(caps, user, asked, {}), side, NothingRead), Reached(caps, user, asked + {side}, {});
    assert next.riding == aim.riding;
    assert next.placing == aim.placing;
    assert next.locks == aim.locks;
  }

  lemma {:induction false} AllAsk(caps: Caps, user: Id, sides: seq<Id>)
    requires caps.market > 0 && AreDistinct(sides)
    ensures Run(caps, AskAll(caps, user, sides)) == Reached(caps, user, SetOf(sides), {})
  {
    if sides != [] {
      var init, last := sides[..|sides| - 1], sides[|sides| - 1];
      LastIsNew(sides);
      AllAsk(caps, user, init);
      AskStep(caps, user, AskAll(caps, user, init), Reached(caps, user, SetOf(init), {}), last);
      AskedOneMore(caps, user, SetOf(init), last);
    }
  }

  lemma FinishStep(caps: Caps, user: Id, asked: set<Id>, done: set<Id>, side: Id)
    requires caps.market > 0 && side in asked && side !in done
    ensures Next(caps, Reached(caps, user, asked, done), Finish(side)) == Reached(caps, user, asked, done + {side})
  {
    var w := Reached(caps, user, asked, done);
    var p := w.placing[side];
    assert p == Placing(Full(caps, user, side), Holding(NothingRead));
    FullIsAdmitted(caps, user, side);
    FinishedOneMore(caps, user, asked, done, side);
  }

  lemma FullIsAdmitted(caps: Caps, user: Id, side: Id)
    requires caps.market > 0
    ensures var p := Placing(Full(caps, user, side), Holding(NothingRead)); HasRead(caps, p) && IsAdmitted(caps, p)
  {
  }

  lemma FinishedOneMore(caps: Caps, user: Id, asked: set<Id>, done: set<Id>, side: Id)
    requires side in asked && side !in done
    ensures var w := Reached(caps, user, asked, done);
      Released(w, side).(riding := w.riding[side := Full(caps, user, side)]) == Reached(caps, user, asked, done + {side})
  {
    var w := Reached(caps, user, asked, done);
    var after := Released(w, side).(riding := w.riding[side := Full(caps, user, side)]);
    var aim := Reached(caps, user, asked, done + {side});
    assert after.riding == aim.riding;
    assert after.placing == aim.placing;
    assert after.locks == aim.locks;
  }

  lemma {:induction false} AllFinish(caps: Caps, user: Id, sides: seq<Id>, some: seq<Id>)
    requires caps.market > 0 && AreDistinct(sides) && AreDistinct(some) && SetOf(some) <= SetOf(sides)
    ensures Run(caps, AskAll(caps, user, sides) + FinishAll(some)) == Reached(caps, user, SetOf(sides), SetOf(some))
  {
    var asks := AskAll(caps, user, sides);
    if some == [] {
      AllAsk(caps, user, sides);
      assert asks + FinishAll(some) == asks;
    } else {
      var init, last := some[..|some| - 1], some[|some| - 1];
      LastIsNew(some);
      AllFinish(caps, user, sides, init);
      assert asks + FinishAll(some) == asks + FinishAll(init) + [Finish(last)];
      RunAppend(caps, asks + FinishAll(init), Finish(last));
      FinishStep(caps, user, SetOf(sides), SetOf(init), last);
    }
  }

  lemma {:induction false} ReachedTotal(caps: Caps, user: Id, sides: seq<Id>)
    requires AreDistinct(sides)
    ensures Existing(Filled(caps, user, SetOf(sides)), MemberOnMarket, user, 0) == Tally(sides, RoomOf(caps))
  {
    if sides == [] {
      assert Counted(Filled(caps, user, {}), MemberOnMarket, user, 0) == map[];
    } else {
      var init, last := sides[..|sides| - 1], sides[|sides| - 1];
      LastIsNew(sides);
      ReachedTotal(caps, user, init);
      var before := Filled(caps, user, SetOf(init));
      assert Filled(caps, user, SetOf(sides)) == before[last := Full(caps, user, last)];
      AddedCounts(before, last, Full(caps, user, last), MemberOnMarket, user, 0);
    }
  }

  lemma OnSidesConcat(a: seq<Action>, b: seq<Action>, sides: seq<Id>)
    requires OnSides(a, sides) && OnSides(b, sides)
    ensures OnSides(a + b, sides)
  {
  }

  lemma {:induction false} OnTheseSides(caps: Caps, user: Id, sides: seq<Id>, some: seq<Id>)
    requires SetOf(some) <= SetOf(sides)
    ensures OnSides(AskAll(caps, user, some), sides) && OnSides(FinishAll(some), sides)
  {
    if some != [] {
      var init, last := some[..|some| - 1], some[|some| - 1];
      assert last in SetOf(some) && SetOf(init) <= SetOf(some);
      OnTheseSides(caps, user, sides, init);
      OnSidesConcat(AskAll(caps, user, init), Asks(caps, user, last), sides);
      OnSidesConcat(FinishAll(init), [Finish(last)], sides);
    }
  }

  /** Placements on all sides at once put the member at every side's room. */
  lemma MarketTotalReached(caps: Caps, sides: seq<Id>, user: Id) returns (actions: seq<Action>)
    requires caps.market > 0 && AreDistinct(sides)
    ensures OnSides(actions, sides)
    ensures Existing(Run(caps, actions).riding, MemberOnMarket, user, 0) == Tally(sides, RoomOf(caps))
  {
    actions := AskAll(caps, user, sides) + FinishAll(sides);
    AllFinish(caps, user, sides, sides);
    ReachedTotal(caps, user, sides);
    OnTheseSides(caps, user, sides, sides);
    OnSidesConcat(AskAll(caps, user, sides), FinishAll(sides), sides);
  }

  ghost predicate MarketCapHolds(caps: Caps, sides: seq<Id>, user: Id) {
    forall actions :: OnSides(actions, sides) ==> Existing(Run(caps, actions).riding, MemberOnMarket, user, 0) <= caps.market
  }

  /** The cap on the member's whole market survives every interleaving exactly
      when the rooms of its sides do not add up past it. */
  lemma MarketCapHoldsExactly(caps: Caps, sides: seq<Id>, user: Id)
    requires caps.market > 0 && AreDistinct(sides)
    ensures MarketCapHolds(caps, sides, user) <==> Tally(sides, RoomOf(caps)) <= caps.market
  {
    if Tally(sides, RoomOf(caps)) <= caps.market {
      forall actions | OnSides(actions, sides)
        ensures Existing(Run(caps, actions).riding, MemberOnMarket, user, 0) <= caps.market
      {
        MarketTotalBounded(caps, actions, sides, user);
      }
    } else {
      var actions := MarketTotalReached(caps, sides, user);
      assert OnSides(actions, sides);
    }
  }

  /** Two sides without caps of their own take the member to twice the cap. */
  lemma MarketCapCanBeDoubled(market: nat, s: Id, t: Id, user: Id) returns (actions: seq<Action>)
    requires market > 0 && s != t
    ensures Existing(Run(Caps(market, map[], map[]), actions).riding, MemberOnMarket, user, 0) == 2 * market
  {
    var caps := Caps(market, map[], map[]);
    actions := MarketTotalReached(caps, [s, t], user);
    assert [s, t][..1] == [s];
    assert Tally([s, t], RoomOf(caps)) == Tally([s], RoomOf(caps)) + Room(caps, t);
    assert Tally([s], RoomOf(caps)) == Room(caps, s);
  }
}
