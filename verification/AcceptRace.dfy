/** Placement, acceptance and settlement of one market's wagers, with row locks
    and reads as separate steps (internal/bettingpg/place.go, accept.go,
    market.go, noaction.go). Reads see committed state. A locking read of a set
    fixes its rows first and then waits for them one by one. A placement's
    insert references the market's row (wagers_market_currency_fkey), so it
    waits while a settlement or a close holds that row. */
module AcceptRace {
  import opened Results
  import opened Ledger
  import opened Wagers

  // ---- The world ---------------------------------------------------------------------

  datatype Process = Acceptor(id: Id) | Settler(id: Id)

  /** `read` is the wager's state as its locking read returned it, `saw` the
      market's as the later unlocked read did. */
  datatype Accepting =
    | Waiting(wager: Id)
    | Holding(wager: Id, read: WagerState)
    | Judged(wager: Id, read: WagerState, saw: MarketState)

  datatype Kind = Grading | Voiding | Regrading

  /** Locked: holds the market row. Gathering: the set of rows is fixed, `held`
      are those locked so far with the state each had. */
  datatype Settling =
    | Starting(kind: Kind)
    | Locked(kind: Kind)
    | Gathering(kind: Kind, rows: set<Id>, held: map<Id, WagerState>)

  /** `placing` are the placements that have read the market open; `late` the
      wagers inserted on a market already closed without action. */
  datatype World = World(
    market: MarketState,
    wagers: map<Id, WagerState>,
    rowLocks: map<Id, Process>,
    marketLock: Option<Id>,
    placing: set<Id>,
    accepting: map<Id, Accepting>,
    settling: map<Id, Settling>,
    late: set<Id>)

  const Initial := World(Open, map[], map[], None, {}, map[], map[], {})

  datatype Action =
    | ReadOpen(wager: Id)
    | Insert(wager: Id)
    | UpdateRow(wager: Id)
    | CloseMarket
    | CloseWithoutAction
    | StartAccept(process: Id, wager: Id)
    | LockRow(process: Id)
    | ReadMarket(process: Id)
    | CommitAccept(process: Id)
    | AbortAccept(process: Id)
    | StartSettle(process: Id, kind: Kind)
    | LockMarket(process: Id)
    | FixRows(process: Id)
    | LockNext(process: Id, wager: Id)
    | CommitSettle(process: Id)
    | AbortSettle(process: Id)

  // ---- Steps -----------------------------------------------------------------------------

  predicate IsGraded(state: MarketState) {
    state == Settled || state == Voided
  }

  predicate IsLive(state: WagerState) {
    state == Pending || state == Accepted
  }

  /** AcceptWager's list of refusals. */
  predicate Refuses(state: MarketState) {
    state == Settled || state == Voided || state == Cancelled
  }

  /** validateSettleableState, an open market being closed first. */
  predicate Settleable(state: MarketState, kind: Kind) {
    match kind
    case Regrading => state == Settled
    case _ => state == Open || state == Closed || state == SettlementPending
  }

  function Unlock(locks: map<Id, Process>, process: Process): map<Id, Process> {
    map id | id in locks && locks[id] != process :: locks[id]
  }

  /** A rejection or an administrator's void: one short locked update. */
  function Updated(state: WagerState): WagerState {
    match state
    case Pending => Rejected
    case Accepted => Refunded
    case _ => state
  }

  predicate IsAcceptStep(a: Action) {
    a.LockRow? || a.ReadMarket? || a.CommitAccept? || a.AbortAccept?
  }

  function AcceptStep(w: World, a: Action): World
    requires IsAcceptStep(a)
  {
    if a.process !in w.accepting then w
    else
      var p := w.accepting[a.process];
      match a
      case LockRow(_) =>
        if p.Waiting? && p.wager in w.wagers && p.wager !in w.rowLocks then
          w.(rowLocks := w.rowLocks[p.wager := Acceptor(a.process)],
             accepting := w.accepting[a.process := Holding(p.wager, w.wagers[p.wager])])
        else w
      case ReadMarket(_) =>
        if p.Holding? then w.(accepting := w.accepting[a.process := Judged(p.wager, p.read, w.market)]) else w
      case CommitAccept(_) =>
        if p.Judged? && p.read == Pending && !Refuses(p.saw) then
          Leave(w.(wagers := w.wagers[p.wager := Accepted]), a.process)
        else w
      case AbortAccept(_) => Leave(w, a.process)
  }

  function Leave(w: World, process: Id): World {
    w.(rowLocks := Unlock(w.rowLocks, Acceptor(process)), accepting := w.accepting - {process})
  }

  predicate IsSettleStep(a: Action) {
    a.LockMarket? || a.FixRows? || a.LockNext? || a.CommitSettle? || a.AbortSettle?
  }

  function SettleStep(w: World, a: Action): World
    requires IsSettleStep(a)
  {
    if a.process !in w.settling then w
    else
      var p := w.settling[a.process];
      match a
      case LockMarket(_) =>
        if p.Starting? && w.marketLock.None? && Settleable(w.market, p.kind) then
          w.(marketLock := Some(a.process), settling := w.settling[a.process := Locked(p.kind)])
        else w
      case FixRows(_) =>
        if p.Locked? then w.(settling := w.settling[a.process := Gathering(p.kind, w.wagers.Keys, map[])]) else w
      case LockNext(_, wager) =>
        if p.Gathering? && wager in p.rows && wager !in p.held && wager in w.wagers && wager !in w.rowLocks then
          w.(rowLocks := w.rowLocks[wager := Settler(a.process)],
             settling := w.settling[a.process := Gathering(p.kind, p.rows, p.held[wager := w.wagers[wager]])])
        else w
      case CommitSettle(_) =>
        if p.Gathering? && p.held.Keys == p.rows then
          Release(w.(market := if p.kind == Voiding then Voided else Settled, wagers := Resolved(w.wagers, p.held, p.kind)),
                  a.process)
        else w
      case AbortSettle(_) => Release(w, a.process)
  }

  /** The rows read as accepted are graded or refunded. */
  function Resolved(wagers: map<Id, WagerState>, held: map<Id, WagerState>, kind: Kind): map<Id, WagerState> {
    map id | id in wagers ::
      if id in held && held[id] == Accepted then (if kind == Voiding then Refunded else Graded) else wagers[id]
  }

  function Release(w: World, process: Id): World {
    w.(rowLocks := Unlock(w.rowLocks, Settler(process)),
       marketLock := if w.marketLock == Some(process) then None else w.marketLock,
       settling := w.settling - {process})
  }

  predicate HasLive(w: World) {
    exists id :: id in w.wagers && IsLive(w.wagers[id])
  }

  /** Steps on the market's row and on unlocked wagers, each short. */
  function PlainStep(w: World, a: Action): World
    requires !IsAcceptStep(a) && !IsSettleStep(a)
  {
    match a
    case ReadOpen(wager) => if w.market == Open then w.(placing := w.placing + {wager}) else w
    case Insert(wager) =>
      if wager !in w.placing || wager in w.wagers || w.marketLock.Some? then w
      else w.(wagers := w.wagers[wager := Pending], placing := w.placing - {wager},
              late := if w.market == NoAction then w.late + {wager} else w.late)
    case UpdateRow(wager) =>
      if wager in w.wagers && wager !in w.rowLocks then w.(wagers := w.wagers[wager := Updated(w.wagers[wager])]) else w
    case CloseMarket => if w.market == Open && w.marketLock.None? then w.(market := Closed) else w
    case CloseWithoutAction =>
      if (w.market == Closed || w.market == SettlementPending) && w.marketLock.None? && !HasLive(w) then w.(market := NoAction)
      else w
    case StartAccept(process, wager) =>
      if process in w.accepting then w else w.(accepting := w.accepting[process := Waiting(wager)])
    case StartSettle(process, kind) =>
      if process in w.settling then w else w.(settling := w.settling[process := Starting(kind)])
    case _ => w
  }

  /** One step of any process; a step that cannot happen leaves the world alone. */
  function Next(w: World, a: Action): World {
    if IsAcceptStep(a) then AcceptStep(w, a)
    else if IsSettleStep(a) then SettleStep(w, a)
    else PlainStep(w, a)
  }

  function Run(actions: seq<Action>): World {
    if actions == [] then Initial else Next(Run(actions[..|actions| - 1]), actions[|actions| - 1])
  }

  // ---- What every interleaving keeps ---------------------------------------------------------

  /** An acceptor past its lock owns its row, whose state is as it read it; and
      if it will not refuse, the market is still not graded. */
  predicate AcceptorSound(w: World, process: Id, p: Accepting) {
    p.Waiting? ||
      (&& p.wager in w.wagers && w.wagers[p.wager] == p.read
       && p.wager in w.rowLocks && w.rowLocks[p.wager] == Acceptor(process)
       && (p.Judged? && !Refuses(p.saw) ==> !IsGraded(w.market)))
  }

  /** A settlement past its start holds the market row, so that no wager can
      have been inserted since it fixed its rows: they are all there are. */
  predicate SettlerSound(w: World, process: Id, p: Settling) {
    && (!p.Starting? ==> w.marketLock == Some(process) && Settleable(w.market, p.kind))
    && (p.Gathering? ==> p.rows == w.wagers.Keys && forall id :: id in p.held ==> HeldRow(w, process, p, id))
  }

  predicate HeldRow(w: World, process: Id, p: Settling, id: Id)
    requires p.Gathering? && id in p.held
  {
    id in p.rows && id in w.wagers && w.wagers[id] == p.held[id] && id in w.rowLocks && w.rowLocks[id] == Settler(process)
  }

  /** A lock's owner is at a step that holds it. */
  predicate LockSound(w: World, id: Id, owner: Process) {
    match owner
    case Acceptor(process) =>
      process in w.accepting && !w.accepting[process].Waiting? && w.accepting[process].wager == id
    case Settler(process) =>
      process in w.settling && w.settling[process].Gathering? && id in w.settling[process].held
  }

  /** Nothing is held on a graded market, and on one closed without action only
      what was inserted after the close is live. */
  predicate WagerSound(w: World, id: Id) {
    id in w.wagers ==>
      && (IsGraded(w.market) ==> w.wagers[id] != Accepted)
      && (w.market == NoAction && IsLive(w.wagers[id]) ==> id in w.late)
  }

  predicate Sound(w: World) {
    && (forall process :: process in w.accepting ==> AcceptorSound(w, process, w.accepting[process]))
    && (forall process :: process in w.settling ==> SettlerSound(w, process, w.settling[process]))
    && (forall id :: id in w.rowLocks ==> LockSound(w, id, w.rowLocks[id]))
    && (forall id :: id in w.wagers ==> WagerSound(w, id))
  }

  /** What a step may change without touching a settler: locks grow or stay, the
      market and the set of wagers stay, and a locked row's state stays. */
  predicate LeavesSettlers(w: World, after: World) {
    && after.market == w.market && after.marketLock == w.marketLock && after.wagers.Keys == w.wagers.Keys
    && forall id :: id in w.rowLocks && w.rowLocks[id].Settler? && id in w.wagers ==>
         id in after.rowLocks && after.rowLocks[id] == w.rowLocks[id] && after.wagers[id] == w.wagers[id]
  }

  lemma KeepsSettler(w: World, after: World, s: Id)
    requires s in w.settling && SettlerSound(w, s, w.settling[s]) && LeavesSettlers(w, after)
    ensures SettlerSound(after, s, w.settling[s])
  {
    var p := w.settling[s];
    if p.Gathering? {
      forall id | id in p.held ensures HeldRow(after, s, p, id) {
        assert HeldRow(w, s, p, id);
      }
    }
  }

  /** The only settler past its start is the one that holds the market row. */
  lemma OnlySettler(w: World, process: Id, other: Id)
    requires Sound(w) && other in w.settling && other != process
    requires w.marketLock == Some(process) || w.marketLock == None
    ensures w.settling[other].Starting?
  {
    assert SettlerSound(w, other, w.settling[other]);
  }

  // ---- Acceptance steps ------------------------------------------------------------------------

  lemma LeaveIsSound(w: World, process: Id)
    requires Sound(w)
    ensures Sound(Leave(w, process))
  {
    var after := Leave(w, process);
    forall other | other in after.accepting ensures AcceptorSound(after, other, after.accepting[other]) {
      assert AcceptorSound(w, other, w.accepting[other]);
    }
    forall s | s in after.settling ensures SettlerSound(after, s, after.settling[s]) {
      KeepsSettler(w, after, s);
    }
    forall id | id in after.rowLocks ensures LockSound(after, id, after.rowLocks[id]) {
      assert LockSound(w, id, w.rowLocks[id]);
    }
    forall id | id in after.wagers ensures WagerSound(after, id) {
      assert WagerSound(w, id);
    }
  }

  /** A wager's row may change while no settlement and no other acceptor holds it,
      into an accepted one only while the market is not graded. */
  lemma RowIsSound(w: World, wager: Id, state: WagerState)
    requires Sound(w) && wager in w.wagers && wager !in w.rowLocks
    requires state == Accepted ==> !IsGraded(w.market)
    requires IsLive(state) ==> IsLive(w.wagers[wager])
    ensures Sound(w.(wagers := w.wagers[wager := state]))
  {
    var after := w.(wagers := w.wagers[wager := state]);
    forall p | p in after.accepting ensures AcceptorSound(after, p, after.accepting[p]) {
      assert AcceptorSound(w, p, w.accepting[p]);
    }
    forall s | s in after.settling ensures SettlerSound(after, s, after.settling[s]) {
      KeepsSettler(w, after, s);
    }
    forall id | id in after.wagers ensures WagerSound(after, id) {
      assert WagerSound(w, id);
    }
  }

  lemma CommitAcceptIsSound(w: World, process: Id)
    requires Sound(w) && process in w.accepting
    ensures Sound(AcceptStep(w, CommitAccept(process)))
  {
    var p := w.accepting[process];
    assert AcceptorSound(w, process, p);
    if p.Judged? && p.read == Pending && !Refuses(p.saw) {
      LeaveIsSound(w, process);
      RowIsSound(Leave(w, process), p.wager, Accepted);
    }
  }

  lemma LockingIsSound(w: World, a: Action)
    requires Sound(w) && (a.LockRow? || a.ReadMarket?)
    ensures Sound(AcceptStep(w, a))
  {
    var after := AcceptStep(w, a);
    forall process | process in after.accepting ensures AcceptorSound(after, process, after.accepting[process]) {
      assert process in w.accepting && AcceptorSound(w, process, w.accepting[process]);
    }
    forall s | s in after.settling ensures SettlerSound(after, s, after.settling[s]) {
      KeepsSettler(w, after, s);
    }
    forall id | id in after.wagers ensures WagerSound(after, id) {
      assert WagerSound(w, id);
    }
  }

  lemma AcceptStepIsSound(w: World, a: Action)
    requires Sound(w) && IsAcceptStep(a)
    ensures Sound(AcceptStep(w, a))
  {
    if a.process in w.accepting {
      match a
      case AbortAccept(_) => LeaveIsSound(w, a.process);
      case CommitAccept(_) => CommitAcceptIsSound(w, a.process);
      case _ => LockingIsSound(w, a);
    }
  }

  // ---- Settlement steps ----------------------------------------------------------------------

  lemma LockMarketIsSound(w: World, a: Action)
    requires Sound(w) && (a.LockMarket? || a.FixRows?)
    ensures Sound(SettleStep(w, a))
  {
    var after := SettleStep(w, a);
    if after != w {
      assert SettlerSound(w, a.process, w.settling[a.process]);
      forall p | p in after.accepting ensures AcceptorSound(after, p, after.accepting[p]) {
        assert AcceptorSound(w, p, w.accepting[p]);
      }
      forall s | s in after.settling ensures SettlerSound(after, s, after.settling[s]) {
        if s != a.process {
          OnlySettler(w, a.process, s);
        }
      }
      forall id | id in after.rowLocks ensures LockSound(after, id, after.rowLocks[id]) {
        assert LockSound(w, id, w.rowLocks[id]);
      }
      forall id | id in after.wagers ensures WagerSound(after, id) {
        assert WagerSound(w, id);
      }
    }
  }

  lemma LockNextIsSound(w: World, process: Id, wager: Id)
    requires Sound(w) && process in w.settling
    ensures Sound(SettleStep(w, LockNext(process, wager)))
  {
    var after := SettleStep(w, LockNext(process, wager));
    var p := w.settling[process];
    if after != w {
      assert SettlerSound(w, process, p);
      var q := after.settling[process];
      forall id | id in q.held ensures HeldRow(after, process, q, id) {
        assert id != wager ==> HeldRow(w, process, p, id);
      }
      forall a | a in after.accepting ensures AcceptorSound(after, a, after.accepting[a]) {
        assert AcceptorSound(w, a, w.accepting[a]);
      }
      forall s | s in after.settling ensures SettlerSound(after, s, after.settling[s]) {
        if s != process {
          OnlySettler(w, process, s);
        }
      }
      forall id | id in after.rowLocks ensures LockSound(after, id, after.rowLocks[id]) {
        assert id != wager ==> LockSound(w, id, w.rowLocks[id]);
      }
      forall id | id in after.wagers ensures WagerSound(after, id) {
        assert WagerSound(w, id);
      }
    }
  }

  lemma ReleaseIsSound(w: World, process: Id)
    requires Sound(w)
    ensures Sound(Release(w, process))
  {
    var after := Release(w, process);
    forall p | p in after.accepting ensures AcceptorSound(after, p, after.accepting[p]) {
      assert AcceptorSound(w, p, w.accepting[p]);
    }
    forall s | s in after.settling ensures SettlerSound(after, s, after.settling[s]) {
      assert SettlerSound(w, s, w.settling[s]);
      var p := w.settling[s];
      if p.Gathering? {
        forall id | id in p.held ensures HeldRow(after, s, p, id) {
          assert HeldRow(w, s, p, id);
        }
      }
    }
    forall id | id in after.rowLocks ensures LockSound(after, id, after.rowLocks[id]) {
      assert LockSound(w, id, w.rowLocks[id]);
    }
    forall id | id in after.wagers ensures WagerSound(after, id) {
      assert WagerSound(w, id);
    }
  }

  /** When a settlement commits it holds every wager, so no acceptor holds one. */
  lemma EveryAcceptorWaits(w: World, process: Id, a: Id)
    requires Sound(w) && process in w.settling && a in w.accepting
    requires w.settling[process].Gathering? && w.settling[process].held.Keys == w.settling[process].rows
    ensures w.accepting[a].Waiting?
  {
    var p, q := w.settling[process], w.accepting[a];
    assert AcceptorSound(w, a, q) && SettlerSound(w, process, p);
    assert q.wager in p.held ==> HeldRow(w, process, p, q.wager);
  }

  lemma CommitSettleIsSound(w: World, process: Id)
    requires Sound(w) && process in w.settling
    ensures Sound(SettleStep(w, CommitSettle(process)))
  {
    var p := w.settling[process];
    if p.Gathering? && p.held.Keys == p.rows {
      ReleaseIsSound(w, process);
      var left, after := Release(w, process), SettleStep(w, CommitSettle(process));
      assert SettlerSound(w, process, p);
      forall a | a in after.accepting ensures AcceptorSound(after, a, after.accepting[a]) {
        EveryAcceptorWaits(w, process, a);
      }
      forall s | s in after.settling ensures SettlerSound(after, s, after.settling[s]) {
        OnlySettler(w, process, s);
      }
      forall id | id in after.rowLocks ensures LockSound(after, id, after.rowLocks[id]) {
        assert LockSound(left, id, left.rowLocks[id]);
      }
      forall id | id in after.wagers ensures WagerSound(after, id) {
        assert HeldRow(w, process, p, id);
      }
    }
  }

  lemma SettleStepIsSound(w: World, a: Action)
    requires Sound(w) && IsSettleStep(a)
    ensures Sound(SettleStep(w, a))
  {
    if a.process in w.settling {
      match a
      case LockNext(process, wager) => LockNextIsSound(w, process, wager);
      case CommitSettle(process) => CommitSettleIsSound(w, process);
      case AbortSettle(process) => ReleaseIsSound(w, process);
      case _ => LockMarketIsSound(w, a);
    }
  }

  // ---- Placement and closing -------------------------------------------------------------------

  /** Steps on the market row: nobody is settling. */
  lemma MarketStepIsSound(w: World, a: Action)
    requires Sound(w) && (a.Insert? || a.CloseMarket? || a.CloseWithoutAction?)
    ensures Sound(PlainStep(w, a))
  {
    var after := PlainStep(w, a);
    if after != w {
      forall p | p in after.accepting ensures AcceptorSound(after, p, after.accepting[p]) {
        assert AcceptorSound(w, p, w.accepting[p]);
      }
      forall s | s in after.settling ensures SettlerSound(after, s, after.settling[s]) {
        assert SettlerSound(w, s, w.settling[s]);
      }
      forall id | id in after.rowLocks ensures LockSound(after, id, after.rowLocks[id]) {
        assert LockSound(w, id, w.rowLocks[id]);
      }
      forall id | id in after.wagers ensures WagerSound(after, id) {
        assert WagerSound(w, id);
      }
    }
  }

  lemma StartIsSound(w: World, a: Action)
    requires Sound(w) && (a.ReadOpen? || a.StartAccept? || a.StartSettle?)
    ensures Sound(PlainStep(w, a))
  {
    var after := PlainStep(w, a);
    forall p | p in after.accepting ensures AcceptorSound(after, p, after.accepting[p]) {
      assert p in w.accepting ==> AcceptorSound(w, p, w.accepting[p]);
    }
    forall s | s in after.settling ensures SettlerSound(after, s, after.settling[s]) {
      if s in w.settling {
        KeepsSettler(w, after, s);
      }
    }
    forall id | id in after.rowLocks ensures LockSound(after, id, after.rowLocks[id]) {
      assert LockSound(w, id, w.rowLocks[id]);
    }
    forall id | id in after.wagers ensures WagerSound(after, id) {
      assert WagerSound(w, id);
    }
  }

  lemma NextIsSound(w: World, a: Action)
    requires Sound(w)
    ensures Sound(Next(w, a))
  {
    if IsAcceptStep(a) {
      AcceptStepIsSound(w, a);
    } else if IsSettleStep(a) {
      SettleStepIsSound(w, a);
    } else if a.UpdateRow? {
      if Next(w, a) != w {
        RowIsSound(w, a.wager, Updated(w.wagers[a.wager]));
      }
    } else if a.ReadOpen? || a.StartAccept? || a.StartSettle? {
      StartIsSound(w, a);
    } else {
      MarketStepIsSound(w, a);
    }
  }

  lemma {:induction false} RunIsSound(actions: seq<Action>)
    ensures Sound(Run(actions))
  {
    if actions != [] {
      RunIsSound(actions[..|actions| - 1]);
      NextIsSound(Run(actions[..|actions| - 1]), actions[|actions| - 1]);
    }
  }

  /** No interleaving of placements, acceptances, settlements and closes ends with
      a wager accepted on a settled or voided market. */
  lemma NoWagerIsStranded(actions: seq<Action>, wager: Id)
    requires wager in Run(actions).wagers && Run(actions).wagers[wager] == Accepted
    ensures !IsGraded(Run(actions).market)
  {
    RunIsSound(actions);
    assert WagerSound(Run(actions), wager);
  }

  // ---- Closed without action -------------------------------------------------------------------

  /** Only a wager inserted after the close, by a placement that had read the
      market open before it, can be live on a market closed without action. */
  lemma LiveWithoutActionIsLate(actions: seq<Action>, wager: Id)
    requires Run(actions).market == NoAction
    requires wager in Run(actions).wagers && IsLive(Run(actions).wagers[wager])
    ensures wager in Run(actions).late
  {
    RunIsSound(actions);
    assert WagerSound(Run(actions), wager);
  }

  lemma RunNext(actions: seq<Action>, a: Action)
    ensures Run(actions + [a]) == Next(Run(actions), a)
  {
    assert (actions + [a])[..|actions|] == actions;
  }

  /** And any such pending wager can be accepted there: a process that is not
      already busy needs only its four steps. */
  lemma LateWagerCanBeAccepted(actions: seq<Action>, wager: Id, process: Id) returns (longer: seq<Action>)
    requires var w := Run(actions);
      w.market == NoAction && wager in w.wagers && w.wagers[wager] == Pending
    requires wager !in Run(actions).rowLocks && process !in Run(actions).accepting
    ensures var w := Run(longer);
      w.market == NoAction && wager in w.wagers && w.wagers[wager] == Accepted
  {
    var w := Run(actions);
    var a, b, c, d := StartAccept(process, wager), LockRow(process), ReadMarket(process), CommitAccept(process);
    longer := actions + [a] + [b] + [c] + [d];
    RunNext(actions, a);
    RunNext(actions + [a], b);
    RunNext(actions + [a] + [b], c);
    RunNext(actions + [a] + [b] + [c], d);
    AcceptedInFour(w, wager, process);
  }

  lemma AcceptedInFour(w: World, wager: Id, process: Id)
    requires wager in w.wagers && w.wagers[wager] == Pending && wager !in w.rowLocks && process !in w.accepting
    requires !Refuses(w.market)
    ensures var after := Next(Next(Next(Next(w, StartAccept(process, wager)), LockRow(process)), ReadMarket(process)), CommitAccept(process));
      after.market == w.market && after.wagers == w.wagers[wager := Accepted]
  {
    var one := Next(w, StartAccept(process, wager));
    var two := Next(one, LockRow(process));
    var three := Next(two, ReadMarket(process));
    assert one == w.(accepting := w.accepting[process := Waiting(wager)]);
    assert two.accepting[process] == Holding(wager, Pending) && two.wagers == w.wagers && two.market == w.market;
    assert three.accepting[process] == Judged(wager, Pending, w.market) && three.wagers == w.wagers;
  }

  lemma LateReadIsReachable() returns (actions: seq<Action>)
    ensures Run(actions) == Initial.(placing := {7}, market := NoAction)
  {
    var read: seq<Action> := [ReadOpen(7)];
    assert read == [] + [ReadOpen(7)];
    RunNext([], ReadOpen(7));
    assert Run(read) == Initial.(placing := {7});
    RunNext(read, CloseMarket);
    var closed := read + [CloseMarket];
    assert Run(closed) == Initial.(placing := {7}, market := Closed);
    RunNext(closed, CloseWithoutAction);
    actions := closed + [CloseWithoutAction];
  }

  lemma LateInsertIsReachable() returns (actions: seq<Action>)
    ensures Run(actions) == Initial.(placing := {}, market := NoAction, wagers := map[7 := Pending], late := {7})
  {
    var closed := LateReadIsReachable();
    RunNext(closed, Insert(7));
    actions := closed + [Insert(7)];
  }

  /** Such a wager exists: its placement read the market open, which was then
      closed and closed without action before the insert landed. */
  lemma LatePlacementIsReachable() returns (actions: seq<Action>)
    ensures var w := Run(actions);
      w.market == NoAction && 7 in w.wagers && w.wagers[7] == Accepted && 7 in w.late
  {
    var inserted := LateInsertIsReachable();
    actions := LateWagerCanBeAccepted(inserted, 7, 2);
    LiveWithoutActionIsLate(actions, 7);
  }
}
