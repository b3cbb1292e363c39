/** One parlay, its acceptance and the settlements of its legs' markets, with
    locks, reads and commits as separate steps (internal/bettingpg/parlay.go,
    parlayload.go, market.go). Reads see committed state. A market's own lock
    lets one settlement of it run at a time, so settlements are known by their
    leg. */
module ParlayRace {
  import opened Results
  import opened Ledger
  import opened Wagers

  // ---- The world ---------------------------------------------------------------------

  datatype Process = Acceptor(id: Id) | Settler(leg: nat)

  /** `read` is the parlay's state as its locking read returned it, `open` whether
      the later unlocked read found every leg's market undecided. */
  datatype Accepting =
    | Waiting
    | Holding(read: WagerState)
    | Judged(read: WagerState, open: bool)

  /** Queried: has marked the leg if it found the parlay accepted. Visiting: holds
      the parlay's row and has read its legs. */
  datatype Settling =
    | Locked(grade: Grade)
    | Queried(grade: Grade, found: bool)
    | Visiting(grade: Grade, view: seq<Option<Grade>>)

  /** `payments` counts the parlay's settlement transactions on the ledger. */
  datatype World = World(
    state: WagerState,
    results: seq<Option<Grade>>,
    decided: seq<bool>,
    row: Option<Process>,
    payments: nat,
    accepting: map<Id, Accepting>,
    settling: map<nat, Settling>)

  function Initial(legs: nat): World {
    World(Pending, seq(legs, i => None), seq(legs, i => false), None, 0, map[], map[])
  }

  datatype Action =
    | Refuse
    | StartAccept(process: Id)
    | LockParlay(process: Id)
    | ReadMarkets(process: Id)
    | CommitAccept(process: Id)
    | AbortAccept(process: Id)
    | StartSettle(leg: nat, grade: Grade)
    | QueryLegs(leg: nat)
    | VisitParlay(leg: nat)
    | CommitSettle(leg: nat)
    | AbortSettle(leg: nat)

  // ---- Steps -----------------------------------------------------------------------------

  predicate HasLoss(results: seq<Option<Grade>>) {
    exists i :: 0 <= i < |results| && results[i] == Some(Loss)
  }

  predicate HasOpenLeg(results: seq<Option<Grade>>) {
    exists i :: 0 <= i < |results| && results[i].None?
  }

  /** settleParlayIfCompleteTx grades it: it is dead, or every leg has come in. */
  predicate IsOver(results: seq<Option<Grade>>) {
    HasLoss(results) || !HasOpenLeg(results)
  }

  function Release(row: Option<Process>, process: Process): Option<Process> {
    if row == Some(process) then None else row
  }

  function LeaveAccept(w: World, process: Id): World {
    w.(row := Release(w.row, Acceptor(process)), accepting := w.accepting - {process})
  }

  function AcceptStep(w: World, a: Action): World
    requires a.LockParlay? || a.ReadMarkets? || a.CommitAccept? || a.AbortAccept?
  {
    if a.process !in w.accepting then w
    else
      var p := w.accepting[a.process];
      match a
      case LockParlay(id) =>
        if p.Waiting? && w.row.None? then
          w.(row := Some(Acceptor(id)), accepting := w.accepting[id := Holding(w.state)])
        else w
      case ReadMarkets(id) =>
        if p.Holding? then w.(accepting := w.accepting[id := Judged(p.read, forall i :: 0 <= i < |w.decided| ==> !w.decided[i])])
        else w
      case CommitAccept(id) =>
        if p.Judged? && p.read == Pending && p.open then LeaveAccept(w.(state := Accepted), id) else w
      case AbortAccept(id) => LeaveAccept(w, id)
  }

  function LeaveSettle(w: World, leg: nat): World {
    w.(row := Release(w.row, Settler(leg)), settling := w.settling - {leg})
  }

  /** The parlay's settlement is inserted under its one key, whatever its state. */
  predicate KeyIsTaken(w: World) {
    w.payments > 0
  }

  function Commit(w: World, leg: nat): World
    requires leg in w.settling && leg < |w.decided| == |w.results|
  {
    match w.settling[leg]
    case Locked(_) => w
    case Queried(_, found) =>
      if found then w else LeaveSettle(w.(decided := w.decided[leg := true]), leg)
    case Visiting(grade, view) =>
      var marked := w.(decided := w.decided[leg := true], results := w.results[leg := Some(grade)]);
      if !IsOver(view) then LeaveSettle(marked, leg)
      else if KeyIsTaken(w) then LeaveSettle(w, leg)
      else LeaveSettle(marked.(state := Graded, payments := w.payments + 1), leg)
  }

  function SettleStep(w: World, a: Action): World
    requires a.QueryLegs? || a.VisitParlay? || a.CommitSettle? || a.AbortSettle?
    requires |w.decided| == |w.results|
  {
    if a.leg !in w.settling || a.leg >= |w.results| then w
    else
      var p := w.settling[a.leg];
      match a
      case QueryLegs(i) =>
        if p.Locked? then w.(settling := w.settling[i := Queried(p.grade, w.state == Accepted && w.results[i].None?)]) else w
      case VisitParlay(i) =>
        if p.Queried? && p.found && w.row.None? then
          w.(row := Some(Settler(i)), settling := w.settling[i := Visiting(p.grade, w.results[i := Some(p.grade)])])
        else w
      case CommitSettle(i) => Commit(w, i)
      case AbortSettle(i) => LeaveSettle(w, i)
  }

  /** An action that is not enabled leaves the world as it is. Refuse is a
      rejection or the member's withdrawal. */
  function Next(w: World, a: Action): World
    requires |w.decided| == |w.results|
    ensures |Next(w, a).decided| == |Next(w, a).results| == |w.results|
  {
    match a
    case Refuse => if w.row.None? && w.state == Pending then w.(state := Rejected) else w
    case StartAccept(id) => if id in w.accepting then w else w.(accepting := w.accepting[id := Waiting])
    case StartSettle(i, grade) =>
      if i < |w.decided| && !w.decided[i] && i !in w.settling then w.(settling := w.settling[i := Locked(grade)]) else w
    case QueryLegs(_) => SettleStep(w, a)
    case VisitParlay(_) => SettleStep(w, a)
    case CommitSettle(_) => SettleStep(w, a)
    case AbortSettle(_) => SettleStep(w, a)
    case _ => AcceptStep(w, a)
  }

  function Run(legs: nat, actions: seq<Action>): (w: World)
    ensures |w.decided| == |w.results| == legs
  {
    if actions == [] then Initial(legs) else Next(Run(legs, actions[..|actions| - 1]), actions[|actions| - 1])
  }

  // ---- What every interleaving keeps ------------------------------------------------------------

  predicate AcceptorSound(w: World, id: Id)
    requires id in w.accepting
  {
    match w.accepting[id]
    case Waiting => true
    case Holding(read) => w.row == Some(Acceptor(id)) && read == w.state
    case Judged(read, _) => w.row == Some(Acceptor(id)) && read == w.state
  }

  predicate SettlerSound(w: World, i: nat)
    requires i in w.settling && |w.decided| == |w.results|
  {
    i < |w.decided| && !w.decided[i]
    && match w.settling[i]
       case Locked(_) => true
       case Queried(_, found) => found ==> w.state in {Accepted, Graded}
       case Visiting(grade, view) =>
         w.row == Some(Settler(i)) && w.state in {Accepted, Graded} && view == w.results[i := Some(grade)]
  }

  predicate TablesSound(w: World)
    requires |w.decided| == |w.results|
  {
    && (forall i :: 0 <= i < |w.results| && w.results[i].Some? ==> w.decided[i])
    && w.payments <= 1 && (w.payments == 1 <==> w.state == Graded)
    && match w.state
       case Pending => forall i :: 0 <= i < |w.results| ==> w.results[i].None?
       case Rejected => forall i :: 0 <= i < |w.results| ==> w.results[i].None?
       case Accepted => !IsOver(w.results)
       case Graded => IsOver(w.results)
       case Refunded => false
  }

  predicate Inv(w: World) {
    && 0 < |w.results| == |w.decided| && TablesSound(w)
    && (forall id :: id in w.accepting ==> AcceptorSound(w, id))
    && (forall i :: i in w.settling ==> SettlerSound(w, i))
  }

  lemma InitialIsSound(legs: nat)
    requires legs > 0
    ensures Inv(Initial(legs))
  {
  }

  lemma AcceptKeeps(w: World, a: Action)
    requires Inv(w) && (a.LockParlay? || a.ReadMarkets? || a.CommitAccept? || a.AbortAccept?)
    ensures Inv(Next(w, a))
  {
    var after := Next(w, a);
    assert forall id :: id in w.accepting ==> AcceptorSound(w, id);
    assert forall i :: i in w.settling ==> SettlerSound(w, i);
    if after.state == Accepted && w.state == Pending {
      assert w.results[0].None?;
    }
  }

  lemma SettleKeeps(w: World, a: Action)
    requires Inv(w) && (a.QueryLegs? || a.VisitParlay? || a.AbortSettle?)
    ensures Inv(Next(w, a))
  {
    assert forall id :: id in w.accepting ==> AcceptorSound(w, id);
    assert forall i :: i in w.settling ==> SettlerSound(w, i);
  }

  lemma CommitKeeps(w: World, i: nat)
    requires Inv(w)
    ensures Inv(Next(w, CommitSettle(i)))
  {
    var after := Next(w, CommitSettle(i));
    assert forall id :: id in w.accepting ==> AcceptorSound(w, id);
    assert forall j :: j in w.settling ==> SettlerSound(w, j);
    if i in w.settling && w.settling[i].Visiting? {
      assert SettlerSound(w, i);
      if w.state == Graded {
        OverStaysOver(w.results, i, w.settling[i].grade);
      }
    }
  }

  /** A parlay that ended with this leg open was ended by a loss, and stays so. */
  lemma OverStaysOver(results: seq<Option<Grade>>, i: nat, grade: Grade)
    requires i < |results| && results[i].None? && IsOver(results)
    ensures HasLoss(results) && IsOver(results[i := Some(grade)])
  {
    var j :| 0 <= j < |results| && results[j] == Some(Loss);
    assert results[i := Some(grade)][j] == Some(Loss);
  }

  lemma NextKeeps(w: World, a: Action)
    requires Inv(w)
    ensures Inv(Next(w, a))
  {
    match a
    case Refuse =>
      assert forall i :: i in w.settling ==> SettlerSound(w, i);
      assert forall id :: id in w.accepting ==> AcceptorSound(w, id);
    case StartAccept(_) =>
      assert forall i :: i in w.settling ==> SettlerSound(w, i);
      assert forall id :: id in w.accepting ==> AcceptorSound(w, id);
    case StartSettle(_, _) =>
      assert forall i :: i in w.settling ==> SettlerSound(w, i);
      assert forall id :: id in w.accepting ==> AcceptorSound(w, id);
    case CommitSettle(i) => CommitKeeps(w, i);
    case QueryLegs(_) => SettleKeeps(w, a);
    case VisitParlay(_) => SettleKeeps(w, a);
    case AbortSettle(_) => SettleKeeps(w, a);
    case _ => AcceptKeeps(w, a);
  }

  lemma {:induction false} RunKeeps(legs: nat, actions: seq<Action>)
    requires legs > 0
    ensures Inv(Run(legs, actions))
  {
    if actions == [] {
      InitialIsSound(legs);
    } else {
      RunKeeps(legs, actions[..|actions| - 1]);
      NextKeeps(Run(legs, actions[..|actions| - 1]), actions[|actions| - 1]);
    }
  }

  /** However its legs' settlements interleave, a parlay is paid at most once, and
      exactly when it has ended; and none that is over is left waiting. */
  lemma PaidOnceWhenOver(legs: nat, actions: seq<Action>)
    requires legs > 0
    ensures var w := Run(legs, actions);
      && w.payments == (if w.state == Graded then 1 else 0)
      && (w.state == Graded ==> IsOver(w.results))
      && (w.state == Accepted ==> !IsOver(w.results))
  {
    RunKeeps(legs, actions);
  }

  // ---- When a settlement is aborted -------------------------------------------------------------

  /** A settlement that has read the parlay's legs fails, with all it did for its
      market, exactly when another one has ended the parlay since it marked its
      leg: that one was a loss, and the parlay's key is taken. */
  lemma AbortsExactly(legs: nat, actions: seq<Action>, i: nat)
    requires legs > 0 && i in Run(legs, actions).settling && Run(legs, actions).settling[i].Visiting?
    ensures var w := Run(legs, actions);
      && i < |w.decided|
      && (!Next(w, CommitSettle(i)).decided[i] <==> w.state == Graded)
      && (w.state == Graded ==> HasLoss(w.results))
  {
    RunKeeps(legs, actions);
    var w := Run(legs, actions);
    assert SettlerSound(w, i);
    if w.state == Graded {
      OverStaysOver(w.results, i, w.settling[i].grade);
    }
  }

  /** Sent again, that settlement no longer finds the parlay, and commits. */
  lemma RetryCommits(legs: nat, actions: seq<Action>, i: nat, grade: Grade)
    requires legs > 0 && i < legs && Run(legs, actions).state == Graded
    requires i !in Run(legs, actions).settling && !Run(legs, actions).decided[i]
    ensures var w := Next(Next(Next(Run(legs, actions), StartSettle(i, grade)), QueryLegs(i)), CommitSettle(i));
      w.decided[i] && w.payments == Run(legs, actions).payments
  {
  }

  // ---- An open leg on a decided market -----------------------------------------------------------

  /** The parlay is held, its leg's market is finished, and nothing will ever mark
      the leg. */
  predicate IsStranded(w: World, i: nat) {
    i < |w.decided| == |w.results| && w.state == Accepted && w.decided[i] && w.results[i].None?
  }

  /** An acceptance commits though the market was decided after its look. */
  predicate AcceptsBehind(w: World, a: Action, i: nat) {
    && a.CommitAccept? && a.process in w.accepting
    && var p := w.accepting[a.process];
       p.Judged? && p.read == Pending && p.open && i < |w.decided| && w.decided[i]
  }

  /** A settlement commits though the parlay was accepted after its query. */
  predicate SettlesBehind(w: World, a: Action, i: nat) {
    a == CommitSettle(i) && i in w.settling && w.settling[i].Queried? && !w.settling[i].found && w.state == Accepted
  }

  /** A leg is stranded by exactly these two steps. */
  lemma StrandsExactly(legs: nat, actions: seq<Action>, a: Action, i: nat)
    requires legs > 0 && !IsStranded(Run(legs, actions), i)
    ensures IsStranded(Next(Run(legs, actions), a), i)
      <==> AcceptsBehind(Run(legs, actions), a, i) || SettlesBehind(Run(legs, actions), a, i)
  {
    RunKeeps(legs, actions);
    StrandedBy(Run(legs, actions), a, i);
  }

  lemma StrandedBy(w: World, a: Action, i: nat)
    requires Inv(w) && !IsStranded(w, i)
    ensures IsStranded(Next(w, a), i) <==> AcceptsBehind(w, a, i) || SettlesBehind(w, a, i)
  {
    if a.CommitAccept? && a.process in w.accepting {
      assert AcceptorSound(w, a.process);
    }
    if a.CommitSettle? && a.leg in w.settling {
      assert SettlerSound(w, a.leg);
    }
  }

  lemma RunAppend(legs: nat, actions: seq<Action>, a: Action)
    ensures Run(legs, actions + [a]) == Next(Run(legs, actions), a)
  {
    assert (actions + [a])[..|actions|] == actions;
  }

  /** The acceptance has looked at the markets, and waits. */
  lemma JudgedIsReachable(legs: nat) returns (actions: seq<Action>)
    requires legs > 0
    ensures Run(legs, actions) == Initial(legs).(row := Some(Acceptor(0)), accepting := map[0 := Judged(Pending, true)])
  {
    actions := [] + [StartAccept(0)];
    RunAppend(legs, [], StartAccept(0));
    assert Run(legs, actions) == Initial(legs).(accepting := map[0 := Waiting]);
    RunAppend(legs, actions, LockParlay(0));
    actions := actions + [LockParlay(0)];
    assert Run(legs, actions) == Initial(legs).(row := Some(Acceptor(0)), accepting := map[0 := Holding(Pending)]);
    RunAppend(legs, actions, ReadMarkets(0));
    actions := actions + [ReadMarkets(0)];
  }

  lemma MissedLeg(w: World, i: nat, grade: Grade)
    requires i < |w.results| == |w.decided| && !w.decided[i] && i !in w.settling && w.state == Pending && w.row != Some(Settler(i))
    ensures Next(Next(Next(w, StartSettle(i, grade)), QueryLegs(i)), CommitSettle(i)) == w.(decided := w.decided[i := true])
  {
    var one := Next(w, StartSettle(i, grade));
    assert one == w.(settling := w.settling[i := Locked(grade)]);
    var two := Next(one, QueryLegs(i));
    assert two == w.(settling := w.settling[i := Queried(grade, false)]);
    assert w.settling[i := Queried(grade, false)] - {i} == w.settling;
  }

  /** It happens: any leg of any parlay can be stranded, whatever its market was
      graded. */
  lemma StrandingIsReachable(legs: nat, i: nat, grade: Grade) returns (actions: seq<Action>)
    requires i < legs
    ensures IsStranded(Run(legs, actions), i)
  {
    actions := JudgedIsReachable(legs);
    var w := Run(legs, actions);
    MissedLeg(w, i, grade);
    RunAppend(legs, actions, StartSettle(i, grade));
    RunAppend(legs, actions + [StartSettle(i, grade)], QueryLegs(i));
    RunAppend(legs, actions + [StartSettle(i, grade)] + [QueryLegs(i)], CommitSettle(i));
    actions := actions + [StartSettle(i, grade)] + [QueryLegs(i)] + [CommitSettle(i)];
    RunAppend(legs, actions, CommitAccept(0));
    actions := actions + [CommitAccept(0)];
  }

  /** The leg stays open, and only a loss on another leg ends the parlay. */
  predicate IsStuck(w: World, i: nat) {
    && i < |w.decided| == |w.results| && w.decided[i] && w.results[i].None?
    && (w.state == Accepted || (w.state == Graded && HasLoss(w.results)))
  }

  lemma NextIsStuck(w: World, a: Action, i: nat)
    requires Inv(w) && IsStuck(w, i)
    ensures IsStuck(Next(w, a), i)
  {
    if a.CommitSettle? && a.leg in w.settling {
      assert SettlerSound(w, a.leg);
      if w.settling[a.leg].Visiting? && w.state == Accepted && IsOver(w.settling[a.leg].view) {
        assert w.settling[a.leg].view[i].None?;
      }
      if w.state == Graded {
        LossStays(w.results, a.leg);
      }
    }
    if a.CommitAccept? && a.process in w.accepting {
      assert AcceptorSound(w, a.process);
    }
  }

  lemma LossStays(results: seq<Option<Grade>>, i: nat)
    requires i < |results| && results[i].None? && HasLoss(results)
    ensures forall grade :: HasLoss(results[i := Some(grade)])
  {
    var j :| 0 <= j < |results| && results[j] == Some(Loss);
    assert forall grade :: results[i := Some(grade)][j] == Some(Loss);
  }

  /** A stranded parlay is never paid its winnings or its stake back: whatever
      follows, it is still held, or another leg lost. */
  lemma {:induction false} StrandedUntilALoss(legs: nat, actions: seq<Action>, more: seq<Action>, i: nat)
    requires legs > 0 && IsStranded(Run(legs, actions), i)
    ensures IsStuck(Run(legs, actions + more), i)
  {
    if more == [] {
      assert actions + more == actions;
    } else {
      var init, last := more[..|more| - 1], more[|more| - 1];
      StrandedUntilALoss(legs, actions, init, i);
      assert actions + more == actions + init + [last];
      RunAppend(legs, actions + init, last);
      RunKeeps(legs, actions + init);
      NextIsStuck(Run(legs, actions + init), last, i);
    }
  }

  // ---- Acceptances that do not overlap ------------------------------------------------------------

  /** No market is decided, and no settlement of a market of the parlay runs,
      while an acceptance has read and not committed. */
  predicate NeverOverlaps(legs: nat, actions: seq<Action>) {
    forall n :: 0 <= n < |actions| ==> !Overlaps(Run(legs, actions[..n]), actions[n])
  }

  /** A settlement starts beside an acceptance that has the parlay's row, or such
      an acceptance looks at the markets beside a settlement. */
  predicate Overlaps(w: World, a: Action) {
    || (a.StartSettle? && w.row.Some? && w.row.value.Acceptor?)
    || (a.LockParlay? && w.settling != map[])
  }

  predicate AcceptsAlone(w: World) {
    && (w.row.Some? && w.row.value.Acceptor? ==> w.settling == map[])
    && (forall i :: i in w.settling && w.settling[i].Queried? && !w.settling[i].found ==> w.state != Accepted)
    && (forall id, i :: id in w.accepting && w.accepting[id].Judged? && w.accepting[id].open && 0 <= i < |w.decided| ==> !w.decided[i])
  }

  lemma CommitIsAlone(w: World, i: nat)
    requires Inv(w) && AcceptsAlone(w)
    ensures AcceptsAlone(Next(w, CommitSettle(i)))
  {
    assert forall id :: id in w.accepting ==> AcceptorSound(w, id);
    assert i in w.settling ==> SettlerSound(w, i);
  }

  lemma SettleIsAlone(w: World, a: Action)
    requires Inv(w) && AcceptsAlone(w) && (a.QueryLegs? || a.VisitParlay? || a.AbortSettle?)
    ensures AcceptsAlone(Next(w, a))
  {
    assert forall i :: i in w.settling ==> SettlerSound(w, i);
  }

  lemma NextIsAlone(w: World, a: Action)
    requires Inv(w) && AcceptsAlone(w) && !Overlaps(w, a)
    ensures AcceptsAlone(Next(w, a))
  {
    if a.CommitSettle? {
      CommitIsAlone(w, a.leg);
    } else if a.QueryLegs? || a.VisitParlay? || a.AbortSettle? {
      SettleIsAlone(w, a);
    } else if a.LockParlay? || a.ReadMarkets? || a.CommitAccept? || a.AbortAccept? {
      AcceptIsAlone(w, a);
    }
  }

  lemma AcceptIsAlone(w: World, a: Action)
    requires Inv(w) && AcceptsAlone(w) && !Overlaps(w, a)
    requires a.LockParlay? || a.ReadMarkets? || a.CommitAccept? || a.AbortAccept?
    ensures AcceptsAlone(Next(w, a))
  {
    assert forall id :: id in w.accepting ==> AcceptorSound(w, id);
  }

  /** Only overlap strands a leg: with none, every open leg of an accepted parlay
      is on a market still to be decided. */
  lemma {:induction false} WithoutOverlapNothingIsStranded(legs: nat, actions: seq<Action>)
    requires legs > 0 && NeverOverlaps(legs, actions)
    ensures AcceptsAlone(Run(legs, actions)) && forall i :: !IsStranded(Run(legs, actions), i)
  {
    if actions != [] {
      var n := |actions| - 1;
      var init, last := actions[..n], actions[n];
      assert forall m :: 0 <= m < n ==> init[..m] == actions[..m] && init[m] == actions[m];
      WithoutOverlapNothingIsStranded(legs, init);
      RunKeeps(legs, init);
      NextIsAlone(Run(legs, init), last);
      forall i ensures !IsStranded(Run(legs, actions), i) {
        assert !IsStranded(Run(legs, init), i);
        StrandedBy(Run(legs, init), last, i);
      }
    }
  }
}
