/** The match-result aggregate (internal/competition/match.go): what each
    command does to its records, and what every sequence of commands keeps. */
module Match {
  import opened Results
  import opened Text

  type Id = string

  predicate ValidId(id: Id) {
    Trim(id) != ""
  }

  datatype Role = Member | Admin | Owner | UnknownRole

  predicate Privileged(role: Role) {
    role == Admin || role == Owner
  }

  datatype Actor = Actor(user: Id, player: Id, role: Role)

  datatype ResultKind = SideWin | Tie | UnknownOutcome

  datatype Score = Score(outcome: ResultKind, winner: Id, text: string)

  function Normalized(r: Score): Score {
    r.(text := Trim(r.text))
  }

  predicate SameScore(a: Score, b: Score) {
    Normalized(a) == Normalized(b)
  }

  // ---- Configuration -------------------------------------------------------------------

  datatype Side = Side(id: Id, participants: seq<Id>, captains: seq<Id>)

  datatype Config = Config(id: Id, event: Id, sideOne: Side, sideTwo: Side)

  predicate OnSide(side: Side, player: Id) {
    player in side.participants || player in side.captains
  }

  /** The side an actor plays on or captains; side one is asked first. */
  function ActingSide(c: Config, actor: Actor): Option<Id> {
    if OnSide(c.sideOne, actor.player) then Some(c.sideOne.id)
    else if OnSide(c.sideTwo, actor.player) then Some(c.sideTwo.id)
    else None
  }

  predicate ValidScore(c: Config, r: Score) {
    match r.outcome
    case SideWin => r.winner == c.sideOne.id || r.winner == c.sideTwo.id
    case Tie => !ValidId(r.winner)
    case UnknownOutcome => false
  }

  predicate ValidActor(actor: Actor) {
    ValidId(actor.user) && actor.role != UnknownRole
  }

  // ---- Records --------------------------------------------------------------------------

  datatype MatchState = AwaitingResult | AwaitingConfirmation | Disputed | Verified

  datatype SubmissionState = Pending | Confirmed | Contested | Superseded

  datatype Submission = Submission(id: Id, user: Id, player: Id, side: Id, result: Score, state: SubmissionState, at: int)

  datatype Decision = Agreed | Objected

  datatype Confirmation = Confirmation(id: Id, submission: Id, user: Id, side: Id, decision: Decision, reason: string, at: int)

  datatype Verification = ByOpponent | ByAdmin | ByCorrection

  datatype VerifiedResult = VerifiedResult(
    id: Id, version: int, result: Score, how: Verification, user: Id, reason: string, submission: Id, supersedes: Id, at: int)

  /** The idempotency fingerprint: the kind of command and the fields it compares. */
  datatype Fingerprint =
    | SubmitPrint(submission: Id, user: Id, outcome: ResultKind, winner: Id, text: string)
    | ConfirmPrint(confirmation: Id, verification: Id, submission: Id, user: Id)
    | DisputePrint(confirmation: Id, submission: Id, user: Id, reason: string)
    | OverridePrint(verification: Id, user: Id, outcome: ResultKind, winner: Id, text: string, reason: string)
    | CorrectPrint(verification: Id, user: Id, outcome: ResultKind, winner: Id, text: string, reason: string)

  datatype Data = Data(
    state: MatchState,
    submissions: seq<Submission>,
    confirmations: seq<Confirmation>,
    verified: seq<VerifiedResult>,
    commands: map<Id, Fingerprint>)

  const Initial := Data(AwaitingResult, [], [], [], map[])

  datatype Event =
    | ResultSubmitted(submission: Id, user: Id, result: Score, at: int)
    | ResultDisputed(submission: Id, user: Id, result: Score, reason: string, at: int)
    | ResultVerified(submission: Id, verification: Id, user: Id, result: Score, reason: string, at: int)
    | ResultCorrected(verification: Id, previous: Id, user: Id, result: Score, reason: string, at: int)

  /** `at` is None for a missing occurrence time. */
  datatype Command =
    | Submit(id: Id, submission: Id, actor: Actor, result: Score, at: Option<int>)
    | Confirm(id: Id, confirmation: Id, verification: Id, submission: Id, actor: Actor, at: Option<int>)
    | Dispute(id: Id, confirmation: Id, submission: Id, actor: Actor, reason: string, at: Option<int>)
    | Override(id: Id, verification: Id, actor: Actor, result: Score, reason: string, at: Option<int>)
    | Correct(id: Id, verification: Id, actor: Actor, result: Score, reason: string, at: Option<int>)

  function FingerprintOf(c: Command): Fingerprint {
    match c
    case Submit(_, submission, actor, r, _) => SubmitPrint(submission, actor.user, r.outcome, r.winner, Trim(r.text))
    case Confirm(_, confirmation, verification, submission, actor, _) =>
      ConfirmPrint(confirmation, verification, submission, actor.user)
    case Dispute(_, confirmation, submission, actor, reason, _) =>
      DisputePrint(confirmation, submission, actor.user, Trim(reason))
    case Override(_, verification, actor, r, reason, _) =>
      OverridePrint(verification, actor.user, r.outcome, r.winner, Trim(r.text), Trim(reason))
    case Correct(_, verification, actor, r, reason, _) =>
      CorrectPrint(verification, actor.user, r.outcome, r.winner, Trim(r.text), Trim(reason))
  }

  // ---- Look-ups ---------------------------------------------------------------------------

  predicate HasSubmission(d: Data, id: Id) {
    exists i :: 0 <= i < |d.submissions| && d.submissions[i].id == id
  }

  predicate HasConfirmation(d: Data, id: Id) {
    exists i :: 0 <= i < |d.confirmations| && d.confirmations[i].id == id
  }

  predicate HasVerification(d: Data, id: Id) {
    exists i :: 0 <= i < |d.verified| && d.verified[i].id == id
  }

  /** The first submission that satisfies `p`, or the length. */
  function FirstWhere(s: seq<Submission>, p: Submission -> bool): (i: nat)
    ensures i <= |s|
    ensures i < |s| ==> p(s[i])
    ensures forall k :: 0 <= k < i ==> !p(s[k])
  {
    if s == [] || p(s[0]) then 0 else 1 + FirstWhere(s[1..], p)
  }

  function WithId(id: Id): Submission -> bool {
    (s: Submission) => s.id == id
  }

  function IsPending(): Submission -> bool {
    (s: Submission) => s.state == Pending
  }

  predicate IsSubmitter(actor: Actor, s: Submission) {
    actor.user == s.user || (ValidId(actor.player) && actor.player == s.player)
  }

  /** None if the actor may decide on the submission. */
  function OpponentError(c: Config, actor: Actor, s: Submission): Option<Error> {
    if IsSubmitter(actor, s) then Some(OwnSubmission)
    else if ActingSide(c, actor).None? then Some(Unauthorized)
    else if !ValidId(s.side) || ActingSide(c, actor).value == s.side then Some(NotOpposingSide)
    else None
  }

  // ---- Commands ------------------------------------------------------------------------------

  datatype Outcome = Outcome(data: Data, events: seq<Event>)

  predicate Checked(actor: Actor, at: Option<int>, ids: seq<Id>) {
    ValidActor(actor) && at.Some? && forall i :: 0 <= i < |ids| ==> ValidId(ids[i])
  }

  function DoSubmit(c: Config, d: Data, cmd: Command): Result<Outcome>
    requires cmd.Submit?
  {
    if d.state != AwaitingResult && d.state != AwaitingConfirmation then Err(Transition)
    else if !Checked(cmd.actor, cmd.at, [cmd.submission]) then Err(Invalid)
    else if !ValidScore(c, Normalized(cmd.result)) then Err(Invalid)
    else
      var side := ActingSide(c, cmd.actor);
      if side.None? && !Privileged(cmd.actor.role) then Err(Unauthorized)
      else if HasSubmission(d, cmd.submission) then Err(AlreadyExists)
      else if d.state == AwaitingConfirmation then Conflict(d, cmd, side)
      else
        var result := Normalized(cmd.result);
        var s := Submission(cmd.submission, cmd.actor.user, cmd.actor.player, SideOr(side), result, Pending, cmd.at.value);
        Ok(Outcome(d.(state := AwaitingConfirmation, submissions := d.submissions + [s]),
                   [ResultSubmitted(s.id, s.user, result, s.at)]))
  }

  function SideOr(side: Option<Id>): Id {
    if side.Some? then side.value else ""
  }

  /** A second submission while one is pending disputes it. */
  function Conflict(d: Data, cmd: Command, side: Option<Id>): Result<Outcome>
    requires cmd.Submit? && cmd.at.Some?
  {
    var p := FirstWhere(d.submissions, IsPending());
    if p == |d.submissions| then Err(Transition)
    else
      var pending, result := d.submissions[p], Normalized(cmd.result);
      if IsSubmitter(cmd.actor, pending) then Err(OwnSubmission)
      else if side.None? || !ValidId(pending.side) || side.value == pending.side then Err(NotOpposingSide)
      else if SameScore(pending.result, result) then Err(AlreadyExists)
      else
        var at := cmd.at.value;
        var s := Submission(cmd.submission, cmd.actor.user, cmd.actor.player, side.value, result, Contested, at);
        Ok(Outcome(d.(state := Disputed, submissions := d.submissions[p := pending.(state := Contested)] + [s]),
                   [ResultSubmitted(s.id, s.user, result, at),
                    ResultDisputed(s.id, s.user, result, "conflicting result submissions", at)]))
  }

  function DoConfirm(c: Config, d: Data, cmd: Command): Result<Outcome>
    requires cmd.Confirm?
  {
    if d.state != AwaitingConfirmation then Err(Transition)
    else if !Checked(cmd.actor, cmd.at, [cmd.confirmation, cmd.verification, cmd.submission]) then Err(Invalid)
    else
      var k := FirstWhere(d.submissions, WithId(cmd.submission));
      if k == |d.submissions| then Err(NotFound)
      else
        var s := d.submissions[k];
        match OpponentError(c, cmd.actor, s)
        case Some(e) => Err(e)
        case None =>
          if HasConfirmation(d, cmd.confirmation) || HasVerification(d, cmd.verification) then Err(AlreadyExists)
          else
            var at := cmd.at.value;
            var confirmation :=
              Confirmation(cmd.confirmation, s.id, cmd.actor.user, ActingSide(c, cmd.actor).value, Agreed, "", at);
            var v := VerifiedResult(cmd.verification, 1, s.result, ByOpponent, cmd.actor.user, "", s.id, "", at);
            Ok(Outcome(d.(state := Verified, submissions := d.submissions[k := s.(state := Confirmed)],
                          confirmations := d.confirmations + [confirmation], verified := d.verified + [v]),
                       [ResultVerified(s.id, v.id, cmd.actor.user, s.result, "", at)]))
  }

  function DoDispute(c: Config, d: Data, cmd: Command): Result<Outcome>
    requires cmd.Dispute?
  {
    if d.state != AwaitingConfirmation then Err(Transition)
    else if !Checked(cmd.actor, cmd.at, [cmd.confirmation, cmd.submission]) then Err(Invalid)
    else if Trim(cmd.reason) == "" then Err(ReasonRequired)
    else
      var k := FirstWhere(d.submissions, WithId(cmd.submission));
      if k == |d.submissions| then Err(NotFound)
      else
        var s := d.submissions[k];
        match OpponentError(c, cmd.actor, s)
        case Some(e) => Err(e)
        case None =>
          if HasConfirmation(d, cmd.confirmation) then Err(AlreadyExists)
          else
            var at, reason := cmd.at.value, Trim(cmd.reason);
            var confirmation :=
              Confirmation(cmd.confirmation, s.id, cmd.actor.user, ActingSide(c, cmd.actor).value, Objected, reason, at);
            Ok(Outcome(d.(state := Disputed, submissions := d.submissions[k := s.(state := Contested)],
                          confirmations := d.confirmations + [confirmation]),
                       [ResultDisputed(s.id, cmd.actor.user, s.result, reason, at)]))
  }

  function Supersede(s: seq<Submission>): (r: seq<Submission>)
    ensures |r| == |s|
    ensures forall i :: 0 <= i < |s| ==> r[i] == if s[i].state == Pending then s[i].(state := Superseded) else s[i]
  {
    seq(|s|, i requires 0 <= i < |s| => if s[i].state == Pending then s[i].(state := Superseded) else s[i])
  }

  /** The checks an administrator's result shares: who, why, what, and a fresh ID. */
  function AdminError(c: Config, d: Data, actor: Actor, at: Option<int>, verification: Id, result: Score, reason: string): Option<Error> {
    if !Checked(actor, at, [verification]) then Some(Invalid)
    else if !Privileged(actor.role) then Some(Unauthorized)
    else if Trim(reason) == "" then Some(ReasonRequired)
    else if !ValidScore(c, Normalized(result)) then Some(Invalid)
    else if HasVerification(d, verification) then Some(AlreadyExists)
    else None
  }

  function DoOverride(c: Config, d: Data, cmd: Command): Result<Outcome>
    requires cmd.Override?
  {
    if d.state == Verified then Err(Transition)
    else
      match AdminError(c, d, cmd.actor, cmd.at, cmd.verification, cmd.result, cmd.reason)
      case Some(e) => Err(e)
      case None =>
        var at, result, reason := cmd.at.value, Normalized(cmd.result), Trim(cmd.reason);
        var v := VerifiedResult(cmd.verification, 1, result, ByAdmin, cmd.actor.user, reason, "", "", at);
        Ok(Outcome(d.(state := Verified, submissions := Supersede(d.submissions), verified := d.verified + [v]),
                   [ResultVerified("", v.id, cmd.actor.user, result, reason, at)]))
  }

  function DoCorrect(c: Config, d: Data, cmd: Command): Result<Outcome>
    requires cmd.Correct?
  {
    if d.state != Verified || d.verified == [] then Err(Transition)
    else
      match AdminError(c, d, cmd.actor, cmd.at, cmd.verification, cmd.result, cmd.reason)
      case Some(e) => Err(e)
      case None =>
        var previous := d.verified[|d.verified| - 1];
        var at, result, reason := cmd.at.value, Normalized(cmd.result), Trim(cmd.reason);
        if SameScore(previous.result, result) then Err(ResultUnchanged)
        else
          var v := VerifiedResult(cmd.verification, previous.version + 1, result, ByCorrection, cmd.actor.user, reason,
                                  "", previous.id, at);
          Ok(Outcome(d.(verified := d.verified + [v]),
                     [ResultCorrected(v.id, previous.id, cmd.actor.user, result, reason, at)]))
  }

  function Do(c: Config, d: Data, cmd: Command): Result<Outcome> {
    match cmd
    case Submit(_, _, _, _, _) => DoSubmit(c, d, cmd)
    case Confirm(_, _, _, _, _, _) => DoConfirm(c, d, cmd)
    case Dispute(_, _, _, _, _, _) => DoDispute(c, d, cmd)
    case Override(_, _, _, _, _, _) => DoOverride(c, d, cmd)
    case Correct(_, _, _, _, _, _) => DoCorrect(c, d, cmd)
  }

  /** One command: a replay emits nothing, a reused ID is refused, and a command
      that succeeds is remembered. */
  function Execute(c: Config, d: Data, cmd: Command): Result<Outcome> {
    if !ValidId(cmd.id) then Err(Invalid)
    else if cmd.id in d.commands then
      if d.commands[cmd.id] == FingerprintOf(cmd) then Ok(Outcome(d, [])) else Err(IdempotencyConflict)
    else
      var done :- Do(c, d, cmd);
      Ok(Outcome(done.data.(commands := d.commands[cmd.id := FingerprintOf(cmd)]), done.events))
  }

  /** The records and all events emitted after a sequence of commands. */
  function Run(c: Config, cmds: seq<Command>): Outcome {
    if cmds == [] then Outcome(Initial, [])
    else
      var before := Run(c, cmds[..|cmds| - 1]);
      match Execute(c, before.data, cmds[|cmds| - 1])
      case Ok(done) => Outcome(done.data, before.events + done.events)
      case Err(_) => before
  }

  // ---- What every sequence of commands keeps ------------------------------------------------------

  predicate StateSound(d: Data) {
    match d.state
    case AwaitingResult => d.submissions == [] && d.confirmations == [] && d.verified == []
    case AwaitingConfirmation =>
      |d.submissions| == 1 && d.submissions[0].state == Pending && ValidId(d.submissions[0].id)
      && d.confirmations == [] && d.verified == []
    case Disputed => NonePending(d) && d.submissions != [] && d.verified == []
    case Verified => NonePending(d) && d.verified != []
  }

  predicate NonePending(d: Data) {
    forall i :: 0 <= i < |d.submissions| ==> d.submissions[i].state != Pending
  }

  /** A chain of versions from 1, each superseding the one before with another result. */
  predicate Chain(c: Config, d: Data) {
    forall i :: 0 <= i < |d.verified| ==> LinkSound(c, d, i)
  }

  predicate LinkSound(c: Config, d: Data, i: nat)
    requires i < |d.verified|
  {
    var v := d.verified[i];
    && v.version == i + 1 && ValidId(v.id)
    && (forall k :: 0 <= k < i ==> d.verified[k].id != v.id)
    && (i == 0 ==> v.supersedes == "" && v.how != ByCorrection)
    && (i > 0 ==> v.how == ByCorrection && v.supersedes == d.verified[i - 1].id && !SameScore(v.result, d.verified[i - 1].result))
    && (v.how == ByOpponent ==> OpponentAgreed(c, d, v))
  }

  /** The verified submission was confirmed by another user, on the other side. */
  predicate OpponentAgreed(c: Config, d: Data, v: VerifiedResult) {
    exists i, j :: 0 <= i < |d.submissions| && 0 <= j < |d.confirmations| && Agreement(c, d.submissions[i], d.confirmations[j], v)
  }

  predicate Agreement(c: Config, s: Submission, confirmation: Confirmation, v: VerifiedResult) {
    && s.id == v.submission == confirmation.submission && s.state == Confirmed && s.result == v.result
    && confirmation.decision == Agreed && confirmation.user == v.user
    && confirmation.user != s.user && confirmation.side != s.side
    && ValidId(s.side) && confirmation.side in {c.sideOne.id, c.sideTwo.id}
  }

  /** The events of verification, in order, are the chain of verified results. */
  function VerificationEvents(events: seq<Event>): seq<Event> {
    if events == [] then []
    else
      var last := events[|events| - 1];
      VerificationEvents(events[..|events| - 1]) + if last.ResultVerified? || last.ResultCorrected? then [last] else []
  }

  predicate Announces(e: Event, v: VerifiedResult) {
    if v.version == 1 then e == ResultVerified(v.submission, v.id, v.user, v.result, v.reason, v.at)
    else e == ResultCorrected(v.id, v.supersedes, v.user, v.result, v.reason, v.at)
  }

  predicate Announced(events: seq<Event>, verified: seq<VerifiedResult>) {
    |events| == |verified| && forall i :: 0 <= i < |verified| ==> Announces(events[i], verified[i])
  }

  predicate Sound(c: Config, o: Outcome) {
    StateSound(o.data) && Chain(c, o.data) && Announced(VerificationEvents(o.events), o.data.verified)
  }

  lemma {:induction false} EventsAppend(events: seq<Event>, more: seq<Event>)
    ensures VerificationEvents(events + more) == VerificationEvents(events) + VerificationEvents(more)
  {
    if more == [] {
      assert events + more == events;
    } else {
      var init := more[..|more| - 1];
      EventsAppend(events, init);
      assert (events + more)[..|events + more| - 1] == events + init;
    }
  }

  lemma OneEvent(e: Event)
    ensures VerificationEvents([e]) == if e.ResultVerified? || e.ResultCorrected? then [e] else []
  {
    assert [e][..0] == [];
  }

  lemma TwoEvents(a: Event, b: Event)
    requires a.ResultSubmitted? && b.ResultDisputed?
    ensures VerificationEvents([a, b]) == []
  {
    OneEvent(a);
    assert [a, b][..1] == [a];
  }

  lemma SubmitAnnouncesNothing(c: Config, d: Data, cmd: Command)
    requires cmd.Submit? && DoSubmit(c, d, cmd).Ok?
    ensures var done := DoSubmit(c, d, cmd).value; done.data.verified == d.verified && VerificationEvents(done.events) == []
  {
    var done := DoSubmit(c, d, cmd).value;
    if d.state == AwaitingConfirmation {
      TwoEvents(done.events[0], done.events[1]);
    } else {
      OneEvent(done.events[0]);
    }
  }

  lemma SubmitIsSound(c: Config, d: Data, cmd: Command)
    requires StateSound(d) && Chain(c, d) && cmd.Submit? && DoSubmit(c, d, cmd).Ok?
    ensures var done := DoSubmit(c, d, cmd).value;
      StateSound(done.data) && Chain(c, done.data) && done.data.verified == d.verified && VerificationEvents(done.events) == []
  {
    SubmitAnnouncesNothing(c, d, cmd);
    assert [cmd.submission][0] == cmd.submission;
  }

  lemma DisputeIsSound(c: Config, d: Data, cmd: Command)
    requires StateSound(d) && Chain(c, d) && cmd.Dispute? && DoDispute(c, d, cmd).Ok?
    ensures var done := DoDispute(c, d, cmd).value;
      StateSound(done.data) && Chain(c, done.data) && done.data.verified == d.verified && VerificationEvents(done.events) == []
  {
    OneEvent(DoDispute(c, d, cmd).value.events[0]);
  }

  lemma ActingSideIsASide(c: Config, actor: Actor)
    ensures ActingSide(c, actor).Some? ==> ActingSide(c, actor).value in {c.sideOne.id, c.sideTwo.id}
  {
  }

  lemma ConfirmIsSound(c: Config, d: Data, cmd: Command)
    requires StateSound(d) && Chain(c, d) && cmd.Confirm? && DoConfirm(c, d, cmd).Ok?
    ensures var done := DoConfirm(c, d, cmd).value;
      && StateSound(done.data) && Chain(c, done.data)
      && |done.data.verified| == 1 && d.verified == []
      && |done.events| == 1 && Announces(done.events[0], done.data.verified[0])
  {
    var after := DoConfirm(c, d, cmd).value.data;
    ActingSideIsASide(c, cmd.actor);
    assert Agreement(c, after.submissions[0], after.confirmations[0], after.verified[0]);
    assert [cmd.confirmation, cmd.verification, cmd.submission][1] == cmd.verification;
    assert LinkSound(c, after, 0);
  }

  lemma OverrideIsSound(c: Config, d: Data, cmd: Command)
    requires StateSound(d) && Chain(c, d) && cmd.Override? && DoOverride(c, d, cmd).Ok?
    ensures var done := DoOverride(c, d, cmd).value;
      && StateSound(done.data) && Chain(c, done.data)
      && |done.data.verified| == 1 && d.verified == []
      && |done.events| == 1 && Announces(done.events[0], done.data.verified[0])
  {
    assert [cmd.verification][0] == cmd.verification;
    assert LinkSound(c, DoOverride(c, d, cmd).value.data, 0);
  }

  lemma CorrectIsSound(c: Config, d: Data, cmd: Command)
    requires StateSound(d) && Chain(c, d) && cmd.Correct? && DoCorrect(c, d, cmd).Ok?
    ensures var done := DoCorrect(c, d, cmd).value;
      && StateSound(done.data) && Chain(c, done.data)
      && |done.data.verified| == |d.verified| + 1 && done.data.verified[..|d.verified|] == d.verified
      && |done.events| == 1 && Announces(done.events[0], done.data.verified[|d.verified|])
  {
    var after := DoCorrect(c, d, cmd).value.data;
    assert [cmd.verification][0] == cmd.verification;
    assert LinkSound(c, d, |d.verified| - 1);
    forall i | 0 <= i < |after.verified| ensures LinkSound(c, after, i) {
      if i < |d.verified| {
        assert LinkSound(c, d, i);
        LinkKept(c, d, after, i);
      }
    }
  }

  lemma LinkKept(c: Config, d: Data, after: Data, i: nat)
    requires i < |d.verified| && LinkSound(c, d, i) && |after.verified| >= |d.verified|
    requires after.verified[..|d.verified|] == d.verified
    requires after.submissions == d.submissions && after.confirmations == d.confirmations
    ensures LinkSound(c, after, i)
  {
    assert forall k :: 0 <= k < |d.verified| ==> after.verified[k] == d.verified[k];
  }

  lemma NothingAnnounced(events: seq<Event>, more: seq<Event>, verified: seq<VerifiedResult>)
    requires Announced(VerificationEvents(events), verified) && VerificationEvents(more) == []
    ensures Announced(VerificationEvents(events + more), verified)
  {
    EventsAppend(events, more);
  }

  lemma OneAnnounced(events: seq<Event>, e: Event, verified: seq<VerifiedResult>, v: VerifiedResult)
    requires Announced(VerificationEvents(events), verified) && Announces(e, v)
    ensures Announced(VerificationEvents(events + [e]), verified + [v])
  {
    EventsAppend(events, [e]);
    OneEvent(e);
  }

  lemma DoIsSound(c: Config, o: Outcome, cmd: Command)
    requires Sound(c, o) && Do(c, o.data, cmd).Ok?
    ensures var done := Do(c, o.data, cmd).value; Sound(c, Outcome(done.data, o.events + done.events))
  {
    var d, done := o.data, Do(c, o.data, cmd).value;
    match cmd
    case Submit(_, _, _, _, _) =>
      SubmitIsSound(c, d, cmd);
      NothingAnnounced(o.events, done.events, d.verified);
    case Dispute(_, _, _, _, _, _) =>
      DisputeIsSound(c, d, cmd);
      NothingAnnounced(o.events, done.events, d.verified);
    case Confirm(_, _, _, _, _, _) =>
      ConfirmIsSound(c, d, cmd);
      NewlyAnnounced(o.events, done, d.verified);
    case Override(_, _, _, _, _, _) =>
      OverrideIsSound(c, d, cmd);
      NewlyAnnounced(o.events, done, d.verified);
    case Correct(_, _, _, _, _, _) =>
      CorrectIsSound(c, d, cmd);
      NewlyAnnounced(o.events, done, d.verified);
  }

  lemma NewlyAnnounced(events: seq<Event>, done: Outcome, verified: seq<VerifiedResult>)
    requires Announced(VerificationEvents(events), verified)
    requires |done.data.verified| == |verified| + 1 && done.data.verified[..|verified|] == verified
    requires |done.events| == 1 && Announces(done.events[0], done.data.verified[|verified|])
    ensures Announced(VerificationEvents(events + done.events), done.data.verified)
  {
    OneAnnounced(events, done.events[0], verified, done.data.verified[|verified|]);
    assert done.events == [done.events[0]];
    assert done.data.verified == verified + [done.data.verified[|verified|]];
  }

  lemma RememberedIsSound(c: Config, o: Outcome, commands: map<Id, Fingerprint>)
    requires Sound(c, o)
    ensures Sound(c, o.(data := o.data.(commands := commands)))
  {
    var after := o.data.(commands := commands);
    forall i | 0 <= i < |after.verified| ensures LinkSound(c, after, i) {
      assert LinkSound(c, o.data, i);
      LinkKept(c, o.data, after, i);
    }
  }

  lemma {:induction false} RunIsSound(c: Config, cmds: seq<Command>)
    ensures Sound(c, Run(c, cmds))
  {
    if cmds != [] {
      var init, cmd := cmds[..|cmds| - 1], cmds[|cmds| - 1];
      RunIsSound(c, init);
      var before := Run(c, init);
      if ValidId(cmd.id) && cmd.id !in before.data.commands && Do(c, before.data, cmd).Ok? {
        DoIsSound(c, before, cmd);
        var done := Do(c, before.data, cmd).value;
        RememberedIsSound(c, Outcome(done.data, before.events + done.events),
                          before.data.commands[cmd.id := FingerprintOf(cmd)]);
      } else if ValidId(cmd.id) && cmd.id in before.data.commands {
        assert before.events + [] == before.events;
      }
    }
  }

  // ---- The guarantees -----------------------------------------------------------------------------

  /** Awaiting confirmation holds exactly when the only submission is pending;
      verified holds exactly when there is a verified result. */
  lemma StateIsExact(c: Config, cmds: seq<Command>)
    ensures var d := Run(c, cmds).data;
      && (d.state == AwaitingConfirmation <==> |d.submissions| == 1 && d.submissions[0].state == Pending)
      && (d.state == Verified <==> d.verified != [])
      && (d.state == AwaitingResult <==> d.submissions == [] && d.verified == [])
  {
    RunIsSound(c, cmds);
  }

  /** Versions run 1..n, each superseding the one before with a different
      result; only the first is not a correction. */
  lemma VersionsFormAChain(c: Config, cmds: seq<Command>, i: nat)
    requires i < |Run(c, cmds).data.verified|
    ensures LinkSound(c, Run(c, cmds).data, i)
  {
    RunIsSound(c, cmds);
  }

  /** An opponent-verified result was confirmed by a different user, acting for
      the other side, of the very result that was submitted. */
  lemma OpponentVerifiedByTheOtherSide(c: Config, cmds: seq<Command>, i: nat)
    requires i < |Run(c, cmds).data.verified| && Run(c, cmds).data.verified[i].how == ByOpponent
    ensures OpponentAgreed(c, Run(c, cmds).data, Run(c, cmds).data.verified[i])
  {
    RunIsSound(c, cmds);
    assert LinkSound(c, Run(c, cmds).data, i);
  }

  /** A run's verification events are one Verified and then Corrected events,
      and they carry exactly the chain of verified results. */
  lemma EventsMatchResults(c: Config, cmds: seq<Command>)
    ensures Announced(VerificationEvents(Run(c, cmds).events), Run(c, cmds).data.verified)
    ensures forall i :: 0 <= i < |Run(c, cmds).data.verified| ==>
      (VerificationEvents(Run(c, cmds).events)[i].ResultVerified? <==> i == 0)
  {
    RunIsSound(c, cmds);
    var o := Run(c, cmds);
    forall i | 0 <= i < |o.data.verified| ensures VerificationEvents(o.events)[i].ResultVerified? <==> i == 0 {
      assert LinkSound(c, o.data, i);
      assert Announces(VerificationEvents(o.events)[i], o.data.verified[i]);
    }
  }

  // ---- History --------------------------------------------------------------------------------------

  predicate SubmissionKept(s: Submission, next: Submission) {
    next == s.(state := next.state) && (s.state != Pending ==> next == s)
  }

  /** Records are only added to, and a submission changes only by leaving Pending. */
  predicate Extends(d: Data, after: Data) {
    && d.verified <= after.verified && d.confirmations <= after.confirmations
    && |d.submissions| <= |after.submissions|
    && (forall i :: 0 <= i < |d.submissions| ==> SubmissionKept(d.submissions[i], after.submissions[i]))
    && forall id :: id in d.commands ==> id in after.commands && after.commands[id] == d.commands[id]
  }

  lemma ExecuteExtends(c: Config, d: Data, cmd: Command)
    requires StateSound(d) && Execute(c, d, cmd).Ok?
    ensures Extends(d, Execute(c, d, cmd).value.data)
  {
    if cmd.id !in d.commands {
      match cmd
      case Confirm(_, _, _, _, _, _) => ConfirmExtends(c, d, cmd);
      case Dispute(_, _, _, _, _, _) => DisputeExtends(c, d, cmd);
      case Submit(_, _, _, _, _) => SubmitExtends(c, d, cmd);
      case _ =>
    }
  }

  predicate RecordsExtend(d: Data, after: Data) {
    Extends(d.(commands := map[]), after.(commands := map[]))
  }

  lemma ConfirmExtends(c: Config, d: Data, cmd: Command)
    requires StateSound(d) && cmd.Confirm? && DoConfirm(c, d, cmd).Ok?
    ensures RecordsExtend(d, DoConfirm(c, d, cmd).value.data)
  {
  }

  lemma DisputeExtends(c: Config, d: Data, cmd: Command)
    requires StateSound(d) && cmd.Dispute? && DoDispute(c, d, cmd).Ok?
    ensures RecordsExtend(d, DoDispute(c, d, cmd).value.data)
  {
  }

  lemma SubmitExtends(c: Config, d: Data, cmd: Command)
    requires StateSound(d) && cmd.Submit? && DoSubmit(c, d, cmd).Ok?
    ensures RecordsExtend(d, DoSubmit(c, d, cmd).value.data)
  {
  }

  /** From any point on, verified results, confirmations and executed commands
      are append-only, submissions keep their terms, and events are never unsaid. */
  lemma {:induction false} HistoryIsAppendOnly(c: Config, cmds: seq<Command>, n: nat)
    requires n <= |cmds|
    ensures Extends(Run(c, cmds[..n]).data, Run(c, cmds).data)
    ensures Run(c, cmds[..n]).events <= Run(c, cmds).events
    decreases |cmds|
  {
    if n == |cmds| {
      assert cmds[..n] == cmds;
    } else {
      var init, cmd := cmds[..|cmds| - 1], cmds[|cmds| - 1];
      assert init[..n] == cmds[..n];
      HistoryIsAppendOnly(c, init, n);
      RunIsSound(c, init);
      if Execute(c, Run(c, init).data, cmd).Ok? {
        ExecuteExtends(c, Run(c, init).data, cmd);
        ExtendsTwice(Run(c, cmds[..n]).data, Run(c, init).data, Run(c, cmds).data);
      }
    }
  }

  lemma ExtendsTwice(a: Data, b: Data, c: Data)
    requires Extends(a, b) && Extends(b, c)
    ensures Extends(a, c)
  {
    forall i | 0 <= i < |a.submissions| ensures SubmissionKept(a.submissions[i], c.submissions[i]) {
      assert SubmissionKept(a.submissions[i], b.submissions[i]) && SubmissionKept(b.submissions[i], c.submissions[i]);
    }
  }

  /** A command that was executed at any earlier point: sending it again changes
      and emits nothing, and its ID with another fingerprint is refused. */
  lemma ExecutedCommandsReplay(c: Config, cmds: seq<Command>, n: nat, again: Command)
    requires n < |cmds| && again.id == cmds[n].id
    requires cmds[n].id !in Run(c, cmds[..n]).data.commands && Execute(c, Run(c, cmds[..n]).data, cmds[n]).Ok?
    ensures Execute(c, Run(c, cmds).data, again)
         == if FingerprintOf(again) == FingerprintOf(cmds[n]) then Ok(Outcome(Run(c, cmds).data, []))
            else Err(IdempotencyConflict)
  {
    var first := cmds[..n + 1];
    assert first[..n] == cmds[..n];
    HistoryIsAppendOnly(c, cmds, n + 1);
    assert Run(c, first).data.commands[cmds[n].id] == FingerprintOf(cmds[n]);
  }

  // ---- When a pending result can be confirmed ------------------------------------------------------

  predicate ChecksOut(cmd: Command)
    requires cmd.Confirm?
  {
    Checked(cmd.actor, cmd.at, [cmd.confirmation, cmd.verification, cmd.submission])
  }

  /** While a submission is pending, a well-formed confirmation of it commits
      exactly when its actor may decide on it. */
  lemma ConfirmCommitsExactly(c: Config, d: Data, cmd: Command)
    requires StateSound(d) && d.state == AwaitingConfirmation && cmd.Confirm?
    ensures DoConfirm(c, d, cmd).Ok? <==>
      ChecksOut(cmd) && cmd.submission == d.submissions[0].id && OpponentError(c, cmd.actor, d.submissions[0]).None?
  {
    OnlySubmission(d.submissions, WithId(cmd.submission));
  }

  lemma OnlySubmission(s: seq<Submission>, p: Submission -> bool)
    requires |s| == 1
    ensures FirstWhere(s, p) == if p(s[0]) then 0 else 1
  {
    assert s[1..] == [];
  }

  /** A player who acts for the other side than the submission's, and did not submit it. */
  predicate IsOpponent(c: Config, s: Submission, player: Id) {
    var side := ActingSide(c, Actor("", player, Role.Member));
    side.Some? && side.value != s.side && !(ValidId(player) && player == s.player)
  }

  ghost predicate HasOpponent(c: Config, s: Submission) {
    ValidId(s.side) && exists player :: IsOpponent(c, s, player)
  }

  lemma OpponentMayDecide(c: Config, actor: Actor, s: Submission)
    ensures OpponentError(c, actor, s).None? <==> ValidId(s.side) && actor.user != s.user && IsOpponent(c, s, actor.player)
  {
    SideOfPlayer(c, actor);
  }

  lemma SideOfPlayer(c: Config, actor: Actor)
    ensures ActingSide(c, actor) == ActingSide(c, Actor("", actor.player, Role.Member))
  {
  }

  ghost predicate CanBeConfirmed(c: Config, d: Data) {
    exists cmd: Command :: cmd.Confirm? && DoConfirm(c, d, cmd).Ok?
  }

  /** Somebody can confirm a pending result exactly when it was submitted for a
      side and the other side has a player who did not submit it. */
  lemma ConfirmableExactly(c: Config, d: Data)
    requires StateSound(d) && d.state == AwaitingConfirmation
    ensures CanBeConfirmed(c, d) <==> HasOpponent(c, d.submissions[0])
  {
    var s := d.submissions[0];
    forall cmd: Command | cmd.Confirm? && DoConfirm(c, d, cmd).Ok? ensures HasOpponent(c, s) {
      ConfirmCommitsExactly(c, d, cmd);
      OpponentMayDecide(c, cmd.actor, s);
    }
    if HasOpponent(c, s) {
      var player :| IsOpponent(c, s, player);
      var actor := Actor(if s.user == "a" then "b" else "a", player, Role.Member);
      var cmd := Confirm("c", "c", "v", s.id, actor, Some(0));
      assert ValidId("a") && ValidId("b") && ValidId("c") && ValidId("v");
      OpponentMayDecide(c, actor, s);
      ConfirmCommitsExactly(c, d, cmd);
    }
  }

  // ---- A result that nobody can confirm ---------------------------------------------------------------

  /** A pending submission for neither side can be neither confirmed, disputed nor
      contested: only an override moves the match on. */
  lemma UnattributedSubmissionNeedsOverride(c: Config, d: Data, cmd: Command)
    requires StateSound(d) && d.state == AwaitingConfirmation && !ValidId(d.submissions[0].side)
    ensures Do(c, d, cmd).Ok? ==> cmd.Override?
    ensures !CanBeConfirmed(c, d)
  {
    OnlySubmission(d.submissions, IsPending());
    ConfirmableExactly(c, d);
  }

  /** An administrator who plays for and captains neither side, and submits. */
  predicate IsOutsider(c: Config, actor: Actor) {
    ValidActor(actor) && Privileged(actor.role) && ActingSide(c, actor).None?
  }

  /** It happens as soon as such an administrator submits the first result. */
  lemma OutsiderLeavesItUnattributed(c: Config, cmd: Command)
    requires cmd.Submit? && ValidId(cmd.id) && IsOutsider(c, cmd.actor) && ValidId(cmd.submission) && cmd.at.Some?
    requires ValidScore(c, Normalized(cmd.result))
    ensures var d := Run(c, [cmd]).data;
      StateSound(d) && d.state == AwaitingConfirmation && !ValidId(d.submissions[0].side)
    ensures !HasOpponent(c, Run(c, [cmd]).data.submissions[0])
  {
    RunIsSound(c, [cmd]);
    assert [cmd][..0] == [];
    assert Run(c, []).data == Initial;
    assert !HasSubmission(Initial, cmd.submission);
    assert !ValidId("");
  }

  /** A first submission is attributed exactly when its actor has a side. */
  lemma FirstSubmissionAttributed(c: Config, cmd: Command)
    requires cmd.Submit? && DoSubmit(c, Initial, cmd).Ok? && ValidId(c.sideOne.id) && ValidId(c.sideTwo.id)
    ensures ValidId(DoSubmit(c, Initial, cmd).value.data.submissions[0].side) <==> ActingSide(c, cmd.actor).Some?
  {
    assert !ValidId("");
  }
}
