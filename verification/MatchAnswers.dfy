/** What each match command answers, in its own terms (internal/competition/
    match.go): when it commits, and that what it records and announces is what the
    command said. */
module MatchAnswers {
  import opened Results
  import opened Text
  import opened Match

  // ---- The terms of a command ------------------------------------------------------------

  predicate IsKnown(actor: Actor) {
    Trim(actor.user) != "" && (actor.role == Role.Member || actor.role == Admin || actor.role == Owner)
  }

  predicate IsAdministrator(actor: Actor) {
    actor.role == Admin || actor.role == Owner
  }

  /** The actor plays on or captains the side; side one is asked first. */
  predicate ActsFor(c: Config, actor: Actor, side: Id) {
    var one := actor.player in c.sideOne.participants || actor.player in c.sideOne.captains;
    var two := actor.player in c.sideTwo.participants || actor.player in c.sideTwo.captains;
    if one then side == c.sideOne.id else two && side == c.sideTwo.id
  }

  /** A win of one of the sides, or a tie that names no winner. */
  predicate IsScore(c: Config, score: Score) {
    || (score.outcome == SideWin && (score.winner == c.sideOne.id || score.winner == c.sideTwo.id))
    || (score.outcome == Tie && Trim(score.winner) == "")
  }

  predicate Says(recorded: Score, said: Score) {
    recorded.outcome == said.outcome && recorded.winner == said.winner && recorded.text == Trim(said.text)
  }

  lemma ActingSideIs(c: Config, actor: Actor)
    ensures forall side :: ActsFor(c, actor, side) <==> ActingSide(c, actor) == Some(side)
  {
  }

  predicate IsNewVerification(d: Data, id: Id) {
    forall i :: 0 <= i < |d.verified| ==> d.verified[i].id != id
  }

  // ---- Submissions --------------------------------------------------------------------------

  /** A first submission commits exactly when it is complete, says a score, and comes
      from a side or an administrator. */
  lemma FirstSubmissionExactly(c: Config, d: Data, cmd: Command)
    requires StateSound(d) && d.state == AwaitingResult && cmd.Submit?
    ensures DoSubmit(c, d, cmd).Ok? <==>
      && IsKnown(cmd.actor) && cmd.at.Some? && Trim(cmd.submission) != "" && IsScore(c, cmd.result)
      && ((exists side :: ActsFor(c, cmd.actor, side)) || IsAdministrator(cmd.actor))
  {
    ActingSideIs(c, cmd.actor);
    assert ActingSide(c, cmd.actor).Some? ==> ActsFor(c, cmd.actor, ActingSide(c, cmd.actor).value);
    assert [cmd.submission][0] == cmd.submission;
  }

  /** `s` is what `cmd` submitted. */
  predicate IsSubmitted(c: Config, cmd: Command, s: Submission)
    requires cmd.Submit? && cmd.at.Some?
  {
    && s.id == cmd.submission && s.user == cmd.actor.user && s.player == cmd.actor.player && s.at == cmd.at.value
    && Says(s.result, cmd.result)
    && (ActsFor(c, cmd.actor, s.side)
        || (s.side == "" && !ActsFor(c, cmd.actor, c.sideOne.id) && !ActsFor(c, cmd.actor, c.sideTwo.id)))
  }

  /** It is then the only submission, pending, as the command said. */
  lemma FirstSubmissionRecorded(c: Config, d: Data, cmd: Command)
    requires StateSound(d) && d.state == AwaitingResult && cmd.Submit? && DoSubmit(c, d, cmd).Ok?
    ensures var done := DoSubmit(c, d, cmd).value;
      && cmd.at.Some? && |done.data.submissions| == 1
      && var s := done.data.submissions[0];
         && IsSubmitted(c, cmd, s) && s.state == Pending
         && done.data == d.(state := AwaitingConfirmation, submissions := [s])
         && done.events == [ResultSubmitted(s.id, s.user, s.result, s.at)]
  {
    ActingSideIs(c, cmd.actor);
  }

  /** While one is pending a second commits exactly when it comes from the other
      side, from another member, and says another score. */
  lemma SecondSubmissionExactly(c: Config, d: Data, cmd: Command)
    requires StateSound(d) && d.state == AwaitingConfirmation && cmd.Submit?
    ensures DoSubmit(c, d, cmd).Ok? <==>
      var first := d.submissions[0];
      && IsKnown(cmd.actor) && cmd.at.Some? && Trim(cmd.submission) != "" && IsScore(c, cmd.result)
      && cmd.submission != first.id && cmd.actor.user != first.user
      && (Trim(cmd.actor.player) != "" ==> cmd.actor.player != first.player)
      && Trim(first.side) != "" && (exists side :: ActsFor(c, cmd.actor, side) && side != first.side)
      && !(first.result.outcome == cmd.result.outcome && first.result.winner == cmd.result.winner
           && Trim(first.result.text) == Trim(Trim(cmd.result.text)))
  {
    ActingSideIs(c, cmd.actor);
    OnlySubmission(d.submissions, IsPending());
    assert ActingSide(c, cmd.actor).Some? ==> ActsFor(c, cmd.actor, ActingSide(c, cmd.actor).value);
    assert [cmd.submission][0] == cmd.submission;
    assert HasSubmission(d, cmd.submission) <==> cmd.submission == d.submissions[0].id;
  }

  /** Both submissions are then contested, the second as the command said. */
  lemma SecondSubmissionRecorded(c: Config, d: Data, cmd: Command)
    requires StateSound(d) && d.state == AwaitingConfirmation && cmd.Submit? && DoSubmit(c, d, cmd).Ok?
    ensures var done := DoSubmit(c, d, cmd).value;
      && cmd.at.Some? && |done.data.submissions| == 2
      && var s := done.data.submissions[1];
         && IsSubmitted(c, cmd, s) && s.state == Contested
         && done.data == d.(state := Disputed, submissions := [d.submissions[0].(state := Contested), s])
         && done.events == [ResultSubmitted(s.id, s.user, s.result, s.at),
                            ResultDisputed(s.id, s.user, s.result, "conflicting result submissions", s.at)]
  {
    ActingSideIs(c, cmd.actor);
    OnlySubmission(d.submissions, IsPending());
  }

  // ---- The opponent's decision ------------------------------------------------------------------

  /** Somebody else than the submitter, acting for the other side. */
  predicate MayDecide(c: Config, actor: Actor, s: Submission) {
    && actor.user != s.user && (Trim(actor.player) != "" ==> actor.player != s.player)
    && Trim(s.side) != "" && exists side :: side in {c.sideOne.id, c.sideTwo.id} && ActsFor(c, actor, side) && side != s.side
  }

  lemma MayDecideIs(c: Config, actor: Actor, s: Submission)
    ensures MayDecide(c, actor, s) <==> OpponentError(c, actor, s).None?
  {
    ActingSideIs(c, actor);
    if OpponentError(c, actor, s).None? {
      var side := ActingSide(c, actor).value;
      assert ActsFor(c, actor, side) && side in {c.sideOne.id, c.sideTwo.id};
    }
  }

  /** A confirmation verifies the pending submission's own score, as version one. */
  lemma ConfirmationRecorded(c: Config, d: Data, cmd: Command)
    requires StateSound(d) && d.state == AwaitingConfirmation && cmd.Confirm? && DoConfirm(c, d, cmd).Ok?
    ensures var s, done := d.submissions[0], DoConfirm(c, d, cmd).value;
      && IsKnown(cmd.actor) && cmd.at.Some? && cmd.submission == s.id && MayDecide(c, cmd.actor, s)
      && |done.data.verified| == 1 && |done.data.confirmations| == 1
      && var v, k := done.data.verified[0], done.data.confirmations[0];
         && v == VerifiedResult(cmd.verification, 1, s.result, ByOpponent, cmd.actor.user, "", s.id, "", cmd.at.value)
         && k.id == cmd.confirmation && k.submission == s.id && k.user == cmd.actor.user && ActsFor(c, cmd.actor, k.side)
         && k.decision == Agreed && k.reason == "" && k.at == cmd.at.value
         && done.data == d.(state := Verified, submissions := [s.(state := Confirmed)], confirmations := [k], verified := [v])
         && done.events == [ResultVerified(s.id, v.id, v.user, s.result, "", v.at)]
  {
    ActingSideIs(c, cmd.actor);
    MayDecideIs(c, cmd.actor, d.submissions[0]);
    OnlySubmission(d.submissions, WithId(cmd.submission));
  }

  /** A dispute commits exactly when it is complete, gives a reason, and its actor
      may decide on the pending submission. */
  lemma DisputeExactly(c: Config, d: Data, cmd: Command)
    requires StateSound(d) && d.state == AwaitingConfirmation && cmd.Dispute?
    ensures DoDispute(c, d, cmd).Ok? <==>
      && IsKnown(cmd.actor) && cmd.at.Some? && Trim(cmd.confirmation) != "" && Trim(cmd.submission) != ""
      && Trim(cmd.reason) != "" && cmd.submission == d.submissions[0].id && MayDecide(c, cmd.actor, d.submissions[0])
  {
    MayDecideIs(c, cmd.actor, d.submissions[0]);
    OnlySubmission(d.submissions, WithId(cmd.submission));
    assert [cmd.confirmation, cmd.submission][0] == cmd.confirmation && [cmd.confirmation, cmd.submission][1] == cmd.submission;
  }

  /** It contests the submission and records the objection. */
  lemma DisputeRecorded(c: Config, d: Data, cmd: Command)
    requires StateSound(d) && d.state == AwaitingConfirmation && cmd.Dispute? && DoDispute(c, d, cmd).Ok?
    ensures var s, done := d.submissions[0], DoDispute(c, d, cmd).value;
      && cmd.at.Some? && |done.data.confirmations| == 1
      && var k := done.data.confirmations[0];
         && k.id == cmd.confirmation && k.submission == s.id && k.user == cmd.actor.user && ActsFor(c, cmd.actor, k.side)
         && k.decision == Objected && k.reason == Trim(cmd.reason) && k.at == cmd.at.value
         && done.data == d.(state := Disputed, submissions := [s.(state := Contested)], confirmations := [k])
         && done.events == [ResultDisputed(s.id, cmd.actor.user, s.result, Trim(cmd.reason), cmd.at.value)]
  {
    ActingSideIs(c, cmd.actor);
    OnlySubmission(d.submissions, WithId(cmd.submission));
  }

  // ---- The administrator's result ---------------------------------------------------------------

  /** A complete command of an administrator, with a reason, a score and a new ID. */
  predicate IsRuling(c: Config, d: Data, actor: Actor, at: Option<int>, verification: Id, score: Score, reason: string) {
    && IsKnown(actor) && IsAdministrator(actor) && at.Some? && Trim(verification) != "" && Trim(reason) != ""
    && IsScore(c, score) && IsNewVerification(d, verification)
  }

  lemma RulingIs(c: Config, d: Data, actor: Actor, at: Option<int>, verification: Id, score: Score, reason: string)
    ensures IsRuling(c, d, actor, at, verification, score, reason) <==> AdminError(c, d, actor, at, verification, score, reason).None?
  {
    assert [verification][0] == verification;
  }

  /** An override commits exactly on a match not yet verified. */
  lemma OverrideExactly(c: Config, d: Data, cmd: Command)
    requires cmd.Override?
    ensures DoOverride(c, d, cmd).Ok? <==>
      d.state != Verified && IsRuling(c, d, cmd.actor, cmd.at, cmd.verification, cmd.result, cmd.reason)
  {
    RulingIs(c, d, cmd.actor, cmd.at, cmd.verification, cmd.result, cmd.reason);
  }

  /** `v` is the ruling the command made. */
  predicate IsRuled(v: VerifiedResult, id: Id, actor: Actor, at: Option<int>, score: Score, reason: string) {
    && v.id == id && v.user == actor.user && at == Some(v.at) && Says(v.result, score) && v.reason == Trim(reason)
    && v.submission == ""
  }

  /** The command's own score, user, reason and time are recorded and announced as
      version one, and every pending submission is superseded. */
  lemma OverrideRecorded(c: Config, d: Data, cmd: Command)
    requires StateSound(d) && cmd.Override? && DoOverride(c, d, cmd).Ok?
    ensures var done := DoOverride(c, d, cmd).value;
      && |done.data.verified| == 1
      && var v := done.data.verified[0];
         && IsRuled(v, cmd.verification, cmd.actor, cmd.at, cmd.result, cmd.reason)
         && v.version == 1 && v.how == ByAdmin && v.supersedes == ""
         && done.data == d.(state := Verified, submissions := done.data.submissions, verified := [v])
         && done.events == [ResultVerified("", v.id, v.user, v.result, v.reason, v.at)]
    ensures var after := DoOverride(c, d, cmd).value.data.submissions;
      && |after| == |d.submissions|
      && forall i :: 0 <= i < |after| ==>
           after[i] == if d.submissions[i].state == Pending then d.submissions[i].(state := Superseded) else d.submissions[i]
  {
  }

  /** A correction commits exactly on a verified match, for another score than the
      last. */
  lemma CorrectExactly(c: Config, d: Data, cmd: Command)
    requires StateSound(d) && cmd.Correct?
    ensures DoCorrect(c, d, cmd).Ok? <==>
      && d.state == Verified && IsRuling(c, d, cmd.actor, cmd.at, cmd.verification, cmd.result, cmd.reason)
      && var last := d.verified[|d.verified| - 1].result;
         !(last.outcome == cmd.result.outcome && last.winner == cmd.result.winner
           && Trim(last.text) == Trim(Trim(cmd.result.text)))
  {
    RulingIs(c, d, cmd.actor, cmd.at, cmd.verification, cmd.result, cmd.reason);
  }

  /** The command's own score, user, reason and time are recorded and announced as
      the next version. */
  lemma CorrectRecorded(c: Config, d: Data, cmd: Command)
    requires StateSound(d) && cmd.Correct? && DoCorrect(c, d, cmd).Ok?
    ensures var done := DoCorrect(c, d, cmd).value;
      && d.verified != [] && |done.data.verified| == |d.verified| + 1
      && var last, v := d.verified[|d.verified| - 1], done.data.verified[|d.verified|];
         && IsRuled(v, cmd.verification, cmd.actor, cmd.at, cmd.result, cmd.reason)
         && v.version == last.version + 1 && v.how == ByCorrection && v.supersedes == last.id
         && done.data == d.(verified := d.verified + [v])
         && done.events == [ResultCorrected(v.id, last.id, v.user, v.result, v.reason, v.at)]
  {
  }

  // ---- Replays ----------------------------------------------------------------------------

  /** The same command again: same kind, records, user and, up to outer white space,
      the same score and reason. Players, roles and times are not compared. */
  predicate IsRepeat(a: Command, b: Command) {
    match (a, b)
    case (Submit(_, x, actor, r, _), Submit(_, y, actor', r', _)) => x == y && actor.user == actor'.user && SameSaid(r, r')
    case (Confirm(_, x, v, s, actor, _), Confirm(_, x', v', s', actor', _)) => x == x' && v == v' && s == s' && actor.user == actor'.user
    case (Dispute(_, x, s, actor, why, _), Dispute(_, x', s', actor', why', _)) =>
      x == x' && s == s' && actor.user == actor'.user && Trim(why) == Trim(why')
    case (Override(_, v, actor, r, why, _), Override(_, v', actor', r', why', _)) =>
      v == v' && actor.user == actor'.user && SameSaid(r, r') && Trim(why) == Trim(why')
    case (Correct(_, v, actor, r, why, _), Correct(_, v', actor', r', why', _)) =>
      v == v' && actor.user == actor'.user && SameSaid(r, r') && Trim(why) == Trim(why')
    case _ => false
  }

  predicate SameSaid(a: Score, b: Score) {
    a.outcome == b.outcome && a.winner == b.winner && Trim(a.text) == Trim(b.text)
  }

  /** A used command ID is answered silently exactly for a repeat of its command. */
  lemma RepeatsExactly(c: Config, d: Data, cmd: Command, first: Command)
    requires Trim(cmd.id) != "" && cmd.id in d.commands && d.commands[cmd.id] == FingerprintOf(first)
    ensures Execute(c, d, cmd) == if IsRepeat(cmd, first) then Ok(Outcome(d, [])) else Err(IdempotencyConflict)
  {
  }

  // ---- Over every sequence of commands -------------------------------------------------------

  /** What a committed command adds is what it said, wherever it stands in a sequence. */
  lemma RulingsStand(c: Config, cmds: seq<Command>, cmd: Command)
    requires Trim(cmd.id) != "" && cmd.id !in Run(c, cmds).data.commands
    requires (cmd.Override? || cmd.Correct?) && Execute(c, Run(c, cmds).data, cmd).Ok?
    ensures var after := Run(c, cmds + [cmd]);
      && after.data.verified != []
      && IsRuled(after.data.verified[|after.data.verified| - 1], cmd.verification, cmd.actor, cmd.at, cmd.result, cmd.reason)
      && after.events != []
      && Announced(after.events[|after.events| - 1], after.data.verified[|after.data.verified| - 1])
  {
    var d := Run(c, cmds).data;
    assert (cmds + [cmd])[..|cmds|] == cmds;
    StateOf(c, cmds);
    if cmd.Override? {
      OverrideRecorded(c, d, cmd);
    } else {
      CorrectRecorded(c, d, cmd);
    }
  }

  predicate Announced(event: Event, v: VerifiedResult) {
    match event
    case ResultVerified(_, id, user, result, reason, at) =>
      id == v.id && user == v.user && result == v.result && reason == v.reason && at == v.at
    case ResultCorrected(id, previous, user, result, reason, at) =>
      id == v.id && previous == v.supersedes && user == v.user && result == v.result && reason == v.reason && at == v.at
    case _ => false
  }

  lemma StateOf(c: Config, cmds: seq<Command>)
    ensures StateSound(Run(c, cmds).data)
  {
    RunIsSound(c, cmds);
  }
}
