/** The aggregate object: records appended and submissions moved in place, one
    method per command. `history` holds the commands sent and `emitted` every
    event returned so far. */
module MatchAggregate {
  import opened Results
  import opened Text
  import opened Match

  // ---- Construction ---------------------------------------------------------------------

  datatype Format = Singles | Fourball | Foursomes | Scramble | OtherFormat | UnknownFormat

  datatype Team = Team(id: Id, event: Id, members: seq<Id>, captains: seq<Id>)

  datatype SideSpec = SideSpec(id: Id, team: Id, participants: seq<Id>)

  datatype Spec = Spec(id: Id, event: Id, format: Format, sideOne: SideSpec, sideTwo: SideSpec, scheduled: bool)

  /** ValidateParticipantCounts: one a side in singles, two in the pair formats,
      at least one otherwise. */
  predicate CountsFit(format: Format, one: nat, two: nat) {
    match format
    case Singles => one == 1 && two == 1
    case OtherFormat => one >= 1 && two >= 1
    case UnknownFormat => false
    case _ => one == 2 && two == 2
  }

  /** Every participant is on the side's team, and nobody plays twice. */
  predicate ParticipantsFit(spec: Spec, one: Team, two: Team) {
    && (forall i :: 0 <= i < |spec.sideOne.participants| ==> spec.sideOne.participants[i] in one.members)
    && (forall i :: 0 <= i < |spec.sideTwo.participants| ==> spec.sideTwo.participants[i] in two.members)
    && NoDuplicates(spec.sideOne.participants + spec.sideTwo.participants)
  }

  predicate NoDuplicates(s: seq<Id>) {
    forall i, j :: 0 <= i < j < |s| ==> s[i] != s[j]
  }

  predicate ValidSpec(spec: Spec, one: Team, two: Team) {
    && ValidId(spec.id) && ValidId(spec.event) && spec.scheduled && spec.format != UnknownFormat
    && one.id == spec.sideOne.team && two.id == spec.sideTwo.team && one.id != two.id
    && one.event == spec.event && two.event == spec.event
    && ValidId(spec.sideOne.id) && ValidId(spec.sideTwo.id) && spec.sideOne.id != spec.sideTwo.id
    && CountsFit(spec.format, |spec.sideOne.participants|, |spec.sideTwo.participants|)
    && ParticipantsFit(spec, one, two)
  }

  function ConfigOf(spec: Spec, one: Team, two: Team): Config {
    Config(spec.id, spec.event, Side(spec.sideOne.id, spec.sideOne.participants, one.captains),
           Side(spec.sideTwo.id, spec.sideTwo.participants, two.captains))
  }

  ghost predicate Holds(seen: set<Id>, s: seq<Id>) {
    forall x :: x in seen <==> x in s
  }

  /** One side's pass of NewMatch's participant loop; `seen` is shared by both. */
  method CheckSide(participants: seq<Id>, team: Team, known: set<Id>, ghost before: seq<Id>)
    returns (fits: bool, seen: set<Id>)
    requires NoDuplicates(before) && Holds(known, before)
    ensures fits <==> (forall i :: 0 <= i < |participants| ==> participants[i] in team.members) && NoDuplicates(before + participants)
    ensures fits ==> Holds(seen, before + participants)
  {
    seen := known;
    assert before + participants[..0] == before;
    for i := 0 to |participants|
      invariant forall k :: 0 <= k < i ==> participants[k] in team.members
      invariant NoDuplicates(before + participants[..i])
      invariant Holds(seen, before + participants[..i])
    {
      var participant := participants[i];
      ghost var so := before + participants[..i];
      assert before + participants[..i + 1] == so + [participant];
      assert before + participants == so + [participant] + participants[i + 1..];
      if participant !in team.members {
        return false, seen;
      }
      if participant in seen {
        ghost var k :| 0 <= k < |so| && so[k] == participant;
        assert (before + participants)[k] == (before + participants)[|so|];
        return false, seen;
      }
      seen := seen + {participant};
    }
    assert participants[..|participants|] == participants;
    return true, seen;
  }

  /** NewMatch refuses exactly the specifications that are not valid. */
  method NewMatch(spec: Spec, one: Team, two: Team) returns (r: Result<Aggregate>)
    ensures r.Ok? <==> ValidSpec(spec, one, two)
    ensures r.Ok? ==> fresh(r.value) && r.value.Valid() && r.value.config == ConfigOf(spec, one, two) && r.value.history == []
  {
    if !ValidId(spec.id) || !ValidId(spec.event) || !spec.scheduled || spec.format == UnknownFormat {
      return Err(Invalid);
    }
    if one.id != spec.sideOne.team || two.id != spec.sideTwo.team || one.id == two.id {
      return Err(Invalid);
    }
    if one.event != spec.event || two.event != spec.event {
      return Err(Invalid);
    }
    if !ValidId(spec.sideOne.id) || !ValidId(spec.sideTwo.id) || spec.sideOne.id == spec.sideTwo.id {
      return Err(Invalid);
    }
    if !CountsFit(spec.format, |spec.sideOne.participants|, |spec.sideTwo.participants|) {
      return Err(Invalid);
    }
    var first, seen := CheckSide(spec.sideOne.participants, one, {}, []);
    assert [] + spec.sideOne.participants == spec.sideOne.participants;
    if !first {
      FirstSideDuplicates(spec.sideOne.participants, spec.sideTwo.participants);
      return Err(Invalid);
    }
    var second, all := CheckSide(spec.sideTwo.participants, two, seen, spec.sideOne.participants);
    if !second {
      return Err(Invalid);
    }
    var aggregate := new Aggregate(ConfigOf(spec, one, two));
    return Ok(aggregate);
  }

  lemma FirstSideDuplicates(a: seq<Id>, b: seq<Id>)
    ensures NoDuplicates(a + b) ==> NoDuplicates(a)
  {
    assert forall i :: 0 <= i < |a| ==> (a + b)[i] == a[i];
  }

  // ---- The aggregate ------------------------------------------------------------------------

  class Aggregate {
    const config: Config
    var state: MatchState
    var submissions: seq<Submission>
    var confirmations: seq<Confirmation>
    var verified: seq<VerifiedResult>
    var commands: map<Id, Fingerprint>
    ghost var history: seq<Command>
    ghost var emitted: seq<Event>

    function Contents(): Data
      reads this
    {
      Data(state, submissions, confirmations, verified, commands)
    }

    ghost predicate Valid()
      reads this
    {
      Outcome(Contents(), emitted) == Run(config, history)
    }

    constructor (config: Config)
      ensures Valid() && this.config == config && history == []
    {
      this.config := config;
      state, submissions, confirmations, verified, commands := AwaitingResult, [], [], [], map[];
      history, emitted := [], [];
    }

    /** Note the command; what it did must be what Execute says. */
    ghost method Sent(cmd: Command, before: Data, events: Result<seq<Event>>)
      requires Outcome(before, emitted) == Run(config, history)
      requires Did(config, before, cmd, events, Contents())
      modifies this`history, this`emitted
      ensures Valid() && history == old(history) + [cmd]
      ensures emitted == if events.Ok? then old(emitted) + events.value else old(emitted)
    {
      assert (history + [cmd])[..|history|] == history;
      history := history + [cmd];
      emitted := if events.Ok? then emitted + events.value else emitted;
    }

    // ---- Look-ups ---------------------------------------------------------------------------

    method SubmissionByID(id: Id) returns (index: nat)
      ensures index == FirstWhere(submissions, WithId(id))
    {
      index := 0;
      while index < |submissions| && submissions[index].id != id
        invariant 0 <= index <= |submissions|
        invariant FirstWhere(submissions, WithId(id)) == index + FirstWhere(submissions[index..], WithId(id))
      {
        assert submissions[index..][1..] == submissions[index + 1..];
        index := index + 1;
      }
    }

    method PendingSubmission() returns (index: nat)
      ensures index == FirstWhere(submissions, IsPending())
    {
      index := 0;
      while index < |submissions| && submissions[index].state != Pending
        invariant 0 <= index <= |submissions|
        invariant FirstWhere(submissions, IsPending()) == index + FirstWhere(submissions[index..], IsPending())
      {
        assert submissions[index..][1..] == submissions[index + 1..];
        index := index + 1;
      }
    }

    method ConfirmationKnown(id: Id) returns (known: bool)
      ensures known <==> HasConfirmation(Contents(), id)
    {
      for i := 0 to |confirmations|
        invariant forall k :: 0 <= k < i ==> confirmations[k].id != id
      {
        if confirmations[i].id == id {
          assert Contents().confirmations[i].id == id;
          return true;
        }
      }
      return false;
    }

    method VerificationKnown(id: Id) returns (known: bool)
      ensures known <==> HasVerification(Contents(), id)
    {
      for i := 0 to |verified|
        invariant forall k :: 0 <= k < i ==> verified[k].id != id
      {
        if verified[i].id == id {
          assert Contents().verified[i].id == id;
          return true;
        }
      }
      return false;
    }

    /** checkCommand: None for a new command, otherwise the answer to a replay. */
    method CheckCommand(id: Id, fingerprint: Fingerprint) returns (answer: Option<Result<seq<Event>>>)
      ensures answer == if !ValidId(id) then Some(Err(Invalid))
                        else if id !in commands then None
                        else if commands[id] == fingerprint then Some(Ok([])) else Some(Err(IdempotencyConflict))
    {
      if !ValidId(id) {
        return Some(Err(Invalid));
      }
      if id !in commands {
        return None;
      }
      if commands[id] != fingerprint {
        return Some(Err(IdempotencyConflict));
      }
      return Some(Ok([]));
    }

    // ---- Commands -----------------------------------------------------------------------------

    method SubmitResult(cmd: Command) returns (events: Result<seq<Event>>)
      requires Valid() && cmd.Submit?
      modifies this
      ensures Valid() && history == old(history) + [cmd]
      ensures Did(config, old(Contents()), cmd, events, Contents())
    {
      ghost var before := Contents();
      events := Submit(cmd);
      Sent(cmd, before, events);
    }

    /** A different result from the other side contests the pending one. */
    method DisputePending(cmd: Command, side: Option<Id>) returns (events: Result<seq<Event>>)
      requires cmd.Submit? && cmd.at.Some?
      modifies this`state, this`submissions
      ensures match Match.Conflict(old(Contents()), cmd, side)
              case Ok(done) => events == Ok(done.events) && Contents() == done.data
              case Err(e) => events == Err(e) && Contents() == old(Contents())
    {
      var p := PendingSubmission();
      if p == |submissions| {
        return Err(Transition);
      }
      var pending, result, at := submissions[p], Normalized(cmd.result), cmd.at.value;
      if IsSubmitter(cmd.actor, pending) {
        return Err(OwnSubmission);
      }
      if side.None? || !ValidId(pending.side) || side.value == pending.side {
        return Err(NotOpposingSide);
      }
      if SameScore(pending.result, result) {
        return Err(AlreadyExists);
      }
      submissions := submissions[p := pending.(state := Contested)]
        + [Submission(cmd.submission, cmd.actor.user, cmd.actor.player, side.value, result, Contested, at)];
      state := Disputed;
      return Ok([ResultSubmitted(cmd.submission, cmd.actor.user, result, at),
                 ResultDisputed(cmd.submission, cmd.actor.user, result, "conflicting result submissions", at)]);
    }

    method Submit(cmd: Command) returns (events: Result<seq<Event>>)
      requires cmd.Submit?
      modifies this`state, this`submissions, this`commands
      ensures Did(config, old(Contents()), cmd, events, Contents())
    {
      var replay := CheckCommand(cmd.id, FingerprintOf(cmd));
      if replay.Some? {
        return replay.value;
      }
      if state != AwaitingResult && state != AwaitingConfirmation {
        return Err(Transition);
      }
      if !Checked(cmd.actor, cmd.at, [cmd.submission]) {
        return Err(Invalid);
      }
      if !ValidScore(config, Normalized(cmd.result)) {
        return Err(Invalid);
      }
      var side := ActingSide(config, cmd.actor);
      if side.None? && !Privileged(cmd.actor.role) {
        return Err(Unauthorized);
      }
      var known := SubmissionByID(cmd.submission);
      FoundById(Contents(), cmd.submission);
      if known < |submissions| {
        return Err(AlreadyExists);
      }
      if state == AwaitingConfirmation {
        events := DisputePending(cmd, side);
        if events.Ok? {
          commands := commands[cmd.id := FingerprintOf(cmd)];
        }
        return;
      }
      var result, at := Normalized(cmd.result), cmd.at.value;
      submissions := submissions
        + [Submission(cmd.submission, cmd.actor.user, cmd.actor.player, SideOr(side), result, Pending, at)];
      state := AwaitingConfirmation;
      commands := commands[cmd.id := FingerprintOf(cmd)];
      return Ok([ResultSubmitted(cmd.submission, cmd.actor.user, result, at)]);
    }

    method ConfirmResult(cmd: Command) returns (events: Result<seq<Event>>)
      requires Valid() && cmd.Confirm?
      modifies this
      ensures Valid() && history == old(history) + [cmd]
      ensures Did(config, old(Contents()), cmd, events, Contents())
    {
      ghost var before := Contents();
      events := Confirm(cmd);
      Sent(cmd, before, events);
    }

    method Confirm(cmd: Command) returns (events: Result<seq<Event>>)
      requires cmd.Confirm?
      modifies this`state, this`submissions, this`confirmations, this`verified, this`commands
      ensures Did(config, old(Contents()), cmd, events, Contents())
    {
      var replay := CheckCommand(cmd.id, FingerprintOf(cmd));
      if replay.Some? {
        return replay.value;
      }
      if state != AwaitingConfirmation {
        return Err(Transition);
      }
      if !Checked(cmd.actor, cmd.at, [cmd.confirmation, cmd.verification, cmd.submission]) {
        return Err(Invalid);
      }
      var k := SubmissionByID(cmd.submission);
      if k == |submissions| {
        return Err(NotFound);
      }
      var submission := submissions[k];
      var refusal := OpponentError(config, cmd.actor, submission);
      if refusal.Some? {
        return Err(refusal.value);
      }
      var confirmed := ConfirmationKnown(cmd.confirmation);
      var known := VerificationKnown(cmd.verification);
      if confirmed || known {
        return Err(AlreadyExists);
      }
      var at := cmd.at.value;
      confirmations := confirmations
        + [Confirmation(cmd.confirmation, submission.id, cmd.actor.user, ActingSide(config, cmd.actor).value, Agreed, "", at)];
      submissions := submissions[k := submission.(state := Confirmed)];
      verified := verified
        + [VerifiedResult(cmd.verification, 1, submission.result, ByOpponent, cmd.actor.user, "", submission.id, "", at)];
      state := Verified;
      commands := commands[cmd.id := FingerprintOf(cmd)];
      return Ok([ResultVerified(submission.id, cmd.verification, cmd.actor.user, submission.result, "", at)]);
    }

    method DisputeResult(cmd: Command) returns (events: Result<seq<Event>>)
      requires Valid() && cmd.Dispute?
      modifies this
      ensures Valid() && history == old(history) + [cmd]
      ensures Did(config, old(Contents()), cmd, events, Contents())
    {
      ghost var before := Contents();
      events := Dispute(cmd);
      Sent(cmd, before, events);
    }

    method Dispute(cmd: Command) returns (events: Result<seq<Event>>)
      requires cmd.Dispute?
      modifies this`state, this`submissions, this`confirmations, this`commands
      ensures Did(config, old(Contents()), cmd, events, Contents())
    {
      var replay := CheckCommand(cmd.id, FingerprintOf(cmd));
      if replay.Some? {
        return replay.value;
      }
      if state != AwaitingConfirmation {
        return Err(Transition);
      }
      if !Checked(cmd.actor, cmd.at, [cmd.confirmation, cmd.submission]) {
        return Err(Invalid);
      }
      var reason := Trim(cmd.reason);
      if reason == "" {
        return Err(ReasonRequired);
      }
      var k := SubmissionByID(cmd.submission);
      if k == |submissions| {
        return Err(NotFound);
      }
      var submission := submissions[k];
      var refusal := OpponentError(config, cmd.actor, submission);
      if refusal.Some? {
        return Err(refusal.value);
      }
      var known := ConfirmationKnown(cmd.confirmation);
      if known {
        return Err(AlreadyExists);
      }
      var at := cmd.at.value;
      confirmations := confirmations
        + [Confirmation(cmd.confirmation, submission.id, cmd.actor.user, ActingSide(config, cmd.actor).value, Objected, reason, at)];
      submissions := submissions[k := submission.(state := Contested)];
      state := Disputed;
      commands := commands[cmd.id := FingerprintOf(cmd)];
      return Ok([ResultDisputed(submission.id, cmd.actor.user, submission.result, reason, at)]);
    }

    method AdminOverride(cmd: Command) returns (events: Result<seq<Event>>)
      requires Valid() && cmd.Override?
      modifies this
      ensures Valid() && history == old(history) + [cmd]
      ensures Did(config, old(Contents()), cmd, events, Contents())
    {
      ghost var before := Contents();
      events := Override(cmd);
      Sent(cmd, before, events);
    }

    method CheckAdmin(actor: Actor, at: Option<int>, verification: Id, result: Score, reason: string) returns (error: Option<Error>)
      ensures error == AdminError(config, Contents(), actor, at, verification, result, reason)
    {
      if !Checked(actor, at, [verification]) {
        return Some(Invalid);
      }
      if !Privileged(actor.role) {
        return Some(Unauthorized);
      }
      if Trim(reason) == "" {
        return Some(ReasonRequired);
      }
      if !ValidScore(config, Normalized(result)) {
        return Some(Invalid);
      }
      var known := VerificationKnown(verification);
      return if known then Some(AlreadyExists) else None;
    }

    method Override(cmd: Command) returns (events: Result<seq<Event>>)
      requires cmd.Override?
      modifies this`state, this`submissions, this`verified, this`commands
      ensures Did(config, old(Contents()), cmd, events, Contents())
    {
      var replay := CheckCommand(cmd.id, FingerprintOf(cmd));
      if replay.Some? {
        return replay.value;
      }
      if state == Verified {
        return Err(Transition);
      }
      var refusal := CheckAdmin(cmd.actor, cmd.at, cmd.verification, cmd.result, cmd.reason);
      if refusal.Some? {
        return Err(refusal.value);
      }
      for i := 0 to |submissions|
        invariant |submissions| == |old(submissions)|
        invariant forall k :: 0 <= k < i ==> submissions[k] == Supersede(old(submissions))[k]
        invariant forall k :: i <= k < |submissions| ==> submissions[k] == old(submissions)[k]
        invariant state == old(state) && verified == old(verified) && commands == old(commands)
      {
        if submissions[i].state == Pending {
          submissions := submissions[i := submissions[i].(state := Superseded)];
        }
      }
      assert submissions == Supersede(old(submissions));
      var at, result, reason := cmd.at.value, Normalized(cmd.result), Trim(cmd.reason);
      verified := verified + [VerifiedResult(cmd.verification, 1, result, ByAdmin, cmd.actor.user, reason, "", "", at)];
      state := Verified;
      commands := commands[cmd.id := FingerprintOf(cmd)];
      return Ok([ResultVerified("", cmd.verification, cmd.actor.user, result, reason, at)]);
    }

    method CorrectResult(cmd: Command) returns (events: Result<seq<Event>>)
      requires Valid() && cmd.Correct?
      modifies this
      ensures Valid() && history == old(history) + [cmd]
      ensures Did(config, old(Contents()), cmd, events, Contents())
    {
      ghost var before := Contents();
      VerifiedHasResult();
      events := Correct(cmd);
      Sent(cmd, before, events);
    }

    lemma VerifiedHasResult()
      requires Valid()
      ensures state == Verified ==> verified != []
    {
      RunIsSound(config, history);
    }

    method Correct(cmd: Command) returns (events: Result<seq<Event>>)
      requires cmd.Correct? && (state == Verified ==> verified != [])
      modifies this`verified, this`commands
      ensures Did(config, old(Contents()), cmd, events, Contents())
    {
      var replay := CheckCommand(cmd.id, FingerprintOf(cmd));
      if replay.Some? {
        return replay.value;
      }
      if state != Verified {
        return Err(Transition);
      }
      var refusal := CheckAdmin(cmd.actor, cmd.at, cmd.verification, cmd.result, cmd.reason);
      if refusal.Some? {
        return Err(refusal.value);
      }
      var previous := verified[|verified| - 1];
      var at, result, reason := cmd.at.value, Normalized(cmd.result), Trim(cmd.reason);
      if SameScore(previous.result, result) {
        return Err(ResultUnchanged);
      }
      verified := verified + [VerifiedResult(cmd.verification, previous.version + 1, result, ByCorrection, cmd.actor.user,
                                             reason, "", previous.id, at)];
      commands := commands[cmd.id := FingerprintOf(cmd)];
      return Ok([ResultCorrected(cmd.verification, previous.id, cmd.actor.user, result, reason, at)]);
    }
  }

  /** A command's answer and new records are what Execute gives. */
  predicate Did(c: Config, before: Data, cmd: Command, events: Result<seq<Event>>, after: Data) {
    match Execute(c, before, cmd)
    case Ok(done) => events == Ok(done.events) && after == done.data
    case Err(e) => events == Err(e) && after == before
  }

  lemma FoundById(d: Data, id: Id)
    ensures FirstWhere(d.submissions, WithId(id)) < |d.submissions| <==> HasSubmission(d, id)
  {
    var k := FirstWhere(d.submissions, WithId(id));
    if k < |d.submissions| {
      assert d.submissions[k].id == id;
    }
  }
}
