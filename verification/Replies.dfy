/** What the person who decides an action is told, and what that answer means for
    the Conversation file and the Task store (`decide` and `execute` in
    `src-tauri/src/conversation_actions.rs`). */
module Replies {
  import opened Durability
  import opened Tasks
  import opened Boards
  import opened Conversations
  import opened Effects
  import opened Approvals
  import opened Attempts

  predicate SaysOneOf(status: Option<ActionStatus>, a: ActionStatus, b: ActionStatus) {
    status == Some(a) || status == Some(b)
  }

  /** The mutation is attempted: the file says Approved, confirmed if this very
      call wrote it, and the process is still alive. */
  predicate AttemptMade(w: World, c: Call) {
    && c.approve && !c.cut.DiesAfterDecision?
    && (StatusOf(w, c.action) == Some(Approved) || (StatusOf(w, c.action) == Some(Proposed) && c.first.Confirmed?))
  }

  function MutationOf(w: World, id: Id): Mutation
    requires Find(w.saved.actions, id).Some?
  {
    Find(w.saved.actions, id).value.mutation
  }

  /** The attempt of this call, on the store as the call found it. */
  function AttemptOf(w: World, c: Call): (Store, Answer)
    requires AttemptMade(w, c)
  {
    Execute(w.store, w.project, c.action, MutationOf(w, c.action), c.env)
  }

  /** The Task store changes by the attempt and by nothing else. */
  lemma StoreChangesByAttempt(w: World, c: Call)
    ensures Decide(w, c).0.store == if AttemptMade(w, c) then AttemptOf(w, c).0 else w.store
    ensures Decide(w, c).0.project == w.project
  {
  }

  /** What each reply means. `true` to an approval: the effect was recorded before,
      or every save this call needed is confirmed and the file holds an outcome.
      `true` to a rejection: the file, confirmed, says Rejected. */
  predicate ReplyMeaning(w: World, c: Call, now: Option<ActionStatus>, reply: Reply) {
    var before := StatusOf(w, c.action);
    var open := before == Some(Approved) || (before == Some(Proposed) && c.first.Confirmed?);
    match reply
    case None => c.approve && open && !c.cut.Finishes? && now == Some(Approved)
    case Some(Ok(told)) => told &&
      if c.approve then before == Some(Applied) || (open && c.last.Confirmed? && SaysOneOf(now, Applied, Refused))
      else before == Some(Proposed) && c.first.Confirmed? && now == Some(Rejected)
    case Some(Err(UnknownAction)) => before.None? && now.None?
    case Some(Err(AlreadyApproved)) => before == Some(Approved) && !c.approve && now == before
    case Some(Err(NotAwaiting)) =>
      now == before && (SaysOneOf(before, Rejected, Refused) || (before == Some(Applied) && !c.approve))
    case Some(Err(NotSaved)) =>
      || (before == Some(Proposed) && !c.first.Confirmed?
          && now == if c.first.NotPublished? then before else if c.approve then Some(Approved) else Some(Rejected))
      || (c.approve && open && !c.last.Confirmed?
          && if c.last.NotPublished? then now == Some(Approved) else SaysOneOf(now, Applied, Refused))
    case Some(Err(_)) => c.approve && open && now == Some(Approved)
  }

  lemma AnsweredMeaning(w: World, c: Call, store: Store, answer: Answer)
    requires StatusOf(w, c.action) == Some(Approved) && (answer.Err? ==> Transient(answer.error))
    ensures var (after, reply) := Answered(w, c, store, answer); var now := StatusOf(after, c.action);
      match reply
      case None => c.cut.DiesAfterEffect? && now == Some(Approved)
      case Some(Ok(told)) => told && c.last.Confirmed? && SaysOneOf(now, Applied, Refused)
      case Some(Err(NotSaved)) =>
        !c.last.Confirmed? && if c.last.NotPublished? then now == Some(Approved) else SaysOneOf(now, Applied, Refused)
      case Some(Err(why)) => Transient(why) && now == Some(Approved)
  {
    if answer.Ok? {
      ConcludedStatus(w.saved, c.action, answer.value, c.action);
    }
  }

  /** The failures that leave the action to be tried again. */
  predicate Transient(why: Failure) {
    why.NoProject? || why.LeaseBusy? || why.TaskNotSaved?
  }

  lemma OpenMeaning(w: World, c: Call)
    requires StatusOf(w, c.action).Some?
    requires StatusOf(w, c.action).value.Proposed? || StatusOf(w, c.action).value.Approved?
    ensures ReplyMeaning(w, c, StatusOf(Decide(w, c).0, c.action), Decide(w, c).1)
  {
    var base := Base(w, c.action);
    DecidedStatus(w.saved, c.action, c.approve, c.action);
    if AttemptMade(w, c) {
      DecidedStatus(w.saved, c.action, true, c.action);
      FailureNames(w.store, w.project, c.action, MutationOf(w, c.action), c.env);
      var attempt := AttemptOf(w, c);
      AnsweredMeaning(base, c, attempt.0, attempt.1);
      assert Decide(w, c) == Answered(base, c, attempt.0, attempt.1);
    }
  }

  /** Every reply, of every call, cut and save. */
  lemma ReplyMeans(w: World, c: Call)
    ensures ReplyMeaning(w, c, StatusOf(Decide(w, c).0, c.action), Decide(w, c).1)
  {
    var before := StatusOf(w, c.action);
    if before == Some(Proposed) || before == Some(Approved) {
      OpenMeaning(w, c);
    }
  }

  /** The person is told an approval went through exactly when the action was
      Applied already, or it was Proposed or Approved, every save it needed was
      confirmed, and the file now says Applied or Refused; and that a rejection did
      exactly when it was Proposed and the confirmed file says Rejected. */
  lemma TrueIff(w: World, c: Call)
    ensures var before := StatusOf(w, c.action); var now := StatusOf(Decide(w, c).0, c.action);
      Decide(w, c).1 == Some(Ok(true)) <==>
        if c.approve then
          || before == Some(Applied)
          || ((before == Some(Approved) || (before == Some(Proposed) && c.first.Confirmed?))
              && c.last.Confirmed? && SaysOneOf(now, Applied, Refused))
        else before == Some(Proposed) && c.first.Confirmed? && now == Some(Rejected)
  {
    ReplyMeans(w, c);
  }

  // ------------------------------------------------------------ what is recorded

  /** The record of an outcome: its line and what the action then says. */
  predicate Records(id: Id, e: Execution, line: Line, status: ActionStatus, outcome: Option<ActionOutcome>) {
    match e
    case Effected(task, title) => line == AppliedLine(id, task) && status == Applied && outcome == Some(AppliedTo(task, title))
    case WasQueued(task, title) => line == AppliedLine(id, task) && status == Applied && outcome == Some(FoundQueued(task, title))
    case Declined(reason) => line == RefusedLine(id, reason) && status == Refused && outcome == Some(RefusedFor(reason))
  }

  predicate DecisionWritten(w: World, c: Call) {
    StatusOf(w, c.action) == Some(Proposed) && Published(c.first)
  }

  predicate OutcomeWritten(w: World, c: Call) {
    AttemptMade(w, c) && AttemptOf(w, c).1.Ok? && !c.cut.DiesAfterEffect? && Published(c.last)
  }

  /** `to` is `from` with the lines of this call added and the action saying what
      the last of them says. */
  ghost predicate Recorded(w: World, c: Call, to: Conversation) {
    var from := w.saved; var id := c.action;
    var decision := if DecisionWritten(w, c) then [DecisionLine(id, c.approve)] else [];
    if OutcomeWritten(w, c) then
      exists line, status, outcome ::
        && Records(id, AttemptOf(w, c).1.value, line, status, outcome)
        && to.lines == from.lines + decision + [line]
        && Find(to.actions, id) == Some(Find(from.actions, id).value.(status := status, outcome := outcome))
    else if DecisionWritten(w, c) then
      && to.lines == from.lines + decision
      && Find(to.actions, id) == Some(Find(from.actions, id).value.(status := if c.approve then Approved else Rejected))
    else to == from
  }

  lemma ConcludedRecords(c: Conversation, id: Id, e: Execution) returns (line: Line, status: ActionStatus, outcome: Option<ActionOutcome>)
    requires Find(c.actions, id).Some?
    ensures Records(id, e, line, status, outcome)
    ensures Concluded(c, id, e).lines == c.lines + [line]
    ensures Find(Concluded(c, id, e).actions, id) == Some(Find(c.actions, id).value.(status := status, outcome := outcome))
  {
    ConcludedStatus(c, id, e, id);
    line := if e.Declined? then RefusedLine(id, e.reason) else AppliedLine(id, e.task);
    status := if e.Declined? then Refused else Applied;
    outcome := Some(OutcomeOf(e));
  }

  /** What the Conversation file gains from a call, line by line and for the action
      it names; `DecideStatus` says that every other action is as it was. */
  lemma DecideRecords(w: World, c: Call)
    ensures Recorded(w, c, Decide(w, c).0.saved)
  {
    if StatusOf(w, c.action).Some? {
      DecidedStatus(w.saved, c.action, c.approve, c.action);
      if OutcomeWritten(w, c) {
        var base := Base(w, c.action);
        var line, status, outcome := ConcludedRecords(base.saved, c.action, AttemptOf(w, c).1.value);
        var decision := if DecisionWritten(w, c) then [DecisionLine(c.action, c.approve)] else [];
        assert base.saved.lines == w.saved.lines + decision;
        assert Decide(w, c).0.saved == Concluded(base.saved, c.action, AttemptOf(w, c).1.value);
      }
    }
  }

  /** The other events of a run, in a project's record and beside it: a proposal is
      one line and one action that awaits a decision, a message is one line, and
      whatever happens to the Tasks elsewhere says nothing in the record. */
  lemma OtherEventsMean(w: World, id: Id, m: Mutation, text: string, store: Store, save: Save)
    ensures Next(w, Propose(id, m, save)) ==
      if save.NotPublished? then w
      else w.(saved := Conversation(w.saved.lines + [ProposedLine(id)], w.saved.actions + [Action(id, m, Proposed, None)]))
    ensures Next(w, Say(text, save)) ==
      if save.NotPublished? then w else w.(saved := Conversation(w.saved.lines + [Message(text)], w.saved.actions))
    ensures Next(w, Elsewhere(store)) == World(w.project, w.saved, store)
  {
  }

  /** A run goes on from where its first part left off. */
  lemma {:induction false} RunsGoOn(w: World, first: seq<Event>, rest: seq<Event>, e: Event)
    ensures Play(w, first + rest) == Play(Play(w, first), rest)
    ensures Play(w, [e]) == Next(w, e)
    decreases |first|
  {
    assert [e][1..] == [];
    if first == [] {
      assert first + rest == rest;
    } else {
      assert (first + rest)[1..] == first[1..] + rest;
      RunsGoOn(Next(w, first[0]), first[1..], rest, e);
    }
  }
}
