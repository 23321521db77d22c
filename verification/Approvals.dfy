/** The approval protocol: persist the decision, make the change, persist what
    became of it, across two files and a process that may die at any point
    (`decide` and `persist_then_commit` in `src-tauri/src/conversation_actions.rs`).

    Every call holds the Project's Conversation lock and loads the Conversation
    from its file, so the world between calls is the file and the Task store. */
module Approvals {
  import opened Durability
  import opened Tasks
  import opened Boards
  import opened Conversations
  import opened Effects

  datatype World = World(project: Id, saved: Conversation, store: Store)

  datatype Cut = Finishes | DiesAfterDecision | DiesAfterEffect

  /** One call, with the answers of both Conversation saves. */
  datatype Call = Call(action: Id, approve: bool, env: Env, first: Save, last: Save, cut: Cut)

  /** `None`: the process died before it could answer. */
  type Reply = Option<Result<bool, Failure>>

  function Persist(w: World, candidate: Conversation, save: Save): (World, bool) {
    (if Published(save) then w.(saved := candidate) else w, save.Confirmed?)
  }

  function Decided(c: Conversation, id: Id, approve: bool): Conversation {
    Conversation(
      c.lines + [DecisionLine(id, approve)],
      SetStatus(c.actions, id, if approve then Approved else Rejected, None))
  }

  function Concluded(c: Conversation, id: Id, e: Execution): Conversation {
    match e
    case Effected(task, title) =>
      Conversation(c.lines + [AppliedLine(id, task)], SetStatus(c.actions, id, Applied, Some(AppliedTo(task, title))))
    case WasQueued(task, title) =>
      Conversation(c.lines + [AppliedLine(id, task)], SetStatus(c.actions, id, Applied, Some(FoundQueued(task, title))))
    case Declined(reason) =>
      Conversation(c.lines + [RefusedLine(id, reason)], SetStatus(c.actions, id, Refused, Some(RefusedFor(reason))))
  }

  /** Step three: the outcome of an attempt that was answered is recorded. */
  function Answered(w: World, c: Call, store: Store, answer: Answer): (World, Reply) {
    var changed := w.(store := store);
    if c.cut.DiesAfterEffect? then (changed, None)
    else match answer
      case Err(why) => (changed, Some(Err(why)))
      case Ok(execution) =>
        var (ended, ok) := Persist(changed, Concluded(w.saved, c.action, execution), c.last);
        (ended, Some(if ok then Ok(true) else Err(NotSaved)))
  }

  /** Steps two and three, for an action the file says is Approved. */
  function Finish(w: World, c: Call, m: Mutation): (World, Reply) {
    var (store, answer) := Execute(w.store, w.project, c.action, m, c.env);
    Answered(w, c, store, answer)
  }

  /** `decide`. */
  function Decide(w: World, c: Call): (World, Reply) {
    match Find(w.saved.actions, c.action)
    case None => (w, Some(Err(UnknownAction)))
    case Some(a) =>
      match (a.status, c.approve)
      case (Applied, true) => (w, Some(Ok(true)))
      case (Proposed, false) =>
        var (next, ok) := Persist(w, Decided(w.saved, c.action, false), c.first);
        (next, Some(if ok then Ok(true) else Err(NotSaved)))
      case (Proposed, true) =>
        var (next, ok) := Persist(w, Decided(w.saved, c.action, true), c.first);
        if !ok then (next, Some(Err(NotSaved)))
        else if c.cut.DiesAfterDecision? then (next, None)
        else Finish(next, c, a.mutation)
      case (Approved, true) => if c.cut.DiesAfterDecision? then (w, None) else Finish(w, c, a.mutation)
      case (Approved, false) => (w, Some(Err(AlreadyApproved)))
      case _ => (w, Some(Err(NotAwaiting)))
  }

  function StatusOf(w: World, id: Id): Option<ActionStatus> {
    match Find(w.saved.actions, id) case None => None case Some(a) => Some(a.status)
  }

  // ------------------------------------------------------------ one call

  lemma DecidedStatus(c: Conversation, id: Id, approve: bool, other: Id)
    ensures Find(Decided(c, id, approve).actions, other) ==
      if other == id && Find(c.actions, id).Some?
      then Some(Marked(Find(c.actions, id).value, if approve then Approved else Rejected, None))
      else Find(c.actions, other)
  {
    FoundAfter(c.actions, id, if approve then Approved else Rejected, None, other);
  }

  function OutcomeOf(e: Execution): ActionOutcome {
    match e
    case Effected(task, title) => AppliedTo(task, title)
    case WasQueued(task, title) => FoundQueued(task, title)
    case Declined(reason) => RefusedFor(reason)
  }

  lemma ConcludedStatus(c: Conversation, id: Id, e: Execution, other: Id)
    ensures Find(Concluded(c, id, e).actions, other) ==
      if other == id && Find(c.actions, id).Some?
      then Some(Marked(Find(c.actions, id).value, if e.Declined? then Refused else Applied, Some(OutcomeOf(e))))
      else Find(c.actions, other)
  {
    FoundAfter(c.actions, id, if e.Declined? then Refused else Applied, Some(OutcomeOf(e)), other);
  }

  lemma DecidedIsSound(c: Conversation, id: Id, approve: bool)
    requires Sound(c) && Find(c.actions, id).Some? && Find(c.actions, id).value.status.Proposed?
    ensures Sound(Decided(c, id, approve))
  {
    AppendedLine(c.lines, DecisionLine(id, approve), id);
    assert ActionSound(c.lines, Find(c.actions, id).value);
    RecordedIsSound(c, id, if approve then Approved else Rejected, None, DecisionLine(id, approve));
  }

  lemma ConcludedIsSound(c: Conversation, id: Id, e: Execution)
    requires Sound(c) && Find(c.actions, id).Some? && Find(c.actions, id).value.status.Approved?
    ensures Sound(Concluded(c, id, e))
  {
    assert ActionSound(c.lines, Find(c.actions, id).value);
    var line := if e.Declined? then RefusedLine(id, e.reason) else AppliedLine(id, e.task);
    AppendedLine(c.lines, line, id);
    RecordedIsSound(c, id, if e.Declined? then Refused else Applied, Some(OutcomeOf(e)), line);
  }

  /** The call changes the Task store. */
  predicate TakesEffect(w: World, c: Call) {
    Decide(w, c).0.store != w.store
  }

  /** The Task store changes only when the file already says Approved: stopping
      the same call before its effect leaves the store as it was and the action
      Approved in the file. */
  lemma EffectOnlyWhenApproved(w: World, c: Call)
    requires TakesEffect(w, c)
    ensures var before := Decide(w, c.(cut := DiesAfterDecision));
      before.0.store == w.store && before.1.None? && StatusOf(before.0, c.action) == Some(Approved)
  {
    DecidedStatus(w.saved, c.action, true, c.action);
  }

  /** `to` records an outcome on `from`. */
  ghost predicate Ends(from: Conversation, to: Conversation, id: Id) {
    exists e :: to == Concluded(from, id, e)
  }

  /** The ways one call can leave the Conversation file. */
  ghost predicate Advances(from: Conversation, to: Conversation, id: Id, approve: bool) {
    || to == from
    || (Find(from.actions, id).Some? &&
        match Find(from.actions, id).value.status
        case Proposed => to == Decided(from, id, approve) || (approve && Ends(Decided(from, id, true), to, id))
        case Approved => approve && Ends(from, to, id)
        case _ => false)
  }

  /** What an attempt on `base` can leave: its store change, and at most the
      outcome it was answered. */
  ghost predicate Attempted(base: World, after: World, id: Id, m: Mutation, env: Env) {
    var (store, answer) := Execute(base.store, base.project, id, m, env);
    || after == base.(store := store)
    || (answer.Ok? && after == base.(store := store, saved := Concluded(base.saved, id, answer.value)))
  }

  lemma FinishAttempts(w: World, c: Call, m: Mutation)
    ensures Attempted(w, Finish(w, c, m).0, c.action, m, c.env)
  {
    var attempt := Execute(w.store, w.project, c.action, m, c.env);
    AnsweredShape(w, c, attempt.0, attempt.1);
  }

  lemma AnsweredShape(w: World, c: Call, store: Store, answer: Answer)
    ensures var r := Answered(w, c, store, answer).0;
      || r == w.(store := store)
      || (answer.Ok? && r == w.(store := store, saved := Concluded(w.saved, c.action, answer.value)))
  {
  }

  /** The world an approved attempt starts from. */
  function Base(w: World, id: Id): World {
    if StatusOf(w, id) == Some(Proposed) then w.(saved := Decided(w.saved, id, true)) else w
  }

  /** Every call stops before the decision, after it, or in an attempt. */
  lemma DecideShape(w: World, c: Call)
    requires Find(w.saved.actions, c.action).Some?
    ensures var a := Find(w.saved.actions, c.action).value; var r := Decide(w, c).0;
      || r == w
      || (a.status.Proposed? && r == w.(saved := Decided(w.saved, c.action, c.approve)))
      || (c.approve && (a.status.Proposed? || a.status.Approved?)
          && Attempted(Base(w, c.action), r, c.action, a.mutation, c.env))
  {
    FinishAttempts(Base(w, c.action), c, Find(w.saved.actions, c.action).value.mutation);
  }

  lemma AttemptEnds(base: World, after: World, id: Id, m: Mutation, env: Env)
    requires Attempted(base, after, id, m, env)
    ensures after.project == base.project && (after.saved == base.saved || Ends(base.saved, after.saved, id))
  {
    var attempt := Execute(base.store, base.project, id, m, env);
    if attempt.1.Ok? && after.saved != base.saved {
      assert after.saved == Concluded(base.saved, id, attempt.1.value);
    }
  }

  lemma DecideAdvances(w: World, c: Call)
    ensures Advances(w.saved, Decide(w, c).0.saved, c.action, c.approve) && Decide(w, c).0.project == w.project
  {
    if Find(w.saved.actions, c.action).Some? {
      DecideShape(w, c);
      var a := Find(w.saved.actions, c.action).value;
      if Attempted(Base(w, c.action), Decide(w, c).0, c.action, a.mutation, c.env) {
        AttemptEnds(Base(w, c.action), Decide(w, c).0, c.action, a.mutation, c.env);
      }
    }
  }

  lemma AdvanceIsSound(from: Conversation, to: Conversation, id: Id, approve: bool)
    requires Sound(from) && Advances(from, to, id, approve)
    ensures Sound(to)
  {
    if to != from {
      var a := Find(from.actions, id).value;
      DecidedStatus(from, id, true, id);
      if a.status.Proposed? {
        DecidedIsSound(from, id, approve);
      }
      if to != Decided(from, id, approve) || !a.status.Proposed? {
        var base := if a.status.Proposed? then Decided(from, id, true) else from;
        var e :| to == Concluded(base, id, e);
        ConcludedIsSound(base, id, e);
      }
    }
  }

  /** Whatever a call does and wherever it dies, each action keeps at most one
      decision and one outcome, and its status agrees with them. */
  lemma DecideIsSound(w: World, c: Call)
    requires Sound(w.saved)
    ensures Sound(Decide(w, c).0.saved)
  {
    DecideAdvances(w, c);
    AdvanceIsSound(w.saved, Decide(w, c).0.saved, c.action, c.approve);
  }

  predicate Terminal(status: ActionStatus) {
    status.Applied? || status.Rejected? || status.Refused?
  }

  /** The only changes of status: a Human's decision, then one outcome. */
  predicate MayBecome(from: ActionStatus, to: ActionStatus, approve: bool) {
    match from
    case Proposed => if approve then to.Approved? || to.Applied? || to.Refused? else to.Rejected?
    case Approved => approve && (to.Applied? || to.Refused?)
    case _ => false
  }

  lemma AdvanceStatus(from: Conversation, to: Conversation, id: Id, approve: bool, other: Id)
    requires Advances(from, to, id, approve)
    ensures var before := Find(from.actions, other); var after := Find(to.actions, other);
      if before.None? || id != other then after == before
      else
        && after.Some? && after.value.mutation == before.value.mutation
        && (after == before || MayBecome(before.value.status, after.value.status, approve))
  {
    if to != from {
      var a := Find(from.actions, id).value;
      DecidedStatus(from, id, approve, other);
      DecidedStatus(from, id, true, other);
      DecidedStatus(from, id, true, id);
      if to != Decided(from, id, approve) || !a.status.Proposed? {
        var base := if a.status.Proposed? then Decided(from, id, true) else from;
        var e :| to == Concluded(base, id, e);
        ConcludedStatus(base, id, e, other);
      }
    }
  }

  /** How one call may change the action it names, and that it changes no other. */
  lemma DecideStatus(w: World, c: Call, id: Id)
    ensures var before := Find(w.saved.actions, id); var after := Find(Decide(w, c).0.saved.actions, id);
      if before.None? || id != c.action then after == before
      else
        && after.Some? && after.value.mutation == before.value.mutation
        && (after == before || MayBecome(before.value.status, after.value.status, c.approve))
  {
    DecideAdvances(w, c);
    AdvanceStatus(w.saved, Decide(w, c).0.saved, c.action, c.approve, id);
  }

  /** Every store works: the saves are confirmed, the lease is free, the Project
      is there, and the process lives. */
  predicate Working(c: Call) {
    && c.env.projectPresent && c.env.leased && c.env.save.Confirmed?
    && c.first.Confirmed? && c.last.Confirmed? && c.cut.Finishes?
  }

  lemma WorkingStoreAnswers(s: Store, project: Id, action: Id, m: Mutation, env: Env)
    requires env.projectPresent && env.leased && env.save.Confirmed?
    ensures Execute(s, project, action, m, env).1.Ok?
  {
  }

  lemma FinishSettles(w: World, c: Call, m: Mutation)
    requires Working(c) && Find(w.saved.actions, c.action).Some?
    ensures Finish(w, c, m).1 == Some(Ok(true))
    ensures StatusOf(Finish(w, c, m).0, c.action) == Some(Applied) || StatusOf(Finish(w, c, m).0, c.action) == Some(Refused)
  {
    WorkingStoreAnswers(w.store, w.project, c.action, m, c.env);
    ConcludedStatus(w.saved, c.action, Execute(w.store, w.project, c.action, m, c.env).1.value, c.action);
  }

  /** From any crash point, approving again with working stores settles it. */
  lemma RetrySettles(w: World, c: Call)
    requires Working(c) && c.approve && StatusOf(w, c.action).Some?
    requires var status := StatusOf(w, c.action).value; status.Proposed? || status.Approved? || status.Applied?
    ensures Decide(w, c).1 == Some(Ok(true))
    ensures StatusOf(Decide(w, c).0, c.action) == Some(Applied) || StatusOf(Decide(w, c).0, c.action) == Some(Refused)
  {
    var a := Find(w.saved.actions, c.action).value;
    DecidedStatus(w.saved, c.action, true, c.action);
    FinishSettles(w, c, a.mutation);
    FinishSettles(w.(saved := Decided(w.saved, c.action, true)), c, a.mutation);
  }

  // ----------------------------------------------------------- whole runs

  datatype Event =
    | Act(call: Call)
    | Propose(id: Id, mutation: Mutation, save: Save)
    | Say(text: string, save: Save)
    | Elsewhere(store: Store)

  /** `record_proposal`, with the fresh id the code gives it. */
  function Offered(c: Conversation, id: Id, m: Mutation): Conversation {
    Conversation(c.lines + [ProposedLine(id)], c.actions + [Action(id, m, Proposed, None)])
  }

  ghost predicate Fresh(c: Conversation, id: Id) {
    Find(c.actions, id).None? && Decisions(c.lines, id) == [] && Outcomes(c.lines, id) == []
  }

  function Next(w: World, e: Event): World {
    match e
    case Act(call) => Decide(w, call).0
    case Propose(id, m, save) => Persist(w, Offered(w.saved, id, m), save).0
    case Say(text, save) => Persist(w, Conversation(w.saved.lines + [Message(text)], w.saved.actions), save).0
    case Elsewhere(store) => w.(store := store)
  }

  function Play(w: World, events: seq<Event>): World
    decreases |events|
  {
    if events == [] then w else Play(Next(w, events[0]), events[1..])
  }

  /** Every proposal of the run gets an id the Conversation has never seen. */
  ghost predicate FreshIds(w: World, events: seq<Event>)
    decreases |events|
  {
    events == [] || ((events[0].Propose? ==> Fresh(w.saved, events[0].id)) && FreshIds(Next(w, events[0]), events[1..]))
  }

  lemma OfferedIsSound(c: Conversation, id: Id, m: Mutation)
    requires Sound(c) && Fresh(c, id)
    ensures Sound(Offered(c, id, m))
  {
    var r := Offered(c, id, m);
    forall a | a in r.actions ensures ActionSound(r.lines, a) {
      AppendedLine(c.lines, ProposedLine(id), a.id);
      assert a in c.actions || a == Action(id, m, Proposed, None);
    }
    forall i, j | 0 <= i < j < |r.actions| ensures r.actions[i].id != r.actions[j].id {
      assert c.actions[i] in c.actions;
    }
  }

  lemma SaidIsSound(c: Conversation, text: string)
    requires Sound(c)
    ensures Sound(Conversation(c.lines + [Message(text)], c.actions))
  {
    forall a | a in c.actions ensures ActionSound(c.lines + [Message(text)], a) {
      AppendedLine(c.lines, Message(text), a.id);
    }
  }

  /** In every run of decisions, proposals, crashes and failed writes, each
      action has at most one decision and one outcome, as its status says. */
  lemma {:induction false} RunIsSound(w: World, events: seq<Event>)
    requires Sound(w.saved) && FreshIds(w, events)
    ensures Sound(Play(w, events).saved)
    decreases |events|
  {
    if events != [] {
      match events[0] {
        case Act(call) => DecideIsSound(w, call);
        case Propose(id, m, _) => OfferedIsSound(w.saved, id, m);
        case Say(text, _) => SaidIsSound(w.saved, text);
        case Elsewhere(_) =>
      }
      RunIsSound(Next(w, events[0]), events[1..]);
    }
  }

  lemma {:induction false} FindInPrefix(actions: seq<Action>, more: seq<Action>, id: Id)
    requires Find(actions, id).Some?
    ensures Find(actions + more, id) == Find(actions, id)
  {
    if actions[0].id != id {
      assert (actions + more)[1..] == actions[1..] + more;
      FindInPrefix(actions[1..], more, id);
    }
  }

  /** One event, seen from one action. */
  lemma NextStatus(w: World, e: Event, id: Id)
    requires Find(w.saved.actions, id).Some?
    ensures var before := Find(w.saved.actions, id).value; var after := Find(Next(w, e).saved.actions, id);
      && after.Some? && after.value.mutation == before.mutation
      && (after.value == before
          || (e.Act? && e.call.action == id && MayBecome(before.status, after.value.status, e.call.approve)))
    ensures Next(w, e).project == w.project
  {
    match e
    case Act(call) => DecideStatus(w, call, id); DecideAdvances(w, call);
    case Propose(other, m, _) => FindInPrefix(w.saved.actions, [Action(other, m, Proposed, None)], id);
    case _ =>
  }

  /** An outcome or a rejection, once in the file, never changes again. */
  lemma {:induction false} TerminalIsFinal(w: World, events: seq<Event>, id: Id)
    requires StatusOf(w, id).Some? && Terminal(StatusOf(w, id).value)
    ensures Find(Play(w, events).saved.actions, id) == Find(w.saved.actions, id)
    decreases |events|
  {
    if events != [] {
      NextStatus(w, events[0], id);
      TerminalIsFinal(Next(w, events[0]), events[1..], id);
    }
  }

  // ------------------------------------------------------- applied once

  /** Nothing but the action itself touches its target in this run. */
  ghost predicate Undisturbed(w: World, events: seq<Event>, id: Id, target: Id)
    decreases |events|
  {
    events == [] || (
      && ((events[0].Act? && events[0].call.action == id)
          || TaskAt(Next(w, events[0]).store, target) == TaskAt(w.store, target))
      && Undisturbed(Next(w, events[0]), events[1..], id, target))
  }

  /** What the record claims of the target, given what it was to begin with. */
  ghost predicate Accounted(w: World, id: Id, m: Mutation, start: Option<Task>) {
    && Find(w.saved.actions, id).Some? && Find(w.saved.actions, id).value.mutation == m
    && var now := TaskAt(w.store, TargetOf(m)); var a := Find(w.saved.actions, id).value;
       match a.status
       case Approved => now == start || Visible(w.project, id, m, now)
       case Applied => Visible(w.project, id, m, now)
       case _ => now == start
  }

  lemma AttemptIsAccounted(base: World, after: World, id: Id, m: Mutation, env: Env, start: Option<Task>)
    requires Repeatable(m) && Accounted(base, id, m, start) && StatusOf(base, id) == Some(Approved)
    requires Attempted(base, after, id, m, env)
    ensures Accounted(after, id, m, start)
  {
    var (store, answer) := Execute(base.store, base.project, id, m, env);
    EffectBecomesVisible(base.store, base.project, id, m, env);
    if Visible(base.project, id, m, TaskAt(base.store, TargetOf(m))) {
      RetryObserves(base.store, base.project, id, m, env);
    }
    if answer.Ok? {
      ConcludedStatus(base.saved, id, answer.value, id);
    }
  }

  lemma ActIsAccounted(w: World, c: Call, m: Mutation, start: Option<Task>)
    requires Repeatable(m) && Accounted(w, c.action, m, start)
    ensures Accounted(Decide(w, c).0, c.action, m, start)
  {
    DecideShape(w, c);
    DecidedStatus(w.saved, c.action, c.approve, c.action);
    DecidedStatus(w.saved, c.action, true, c.action);
    if Attempted(Base(w, c.action), Decide(w, c).0, c.action, m, c.env)
      && c.approve && !Terminal(StatusOf(w, c.action).value)
    {
      AttemptIsAccounted(Base(w, c.action), Decide(w, c).0, c.action, m, c.env, start);
    }
  }

  /** An operation is done exactly when the record says Applied, as
      far as the record has got: Rejected or Refused means the target is as it
      was, Applied means the effect is there, and between the two it is one or
      the other. */
  lemma {:induction false} RecordMatchesEffect(w: World, events: seq<Event>, id: Id, m: Mutation, start: Option<Task>)
    requires Repeatable(m) && Accounted(w, id, m, start) && Undisturbed(w, events, id, TargetOf(m))
    ensures Accounted(Play(w, events), id, m, start)
    decreases |events|
  {
    if events != [] {
      NextStatus(w, events[0], id);
      if events[0].Act? && events[0].call.action == id {
        ActIsAccounted(w, events[0].call, m, start);
      }
      RecordMatchesEffect(Next(w, events[0]), events[1..], id, m, start);
    }
  }

  /** A call leaves the store alone, or as one uninterrupted attempt would. */
  lemma ActsOnce(w: World, c: Call, m: Mutation)
    requires Find(w.saved.actions, c.action).Some? && Find(w.saved.actions, c.action).value.mutation == m
    ensures Decide(w, c).0.store == w.store || Decide(w, c).0.store == Execute(w.store, w.project, c.action, m, c.env).0
  {
    DecideShape(w, c);
  }

  lemma {:induction false} StaysVisible(w: World, events: seq<Event>, id: Id, m: Mutation)
    requires Repeatable(m) && Find(w.saved.actions, id).Some? && Find(w.saved.actions, id).value.mutation == m
    requires Visible(w.project, id, m, TaskAt(w.store, TargetOf(m))) && Undisturbed(w, events, id, TargetOf(m))
    ensures TaskAt(Play(w, events).store, TargetOf(m)) == TaskAt(w.store, TargetOf(m))
    decreases |events|
  {
    if events != [] {
      NextStatus(w, events[0], id);
      if events[0].Act? && events[0].call.action == id {
        ActsOnce(w, events[0].call, m);
        RetryObserves(w.store, w.project, id, m, events[0].call.env);
      }
      StaysVisible(Next(w, events[0]), events[1..], id, m);
    }
  }

  /** The event of the run that made the change. */
  ghost predicate MadeAt(w: World, events: seq<Event>, id: Id, m: Mutation, k: nat)
    requires k < |events|
  {
    && events[k].Act? && events[k].call.action == id
    && TaskAt(Play(w, events[..k]).store, TargetOf(m)) == TaskAt(w.store, TargetOf(m))
    && TaskAt(Play(w, events).store, TargetOf(m))
       == TaskAt(Execute(Play(w, events[..k]).store, w.project, id, m, events[k].call.env).0, TargetOf(m))
  }

  lemma MadeLater(w: World, events: seq<Event>, id: Id, m: Mutation, k: nat)
    requires events != [] && k < |events[1..]| && Next(w, events[0]).project == w.project
    requires TaskAt(Next(w, events[0]).store, TargetOf(m)) == TaskAt(w.store, TargetOf(m))
    requires MadeAt(Next(w, events[0]), events[1..], id, m, k)
    ensures MadeAt(w, events, id, m, k + 1)
  {
    assert events[..k + 1][1..] == events[1..][..k] && events[k + 1] == events[1..][k];
  }

  /** However often the same approval is tried and wherever each try dies, the
      target ends as it was, or as exactly one uninterrupted attempt leaves it. */
  lemma {:induction false} AppliedAtMostOnce(w: World, events: seq<Event>, id: Id, m: Mutation)
    requires Repeatable(m) && Find(w.saved.actions, id).Some? && Find(w.saved.actions, id).value.mutation == m
    requires Undisturbed(w, events, id, TargetOf(m))
    ensures TaskAt(Play(w, events).store, TargetOf(m)) == TaskAt(w.store, TargetOf(m))
      || exists k :: 0 <= k < |events| && MadeAt(w, events, id, m, k)
    decreases |events|
  {
    if events != [] {
      var next, rest := Next(w, events[0]), events[1..];
      NextStatus(w, events[0], id);
      if TaskAt(next.store, TargetOf(m)) == TaskAt(w.store, TargetOf(m)) {
        AppliedAtMostOnce(next, rest, id, m);
        if k :| 0 <= k < |rest| && MadeAt(next, rest, id, m, k) {
          MadeLater(w, events, id, m, k);
        }
      } else {
        ActsOnce(w, events[0].call, m);
        EffectBecomesVisible(w.store, w.project, id, m, events[0].call.env);
        StaysVisible(next, rest, id, m);
        assert events[..0] == [];
        assert MadeAt(w, events, id, m, 0);
      }
    }
  }
}
