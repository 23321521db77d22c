/** What one attempt at an approved operation answers, and why: which refusals are
    for good, which failures are worth another try, and what the Task it is about
    then holds (`execute` in `src-tauri/src/conversation_actions.rs`). */
module Attempts {
  import opened Durability
  import opened Tasks
  import opened Boards
  import opened Columns
  import opened QueueEntry
  import opened Conversations
  import opened Effects

  /** Why an attempt that settled nothing failed. */
  lemma FailureNames(s: Store, project: Id, action: Id, m: Mutation, env: Env)
    ensures var answer := Execute(s, project, action, m, env).1;
      answer.Err? ==>
        match answer.error
        case NoProject => m.CreateTask? && !env.projectPresent
        case LeaseBusy => !m.CreateTask? && !m.EditTask? && !env.leased
        case TaskNotSaved => !env.save.Confirmed?
        case _ => false
  {
  }

  /** The approval a queue entry is made under: what the proposal showed. */
  function Under(action: Id, m: Mutation): (a: Approval)
    requires m.EnqueueTask? || m.ExecuteRequest?
    ensures a.id == action
    ensures m.EnqueueTask? ==>
      a.request.None? && a.checkout.None? && a.digest == if m.shown.Some? then m.shown.value else ""
    ensures m.ExecuteRequest? ==> a.request == Some(m.request) && a.checkout == m.checkout && a.digest == m.input
  {
    if m.EnqueueTask? then ShownApproval(action, m.shown) else Approval(action, m.input, Some(m.request), m.checkout)
  }

  /** The Task the operation names, in the Project the Conversation is about. */
  predicate Here(s: Store, project: Id, m: Mutation) {
    TargetOf(m) in s.tasks && s.tasks[TargetOf(m)].project == project
  }

  predicate AsksForQueue(m: Mutation) {
    m.EnqueueTask? || m.ExecuteRequest?
  }

  /** What each refusal says of the operation, the Task and git. */
  ghost predicate RefusedBecause(s: Store, project: Id, action: Id, m: Mutation, env: Env, reason: Reason) {
    match reason
    case IdElsewhere => m.CreateTask? && m.task in s.tasks && s.tasks[m.task].project != project
    case TaskGone => !m.CreateTask? && TargetOf(m) !in s.tasks
    case TaskElsewhere => !m.CreateTask? && TargetOf(m) in s.tasks && s.tasks[TargetOf(m)].project != project
    case EditedSince =>
      && m.EditTask? && Here(s, project, m)
      && (exists c :: c in m.changes && !IsObservedIn(c, s.tasks[m.target]))
      && (exists c :: c in m.changes && !IsAppliedTo(c, s.tasks[m.target]))
    case MoveUnavailable => m.MoveTask? && !(m.to.Backlog? && (m.from.Queue? || m.from.Error?))
    case MovedSince => m.MoveTask? && Here(s, project, m) && s.tasks[m.target].status != m.from && s.tasks[m.target].status != m.to
    case NotFromBacklog => AsksForQueue(m) && !m.from.Backlog?
    case LeftBacklog =>
      AsksForQueue(m) && Here(s, project, m) && !s.tasks[m.target].status.Backlog? && !s.tasks[m.target].status.Queue?
    case InputDiffers =>
      && AsksForQueue(m) && Here(s, project, m) && s.tasks[m.target].status.Backlog?
      && env.h(s.tasks[m.target], Under(action, m).request) != Under(action, m).digest
    case QueueBlocked =>
      && AsksForQueue(m) && Here(s, project, m) && s.tasks[m.target].status.Backlog?
      && env.h(s.tasks[m.target], Under(action, m).request) == Under(action, m).digest
      && (QueueEntryRefusal(s.tasks[m.target]).Some? || !Authorizes(env.h, s.tasks[m.target], Under(action, m)))
    case RequestNotAttached =>
      && m.ExecuteRequest? && Here(s, project, m) && s.tasks[m.target].status.Queue?
      && !(s.tasks[m.target].binding.Some? && s.tasks[m.target].binding.value.approvalId == action)
      && forall e :: e in s.tasks[m.target].executed ==> e.approvalId != action
    case CheckoutDiffers(why) =>
      && m.ExecuteRequest? && m.checkout.Some? && env.checkoutRefused == Some(why)
      && m.target in s.tasks && s.tasks[m.target].status.Backlog?
  }

  /** Which of its refusals the queue's own check gives. */
  lemma CheckedApproval(h: Digest, t: Task, project: Id, seenIn: Status, a: Approval)
    ensures match QueueEntryCheck(h, t, project, seenIn, Some(a))
      case Some(OtherProject) => t.project != project
      case Some(AlreadyQueued(title)) => t.project == project && t.status.Queue? && title == t.title
      case Some(MovedOn(status)) => t.project == project && !t.status.Queue? && t.status != seenIn && status == t.status
      case Some(InputChanged) => t.project == project && t.status == seenIn && h(t, a.request) != a.digest
      case Some(Blocked(_)) =>
        && t.project == project && t.status == seenIn && h(t, a.request) == a.digest
        && (QueueEntryRefusal(t).Some? || !Authorizes(h, t, a))
      case Some(_) => false
      case None => true
  {
  }

  /** What a verdict of the queue says of the Task, in the Conversation's terms. */
  ghost predicate VerdictOf(s: Store, project: Id, action: Id, m: Mutation, env: Env, verdict: Verdict)
    requires AsksForQueue(m) && m.target in s.tasks
  {
    var t, a := s.tasks[m.target], Under(action, m);
    match verdict
    case OtherProject => t.project != project
    case AlreadyQueued(title) => t.project == project && t.status.Queue? && title == t.title
    case MovedOn(_) => t.project == project && !t.status.Queue? && !t.status.Backlog?
    case InputChanged => t.project == project && t.status.Backlog? && env.h(t, a.request) != a.digest
    case Blocked(_) =>
      && t.project == project && t.status.Backlog? && env.h(t, a.request) == a.digest
      && (QueueEntryRefusal(t).Some? || !Authorizes(env.h, t, a))
    case Queued(title) => title == t.title
    case Missing => false
  }

  lemma EntryVerdict(s: Store, project: Id, action: Id, m: Mutation, env: Env)
    requires AsksForQueue(m) && m.target in s.tasks && m.from.Backlog?
    ensures var staged := Stage(s.tasks, s.tasks[m.target].project);
      VerdictOf(s, project, action, m, env,
        EnqueueStaged(env.h, staged, project, m.target, m.from, Some(Under(action, m)), env.now, env.keys).0)
  {
    var t := s.tasks[m.target];
    assert m.target in Stage(s.tasks, t.project) && Stage(s.tasks, t.project)[m.target] == t;
    CheckedApproval(env.h, t, project, m.from, Under(action, m));
  }

  /** What the Conversation is told of each verdict of the queue. */
  lemma VerdictIsTold(s: Store, project: Id, action: Id, m: Mutation, env: Env, verdict: Verdict)
    requires AsksForQueue(m) && m.target in s.tasks && m.from.Backlog? && VerdictOf(s, project, action, m, env, verdict)
    ensures var told := EnqueueAnswer(m.target, verdict); var title := s.tasks[m.target].title;
      && (verdict.Queued? ==> told == Effected(m.target, title))
      && (told.Declined? ==> RefusedBecause(s, project, action, m, env, told.reason))
      && (told.WasQueued? ==> Here(s, project, m) && s.tasks[m.target].status.Queue? && told == WasQueued(m.target, title))
      && (told.Effected? ==> verdict.Queued?)
  {
  }

  /** The answer of an attempt at a queue entry, with its cause. */
  ghost predicate Told(s: Store, project: Id, action: Id, m: Mutation, env: Env, answer: Answer)
    requires AsksForQueue(m)
  {
    && (answer.Ok? && answer.value.Declined? ==> RefusedBecause(s, project, action, m, env, answer.value.reason))
    && (answer.Ok? && answer.value.WasQueued? ==>
          && Here(s, project, m) && s.tasks[m.target].status.Queue? && m.from.Backlog?
          && answer.value == WasQueued(m.target, s.tasks[m.target].title))
    && (answer.Ok? && answer.value.Effected? ==> m.target in s.tasks && answer.value == Effected(m.target, s.tasks[m.target].title))
  }

  lemma EntryDeclines(s: Store, project: Id, action: Id, m: Mutation, env: Env)
    requires AsksForQueue(m)
    ensures Told(s, project, action, m, env, Enqueue(s, project, m.target, m.from, Under(action, m), env).1)
  {
    if m.target in s.tasks && m.from.Backlog? {
      EntryVerdict(s, project, action, m, env);
      var staged := Stage(s.tasks, s.tasks[m.target].project);
      VerdictIsTold(s, project, action, m, env,
        EnqueueStaged(env.h, staged, project, m.target, m.from, Some(Under(action, m)), env.now, env.keys).0);
    }
  }

  /** Every refusal for good names its cause. */
  lemma DeclineMeans(s: Store, project: Id, action: Id, m: Mutation, env: Env)
    ensures var answer := Execute(s, project, action, m, env).1;
      answer.Ok? && answer.value.Declined? ==> RefusedBecause(s, project, action, m, env, answer.value.reason)
  {
    if AsksForQueue(m) {
      EntryDeclines(s, project, action, m, env);
    }
  }

  /** What is reported done is reported of the Task named, by the title it then has. */
  ghost predicate NamesTask(m: Mutation, after: Store, answer: Answer) {
    answer.Ok? && answer.value.Effected? ==>
      && answer.value.task == TargetOf(m) && TargetOf(m) in after.tasks
      && answer.value.title == after.tasks[TargetOf(m)].title
  }

  lemma QueuedNames(s: Store, project: Id, action: Id, m: Mutation, env: Env)
    requires AsksForQueue(m)
    ensures var (after, answer) := Execute(s, project, action, m, env); NamesTask(m, after, answer)
    ensures var answer := Execute(s, project, action, m, env).1;
      answer.Ok? && answer.value.WasQueued? ==>
        m.EnqueueTask? && Here(s, project, m) && s.tasks[m.target].status.Queue?
        && answer.value == WasQueued(m.target, s.tasks[m.target].title)
  {
    EntryDeclines(s, project, action, m, env);
    if m.target in s.tasks { QueuedTitle(s, project, action, m, env); }
  }

  lemma EditNames(s: Store, project: Id, action: Id, m: Mutation, env: Env)
    requires m.EditTask?
    ensures var (after, answer) := Execute(s, project, action, m, env);
      NamesTask(m, after, answer) && !(answer.Ok? && answer.value.WasQueued?)
  {
    if m.target in s.tasks {
      OnlyApprovedFields(m.changes, s.tasks[m.target]);
    }
  }

  lemma MoveNames(s: Store, project: Id, action: Id, m: Mutation, env: Env)
    requires m.MoveTask?
    ensures var (after, answer) := Execute(s, project, action, m, env);
      NamesTask(m, after, answer) && !(answer.Ok? && answer.value.WasQueued?)
  {
    if m.target in s.tasks {
      MovedTitle(s.tasks[m.target], m.to, NextBacklogPosition(Stage(s.tasks, project), project, env.keys), env.now);
    }
  }

  lemma CreationNames(s: Store, project: Id, action: Id, m: Mutation, env: Env)
    requires m.CreateTask?
    ensures var (after, answer) := Execute(s, project, action, m, env);
      NamesTask(m, after, answer) && !(answer.Ok? && answer.value.WasQueued?)
  {
  }

  /** Only an enqueue answers that the Task was queued already, of one that was; and
      whatever is reported done is reported of the Task named, by its title. */
  lemma DoneNames(s: Store, project: Id, action: Id, m: Mutation, env: Env)
    ensures var (after, answer) := Execute(s, project, action, m, env);
      && (answer.Ok? && answer.value.WasQueued? ==>
            m.EnqueueTask? && Here(s, project, m) && s.tasks[m.target].status.Queue?
            && answer.value == WasQueued(m.target, s.tasks[m.target].title))
      && (answer.Ok? && answer.value.Effected? ==>
            && answer.value.task == TargetOf(m) && TargetOf(m) in after.tasks
            && answer.value.title == after.tasks[TargetOf(m)].title)
  {
    match m
    case CreateTask(_, _, _, _, _) => CreationNames(s, project, action, m, env);
    case EditTask(_, _) => EditNames(s, project, action, m, env);
    case MoveTask(_, _, _) => MoveNames(s, project, action, m, env);
    case _ => QueuedNames(s, project, action, m, env);
  }

  lemma RecordedTitle(t: Task, from: Status, now: Time)
    ensures RecordMove(t, from, now).title == t.title
  {
  }

  lemma MovedTitle(t: Task, to: Status, position: int, now: Time)
    ensures MovedTo(t, to, position, now).title == t.title
  {
    var placed := t.(status := to, position := position);
    RecordedTitle(placed, t.status, now);
    assert placed.title == t.title;
  }

  lemma QueuedTitle(s: Store, project: Id, action: Id, m: Mutation, env: Env)
    requires AsksForQueue(m) && m.target in s.tasks
    ensures var after := Enqueue(s, project, m.target, m.from, Under(action, m), env).0;
      m.target in after.tasks && after.tasks[m.target].title == s.tasks[m.target].title
  {
    EntryTitle(Stage(s.tasks, s.tasks[m.target].project), project, action, m, env);
  }

  lemma EntryTitle(staged: Board, project: Id, action: Id, m: Mutation, env: Env)
    requires AsksForQueue(m) && m.target in staged
    ensures var r := EnqueueStaged(env.h, staged, project, m.target, m.from, Some(Under(action, m)), env.now, env.keys).1;
      m.target in r && r[m.target].title == staged[m.target].title
  {
    var b := staged[m.target := Entered(staged[m.target], Some(Under(action, m)), env.now)];
    NumberedKeeps(b, Placed(b, project, m.target, Queue, 0, env.keys), m.target);
    EnteredTitle(staged[m.target], Some(Under(action, m)), env.now);
  }

  lemma EnteredTitle(t: Task, approval: Option<Approval>, now: Time)
    ensures Entered(t, approval, now).title == t.title
  {
  }

  /** What a change of column calls for: a cleanup when the work is done, a fresh start
      when the Task failed or goes back to wait or run, and otherwise nothing. */
  lemma TransitionsSay(before: Status, after: Status)
    ensures var starts := before.Error? || after.Backlog? || after.Queue? || after.InProgress?;
      && (after.Done? ==> Classify(before, after).CleanUpWorktree?)
      && (!after.Done? ==> Classify(before, after) == if starts then ResetExecutionState else Plainly)
  {
  }

  /** What a moved Task is: in Backlog at the place given, with the traces of its
      runs cleared, one move on its log, and no binding. */
  predicate MovedBack(t: Task, position: int, now: Time, r: Task) {
    && r.status.Backlog? && r.position == position && r.phase.Idle? && r.progress == 0 && r.error.None? && r.binding.None?
    && r.activity == Record(t.activity, now, Moved(t.status, Backlog))
    && (if IsApproved(t) then r.review.None? else r.review == t.review)
    && r == t.(status := r.status, position := r.position, phase := r.phase, progress := r.progress, error := r.error,
               binding := r.binding, activity := r.activity, review := r.review)
  }

  lemma MovedIsBack(t: Task, position: int, now: Time)
    requires t.status.Queue? || t.status.Error?
    ensures MovedBack(t, position, now, MovedTo(t, Backlog, position, now))
  {
  }

  /** A move that changes the store puts exactly such a Task there, after every card
      of the Backlog. */
  lemma MoveWrites(s: Store, project: Id, action: Id, m: Mutation, env: Env)
    requires m.MoveTask?
    ensures var after := Execute(s, project, action, m, env).0;
      after != s ==>
        && Here(s, project, m) && m.target in after.tasks
        && MovedBack(s.tasks[m.target], NextBacklogPosition(Stage(s.tasks, project), project, env.keys), env.now, after.tasks[m.target])
  {
    var after := Execute(s, project, action, m, env).0;
    if after != s {
      MoveIsCompareAndSet(s, project, m.target, m.from, m.to, env);
      MovedIsBack(s.tasks[m.target], NextBacklogPosition(Stage(s.tasks, project), project, env.keys), env.now);
    }
  }
}
