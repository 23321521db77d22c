/** Step two of an approval: the one mutation of the Task store an approved
    action makes, and what a retry of it observes
    (`execute`, `move_task`, `edit_task`, `enqueue_task` in
    `src-tauri/src/conversation_actions.rs`). */
module Effects {
  import opened Durability
  import opened Tasks
  import opened Boards
  import opened Columns
  import opened QueueEntry
  import opened Conversations

  datatype Execution =
    | Effected(task: Id, title: string)
    | WasQueued(task: Id, title: string)
    | Declined(reason: Reason)

  /** Why an attempt settled nothing, and may be repeated. */
  datatype Failure = UnknownAction | AlreadyApproved | NotAwaiting | NotSaved | TaskNotSaved | LeaseBusy | NoProject

  type Answer = Result<Execution, Failure>

  /** What one attempt meets: the Project list, the lease, git's answer about a
      checkout to reuse, the clock, and the answer of the Task file. */
  datatype Env = Env(
    projectPresent: bool, model: string, h: Digest, leased: bool, checkoutRefused: Option<string>, keys: seq<Id>,
    now: Time, save: Save)

  predicate CoordinatorMayMove(from: Status, to: Status) {
    (from.Queue? || from.Error?) && to.Backlog?
  }

  datatype Transition = CleanUpWorktree | ResetExecutionState | Plainly

  /** `classify_status_transition`. */
  function Classify(before: Status, after: Status): Transition {
    if after.Done? then CleanUpWorktree
    else if before.Error? || after.Backlog? || after.Queue? || after.InProgress? then ResetExecutionState
    else Plainly
  }

  /** The Task as an approved move leaves it. */
  function MovedTo(t: Task, to: Status, position: int, now: Time): Task {
    var moved := RecordMove(t.(status := to, position := position), t.status, now);
    if Classify(t.status, to).ResetExecutionState? then ResetExecution(moved) else moved
  }

  /** A conditional write of one Project's board, and the answer for it. */
  function Write(s: Store, project: Id, staged: Board, save: Save, done: Execution): (Store, Answer) {
    (Perform(s, Replace(project, staged, save)), if save.Confirmed? then Ok(done) else Err(TaskNotSaved))
  }

  function Create(s: Store, project: Id, m: Mutation, env: Env): (Store, Answer)
    requires m.CreateTask?
  {
    if !env.projectPresent then (s, Err(NoProject))
    else if m.task in s.tasks then
      (s, Ok(if s.tasks[m.task].project == project then Effected(m.task, s.tasks[m.task].title)
             else Declined(IdElsewhere)))
    else
      var staged := Stage(s.tasks, project);
      var t := NewBacklog(staged, env.keys, m.task, project, m.title, m.description, m.priority, m.category, env.model);
      Write(s, project, staged[m.task := t], env.save, Effected(m.task, m.title))
  }

  function Edit(s: Store, project: Id, target: Id, changes: seq<FieldChange>, env: Env): (Store, Answer) {
    if target !in s.tasks then (s, Ok(Declined(TaskGone)))
    else
      var t := s.tasks[target];
      if t.project != project then (s, Ok(Declined(TaskElsewhere)))
      else if AllApplied(changes, t) then (s, Ok(Effected(target, t.title)))
      else if !AllObserved(changes, t) then (s, Ok(Declined(EditedSince)))
      else
        var r := ApplyAll(changes, t);
        Write(s, project, Stage(s.tasks, project)[target := r], env.save, Effected(target, r.title))
  }

  function Move(s: Store, project: Id, target: Id, from: Status, to: Status, env: Env): (Store, Answer) {
    if !CoordinatorMayMove(from, to) then (s, Ok(Declined(MoveUnavailable)))
    else if !env.leased then (s, Err(LeaseBusy))
    else if target !in s.tasks then (s, Ok(Declined(TaskGone)))
    else
      var t := s.tasks[target];
      if t.project != project then (s, Ok(Declined(TaskElsewhere)))
      else if t.status == to then (s, Ok(Effected(target, t.title)))
      else if t.status != from then (s, Ok(Declined(MovedSince)))
      else if !CoordinatorMayMove(t.status, to) then (s, Ok(Declined(MoveUnavailable)))
      else WriteMove(s, project, target, t, to, env)
  }

  function WriteMove(s: Store, project: Id, target: Id, t: Task, to: Status, env: Env): (Store, Answer) {
    var staged := Stage(s.tasks, project);
    var r := MovedTo(t, to, NextBacklogPosition(staged, project, env.keys), env.now);
    Write(s, project, staged[target := r], env.save, Effected(target, t.title))
  }

  function EnqueueAnswer(target: Id, verdict: Verdict): Execution {
    match verdict
    case Queued(title) => Effected(target, title)
    case AlreadyQueued(title) => WasQueued(target, title)
    case MovedOn(_) => Declined(LeftBacklog)
    case InputChanged => Declined(InputDiffers)
    case Missing => Declined(TaskGone)
    case OtherProject => Declined(TaskElsewhere)
    case Blocked(_) => Declined(QueueBlocked)
  }

  function Enqueue(s: Store, project: Id, target: Id, from: Status, approval: Approval, env: Env): (Store, Answer) {
    if !from.Backlog? then (s, Ok(Declined(NotFromBacklog)))
    else if !env.leased then (s, Err(LeaseBusy))
    else if target !in s.tasks then (s, Ok(Declined(TaskGone)))
    else if approval.checkout.Some? && s.tasks[target].status.Backlog? && env.checkoutRefused.Some? then
      (s, Ok(Declined(CheckoutDiffers(env.checkoutRefused.value))))
    else
      var p := s.tasks[target].project;
      var (verdict, staged) :=
        EnqueueStaged(env.h, Stage(s.tasks, p), project, target, from, Some(approval), env.now, env.keys);
      if verdict.Queued? then Write(s, p, staged, env.save, EnqueueAnswer(target, verdict))
      else (s, Ok(EnqueueAnswer(target, verdict)))
  }

  predicate Carries(t: Task, action: Id) {
    (t.binding.Some? && t.binding.value.approvalId == action) || RanUnder(t, action)
  }

  /** An additional request is done only on a Task that carries it. */
  function Request(s: Store, project: Id, target: Id, from: Status, approval: Approval, env: Env): (Store, Answer) {
    var (after, answer) := Enqueue(s, project, target, from, approval, env);
    match answer
    case Ok(WasQueued(_, title)) =>
      (after, Ok(if target in after.tasks && Carries(after.tasks[target], approval.id) then Effected(target, title)
                 else Declined(RequestNotAttached)))
    case _ => (after, answer)
  }

  /** A proposal saved before its input was shown carries the empty digest. */
  function ShownApproval(action: Id, shown: Option<string>): Approval {
    Approval(action, if shown.Some? then shown.value else "", None, None)
  }

  /** `execute`: an `Err` is worth a retry, anything else is definite. */
  function Execute(s: Store, project: Id, action: Id, m: Mutation, env: Env): (Store, Answer) {
    match m
    case CreateTask(_, _, _, _, _) => Create(s, project, m, env)
    case EditTask(target, changes) => Edit(s, project, target, changes, env)
    case MoveTask(target, from, to) => Move(s, project, target, from, to, env)
    case EnqueueTask(target, from, shown) =>
      Enqueue(s, project, target, from, ShownApproval(action, shown), env)
    case ExecuteRequest(target, from, request, input, checkout) =>
      Request(s, project, target, from, Approval(action, input, Some(request), checkout), env)
  }

  // --------------------------------------------------------- what a retry sees

  function TargetOf(m: Mutation): Id {
    match m
    case CreateTask(task, _, _, _, _) => task
    case EditTask(target, _) => target
    case MoveTask(target, _, _) => target
    case EnqueueTask(target, _, _) => target
    case ExecuteRequest(target, _, _, _, _) => target
  }

  function TaskAt(s: Store, id: Id): Option<Task> {
    if id in s.tasks then Some(s.tasks[id]) else None
  }

  /** The mutations whose effect a retry recognises on the Task itself: all but
      an edit that contradicts itself. */
  predicate Repeatable(m: Mutation) {
    m.EditTask? ==> Consistent(m.changes)
  }

  predicate Queues(m: Mutation) {
    m.EnqueueTask? || m.ExecuteRequest?
  }

  /** The effect of `m` is there to be seen. */
  predicate Visible(project: Id, action: Id, m: Mutation, found: Option<Task>) {
    && found.Some? && found.value.project == project
    && match m
       case CreateTask(_, _, _, _, _) => true
       case EditTask(_, changes) => AllApplied(changes, found.value)
       case MoveTask(_, from, to) => CoordinatorMayMove(from, to) && found.value.status == to
       case EnqueueTask(_, from, _) => from.Backlog? && found.value.status.Queue?
       case ExecuteRequest(_, from, _, _, _) => from.Backlog? && found.value.status.Queue? && Carries(found.value, action)
  }

  /** The attempt does not get as far as looking at the Task. */
  predicate HeldUp(m: Mutation, env: Env) {
    match m
    case CreateTask(_, _, _, _, _) => !env.projectPresent
    case EditTask(_, _) => false
    case _ => !env.leased
  }

  /** Where the effect is already visible, an attempt changes nothing: it says
      so, or fails for a reason that is worth another retry. */
  lemma RetryObserves(s: Store, project: Id, action: Id, m: Mutation, env: Env)
    requires Repeatable(m) && Visible(project, action, m, TaskAt(s, TargetOf(m)))
    ensures var (after, answer) := Execute(s, project, action, m, env); var title := s.tasks[TargetOf(m)].title;
      && after == s && (answer.Err? <==> HeldUp(m, env))
      && (answer.Ok? ==> answer.value == if m.EnqueueTask? then WasQueued(m.target, title) else Effected(TargetOf(m), title))
  {
    if m.EnqueueTask? {
      QueuedObserves(s, project, m.target, m.from, ShownApproval(action, m.shown), env);
    } else if m.ExecuteRequest? {
      QueuedObserves(s, project, m.target, m.from, Approval(action, m.input, Some(m.request), m.checkout), env);
    }
  }

  lemma QueuedObserves(s: Store, project: Id, target: Id, from: Status, approval: Approval, env: Env)
    requires target in s.tasks && s.tasks[target].project == project && s.tasks[target].status.Queue? && from.Backlog?
    ensures Enqueue(s, project, target, from, approval, env)
         == (s, if env.leased then Ok(WasQueued(target, s.tasks[target].title)) else Err(LeaseBusy))
  {
    assert target in Stage(s.tasks, project);
  }

  lemma MovedFacts(t: Task, to: Status, position: int, now: Time)
    requires t.status != to && to.Backlog?
    ensures var r := MovedTo(t, to, position, now);
      && r.status == to && r.position == position && r.project == t.project && r.id == t.id && r.binding.None?
      && r.activity == Record(t.activity, now, Moved(t.status, to))
      && r.phase.Idle? && r.progress == 0 && r.error.None? && r.executed == t.executed && r.review == Withdrawn(t.review)
      && r.worktree == t.worktree && r.branch == t.branch && r.cleanupInFlight == t.cleanupInFlight
      && r.title == t.title && r.description == t.description
  {
  }

  lemma EditedProject(changes: seq<FieldChange>, t: Task)
    ensures ApplyAll(changes, t).project == t.project
  {
    OnlyApprovedFields(changes, t);
  }

  /** The attempt did its work, or nothing; and it says "done" only of work
      that is there to be seen. */
  ghost predicate Faithful(s: Store, project: Id, action: Id, m: Mutation, env: Env, after: Store, answer: Answer) {
    && (after != s ==>
          && !Visible(project, action, m, TaskAt(s, TargetOf(m))) && Visible(project, action, m, TaskAt(after, TargetOf(m)))
          && (answer.Ok? ==> answer.value.Effected?) && Published(env.save))
    && (answer.Ok? && !answer.value.Declined? ==> Visible(project, action, m, TaskAt(after, TargetOf(m))))
  }

  lemma WriteShows(s: Store, project: Id, target: Id, t: Task, save: Save, done: Execution)
    ensures var after := Write(s, project, Stage(s.tasks, project)[target := t], save, done).0;
      if Published(save) then TaskAt(after, target) == Some(t) else after == s
  {
  }

  lemma CreateIsFaithful(s: Store, project: Id, action: Id, m: Mutation, env: Env)
    requires m.CreateTask?
    ensures Faithful(s, project, action, m, env, Create(s, project, m, env).0, Create(s, project, m, env).1)
  {
  }

  lemma EditIsFaithful(s: Store, project: Id, action: Id, m: Mutation, env: Env)
    requires m.EditTask? && Consistent(m.changes)
    ensures var (after, answer) := Edit(s, project, m.target, m.changes, env); Faithful(s, project, action, m, env, after, answer)
  {
    if m.target in s.tasks {
      EditedProject(m.changes, s.tasks[m.target]);
      AppliedIffConsistent(m.changes, s.tasks[m.target]);
    }
  }

  lemma WriteMoveShows(s: Store, project: Id, target: Id, t: Task, to: Status, env: Env)
    requires t.status != to && to.Backlog?
    ensures var (after, answer) := WriteMove(s, project, target, t, to, env);
      && (answer.Ok? ==> answer.value.Effected? && Published(env.save))
      && if Published(env.save) then target in after.tasks && after.tasks[target].status == to && after.tasks[target].project == t.project
         else after == s
  {
    var position := NextBacklogPosition(Stage(s.tasks, project), project, env.keys);
    MovedFacts(t, to, position, env.now);
    WriteShows(s, project, target, MovedTo(t, to, position, env.now), env.save, Effected(target, t.title));
  }

  lemma MoveIsFaithful(s: Store, project: Id, action: Id, m: Mutation, env: Env)
    requires m.MoveTask?
    ensures var (after, answer) := Move(s, project, m.target, m.from, m.to, env); Faithful(s, project, action, m, env, after, answer)
  {
    if m.target in s.tasks && s.tasks[m.target].status != m.to && m.to.Backlog? {
      WriteMoveShows(s, project, m.target, s.tasks[m.target], m.to, env);
    }
  }

  /** Numbering a column changes positions only. */
  lemma NumberedKeeps(b: Board, order: seq<Id>, id: Id)
    requires id in b
    ensures Numbered(b, order)[id] == b[id].(position := Numbered(b, order)[id].position)
  {
  }

  lemma BoundByEntry(t: Task, approval: Approval, now: Time)
    ensures !t.status.Queue? ==>
      var r := Entered(t, Some(approval), now);
      && r.status.Queue? && r.project == t.project && r.binding.Some?
      && r.binding.value == Binding(approval.id, approval.digest, NextRun(r.activity), approval.request, approval.checkout)
  {
  }

  /** The queue admits the Task under `approval`. */
  predicate EntryAdmitted(staged: Board, project: Id, target: Id, from: Status, approval: Approval, env: Env) {
    EnqueueStaged(env.h, staged, project, target, from, Some(approval), env.now, env.keys).0.Queued?
  }

  /** An admitted entry under an approval, seen on the Project's own board. */
  lemma EntryBinds(staged: Board, project: Id, target: Id, from: Status, approval: Approval, env: Env)
    requires EntryAdmitted(staged, project, target, from, approval, env)
    ensures var r := EnqueueStaged(env.h, staged, project, target, from, Some(approval), env.now, env.keys).1;
      && target in staged && staged[target].project == project && staged[target].status == from && !from.Queue?
      && env.h(staged[target], approval.request) == approval.digest && !RanUnder(staged[target], approval.id)
      && target in r && r[target].status.Queue? && r[target].binding.Some?
      && r[target].binding.value.approvalId == approval.id && r[target].binding.value.digest == approval.digest
      && r[target].binding.value.request == approval.request
  {
    AdmittedFacts(env.h, staged[target], project, from, Some(approval));
    BoundByEntry(staged[target], approval, env.now);
    var b := staged[target := Entered(staged[target], Some(approval), env.now)];
    NumberedKeeps(b, Placed(b, project, target, Queue, 0, env.keys), target);
  }

  /** An attempt at a queue entry that changed the store, or says it is done. */
  predicate EntryTookEffect(s: Store, project: Id, target: Id, from: Status, approval: Approval, env: Env) {
    var (after, answer) := Enqueue(s, project, target, from, approval, env);
    after != s || (answer.Ok? && answer.value.Effected?)
  }

  /** What an enqueue that got as far as its write made of the store. */
  lemma EnqueueShape(s: Store, project: Id, target: Id, from: Status, approval: Approval, env: Env)
    requires target in s.tasks
    ensures EntryTookEffect(s, project, target, from, approval, env) ==>
      var staged := Stage(s.tasks, s.tasks[target].project);
      var (verdict, r) := EnqueueStaged(env.h, staged, project, target, from, Some(approval), env.now, env.keys);
      && from.Backlog? && verdict.Queued? && Published(env.save)
      && Enqueue(s, project, target, from, approval, env).0.tasks == s.tasks + r
  {
  }

  /** An approval that queues a Task binds it to exactly the input and request
      the Human saw, and only if it never ran that approval before. */
  lemma ApprovedEntryBinds(s: Store, project: Id, target: Id, from: Status, approval: Approval, env: Env)
    requires target in s.tasks
    ensures EntryTookEffect(s, project, target, from, approval, env) ==>
      var t := s.tasks[target]; var after := Enqueue(s, project, target, from, approval, env).0.tasks;
      && t.project == project && t.status.Backlog? && env.h(t, approval.request) == approval.digest && !RanUnder(t, approval.id)
      && target in after && after[target].status.Queue? && after[target].binding.Some?
      && after[target].binding.value.approvalId == approval.id
      && after[target].binding.value.request == approval.request && after[target].binding.value.digest == approval.digest
  {
    if EntryTookEffect(s, project, target, from, approval, env) {
      EnqueueShape(s, project, target, from, approval, env);
      EntryBinds(Stage(s.tasks, s.tasks[target].project), project, target, from, approval, env);
    }
  }

  /** An attempt at a queue entry that did nothing says so, or found the Task
      queued; and one that wrote says it is done, if it says anything. */
  lemma QueueAnswers(s: Store, project: Id, target: Id, from: Status, approval: Approval, env: Env)
    requires target in s.tasks
    ensures var (after, answer) := Enqueue(s, project, target, from, approval, env);
      && (after != s && answer.Ok? ==> answer.value.Effected?)
      && (answer.Ok? && answer.value.WasQueued? ==>
            after == s && from.Backlog? && s.tasks[target].project == project && s.tasks[target].status.Queue?)
  {
  }

  /** What one attempt at a queue entry is known to have done. */
  ghost predicate EntryAnswered(
    s: Store, project: Id, target: Id, from: Status, id: Id, save: Save, after: Store, answer: Answer)
    requires target in s.tasks
  {
    && (after != s || (answer.Ok? && answer.value.Effected?) ==>
          && from.Backlog? && Published(save) && s.tasks[target].status.Backlog? && !RanUnder(s.tasks[target], id)
          && target in after.tasks && after.tasks[target].project == project && after.tasks[target].status.Queue?
          && after.tasks[target].binding.Some? && after.tasks[target].binding.value.approvalId == id)
    && (after != s && answer.Ok? ==> answer.value.Effected?)
    && (answer.Ok? && answer.value.WasQueued? ==>
          after == s && from.Backlog? && s.tasks[target].project == project && s.tasks[target].status.Queue?)
  }

  lemma EntryAnswers(s: Store, project: Id, target: Id, from: Status, approval: Approval, env: Env)
    requires target in s.tasks
    ensures var (after, answer) := Enqueue(s, project, target, from, approval, env);
      EntryAnswered(s, project, target, from, approval.id, env.save, after, answer)
  {
    QueueAnswers(s, project, target, from, approval, env);
    if EntryTookEffect(s, project, target, from, approval, env) {
      ApprovedEntryBinds(s, project, target, from, approval, env);
      EnqueueShape(s, project, target, from, approval, env);
    }
  }

  lemma EnqueueIsFaithful(s: Store, project: Id, action: Id, m: Mutation, env: Env)
    requires m.EnqueueTask?
    ensures var (after, answer) := Execute(s, project, action, m, env); Faithful(s, project, action, m, env, after, answer)
  {
    if m.target in s.tasks {
      EntryAnswers(s, project, m.target, m.from, ShownApproval(action, m.shown), env);
    }
  }

  lemma AnsweredIsFaithful(s: Store, project: Id, action: Id, m: Mutation, env: Env, after: Store, inner: Answer, answer: Answer)
    requires m.ExecuteRequest? && m.target in s.tasks
    requires EntryAnswered(s, project, m.target, m.from, action, env.save, after, inner)
    requires if inner.Ok? && inner.value.WasQueued?
      then answer == Ok(if m.target in after.tasks && Carries(after.tasks[m.target], action) then Effected(m.target, inner.value.title)
                        else Declined(RequestNotAttached))
      else answer == inner
    ensures Faithful(s, project, action, m, env, after, answer)
  {
  }

  lemma RequestIsFaithful(s: Store, project: Id, action: Id, m: Mutation, env: Env)
    requires m.ExecuteRequest?
    ensures var (after, answer) := Execute(s, project, action, m, env); Faithful(s, project, action, m, env, after, answer)
  {
    var approval := Approval(action, m.input, Some(m.request), m.checkout);
    if m.target in s.tasks {
      var (after, inner) := Enqueue(s, project, m.target, m.from, approval, env);
      EntryAnswers(s, project, m.target, m.from, approval, env);
      AnsweredIsFaithful(s, project, action, m, env, after, inner, Execute(s, project, action, m, env).1);
    }
  }

  /** An attempt that changes the store found its effect absent and leaves it
      visible; and an attempt that reports success leaves it visible too. */
  lemma EffectBecomesVisible(s: Store, project: Id, action: Id, m: Mutation, env: Env)
    requires Repeatable(m)
    ensures var (after, answer) := Execute(s, project, action, m, env); Faithful(s, project, action, m, env, after, answer)
  {
    match m
    case CreateTask(_, _, _, _, _) => CreateIsFaithful(s, project, action, m, env);
    case EditTask(_, _) => EditIsFaithful(s, project, action, m, env);
    case MoveTask(_, _, _) => MoveIsFaithful(s, project, action, m, env);
    case EnqueueTask(_, _, _) => EnqueueIsFaithful(s, project, action, m, env);
    case ExecuteRequest(_, _, _, _, _) => RequestIsFaithful(s, project, action, m, env);
  }

  // ------------------------------------------------------------ what lasts

  /** Every version of the Project's file holds the Task as it is in memory. */
  ghost predicate InEveryVersion(s: Store, project: Id, target: Id) {
    forall b :: b in FileOf(s, project).possible ==> target in b && TaskAt(s, target) == Some(b[target])
  }

  /** Every version of the Project's file shows the effect. */
  ghost predicate Lasting(s: Store, project: Id, action: Id, m: Mutation) {
    forall b :: b in FileOf(s, project).possible ==>
      Visible(project, action, m, if TargetOf(m) in b then Some(b[TargetOf(m)]) else None)
  }

  lemma AbsentStaysAbsent(s: Store, project: Id, action: Id, m: Mutation, env: Env)
    requires Queues(m) && m.target !in s.tasks
    ensures Execute(s, project, action, m, env).0 == s
  {
  }

  /** The one write an attempt makes: of its own Project's board, dropping no Task
      and claiming none, with the target in it. */
  ghost predicate WroteLawfully(s: Store, project: Id, target: Id, save: Save, after: Store) {
    exists staged: Board :: WroteBoard(s, project, target, save, staged, after)
  }

  ghost predicate WroteBoard(s: Store, project: Id, target: Id, save: Save, staged: Board, after: Store) {
    && Lawful(s, Replace(project, staged, save)) && target in staged
    && after == Perform(s, Replace(project, staged, save))
  }

  lemma WriteIsLawful(s: Store, project: Id, target: Id, t: Task, save: Save, done: Execution)
    requires t.project == project && (target in s.tasks ==> s.tasks[target].project == project)
    ensures var staged := Stage(s.tasks, project)[target := t];
      WroteBoard(s, project, target, save, staged, Write(s, project, staged, save, done).0)
  {
  }

  lemma CreateIsLawful(s: Store, project: Id, m: Mutation, env: Env)
    requires m.CreateTask?
    ensures var after := Create(s, project, m, env).0; after == s || WroteLawfully(s, project, m.task, env.save, after)
  {
    if env.projectPresent && m.task !in s.tasks {
      var t := NewBacklog(
        Stage(s.tasks, project), env.keys, m.task, project, m.title, m.description, m.priority, m.category, env.model);
      WriteIsLawful(s, project, m.task, t, env.save, Effected(m.task, m.title));
    }
  }

  lemma EditIsLawful(s: Store, project: Id, target: Id, changes: seq<FieldChange>, env: Env)
    ensures var after := Edit(s, project, target, changes, env).0;
      after == s || WroteLawfully(s, project, target, env.save, after)
  {
    if target in s.tasks && s.tasks[target].project == project {
      var r := ApplyAll(changes, s.tasks[target]);
      EditedProject(changes, s.tasks[target]);
      WriteIsLawful(s, project, target, r, env.save, Effected(target, r.title));
    }
  }

  lemma MovedProject(t: Task, to: Status, position: int, now: Time)
    ensures MovedTo(t, to, position, now).project == t.project
  {
    var placed := t.(status := to, position := position);
    RecordMoveProject(placed, t.status, now);
    assert placed.project == t.project;
  }

  lemma WriteMoveIsLawful(s: Store, project: Id, target: Id, to: Status, env: Env)
    requires target in s.tasks && s.tasks[target].project == project
    ensures WroteLawfully(s, project, target, env.save, WriteMove(s, project, target, s.tasks[target], to, env).0)
  {
    var t := s.tasks[target];
    var position := NextBacklogPosition(Stage(s.tasks, project), project, env.keys);
    MovedProject(t, to, position, env.now);
    WriteIsLawful(s, project, target, MovedTo(t, to, position, env.now), env.save, Effected(target, t.title));
  }

  lemma MoveIsLawful(s: Store, project: Id, target: Id, from: Status, to: Status, env: Env)
    ensures var after := Move(s, project, target, from, to, env).0;
      after == s || WroteLawfully(s, project, target, env.save, after)
  {
    if target in s.tasks && s.tasks[target].project == project {
      WriteMoveIsLawful(s, project, target, to, env);
    }
  }

  lemma EntryIsLawful(s: Store, project: Id, target: Id, from: Status, approval: Approval, env: Env)
    ensures var after := Enqueue(s, project, target, from, approval, env).0;
      after == s || WroteLawfully(s, project, target, env.save, after)
  {
    if target in s.tasks && Enqueue(s, project, target, from, approval, env).0 != s {
      var staged := Stage(s.tasks, s.tasks[target].project);
      EnqueueShape(s, project, target, from, approval, env);
      EntryBinds(staged, project, target, from, approval, env);
      var r := EnqueueStaged(env.h, staged, project, target, from, Some(approval), env.now, env.keys).1;
      EntryKeepsBoard(staged, project, target, from, approval, env);
      assert WroteBoard(s, project, target, env.save, r, Enqueue(s, project, target, from, approval, env).0);
    }
  }

  lemma EntryKeepsBoard(staged: Board, project: Id, target: Id, from: Status, approval: Approval, env: Env)
    requires EntryAdmitted(staged, project, target, from, approval, env) && forall id :: id in staged ==> staged[id].project == project
    ensures var r := EnqueueStaged(env.h, staged, project, target, from, Some(approval), env.now, env.keys).1;
      r.Keys == staged.Keys && forall id :: id in r ==> r[id].project == project
  {
    AdmittedFacts(env.h, staged[target], project, from, Some(approval));
    BoundByEntry(staged[target], approval, env.now);
    var b := staged[target := Entered(staged[target], Some(approval), env.now)];
    forall id | id in b ensures Numbered(b, Placed(b, project, target, Queue, 0, env.keys))[id].project == project {
      NumberedKeeps(b, Placed(b, project, target, Queue, 0, env.keys), id);
    }
  }

  lemma QueueingIsLawful(s: Store, project: Id, action: Id, m: Mutation, env: Env)
    requires Queues(m)
    ensures var after := Execute(s, project, action, m, env).0;
      after == s || WroteLawfully(s, project, m.target, env.save, after)
  {
    if m.target !in s.tasks {
      AbsentStaysAbsent(s, project, action, m, env);
    } else if m.EnqueueTask? {
      EntryIsLawful(s, project, m.target, m.from, ShownApproval(action, m.shown), env);
    } else {
      RequestStore(s, project, action, m, env);
      EntryIsLawful(s, project, m.target, m.from, Approval(action, m.input, Some(m.request), m.checkout), env);
    }
  }

  /** An attempt writes nothing, or makes one lawful write with its target in it. */
  lemma AttemptIsLawful(s: Store, project: Id, action: Id, m: Mutation, env: Env)
    ensures var after := Execute(s, project, action, m, env).0;
      after == s || WroteLawfully(s, project, TargetOf(m), env.save, after)
  {
    if Queues(m) {
      QueueingIsLawful(s, project, action, m, env);
    } else if m.CreateTask? {
      CreateIsLawful(s, project, m, env);
    } else if m.EditTask? {
      EditIsLawful(s, project, m.target, m.changes, env);
    } else {
      MoveIsLawful(s, project, m.target, m.from, m.to, env);
    }
  }

  /** Only a confirmed write is reported done. */
  lemma DoneIsConfirmed(s: Store, project: Id, action: Id, m: Mutation, env: Env)
    ensures Execute(s, project, action, m, env).0 != s && Execute(s, project, action, m, env).1.Ok? ==> env.save.Confirmed?
  {
  }

  lemma ConfirmedIsInEveryVersion(s: Store, project: Id, target: Id, save: Save, after: Store)
    requires WroteLawfully(s, project, target, save, after) && save.Confirmed?
    ensures InEveryVersion(after, project, target)
  {
    var staged :| WroteBoard(s, project, target, save, staged, after);
  }

  /** "Done" is durable exactly when the effect was not there before this attempt,
      which then made the write, or every version of the file showed it already. */
  lemma DoneLastsIff(s: Store, project: Id, action: Id, m: Mutation, env: Env)
    requires Repeatable(m) && Execute(s, project, action, m, env).1.Ok?
    requires !Execute(s, project, action, m, env).1.value.Declined?
    ensures Lasting(Execute(s, project, action, m, env).0, project, action, m) <==>
      !Visible(project, action, m, TaskAt(s, TargetOf(m))) || Lasting(s, project, action, m)
  {
    var after := Execute(s, project, action, m, env).0;
    EffectBecomesVisible(s, project, action, m, env);
    if after != s {
      AttemptIsLawful(s, project, action, m, env);
      DoneIsConfirmed(s, project, action, m, env);
      ConfirmedIsInEveryVersion(s, project, TargetOf(m), env.save, after);
    }
  }

  /** The Project's file is confirmed: a power loss would change nothing. */
  ghost predicate OneVersion(s: Store, project: Id) {
    FileOf(s, project) == File(Stage(s.tasks, project), {Stage(s.tasks, project)})
  }

  lemma OneVersionLasts(s: Store, project: Id, action: Id, m: Mutation)
    requires OneVersion(s, project)
    ensures Lasting(s, project, action, m) <==> Visible(project, action, m, TaskAt(s, TargetOf(m)))
  {
    assert Stage(s.tasks, project) in FileOf(s, project).possible;
  }

  /** An attempt whose save is not left in doubt leaves the file confirmed. */
  lemma AttemptKeepsOneVersion(s: Store, project: Id, action: Id, m: Mutation, env: Env)
    requires OneVersion(s, project) && !env.save.PublishedNotDurable?
    ensures OneVersion(Execute(s, project, action, m, env).0, project)
  {
    var after := Execute(s, project, action, m, env).0;
    AttemptIsLawful(s, project, action, m, env);
    if after != s {
      var staged :| WroteBoard(s, project, TargetOf(m), env.save, staged, after);
      ReplacedStages(s.tasks, project, staged, project);
    }
  }

  /** What a caller can check first: on a confirmed file, done is durable. */
  lemma ConfirmedFileLasts(s: Store, project: Id, action: Id, m: Mutation, env: Env)
    requires Repeatable(m) && OneVersion(s, project)
    ensures var (after, answer) := Execute(s, project, action, m, env);
      answer.Ok? && !answer.value.Declined? ==> Lasting(after, project, action, m)
  {
    var answer := Execute(s, project, action, m, env).1;
    if answer.Ok? && !answer.value.Declined? {
      DoneLastsIff(s, project, action, m, env);
      OneVersionLasts(s, project, action, m);
    }
  }

  /** The Project's file is readable and agrees with memory. */
  ghost predicate InStep(s: Store, project: Id) {
    FileOf(s, project).visible == Stage(s.tasks, project) && FileOf(s, project).Valid()
  }

  /** An attempt that changes the store and is not confirmed leaves the version
      without its effect possible. */
  lemma UnconfirmedMayNotLast(s: Store, project: Id, action: Id, m: Mutation, env: Env)
    requires Repeatable(m) && InStep(s, project) && env.save.PublishedNotDurable?
    ensures var after := Execute(s, project, action, m, env).0; after != s ==> !Lasting(after, project, action, m)
  {
    var before := FileOf(s, project).visible;
    EffectBecomesVisible(s, project, action, m, env);
    OldVersionStays(s, project, action, m, env);
    if Execute(s, project, action, m, env).0 != s {
      assert before in FileOf(Execute(s, project, action, m, env).0, project).possible;
      assert !Visible(project, action, m, if TargetOf(m) in before then Some(before[TargetOf(m)]) else None);
    }
  }

  lemma OldVersionStays(s: Store, project: Id, action: Id, m: Mutation, env: Env)
    requires !env.save.Confirmed?
    ensures FileOf(s, project).possible <= FileOf(Execute(s, project, action, m, env).0, project).possible
  {
  }

  /** An edit is a compare-and-set: it changes the store only while the Task still
      holds every value shown and not yet every value approved, and then the Task
      differs in the approved fields alone. */
  lemma EditIsCompareAndSet(s: Store, project: Id, target: Id, changes: seq<FieldChange>, env: Env)
    requires Edit(s, project, target, changes, env).0 != s
    ensures target in s.tasks && s.tasks[target].project == project && Published(env.save)
    ensures AllObserved(changes, s.tasks[target]) && !AllApplied(changes, s.tasks[target])
    ensures TaskAt(Edit(s, project, target, changes, env).0, target) == Some(ApplyAll(changes, s.tasks[target]))
    ensures OnlyNamedFields(s.tasks[target], ApplyAll(changes, s.tasks[target]))
  {
    OnlyApprovedFields(changes, s.tasks[target]);
  }

  /** An edit that asks for two titles. */
  function TwoTitles(shown: string, first: string, last: string): seq<FieldChange> {
    [TitleChange(shown, first), TitleChange(shown, last)]
  }

  lemma TwoTitlesRead(shown: string, first: string, last: string, t: Task)
    ensures AllObserved(TwoTitles(shown, first, last), t) <==> t.title == shown
    ensures AllApplied(TwoTitles(shown, first, last), t) <==> t.title == first && t.title == last
  {
    var changes := TwoTitles(shown, first, last);
    assert changes[0] in changes && changes[1] in changes;
  }

  lemma TwoTitlesApply(shown: string, first: string, last: string, t: Task)
    ensures ApplyAll(TwoTitles(shown, first, last), t) == t.(title := first).(title := last)
  {
    var changes := TwoTitles(shown, first, last);
    assert changes[1..] == [changes[1]] && changes[1..][1..] == [];
    var once := t.(title := first);
    assert Apply(changes[0], t) == once && Apply(changes[1], once) == once.(title := last);
    assert ApplyAll([changes[1]], once) == Apply(changes[1], once);
  }

  /** Such an edit is made, and its retry is then refused for good. */
  lemma RetriedEditIsRefused(s: Store, project: Id, target: Id, env: Env, retry: Env)
    requires target in s.tasks && s.tasks[target].project == project && s.tasks[target].title == "a" && Published(env.save)
    ensures var changes := TwoTitles("a", "b", "c"); var once := Edit(s, project, target, changes, env).0;
      && target in once.tasks && once.tasks[target].title == "c"
      && Edit(once, project, target, changes, retry) == (once, Ok(Declined(EditedSince)))
  {
    var t := s.tasks[target];
    var r := t.(title := "b").(title := "c");
    assert "a"[0] == 'a' && "b"[0] == 'b' && "c"[0] == 'c';
    TwoTitlesApply("a", "b", "c", t);
    TwoTitlesRead("a", "b", "c", t);
    TwoTitlesRead("a", "b", "c", r);
    WriteShows(s, project, target, r, env.save, Effected(target, r.title));
  }

  /** A move is a compare-and-set on the column the Human saw, under the lease,
      and puts the Task at the end of the Backlog. */
  lemma MoveIsCompareAndSet(s: Store, project: Id, target: Id, from: Status, to: Status, env: Env)
    requires Move(s, project, target, from, to, env).0 != s
    ensures target in s.tasks && s.tasks[target].project == project && Published(env.save) && env.leased
    ensures s.tasks[target].status == from && CoordinatorMayMove(from, to)
    ensures var position := NextBacklogPosition(Stage(s.tasks, project), project, env.keys);
      TaskAt(Move(s, project, target, from, to, env).0, target) == Some(MovedTo(s.tasks[target], to, position, env.now))
  {
  }

  /** A created Task is what the Human approved, at the end of the Backlog, with
      no checkout and no run. */
  lemma CreatedAsApproved(s: Store, project: Id, m: Mutation, env: Env)
    requires m.CreateTask? && m.task !in s.tasks && m.task in Create(s, project, m, env).0.tasks
    ensures var t := Create(s, project, m, env).0.tasks[m.task];
      && t.id == m.task && t.project == project && t.title == m.title && t.description == m.description
      && t.priority == m.priority && t.category == m.category && t.status.Backlog?
      && t.worktree.None? && t.branch.None? && t.handoff.None? && t.binding.None? && t.executed == [] && t.activity == []
      && !t.cleanupInFlight && !ReadyToExecute(t)
      && t.position == NextBacklogPosition(Stage(s.tasks, project), project, env.keys)
      && t.model == env.model && t.dependencies == [] && t.phase.Idle? && t.progress == 0 && t.error.None? && t.baseCommit.None?
      && t.review.None? && !t.restackPending && !t.integrationPending && !t.handoffConfirmed && !t.newAttempt
  {
    var staged := Stage(s.tasks, project);
    var t := NewBacklog(staged, env.keys, m.task, project, m.title, m.description, m.priority, m.category, env.model);
    WriteShows(s, project, m.task, t, env.save, Effected(m.task, m.title));
  }

  /** It comes after every card already in the Backlog. */
  lemma CreatedComesLast(b: Board, project: Id, keys: seq<Id>, other: Id)
    requires Enumerates(keys, b) && InBacklog(b, project, other)
    ensures b[other].position < NextBacklogPosition(b, project, keys)
  {
    assert other in keys;
  }

  /** And right after the last of them; in an empty Backlog it comes first. */
  lemma CreatedComesNext(b: Board, project: Id, keys: seq<Id>)
    requires Enumerates(keys, b)
    ensures var next := NextBacklogPosition(b, project, keys);
      if forall id :: id in b && b[id].project == project ==> !b[id].status.Backlog? then next == 0
      else exists id :: id in b && b[id].project == project && b[id].status.Backlog? && b[id].position + 1 == next
  {
    if id :| id in b && b[id].project == project && b[id].status.Backlog? {
      assert id in keys && InBacklog(b, project, id);
      var high := HighestBacklog(b, project, keys);
      var k :| k in keys && InBacklog(b, project, k) && b[k].position == high.value;
      assert b[k].position + 1 == NextBacklogPosition(b, project, keys);
    } else {
      assert forall k :: k in keys ==> !InBacklog(b, project, k);
    }
  }

  /** A request is reported as done only if the Task carries it, bound to it or
      already run under it; a Task queued by anyone else is refused. */
  lemma RequestIsCarried(s: Store, project: Id, action: Id, m: Mutation, env: Env)
    requires m.ExecuteRequest? && m.target in s.tasks
    ensures var (after, answer) := Execute(s, project, action, m, env);
      answer.Ok? && answer.value.Effected? ==> m.target in after.tasks && Carries(after.tasks[m.target], action)
  {
    var approval := Approval(action, m.input, Some(m.request), m.checkout);
    var (after, answer) := Enqueue(s, project, m.target, m.from, approval, env);
    if answer.Ok? && answer.value.Effected? {
      ApprovedEntryBinds(s, project, m.target, m.from, approval, env);
    }
  }

  /** A Queue card of the Project, with nothing but its position changed. */
  predicate OnlyShifted(s: Store, after: Store, project: Id, other: Id) {
    && other in s.tasks && other in after.tasks && InColumn(s.tasks, project, Queue, other)
    && after.tasks[other] == s.tasks[other].(position := after.tasks[other].position)
  }

  lemma ShiftedBoard(tasks: Board, project: Id, target: Id, e: Task, r: Board, other: Id)
    requires other != target && target in tasks && tasks[target].project == project
    requires OnlyPositions(Stage(tasks, project)[target := e], r, project, Queue)
    ensures other in tasks + r <==> other in tasks
    ensures other in tasks && (tasks + r)[other] != tasks[other] ==>
      InColumn(tasks, project, Queue, other) && (tasks + r)[other] == tasks[other].(position := (tasks + r)[other].position)
  {
    var b := Stage(tasks, project)[target := e];
    assert other in r <==> other in b;
    if other in r {
      assert other in tasks && tasks[other] == b[other];
      assert r[other] == if InColumn(b, project, Queue, other) then b[other].(position := r[other].position) else b[other];
    }
  }

  lemma EntryShiftsOthers(s: Store, project: Id, target: Id, from: Status, approval: Approval, env: Env, other: Id)
    requires target in s.tasks && Enumerates(env.keys, Stage(s.tasks, s.tasks[target].project)) && other != target
    ensures var after := Enqueue(s, project, target, from, approval, env).0;
      TaskAt(after, other) == TaskAt(s, other) || OnlyShifted(s, after, project, other)
  {
    if EntryTookEffect(s, project, target, from, approval, env) {
      var staged := Stage(s.tasks, s.tasks[target].project);
      EnqueueShape(s, project, target, from, approval, env);
      EntryBinds(staged, project, target, from, approval, env);
      EnqueueLandsOnTop(env.h, staged, project, target, from, Some(approval), env.now, env.keys);
      var r := EnqueueStaged(env.h, staged, project, target, from, Some(approval), env.now, env.keys).1;
      ShiftedBoard(s.tasks, project, target, Entered(s.tasks[target], Some(approval), env.now), r, other);
    }
  }

  lemma WriteTouchesOne(s: Store, project: Id, target: Id, t: Task, save: Save, done: Execution, other: Id)
    requires other != target
    ensures TaskAt(Write(s, project, Stage(s.tasks, project)[target := t], save, done).0, other) == TaskAt(s, other)
  {
  }

  lemma CreateTouchesOne(s: Store, project: Id, m: Mutation, env: Env, other: Id)
    requires m.CreateTask? && other != m.task
    ensures TaskAt(Create(s, project, m, env).0, other) == TaskAt(s, other)
  {
    var t := NewBacklog(
      Stage(s.tasks, project), env.keys, m.task, project, m.title, m.description, m.priority, m.category, env.model);
    WriteTouchesOne(s, project, m.task, t, env.save, Effected(m.task, m.title), other);
  }

  lemma EditTouchesOne(s: Store, project: Id, target: Id, changes: seq<FieldChange>, env: Env, other: Id)
    requires other != target
    ensures TaskAt(Edit(s, project, target, changes, env).0, other) == TaskAt(s, other)
  {
    if target in s.tasks {
      var r := ApplyAll(changes, s.tasks[target]);
      WriteTouchesOne(s, project, target, r, env.save, Effected(target, r.title), other);
    }
  }

  lemma MoveTouchesOne(s: Store, project: Id, target: Id, from: Status, to: Status, env: Env, other: Id)
    requires other != target
    ensures TaskAt(Move(s, project, target, from, to, env).0, other) == TaskAt(s, other)
  {
    if target in s.tasks {
      var t := s.tasks[target];
      var r := MovedTo(t, to, NextBacklogPosition(Stage(s.tasks, project), project, env.keys), env.now);
      WriteTouchesOne(s, project, target, r, env.save, Effected(target, t.title), other);
    }
  }

  /** What a queue entry needs to know of the order the board is listed in. */
  ghost predicate ListsTheBoard(s: Store, m: Mutation, env: Env) {
    Queues(m) && m.target in s.tasks ==> Enumerates(env.keys, Stage(s.tasks, s.tasks[m.target].project))
  }

  lemma RequestStore(s: Store, project: Id, action: Id, m: Mutation, env: Env)
    requires m.ExecuteRequest?
    ensures Execute(s, project, action, m, env).0
         == Enqueue(s, project, m.target, m.from, Approval(action, m.input, Some(m.request), m.checkout), env).0
  {
  }

  lemma QueueingTouchesOne(s: Store, project: Id, action: Id, m: Mutation, env: Env, other: Id)
    requires Queues(m) && other != m.target && ListsTheBoard(s, m, env) && m.target in s.tasks
    ensures var after := Execute(s, project, action, m, env).0;
      TaskAt(after, other) == TaskAt(s, other) || OnlyShifted(s, after, project, other)
  {
    if m.EnqueueTask? {
      EntryShiftsOthers(s, project, m.target, m.from, ShownApproval(action, m.shown), env, other);
    } else {
      RequestStore(s, project, action, m, env);
      EntryShiftsOthers(s, project, m.target, m.from, Approval(action, m.input, Some(m.request), m.checkout), env, other);
    }
  }

  /** An attempt touches its own target only, except that a queue entry may give
      other Queue cards of its Project another position. */
  lemma EffectTouchesOne(s: Store, project: Id, action: Id, m: Mutation, env: Env, other: Id)
    requires other != TargetOf(m) && ListsTheBoard(s, m, env)
    ensures var after := Execute(s, project, action, m, env).0;
      TaskAt(after, other) == TaskAt(s, other) || (Queues(m) && OnlyShifted(s, after, project, other))
  {
    if Queues(m) {
      if m.target in s.tasks {
        QueueingTouchesOne(s, project, action, m, env, other);
      } else {
        AbsentStaysAbsent(s, project, action, m, env);
      }
    } else if m.CreateTask? {
      CreateTouchesOne(s, project, m, env, other);
    } else if m.EditTask? {
      EditTouchesOne(s, project, m.target, m.changes, env, other);
    } else {
      MoveTouchesOne(s, project, m.target, m.from, m.to, env, other);
    }
  }
}
