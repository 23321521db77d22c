/** The approval protocol as code: `decide` replaces the caller's Conversation
    only after a confirmed save, and each mutation is one conditional write. */
module ApprovalDesks {
  import opened Durability
  import opened Tasks
  import opened Boards
  import opened Orders
  import opened QueueEntry
  import opened Conversations
  import opened Effects
  import opened Approvals
  import BoardStores

  /** The fields an approved move assigns, one after another. */
  method ReviseMove(found: Task, to: Status, position: int, now: Time) returns (t: Task)
    ensures t == MovedTo(found, to, position, now)
  {
    t := found.(status := to);
    t := t.(position := position);
    assert t == found.(status := to, position := position);
    t := RecordMove(t, found.status, now);
    if Classify(found.status, to).ResetExecutionState? {
      t := ResetExecution(t);
    }
  }

  class Desk {
    const project: Id
    /** The Conversation file as every reader sees it, and the caller's copy. */
    var saved: Conversation
    var mine: Conversation
    var store: Store

    ghost function State(): World
      reads this
    {
      World(project, saved, store)
    }

    method PersistThenCommit(candidate: Conversation, save: Save) returns (ok: bool)
      modifies this`saved, this`mine
      ensures (State(), ok) == Persist(old(State()), candidate, save)
      ensures mine == if ok then candidate else old(mine)
    {
      if Published(save) {
        saved := candidate;
      }
      ok := save.Confirmed?;
      if ok {
        mine := candidate;
      }
    }

    /** One conditional write of a Project's board. */
    method Record(of: Id, staged: Board, save: Save, done: Execution) returns (answer: Answer)
      modifies this`store
      ensures (store, answer) == Write(old(store), of, staged, save, done)
    {
      if Published(save) {
        store := Store(store.tasks + staged, store.files[of := FileOf(store, of).Write(staged, save)]);
      }
      answer := if save.Confirmed? then Ok(done) else Err(TaskNotSaved);
    }

    /** The reserved id makes a repeated creation recognise its own Task. */
    method CreateTask(m: Mutation, env: Env) returns (answer: Answer)
      requires m.CreateTask?
      modifies this`store
      ensures (store, answer) == Create(old(store), project, m, env)
    {
      if !env.projectPresent {
        return Err(NoProject);
      }
      if m.task in store.tasks {
        var existing := store.tasks[m.task];
        return Ok(if existing.project == project then Effected(m.task, existing.title) else Declined(IdElsewhere));
      }
      var staged := Stage(store.tasks, project);
      var t := NewBacklog(staged, env.keys, m.task, project, m.title, m.description, m.priority, m.category, env.model);
      answer := Record(project, staged[m.task := t], env.save, Effected(m.task, m.title));
    }

    method EditTask(target: Id, changes: seq<FieldChange>, env: Env) returns (answer: Answer)
      modifies this`store
      ensures (store, answer) == Edit(old(store), project, target, changes, env)
    {
      if target !in store.tasks {
        return Ok(Declined(TaskGone));
      }
      var t := store.tasks[target];
      if t.project != project {
        return Ok(Declined(TaskElsewhere));
      }
      if AllApplied(changes, t) {
        return Ok(Effected(target, t.title));
      }
      if !AllObserved(changes, t) {
        return Ok(Declined(EditedSince));
      }
      var staged := Stage(store.tasks, project);
      var r := ApplyChanges(changes, t);
      answer := Record(project, staged[target := r], env.save, Effected(target, r.title));
    }

    method MoveTask(target: Id, from: Status, to: Status, env: Env) returns (answer: Answer)
      modifies this`store
      ensures (store, answer) == Move(old(store), project, target, from, to, env)
    {
      if !CoordinatorMayMove(from, to) {
        return Ok(Declined(MoveUnavailable));
      }
      if !env.leased {
        return Err(LeaseBusy);
      }
      if target !in store.tasks {
        return Ok(Declined(TaskGone));
      }
      var t := store.tasks[target];
      if t.project != project {
        return Ok(Declined(TaskElsewhere));
      }
      if t.status == to {
        return Ok(Effected(target, t.title));
      }
      if t.status != from {
        return Ok(Declined(MovedSince));
      }
      answer := WriteMove(target, t, to, env);
    }

    method WriteMove(target: Id, t: Task, to: Status, env: Env) returns (answer: Answer)
      modifies this`store
      ensures (store, answer) == Effects.WriteMove(old(store), project, target, t, to, env)
    {
      var staged := Stage(store.tasks, project);
      var position := NextBacklogPosition(staged, project, env.keys);
      var r := ReviseMove(t, to, position, env.now);
      answer := Record(project, staged[target := r], env.save, Effected(target, t.title));
    }

    /** Under the lease: git's answer about a checkout to reuse comes before the
        queue's own check, which shares the write. */
    method EnqueueTask(target: Id, from: Status, approval: Approval, env: Env) returns (answer: Answer)
      requires NoDup(env.keys)
      modifies this`store
      ensures (store, answer) == Enqueue(old(store), project, target, from, approval, env)
    {
      if !from.Backlog? {
        return Ok(Declined(NotFromBacklog));
      }
      if !env.leased {
        return Err(LeaseBusy);
      }
      if target !in store.tasks {
        return Ok(Declined(TaskGone));
      }
      var t := store.tasks[target];
      if approval.checkout.Some? && t.status.Backlog? && env.checkoutRefused.Some? {
        return Ok(Declined(CheckoutDiffers(env.checkoutRefused.value)));
      }
      var verdict, staged := BoardStores.ReviseForQueue(
        env.h, Stage(store.tasks, t.project), project, target, from, Some(approval), env.now, env.keys);
      if !verdict.Queued? {
        return Ok(EnqueueAnswer(target, verdict));
      }
      answer := Record(t.project, staged, env.save, Effected(target, verdict.title));
    }

    /** A Task already queued counts as done only if it carries this request. */
    method ExecuteRequest(target: Id, from: Status, approval: Approval, env: Env) returns (answer: Answer)
      requires NoDup(env.keys)
      modifies this`store
      ensures (store, answer) == Request(old(store), project, target, from, approval, env)
    {
      answer := EnqueueTask(target, from, approval, env);
      if answer.Ok? && answer.value.WasQueued? {
        var title := answer.value.title;
        if target in store.tasks && Carries(store.tasks[target], approval.id) {
          return Ok(Effected(target, title));
        }
        return Ok(Declined(RequestNotAttached));
      }
    }

    method Perform(action: Id, m: Mutation, env: Env) returns (answer: Answer)
      requires NoDup(env.keys)
      modifies this`store
      ensures (store, answer) == Execute(old(store), project, action, m, env)
    {
      match m {
        case CreateTask(_, _, _, _, _) => answer := CreateTask(m, env);
        case EditTask(target, changes) => answer := EditTask(target, changes, env);
        case MoveTask(target, from, to) => answer := MoveTask(target, from, to, env);
        case EnqueueTask(target, from, shown) => answer := EnqueueTask(target, from, ShownApproval(action, shown), env);
        case ExecuteRequest(target, from, request, input, checkout) =>
          answer := ExecuteRequest(target, from, Approval(action, input, Some(request), checkout), env);
      }
    }

    /** `decide`. Whatever it answers, the caller's copy is the last version a
        save confirmed, and it is the file's whenever the answer is `Ok`. */
    method DecideAction(call: Call) returns (answer: Result<bool, Failure>)
      requires mine == saved && call.cut.Finishes? && NoDup(call.env.keys)
      modifies this
      ensures (State(), Some(answer)) == Decide(old(State()), call)
      ensures answer.Ok? ==> mine == saved
      ensures call.first.Confirmed? && call.last.Confirmed? ==> mine == saved
    {
      var found := Find(mine.actions, call.action);
      if found.None? {
        return Err(UnknownAction);
      }
      match (found.value.status, call.approve) {
        case (Applied, true) => return Ok(true);
        case (Proposed, false) =>
          var ok := PersistThenCommit(Decided(mine, call.action, false), call.first);
          return if ok then Ok(true) else Err(NotSaved);
        case (Proposed, true) =>
          var ok := PersistThenCommit(Decided(mine, call.action, true), call.first);
          if !ok {
            return Err(NotSaved);
          }
        case (Approved, true) =>
        case (Approved, false) => return Err(AlreadyApproved);
        case _ => return Err(NotAwaiting);
      }
      var execution := Perform(call.action, found.value.mutation, call.env);
      if execution.Err? {
        return Err(execution.error);
      }
      var ok := PersistThenCommit(Concluded(mine, call.action, execution.value), call.last);
      return if ok then Ok(true) else Err(NotSaved);
    }
  }
}
