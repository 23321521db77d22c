/** The board writers of `src-tauri/src/lifecycle.rs` as code over the shared
    map and the Project files, each proved to carry out its plan. */
module BoardStores {
  import opened Durability
  import opened Orders
  import opened Tasks
  import opened Boards
  import opened Columns
  import opened QueueEntry
  import opened Lifecycle
  import opened Terminalization

  /** Number the cards of `order`, one after another. */
  method NumberCards(staged: Board, order: seq<Id>) returns (r: Board)
    requires NoDup(order)
    ensures r == Numbered(staged, order)
  {
    NumberedEnds(staged, order);
    r := staged;
    for i := 0 to |order|
      invariant r == NumberedUpTo(staged, order, i)
    {
      NumberedNext(staged, order, i);
      if order[i] in r {
        r := r[order[i] := r[order[i]].(position := i)];
      }
    }
  }

  /** Put the card at its clamped place and give the column its new numbers. */
  method RenumberColumn(
    staged: Board, project: Id, task: Id, status: Status, newPosition: int, keys: seq<Id>) returns (r: Board)
    requires NoDup(keys)
    ensures r == Renumbered(staged, project, task, status, newPosition, keys)
  {
    PlacedOnce(staged, project, task, status, newPosition, keys);
    r := NumberCards(staged, Placed(staged, project, task, status, newPosition, keys));
  }

  /** The fields a queue entry assigns, one after another. */
  method EnterQueue(found: Task, approval: Option<Approval>, now: Time) returns (t: Task)
    ensures t == Entered(found, approval, now)
  {
    t := found.(status := Queue);
    t := RecordMove(t, found.status, now);
    t := ResetExecution(t);
    if approval.Some? {
      var a := approval.value;
      t := t.(binding := Some(Binding(a.id, a.digest, NextRun(t.activity), a.request, a.checkout)));
    } else {
      t := t.(binding := None);
    }
  }

  /** The change a queue entry makes to the staged board, if it is admitted. */
  method ReviseForQueue(
    h: Digest, staged: Board, project: Id, task: Id, seenIn: Status, approval: Option<Approval>, now: Time,
    keys: seq<Id>) returns (verdict: Verdict, revised: Board)
    requires NoDup(keys)
    ensures (verdict, revised) == EnqueueStaged(h, staged, project, task, seenIn, approval, now, keys)
  {
    if task !in staged {
      return Missing, staged;
    }
    var refusal := QueueEntryCheck(h, staged[task], project, seenIn, approval);
    if refusal.Some? {
      return refusal.value, staged;
    }
    var t := EnterQueue(staged[task], approval, now);
    revised := staged[task := t];
    revised := RenumberColumn(revised, project, task, Queue, 0, keys);
    return Queued(staged[task].title), revised;
  }

  /** The fields the end of a terminalization assigns. */
  method Conclude(found: Task, outcome: Outcome, desired: Status, now: Time) returns (t: Task)
    ensures t == Concluded(found, outcome, desired, now)
  {
    t := found.(cleanupInFlight := false);
    match outcome {
      case Cleaned =>
        t := t.(status := desired);
        t := RecordMove(t, found.status, now);
        t := t.(worktree := None, error := None);
      case Kept(path, reason, lock) =>
        t := t.(error := Some(Note(WorktreeKept(path, reason), lock)));
    }
  }

  class BoardStore {
    var tasks: Board
    var files: map<Id, File<Board>>

    ghost function State(): Store
      reads this
    {
      Store(tasks, files)
    }

    /** The file first; then memory follows whatever the file now holds. */
    method PublishTyped(project: Id, staged: Board, save: Save)
      modifies this
      ensures State() == Perform(old(State()), Replace(project, staged, save))
    {
      if Published(save) {
        files := files[project := FileOf(Store(tasks, files), project).Write(staged, save)];
        var rest := staged.Keys;
        while rest != {}
          invariant rest <= staged.Keys
          invariant tasks == old(tasks) + (staged - rest)
          invariant files == old(files)[project := FileOf(old(State()), project).Write(staged, save)]
          decreases rest
        {
          var id :| id in rest;
          assert staged - (rest - {id}) == (staged - rest)[id := staged[id]];
          tasks := tasks[id := staged[id]];
          rest := rest - {id};
        }
        assert tasks == old(tasks) + staged;
      }
    }

    method RecordTyped(task: Id, amend: Amend, save: Save) returns (answer: Save)
      modifies this
      ensures State() == Step(old(State()), RecordOp(task, amend, save))
      ensures answer == if task in old(tasks) then save else NotPublished
      ensures answer.NotPublished? ==> State() == old(State())
    {
      if task !in tasks {
        return NotPublished;
      }
      var project := tasks[task].project;
      PublishTyped(project, amend(Stage(tasks, project)), save);
      return save;
    }

    /** `None` when the Task is absent, `Some(None)` when nothing changed. */
    method RecordIfChanged(task: Id, revise: Board -> Option<Board>, save: Save) returns (answer: Option<Option<Save>>)
      modifies this
      ensures State() == Step(old(State()), ReviseOp(task, revise, save))
      ensures answer ==
        if task !in old(tasks) then None
        else if revise(Stage(old(tasks), old(tasks)[task].project)).None? then Some(None)
        else Some(Some(save))
    {
      if task !in tasks {
        return None;
      }
      var project := tasks[task].project;
      var revised := revise(Stage(tasks, project));
      if revised.None? {
        return Some(None);
      }
      PublishTyped(project, revised.value, save);
      return Some(Some(save));
    }

    method CreateChecked(project: Id, projectPresent: bool, build: Board -> Option<Task>, save: Save)
      returns (created: Option<Task>)
      modifies this
      ensures State() == Step(old(State()), CreateOp(project, projectPresent, build, save))
      ensures created.Some? <==>
        projectPresent && build(Stage(old(tasks), project)).Some? && save.Confirmed?
      ensures created.Some? ==> created.value.id in tasks && tasks[created.value.id] == created.value
    {
      created := None;
      if projectPresent {
        var staged := Stage(tasks, project);
        var built := build(staged);
        if built.Some? {
          PublishTyped(project, staged[built.value.id := built.value], save);
          if save.Confirmed? {
            created := built;
          }
        }
      }
    }

    method CreateBatch(project: Id, projectPresent: bool, arrivals: seq<Task>, save: Save)
      modifies this
      ensures State() == Step(old(State()), BatchOp(project, projectPresent, arrivals, save))
    {
      if projectPresent {
        var staged: Board := Stage(tasks, project);
        for i := 0 to |arrivals|
          invariant Inserted(staged, arrivals[i..]) == Inserted(Stage(tasks, project), arrivals)
          invariant tasks == old(tasks) && files == old(files)
        {
          staged := staged[arrivals[i].id := arrivals[i]];
          assert arrivals[i..][1..] == arrivals[i + 1..];
        }
        PublishTyped(project, staged, save);
      }
    }

    method CommitSelected(select: Board -> Option<Id>, choose: (Board, Id) -> Board, save: Save)
      modifies this
      ensures State() == Step(old(State()), SelectOp(select, choose, save))
    {
      var chosen := select(tasks);
      if chosen.Some? && chosen.value in tasks {
        var project := tasks[chosen.value].project;
        PublishTyped(project, choose(Stage(tasks, project), chosen.value), save);
      }
    }

    /** The entry of a Task that is on the board. */
    method EnqueuePresent(
      h: Digest, project: Id, task: Id, seenIn: Status, approval: Option<Approval>, now: Time, keys: seq<Id>, save: Save)
      returns (verdict: Verdict)
      requires NoDup(keys) && task in tasks
      modifies this
      ensures var p := old(tasks)[task].project;
        var r := EnqueueStaged(h, Stage(old(tasks), p), project, task, seenIn, approval, now, keys);
        && verdict == r.0
        && State() == (if verdict.Queued? then Perform(old(State()), Replace(p, r.1, save)) else old(State()))
    {
      var p := tasks[task].project;
      var staged;
      verdict, staged := ReviseForQueue(h, Stage(tasks, p), project, task, seenIn, approval, now, keys);
      if verdict.Queued? {
        PublishTyped(p, staged, save);
      }
    }

    /** The check and the change share the store's write. A verdict other than
        `Queued` wrote nothing. */
    method EnqueueLeased(
      h: Digest, project: Id, task: Id, seenIn: Status, approval: Option<Approval>, now: Time, keys: seq<Id>, save: Save)
      returns (answer: Result<Verdict, Save>)
      requires NoDup(keys)
      modifies this
      ensures State() == Step(old(State()), EnqueueOp(h, project, task, seenIn, approval, now, keys, save))
      ensures task !in old(tasks) ==> answer == Ok(Missing)
      ensures task in old(tasks) ==>
        var staged := Stage(old(tasks), old(tasks)[task].project);
        var verdict := EnqueueStaged(h, staged, project, task, seenIn, approval, now, keys).0;
        answer == if verdict.Queued? && !save.Confirmed? then Err(save) else Ok(verdict)
    {
      if task !in tasks {
        return Ok(Missing);
      }
      EnqueueStep(State(), h, project, task, seenIn, approval, now, keys, save);
      var verdict := EnqueuePresent(h, project, task, seenIn, approval, now, keys, save);
      return if verdict.Queued? && !save.Confirmed? then Err(save) else Ok(verdict);
    }

    /** `enqueue_current_held`, for a caller that holds the lease. `ended` is the
        store once the Task's owner has ended, or why it could not be ended. A
        reason already present ends no owner and writes nothing. */
    method EnqueueCurrentHeld(
      h: Digest, task: Id, refuseHumanReview: bool, ended: Result<Store, string>, now: Time, keys: seq<Id>, save: Save)
      returns (answer: Result<Verdict, string>, ownerEnded: bool)
      requires NoDup(keys)
      modifies this
      ensures task !in old(tasks) ==> answer == Ok(Missing)
      ensures task in old(tasks) && StandingRefusal(old(tasks)[task], refuseHumanReview).Some? ==>
        answer == Ok(Blocked(StandingRefusal(old(tasks)[task], refuseHumanReview).value))
      ensures ownerEnded ==> task in old(tasks) && StandingRefusal(old(tasks)[task], refuseHumanReview).None? && ended.Ok?
      ensures !ownerEnded && !(task in old(tasks) && old(tasks)[task].status.Queue?) ==> State() == old(State())
      ensures ownerEnded || (task in old(tasks) && old(tasks)[task].status.Queue?) ==>
        var s := if ownerEnded then ended.value else old(State());
        State() == (if task !in s.tasks then s
                    else Step(s, EnqueueOp(h, old(tasks)[task].project, task, s.tasks[task].status, None, now, keys, save)))
    {
      ownerEnded := false;
      if task !in tasks {
        return Ok(Missing), false;
      }
      var found := tasks[task];
      var refused := StandingRefusal(found, refuseHumanReview);
      if refused.Some? {
        return Ok(Blocked(refused.value)), false;
      }
      if !found.status.Queue? {
        if ended.Err? {
          return Err(ended.error), false;
        }
        tasks, files := ended.value.tasks, ended.value.files;
        ownerEnded := true;
      }
      if task !in tasks {
        return Ok(Missing), ownerEnded;
      }
      var verdict := EnqueueLeased(h, found.project, task, tasks[task].status, None, now, keys, save);
      answer := if verdict.Ok? then Ok(verdict.value) else Err("not recorded");
    }

    method StampCleanupInFlight(project: Id, task: Id, request: Request, save: Save) returns (answer: Save)
      modifies this
      ensures State() == Step(old(State()), StampOp(project, task, request, save))
      ensures answer.Confirmed? <==>
        save.Confirmed? && !Plan(old(State()), StampOp(project, task, request, save)).Nothing?
    {
      var staged := request.record(Stage(tasks, project));
      if task !in staged {
        return NotPublished;
      }
      staged := staged[task := staged[task].(cleanupInFlight := true)];
      PublishTyped(project, staged, save);
      return save;
    }

    method Commit(a: Ask, outcome: Outcome) returns (answer: Result<Task, Refusal>)
      modifies this
      ensures (State(), answer) == Settle(old(State()), a, outcome)
    {
      SettleStep(State(), a, outcome);
      var staged := a.request.record(Stage(tasks, a.project));
      if a.task !in staged {
        return Err(TaskNotFound);
      }
      var t := Conclude(staged[a.task], outcome, a.request.desired, a.now);
      staged := staged[a.task := t];
      if outcome.Cleaned? {
        staged := a.request.success(staged);
      }
      if a.task !in staged {
        return Err(TaskNotFound);
      }
      PublishTyped(a.project, staged, a.commitSave);
      if !a.commitSave.Confirmed? {
        return Err(NotRecorded(a.commitSave));
      }
      if outcome.Kept? {
        return Err(CleanupRefused);
      }
      return Ok(staged[a.task]);
    }

    /** Durable before destructive: git is asked only after a confirmed stamp. */
    method TerminalizeLeased(a: Ask) returns (answer: Result<Task, Refusal>, gitAsked: bool)
      requires a.task in tasks ==> tasks[a.task].project == a.project
      modifies this
      ensures (State(), answer) == Terminalize(old(State()), a)
      ensures gitAsked ==> a.stampSave.Confirmed? && a.task in old(tasks) && old(tasks)[a.task].worktree.Some?
    {
      gitAsked := false;
      if a.task !in tasks {
        return Err(TaskNotFound), false;
      }
      var refused := EarlyRefusal(tasks[a.task], a);
      if refused.Some? {
        return Err(refused.value), false;
      }
      if tasks[a.task].worktree.None? {
        answer := Commit(a, Cleaned);
        return answer, false;
      }
      var stamped := StampCleanupInFlight(a.project, a.task, a.request, a.stampSave);
      if !stamped.Confirmed? {
        return Err(NotRecorded(a.stampSave)), false;
      }
      answer := Commit(a, a.removal);
      return answer, true;
    }

    /** The last write of a delete, without the record. */
    method DropRecord(a: Ask, cleaned: Task, save: Save) returns (answer: Result<bool, Refusal>)
      modifies this
      ensures (State(), answer) == DropFinished(old(State()), a, Ok(cleaned), save)
    {
      var staged := Stage(tasks, a.project);
      if a.task !in staged {
        return Ok(false);
      }
      if Published(save) {
        files := files[a.project := FileOf(Store(tasks, files), a.project).Write(staged - {a.task}, save)];
        tasks := tasks - {a.task};
      }
      return if save.Confirmed? then Ok(true) else Err(NotRecorded(save));
    }

    method DeleteTask(a: Ask, deleteSave: Save) returns (answer: Result<bool, Refusal>)
      requires a.task in tasks ==> tasks[a.task].project == a.project
      modifies this
      ensures (State(), answer) == Delete(old(State()), a, deleteSave)
    {
      if a.task !in tasks {
        return Ok(false);
      }
      var refused := DeletionRefusal(tasks[a.task]);
      if refused.Some? {
        return Err(refused.value);
      }
      var plain := a.(origin := User, request := Request(tasks[a.task].status, Unchanged(), Unchanged()));
      var cleaned, _ := TerminalizeLeased(plain);
      if cleaned.Err? {
        return if cleaned.error.TaskNotFound? then Ok(false) else Err(cleaned.error);
      }
      answer := DropRecord(a, cleaned.value, deleteSave);
    }
  }
}
