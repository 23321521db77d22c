/** The steps that `Cleanup` interleaves and crashes, run without an interruption,
    are the calls of `Terminalization`; and what a crash in between leaves. */
module Uninterrupted {
  import opened Durability
  import opened Tasks
  import opened Boards
  import opened Lifecycle
  import opened Terminalization
  import C = Cleanup

  /** The world of the steps holds one Project of the store. */
  ghost predicate Mirrors(w: C.World, s: Store, project: Id) {
    w.memory == Stage(s.tasks, project) && w.file == FileOf(s, project)
  }

  lemma PublishMirrors(w: C.World, s: Store, project: Id, staged: Board, save: Save)
    requires Mirrors(w, s, project) && Lawful(s, Replace(project, staged, save))
    ensures Mirrors(C.Publish(w, staged, save), Perform(s, Replace(project, staged, save)), project)
  {
    if Published(save) {
      ReplacedStages(s.tasks, project, staged, project);
    }
  }

  /** One Task of the Project replaced by another of the same Project. */
  lemma OneReplacedIsLawful(s: Store, a: Ask, r: Task, save: Save)
    requires OnBoard(s, a) && r.project == a.project
    ensures Lawful(s, Replace(a.project, Stage(s.tasks, a.project)[a.task := r], save))
  {
  }

  lemma StampMirrors(w: C.World, s: Store, a: Ask, complete: bool)
    requires Mirrors(w, s, a.project) && OnBoard(s, a) && OwnFinish(a, complete) && s.tasks[a.task].worktree.Some?
    ensures var next := C.Next(w, C.Stamp(a.task, a.request, a.stampSave)); var path := s.tasks[a.task].worktree.value;
      && Mirrors(next, Step(s, StampOp(a.project, a.task, a.request, a.stampSave)), a.project)
      && if a.stampSave.Confirmed?
         then next.disk == w.disk[path := C.Unsure]
           && next.jobs == w.jobs[a.task := C.Removing(path, s.tasks[a.task].cleanupInFlight, a.request, C.DiskAt(w.disk, path))]
         else next.disk == w.disk && next.jobs == w.jobs
  {
    var b := Stage(s.tasks, a.project);
    assert a.task in b && C.Stamped(b, a.task, a.request) == Flagged(b, a.task);
    OneReplacedIsLawful(s, a, s.tasks[a.task].(cleanupInFlight := true), a.stampSave);
    PublishMirrors(w, s, a.project, Flagged(b, a.task), a.stampSave);
  }

  /** The last write, of a job git has answered or of a Task without a checkout. */
  lemma CommitMirrors(w: C.World, base: Store, a: Ask, outcome: Outcome, complete: bool)
    requires Mirrors(w, base, a.project) && OnBoard(base, a) && OwnFinish(a, complete)
    ensures Mirrors(
      C.Publish(w, C.Committed(w.memory, a.task, outcome, a.request, a.now), a.commitSave), Settle(base, a, outcome).0, a.project)
  {
    var b := Stage(base.tasks, a.project);
    assert a.task in b;
    var r := CommitWrites(b, a, outcome, complete);
    SettleStep(base, a, outcome);
    OneReplacedIsLawful(base, a, r, a.commitSave);
    PublishMirrors(w, base, a.project, b[a.task := r], a.commitSave);
  }

  /** The steps of one finish that nothing interrupts. */
  function FinishSteps(t: Task, a: Ask): seq<C.Event> {
    if t.worktree.None? then [C.Settle(a.task, a.request, a.now, a.commitSave)]
    else if !a.stampSave.Confirmed? then [C.Stamp(a.task, a.request, a.stampSave)]
    else [C.Stamp(a.task, a.request, a.stampSave), C.GitAnswers(a.task, a.removal), C.Commit(a.task, a.now, a.commitSave)]
  }

  lemma PlayOne(w: C.World, e: C.Event)
    ensures C.Play(w, [e]) == C.Next(w, e)
  {
    assert [e][1..] == [];
  }

  lemma PlayThree(w: C.World, x: C.Event, y: C.Event, z: C.Event)
    ensures C.Play(w, [x, y, z]) == C.Next(C.Next(C.Next(w, x), y), z)
  {
    assert [x, y, z][1..] == [y, z] && [y, z][1..] == [z];
    PlayOne(C.Next(C.Next(w, x), y), z);
  }

  /** Git's answer, and the write that ends the job with it. */
  lemma JobEnds(w: C.World, task: Id, path: Path, retry: bool, a: Ask, before: C.Disk)
    requires task == a.task && task in w.jobs && w.jobs[task] == C.Removing(path, retry, a.request, before)
    ensures var answered := C.Next(w, C.GitAnswers(task, a.removal)); var end := C.Next(answered, C.Commit(task, a.now, a.commitSave));
      && end.jobs == w.jobs - {task}
      && end.disk == w.disk[path := if a.removal.Cleaned? then C.Gone else before]
      && answered.memory == w.memory && answered.file == w.file
      && (var published := C.Publish(w, C.Committed(w.memory, task, a.removal, a.request, a.now), a.commitSave);
          end.memory == published.memory && end.file == published.file)
  {
    assert w.jobs[task := C.Ended(path, retry, a.request, a.removal)] - {task} == w.jobs - {task};
  }

  lemma RemovalEnds(stamped: C.World, base: Store, a: Ask, complete: bool, path: Path, retry: bool, before: C.Disk)
    requires Mirrors(stamped, base, a.project) && OnBoard(base, a) && OwnFinish(a, complete)
    requires a.task in stamped.jobs && stamped.jobs[a.task] == C.Removing(path, retry, a.request, before)
    ensures var end := C.Next(C.Next(stamped, C.GitAnswers(a.task, a.removal)), C.Commit(a.task, a.now, a.commitSave));
      && Mirrors(end, Settle(base, a, a.removal).0, a.project)
      && end.jobs == stamped.jobs - {a.task}
      && end.disk == stamped.disk[path := if a.removal.Cleaned? then C.Gone else before]
  {
    JobEnds(stamped, a.task, path, retry, a, before);
    CommitMirrors(stamped, base, a, a.removal, complete);
  }

  /** The job is on its way: the flag is in place, and git has been asked. */
  ghost predicate UnderWay(w: C.World, a: Ask, path: Path, retry: bool, base: Store, stamped: C.World) {
    && Mirrors(stamped, base, a.project) && OnBoard(base, a)
    && stamped.jobs == w.jobs[a.task := C.Removing(path, retry, a.request, C.DiskAt(w.disk, path))]
    && stamped.disk == w.disk[path := C.Unsure]
  }

  lemma RemovalRest(w: C.World, a: Ask, complete: bool, path: Path, retry: bool, base: Store, stamped: C.World)
    requires OwnFinish(a, complete) && a.task !in w.jobs && UnderWay(w, a, path, retry, base, stamped)
    ensures var end := C.Next(C.Next(stamped, C.GitAnswers(a.task, a.removal)), C.Commit(a.task, a.now, a.commitSave));
      && Mirrors(end, Settle(base, a, a.removal).0, a.project)
      && end.jobs == w.jobs
      && end.disk == w.disk[path := if a.removal.Cleaned? then C.Gone else C.DiskAt(w.disk, path)]
  {
    RemovalEnds(stamped, base, a, complete, path, retry, C.DiskAt(w.disk, path));
    assert stamped.jobs - {a.task} == w.jobs;
  }

  /** A finish run step by step leaves exactly the board and the file the whole call
      leaves, no job, and the checkout gone or as git found it. */
  lemma StepsFinish(w: C.World, s: Store, a: Ask, complete: bool)
    requires Mirrors(w, s, a.project) && OnBoard(s, a) && OwnFinish(a, complete) && a.task !in w.jobs
    requires GoesAhead(s.tasks[a.task], a)
    ensures var t := s.tasks[a.task]; var end := C.Play(w, FinishSteps(t, a));
      && Mirrors(end, Terminalize(s, a).0, a.project) && end.jobs == w.jobs
      && end.disk ==
           if t.worktree.Some? && a.stampSave.Confirmed?
           then w.disk[t.worktree.value := if a.removal.Cleaned? then C.Gone else C.DiskAt(w.disk, t.worktree.value)]
           else w.disk
  {
    RefusedFirst(s, a);
    var t := s.tasks[a.task];
    if t.worktree.None? {
      PlayOne(w, C.Settle(a.task, a.request, a.now, a.commitSave));
      CommitMirrors(w, s, a, Cleaned, complete);
    } else {
      StampMirrors(w, s, a, complete);
      StampWrites(s, a, complete);
      if a.stampSave.Confirmed? {
        PlayThree(w, C.Stamp(a.task, a.request, a.stampSave), C.GitAnswers(a.task, a.removal), C.Commit(a.task, a.now, a.commitSave));
        RemovalRest(w, a, complete, t.worktree.value, t.cleanupInFlight,
                    Step(s, StampOp(a.project, a.task, a.request, a.stampSave)), C.Next(w, C.Stamp(a.task, a.request, a.stampSave)));
      } else {
        PlayOne(w, C.Stamp(a.task, a.request, a.stampSave));
      }
    }
  }

  /** The last step of a delete is the last write of the call. */
  lemma DropMirrors(w: C.World, s: Store, a: Ask, save: Save)
    requires Mirrors(w, s, a.project) && OnBoard(s, a)
    ensures var next := C.Next(w, C.DropRecord(a.task, save));
      Mirrors(next, DropFinished(s, a, Ok(s.tasks[a.task]), save).0, a.project) && next.disk == w.disk && next.jobs == w.jobs
  {
    var b := Stage(s.tasks, a.project);
    assert a.task in b;
    assert Stage(s.tasks - {a.task}, a.project) == b - {a.task};
  }

  /** What the other steps do: a Task gets a checkout that is whole; a dead process
      leaves the disk and what the file says; lost power leaves one version of it;
      and a start clears a checkout in memory and, as its save allows, in the file. */
  lemma OtherSteps(w: C.World, task: Id, path: Path, save: Save, survivor: Board)
    requires task in w.memory
    ensures var next := C.Next(w, C.Acquire(task, path, save));
      && next.disk == w.disk[path := C.Whole] && next.jobs == w.jobs
      && if save.NotPublished? then next.memory == w.memory && next.file == w.file
         else
           && next.memory == w.memory[task := w.memory[task].(worktree := Some(path))]
           && next.file == w.file.Write(next.memory, save)
    ensures C.Next(w, C.ProcessDies) == C.World(w.file.visible, w.file, w.disk, map[])
    ensures survivor in w.file.possible ==>
      C.Next(w, C.PowerFails(survivor)) == C.World(survivor, File(survivor, {survivor}), w.disk, map[])
    ensures var next := C.Next(w, C.StartupClears(task, save)); var t := w.memory[task];
      && next.jobs == w.jobs && next.file == w.file.Write(next.memory, save)
      && next.memory == w.memory[task := next.memory[task]] && next.memory[task].worktree.None? && !next.memory[task].cleanupInFlight
      && next.disk == if t.worktree.Some? then w.disk[t.worktree.value := C.Gone] else w.disk
  {
  }
}
