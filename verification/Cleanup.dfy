/** Removing a Task's checkout, interleaved with every other writer of one
    Project's board and cut short at any point by a dead process or lost power
    (`terminalize_leased` and `delete` in `lifecycle.rs`, and the startup that
    follows in `app_core.rs`). */
module Cleanup {
  import opened Durability
  import opened Tasks
  import opened Lifecycle

  /** `Unsure`: a removal began there and its end was not seen, so anything may
      be left. `Gone`: the directory and git's registration are both gone. */
  datatype Disk = Whole | Unsure | Gone

  /** A terminalization that passed its stamp, held under the Task's lease.
      `retry` says the Task was already flagged when it was asked for. */
  datatype Job =
    | Removing(path: Path, retry: bool, request: Request, before: Disk)
    | Ended(path: Path, retry: bool, request: Request, outcome: Outcome)

  datatype World = World(memory: Board, file: File<Board>, disk: map<Path, Disk>, jobs: map<Id, Job>)

  datatype Event =
    | Edit(staged: Board, save: Save)
    | Acquire(task: Id, path: Path, save: Save)
    | Stamp(task: Id, request: Request, save: Save)
    | GitAnswers(task: Id, outcome: Outcome)
    | Commit(task: Id, now: Time, save: Save)
    | Settle(task: Id, request: Request, now: Time, save: Save)
    | DropRecord(task: Id, save: Save)
    | ProcessDies
    | PowerFails(survivor: Board)
    | StartupClears(task: Id, save: Save)

  function DiskAt(disk: map<Path, Disk>, path: Path): Disk {
    if path in disk then disk[path] else Whole
  }

  function Versions(w: World): set<Board> {
    w.file.possible + {w.memory}
  }

  predicate Names(b: Board, task: Id, path: Path) {
    task in b && b[task].worktree == Some(path)
  }

  /** A writer that leaves every checkout reference and flag as it was. */
  ghost predicate Respects(b: Board, r: Board) {
    && b.Keys <= r.Keys
    && forall id :: id in r ==>
         if id in b then r[id].worktree == b[id].worktree && r[id].cleanupInFlight == b[id].cleanupInFlight
         else r[id].worktree == None
  }

  function Publish(w: World, staged: Board, save: Save): World {
    if Published(save) then w.(memory := staged, file := w.file.Write(staged, save)) else w
  }

  /** No version names `path` for a Task other than `task`. */
  ghost predicate FreeFor(w: World, task: Id, path: Path) {
    forall b: Board, id :: b in Versions(w) && id in b && id != task ==> b[id].worktree != Some(path)
  }

  /** Whether the code, or git, would do this now. */
  ghost predicate Enabled(w: World, e: Event) {
    match e
    case Edit(staged, _) => Respects(w.memory, staged)
    case Acquire(task, path, _) =>
      && task in w.memory && task !in w.jobs && w.memory[task].worktree.None? && !w.memory[task].cleanupInFlight
      && DiskAt(w.disk, path) != Unsure && FreeFor(w, task, path)
    case Stamp(task, request, _) =>
      task in w.memory && task !in w.jobs && w.memory[task].worktree.Some? && Respects(w.memory, request.record(w.memory))
    case GitAnswers(task, _) => task in w.jobs && w.jobs[task].Removing?
    case Commit(task, now, _) =>
      task in w.jobs && w.jobs[task].Ended? && task in w.memory && Amends(w.memory, task, w.jobs[task].outcome, w.jobs[task].request, now)
    case Settle(task, request, now, _) =>
      task in w.memory && task !in w.jobs && w.memory[task].worktree.None? && Amends(w.memory, task, Cleaned, request, now)
    case DropRecord(task, _) => task in w.memory && task !in w.jobs && w.memory[task].worktree.None?
    case ProcessDies => true
    case PowerFails(survivor) => survivor in w.file.possible
    case StartupClears(task, _) =>
      && w.jobs == map[] && task in w.memory
      && (w.memory[task].worktree.Some? ==> DiskAt(w.disk, w.memory[task].worktree.value) != Whole)
  }

  /** The amendments that travel in a commit leave checkouts and flags alone. */
  ghost predicate Amends(b: Board, task: Id, outcome: Outcome, request: Request, now: Time) {
    && Respects(b, request.record(b))
    && var c := Settled(request.record(b), task, outcome, request, now);
       outcome.Cleaned? ==> Respects(c, request.success(c))
  }

  function Settled(recorded: Board, task: Id, outcome: Outcome, request: Request, now: Time): Board {
    if task in recorded then recorded[task := Concluded(recorded[task], outcome, request.desired, now)] else recorded
  }

  function Committed(b: Board, task: Id, outcome: Outcome, request: Request, now: Time): Board {
    match CommitStaged(b, task, outcome, request, now)
    case Some(staged) => staged
    case None => b
  }

  function Stamped(b: Board, task: Id, request: Request): Board {
    match StampStaged(b, task, request.record)
    case Some(staged) => staged
    case None => b
  }

  /** A Task whose checkout startup proved gone; a note about a lock goes with it,
      and a note about an interrupted cleanup. */
  function Cleared(t: Task): Task {
    var outdated := t.worktree.Some? && (t.cleanupInFlight || (t.error.Some? && t.error.value.lock.Some?));
    t.(worktree := None, cleanupInFlight := false, error := if outdated then None else t.error)
  }

  function Next(w: World, e: Event): World {
    match e
    case Edit(staged, save) => Publish(w, staged, save)
    case Acquire(task, path, save) =>
      if task !in w.memory then w
      else Publish(w.(disk := w.disk[path := Whole]), w.memory[task := w.memory[task].(worktree := Some(path))], save)
    case Stamp(task, request, save) =>
      if task !in w.memory || w.memory[task].worktree.None? then w
      else
        var path := w.memory[task].worktree.value;
        var stamped := Publish(w, Stamped(w.memory, task, request), save);
        if !save.Confirmed? then stamped
        else stamped.(disk := w.disk[path := Unsure],
                      jobs := w.jobs[task := Removing(path, w.memory[task].cleanupInFlight, request, DiskAt(w.disk, path))])
    case GitAnswers(task, outcome) =>
      if !(task in w.jobs && w.jobs[task].Removing?) then w
      else
        var job := w.jobs[task];
        w.(disk := w.disk[job.path := if outcome.Cleaned? then Gone else job.before],
           jobs := w.jobs[task := Ended(job.path, job.retry, job.request, outcome)])
    case Commit(task, now, save) =>
      if !(task in w.jobs && w.jobs[task].Ended?) then w
      else
        var job := w.jobs[task];
        Publish(w.(jobs := w.jobs - {task}), Committed(w.memory, task, job.outcome, job.request, now), save)
    case Settle(task, request, now, save) => Publish(w, Committed(w.memory, task, Cleaned, request, now), save)
    case DropRecord(task, save) => Publish(w, w.memory - {task}, save)
    case ProcessDies => w.(memory := w.file.visible, jobs := map[])
    case PowerFails(survivor) =>
      if survivor in w.file.possible then w.(memory := survivor, file := w.file.Lose(survivor), jobs := map[]) else w
    case StartupClears(task, save) =>
      if task !in w.memory then w
      else
        var t := w.memory[task];
        var cleared := w.memory[task := Cleared(t)];
        var disk := if t.worktree.Some? then w.disk[t.worktree.value := Gone] else w.disk;
        World(cleared, w.file.Write(cleared, save), disk, w.jobs)
  }

  // ---------------------------------------------------------------- invariant

  /** A Task that names a checkout a removal touched is flagged. */
  ghost predicate Honest(b: Board, disk: map<Path, Disk>) {
    forall id :: id in b && b[id].worktree.Some? && DiskAt(disk, b[id].worktree.value) != Whole ==> b[id].cleanupInFlight
  }

  ghost predicate Apart(a: Board, b: Board) {
    forall x, y :: x in a && y in b && x != y && a[x].worktree.Some? ==> b[y].worktree != a[x].worktree
  }

  /** A Task whose checkout is being removed names it, flagged. */
  ghost predicate Held(b: Board, jobs: map<Id, Job>) {
    forall id :: id in jobs ==> Names(b, id, jobs[id].path) && b[id].cleanupInFlight
  }

  ghost predicate JobsSound(disk: map<Path, Disk>, jobs: map<Id, Job>) {
    forall id :: id in jobs ==>
      match jobs[id]
      case Removing(path, retry, _, before) => DiskAt(disk, path) == Unsure && (!retry ==> before == Whole)
      case Ended(path, retry, _, outcome) =>
        if outcome.Cleaned? then DiskAt(disk, path) == Gone else !retry ==> DiskAt(disk, path) == Whole
  }

  ghost predicate Safe(w: World) {
    && w.file.Valid()
    && (forall b :: b in Versions(w) ==> Honest(b, w.disk) && Held(b, w.jobs))
    && (forall a, b :: a in Versions(w) && b in Versions(w) ==> Apart(a, b))
    && JobsSound(w.disk, w.jobs)
  }

  /** What keeps track of every checkout: no two Tasks name one in any version,
      a Task whose checkout is being removed names it, and git is believed that a
      checkout is gone only when it is. */
  ghost predicate Tracked(w: World) {
    && w.file.Valid()
    && (forall b :: b in Versions(w) ==> Held(b, w.jobs))
    && (forall a, b :: a in Versions(w) && b in Versions(w) ==> Apart(a, b))
    && CleanedAreGone(w.disk, w.jobs)
  }

  ghost predicate CleanedAreGone(disk: map<Path, Disk>, jobs: map<Id, Job>) {
    forall id :: id in jobs && jobs[id].Ended? && jobs[id].outcome.Cleaned? ==> DiskAt(disk, jobs[id].path) == Gone
  }

  lemma SafeIsTracked(w: World)
    requires Safe(w)
    ensures Tracked(w)
  {
  }

  /** A board that names nothing its memory did not name for the same Task. */
  ghost predicate NamesNoMore(b: Board, r: Board) {
    forall id :: id in r && r[id].worktree.Some? ==> id in b && b[id].worktree == r[id].worktree
  }

  lemma NamesNoMoreApart(w: World, staged: Board)
    requires Tracked(w) && NamesNoMore(w.memory, staged)
    ensures Apart(staged, staged) && forall b :: b in Versions(w) ==> Apart(staged, b) && Apart(b, staged)
  {
    assert w.memory in Versions(w);
    forall b | b in Versions(w) ensures Apart(staged, b) && Apart(b, staged) {
      assert Apart(w.memory, b) && Apart(b, w.memory);
    }
    assert Apart(w.memory, w.memory);
  }

  /** No two removals are of one checkout. */
  lemma JobsApart(w: World, x: Id, y: Id)
    requires Tracked(w) && x in w.jobs && y in w.jobs && x != y
    ensures w.jobs[x].path != w.jobs[y].path
  {
    assert w.memory in Versions(w);
    assert Names(w.memory, x, w.jobs[x].path) && Names(w.memory, y, w.jobs[y].path) && Apart(w.memory, w.memory);
  }

  /** A retry asked for on a flagged Task, refused by git, and published while
      the checkout is not known to be whole. */
  predicate ForgetsQuarantine(w: World, e: Event) {
    && e.Commit? && Published(e.save) && e.task in w.jobs && w.jobs[e.task].Ended?
    && w.jobs[e.task].outcome.Kept? && DiskAt(w.disk, w.jobs[e.task].path) != Whole
  }

  /** What a staged board must satisfy for its publication to be safe. */
  ghost predicate Fits(w: World, staged: Board) {
    && Honest(staged, w.disk) && Held(staged, w.jobs) && Apart(staged, staged)
    && forall b :: b in Versions(w) ==> Apart(staged, b) && Apart(b, staged)
  }

  lemma PublishIsSafe(w: World, staged: Board, save: Save)
    requires Safe(w) && Fits(w, staged)
    ensures Safe(Publish(w, staged, save))
  {
    var r := Publish(w, staged, save);
    forall b | b in Versions(r) ensures b == staged || b in Versions(w) {
    }
  }

  /** A board that names nothing new, and unflags nothing it still names. */
  ghost predicate NoBolder(b: Board, r: Board) {
    forall id :: id in r && r[id].worktree.Some? ==>
      id in b && b[id].worktree == r[id].worktree && (b[id].cleanupInFlight ==> r[id].cleanupInFlight)
  }

  lemma NoBolderFits(w: World, staged: Board)
    requires Safe(w) && NoBolder(w.memory, staged) && Held(staged, w.jobs)
    ensures Fits(w, staged)
  {
    assert w.memory in Versions(w);
    SafeIsTracked(w);
    NamesNoMoreApart(w, staged);
  }

  lemma RespectsKeeps(b: Board, r: Board, jobs: map<Id, Job>)
    requires Respects(b, r) && Held(b, jobs)
    ensures NoBolder(b, r) && Held(r, jobs)
  {
  }

  lemma EditIsSafe(w: World, staged: Board, save: Save)
    requires Safe(w) && Respects(w.memory, staged)
    ensures Safe(Publish(w, staged, save))
  {
    assert w.memory in Versions(w);
    RespectsKeeps(w.memory, staged, w.jobs);
    NoBolderFits(w, staged);
    PublishIsSafe(w, staged, save);
  }

  lemma OtherDiskIsSound(disk: map<Path, Disk>, jobs: map<Id, Job>, path: Path, now: Disk)
    requires JobsSound(disk, jobs) && forall id :: id in jobs ==> jobs[id].path != path
    ensures JobsSound(disk[path := now], jobs)
  {
  }

  /** A checkout made anew at a path nobody is removing. */
  lemma FreshCheckoutIsSafe(w: World, task: Id, path: Path, save: Save)
    requires Safe(w) && Enabled(w, Acquire(task, path, save))
    ensures Safe(w.(disk := w.disk[path := Whole]))
  {
    var base := w.(disk := w.disk[path := Whole]);
    assert Held(w.memory, w.jobs) by { assert w.memory in Versions(w); }
    forall id | id in w.jobs ensures w.jobs[id].path != path {
      assert Names(w.memory, id, w.jobs[id].path);
      assert w.memory in Versions(w);
    }
    OtherDiskIsSound(w.disk, w.jobs, path, Whole);
    forall b | b in Versions(base) ensures Honest(b, base.disk) && Held(b, base.jobs) {
      assert b in Versions(w);
    }
    forall a, b | a in Versions(base) && b in Versions(base) ensures Apart(a, b) {
      assert a in Versions(w) && b in Versions(w);
    }
  }

  lemma NewNameIsHonest(b: Board, task: Id, path: Path, disk: map<Path, Disk>, jobs: map<Id, Job>)
    requires Honest(b, disk) && Held(b, jobs) && task in b && task !in jobs && DiskAt(disk, path) == Whole
    ensures var r := b[task := b[task].(worktree := Some(path))]; Honest(r, disk) && Held(r, jobs)
  {
  }

  lemma NewNameApart(b: Board, task: Id, path: Path, other: Board)
    requires Apart(b, other) && Apart(other, b) && task in b
    requires forall id :: id in other && id != task ==> other[id].worktree != Some(path)
    ensures var r := b[task := b[task].(worktree := Some(path))]; Apart(r, other) && Apart(other, r)
  {
  }

  lemma NewNameFits(w: World, task: Id, path: Path)
    requires Safe(w) && task in w.memory && task !in w.jobs && DiskAt(w.disk, path) == Whole && FreeFor(w, task, path)
    ensures Fits(w, w.memory[task := w.memory[task].(worktree := Some(path))])
  {
    assert w.memory in Versions(w);
    var staged := w.memory[task := w.memory[task].(worktree := Some(path))];
    NewNameIsHonest(w.memory, task, path, w.disk, w.jobs);
    forall b | b in Versions(w) ensures Apart(staged, b) && Apart(b, staged) {
      NewNameApart(w.memory, task, path, b);
    }
    NewNameApart(w.memory, task, path, w.memory);
    NewNameApart(w.memory, task, path, staged) by {
      assert Apart(w.memory, staged) && Apart(staged, w.memory);
    }
  }

  lemma AcquireIsSafe(w: World, task: Id, path: Path, save: Save)
    requires Safe(w) && Enabled(w, Acquire(task, path, save))
    ensures Safe(Next(w, Acquire(task, path, save)))
  {
    var base := w.(disk := w.disk[path := Whole]);
    FreshCheckoutIsSafe(w, task, path, save);
    assert Versions(base) == Versions(w);
    NewNameFits(base, task, path);
    PublishIsSafe(base, w.memory[task := w.memory[task].(worktree := Some(path))], save);
  }

  lemma FlaggingKeeps(b: Board, r: Board, task: Id, jobs: map<Id, Job>)
    requires NoBolder(b, r) && Held(r, jobs) && task in r
    ensures NoBolder(b, Flagged(r, task)) && Held(Flagged(r, task), jobs)
  {
  }

  lemma StampedFacts(b: Board, task: Id, request: Request, jobs: map<Id, Job>)
    requires task in b && Respects(b, request.record(b)) && Held(b, jobs)
    ensures NoBolder(b, Stamped(b, task, request)) && Held(Stamped(b, task, request), jobs)
    ensures b[task].worktree.Some? ==> Names(Stamped(b, task, request), task, b[task].worktree.value)
    ensures task in Stamped(b, task, request) && Stamped(b, task, request)[task].cleanupInFlight
  {
    RespectsKeeps(b, request.record(b), jobs);
    FlaggingKeeps(b, request.record(b), task, jobs);
    assert Stamped(b, task, request) == Flagged(request.record(b), task);
  }

  lemma StampFits(w: World, task: Id, request: Request)
    requires Safe(w) && task in w.memory && Respects(w.memory, request.record(w.memory))
    ensures Fits(w, Stamped(w.memory, task, request))
  {
    assert w.memory in Versions(w);
    StampedFacts(w.memory, task, request, w.jobs);
    NoBolderFits(w, Stamped(w.memory, task, request));
  }

  lemma OneVersionIsSafe(w: World, only: Board)
    requires w.file == File(only, {only}) && w.memory == only
    requires Honest(only, w.disk) && Held(only, w.jobs) && Apart(only, only) && JobsSound(w.disk, w.jobs)
    ensures Safe(w)
  {
    assert Versions(w) == {only};
  }

  /** A confirmed stamp, field by field. */
  lemma StampConfirmed(w: World, task: Id, request: Request, path: Path)
    requires Names(w.memory, task, path)
    ensures var next := Next(w, Stamp(task, request, Confirmed)); var staged := Stamped(w.memory, task, request);
      && next.memory == staged && next.file == File(staged, {staged}) && next.disk == w.disk[path := Unsure]
      && next.jobs == w.jobs[task := Removing(path, w.memory[task].cleanupInFlight, request, DiskAt(w.disk, path))]
  {
  }

  lemma JobAdded(b: Board, jobs: map<Id, Job>, task: Id, job: Job)
    requires Held(b, jobs) && Names(b, task, job.path) && b[task].cleanupInFlight
    ensures Held(b, jobs[task := job])
  {
  }

  lemma ConfirmedStampIsSafe(w: World, task: Id, request: Request, path: Path, staged: Board, next: World)
    requires Safe(w) && Names(w.memory, task, path) && task !in w.jobs && Respects(w.memory, request.record(w.memory))
    requires staged == Stamped(w.memory, task, request) && next.memory == staged && next.file == File(staged, {staged})
    requires next.disk == w.disk[path := Unsure]
    requires next.jobs == w.jobs[task := Removing(path, w.memory[task].cleanupInFlight, request, DiskAt(w.disk, path))]
    ensures Safe(next)
  {
    StampFits(w, task, request);
    assert Held(w.memory, w.jobs) by { assert w.memory in Versions(w); }
    StampedFacts(w.memory, task, request, w.jobs);
    StartsRemoving(w, staged, task, path, next);
    JobAdded(staged, w.jobs, task, next.jobs[task]);
    OneVersionIsSafe(next, staged);
  }

  lemma StampIsSafe(w: World, task: Id, request: Request, save: Save)
    requires Safe(w) && Enabled(w, Stamp(task, request, save))
    ensures Safe(Next(w, Stamp(task, request, save)))
  {
    if save.Confirmed? {
      var path := w.memory[task].worktree.value;
      StampConfirmed(w, task, request, path);
      ConfirmedStampIsSafe(w, task, request, path, Stamped(w.memory, task, request), Next(w, Stamp(task, request, save)));
    } else {
      StampFits(w, task, request);
      PublishIsSafe(w, Stamped(w.memory, task, request), save);
    }
  }

  lemma JobStarts(disk: map<Path, Disk>, jobs: map<Id, Job>, task: Id, job: Job)
    requires JobsSound(disk, jobs) && forall id :: id in jobs ==> jobs[id].path != job.path
    requires job.Removing? && (!job.retry ==> job.before == Whole)
    ensures JobsSound(disk[job.path := Unsure], jobs[task := job])
  {
  }

  /** The removal now starting at `path` disturbs no other Task's. */
  lemma StartsRemoving(w: World, staged: Board, task: Id, path: Path, next: World)
    requires Safe(w) && Names(w.memory, task, path) && task !in w.jobs
    requires next.disk == w.disk[path := Unsure] && task in next.jobs
    requires next.jobs == w.jobs[task := next.jobs[task]] && next.jobs[task].Removing? && next.jobs[task].path == path
    requires next.jobs[task].before == DiskAt(w.disk, path) && next.jobs[task].retry == w.memory[task].cleanupInFlight
    requires Honest(staged, w.disk) && Apart(staged, staged) && Names(staged, task, path) && staged[task].cleanupInFlight
    ensures JobsSound(next.disk, next.jobs)
    ensures Honest(staged, next.disk)
  {
    assert w.memory in Versions(w);
    forall id | id in w.jobs ensures w.jobs[id].path != path {
      assert Names(w.memory, id, w.jobs[id].path) && Apart(w.memory, w.memory);
    }
    assert Honest(w.memory, w.disk);
    JobStarts(w.disk, w.jobs, task, next.jobs[task]);
    AnswerKeepsHonest(staged, task, path, w.disk, Unsure);
  }

  /** Whatever is now known of the checkout being removed, a version that names
      it for its own Task, flagged, stays honest. */
  lemma AnswerKeepsHonest(b: Board, task: Id, path: Path, disk: map<Path, Disk>, now: Disk)
    requires Honest(b, disk) && Names(b, task, path) && b[task].cleanupInFlight && Apart(b, b)
    ensures Honest(b, disk[path := now])
  {
  }

  lemma AnswerKeepsHeld(b: Board, jobs: map<Id, Job>, task: Id, job: Job)
    requires Held(b, jobs) && task in jobs && job.path == jobs[task].path
    ensures Held(b, jobs[task := job])
  {
  }

  lemma AnsweredJobsSound(disk: map<Path, Disk>, jobs: map<Id, Job>, task: Id, outcome: Outcome)
    requires JobsSound(disk, jobs) && task in jobs && jobs[task].Removing?
    requires forall id :: id in jobs && id != task ==> jobs[id].path != jobs[task].path
    ensures var job := jobs[task];
      JobsSound(disk[job.path := if outcome.Cleaned? then Gone else job.before],
                jobs[task := Ended(job.path, job.retry, job.request, outcome)])
  {
  }

  lemma AnswerKeepsJobs(w: World, task: Id, outcome: Outcome)
    requires Safe(w) && Enabled(w, GitAnswers(task, outcome))
    ensures JobsSound(Next(w, GitAnswers(task, outcome)).disk, Next(w, GitAnswers(task, outcome)).jobs)
  {
    SafeIsTracked(w);
    forall id | id in w.jobs && id != task ensures w.jobs[id].path != w.jobs[task].path {
      JobsApart(w, id, task);
    }
    AnsweredJobsSound(w.disk, w.jobs, task, outcome);
  }

  lemma GitAnswersIsSafe(w: World, task: Id, outcome: Outcome)
    requires Safe(w) && Enabled(w, GitAnswers(task, outcome))
    ensures Safe(Next(w, GitAnswers(task, outcome)))
  {
    var next := Next(w, GitAnswers(task, outcome));
    var path := w.jobs[task].path;
    AnswerKeepsJobs(w, task, outcome);
    assert Versions(next) == Versions(w);
    forall b: Board | b in Versions(w) ensures Honest(b, next.disk) && Held(b, next.jobs) {
      assert Held(b, w.jobs);
      AnswerKeepsHonest(b, task, path, w.disk, next.disk[path]);
      AnswerKeepsHeld(b, w.jobs, task, next.jobs[task]);
    }
  }

  /** `task` is unflagged, over no checkout if it was cleaned; every other Task
      keeps its checkout and flag, and a new one has none. */
  ghost predicate EndsOne(b: Board, r: Board, task: Id, outcome: Outcome)
    requires task in b
  {
    && b.Keys <= r.Keys && task in r && !r[task].cleanupInFlight
    && r[task].worktree == (if outcome.Cleaned? then None else b[task].worktree)
    && (forall id :: id in r && id != task ==>
          if id in b then r[id].worktree == b[id].worktree && r[id].cleanupInFlight == b[id].cleanupInFlight
          else r[id].worktree == None)
  }

  lemma EndedIsHonest(b: Board, r: Board, task: Id, outcome: Outcome, disk: map<Path, Disk>, jobs: map<Id, Job>)
    requires task in b && EndsOne(b, r, task, outcome) && Honest(b, disk) && Held(b, jobs) && task !in jobs
    requires outcome.Kept? && b[task].worktree.Some? ==> DiskAt(disk, b[task].worktree.value) == Whole
    ensures Honest(r, disk) && Held(r, jobs) && NamesNoMore(b, r)
  {
  }

  /** What a terminalization's last write does to checkouts and flags. */
  lemma CommittedFacts(b: Board, task: Id, outcome: Outcome, request: Request, now: Time)
    requires task in b && Amends(b, task, outcome, request, now)
    ensures EndsOne(b, Committed(b, task, outcome, request, now), task, outcome)
  {
    var recorded := request.record(b);
    assert recorded[task].worktree == b[task].worktree;
    var c := Settled(recorded, task, outcome, request, now);
    assert c[task] == Concluded(recorded[task], outcome, request.desired, now);
    assert c[task].worktree == (if outcome.Cleaned? then None else b[task].worktree) && !c[task].cleanupInFlight;
  }

  lemma FewerJobs(b: Board, disk: map<Path, Disk>, jobs: map<Id, Job>, task: Id)
    ensures Held(b, jobs) ==> Held(b, jobs - {task})
    ensures JobsSound(disk, jobs) ==> JobsSound(disk, jobs - {task})
  {
  }

  lemma EndedJobIsSafe(w: World, task: Id)
    requires Safe(w)
    ensures Safe(w.(jobs := w.jobs - {task}))
  {
    var base := w.(jobs := w.jobs - {task});
    assert Versions(base) == Versions(w);
    FewerJobs(w.memory, w.disk, w.jobs, task);
    forall b | b in Versions(w) ensures Held(b, base.jobs) {
      FewerJobs(b, w.disk, w.jobs, task);
    }
  }

  lemma CommitFits(w: World, task: Id, outcome: Outcome, request: Request, now: Time)
    requires Safe(w) && task in w.memory && task !in w.jobs && Amends(w.memory, task, outcome, request, now)
    requires outcome.Kept? && w.memory[task].worktree.Some? ==> DiskAt(w.disk, w.memory[task].worktree.value) == Whole
    ensures Fits(w, Committed(w.memory, task, outcome, request, now))
  {
    var r := Committed(w.memory, task, outcome, request, now);
    CommittedFacts(w.memory, task, outcome, request, now);
    assert w.memory in Versions(w);
    EndedIsHonest(w.memory, r, task, outcome, w.disk, w.jobs);
    SafeIsTracked(w);
    NamesNoMoreApart(w, r);
  }

  lemma CommitIsSafe(w: World, task: Id, now: Time, save: Save)
    requires Safe(w) && Enabled(w, Commit(task, now, save)) && !ForgetsQuarantine(w, Commit(task, now, save))
    ensures Safe(Next(w, Commit(task, now, save)))
  {
    var job := w.jobs[task];
    var base := w.(jobs := w.jobs - {task});
    EndedJobIsSafe(w, task);
    if Published(save) {
      assert w.memory in Versions(w);
      assert Names(w.memory, task, job.path);
      CommitFits(base, task, job.outcome, job.request, now);
      PublishIsSafe(base, Committed(w.memory, task, job.outcome, job.request, now), save);
    }
  }

  /** The other half: publishing that a checkout was kept, when it is not known
      to be whole, leaves the Task unflagged over it. */
  lemma ForgettingIsUnsafe(w: World, task: Id, now: Time, save: Save)
    requires Safe(w) && Enabled(w, Commit(task, now, save)) && ForgetsQuarantine(w, Commit(task, now, save))
    ensures !Safe(Next(w, Commit(task, now, save)))
  {
    var job := w.jobs[task];
    var next := Next(w, Commit(task, now, save));
    assert w.memory in Versions(w) && Names(w.memory, task, job.path);
    CommittedFacts(w.memory, task, job.outcome, job.request, now);
    assert next.memory in Versions(next);
    assert !Honest(next.memory, next.disk);
  }

  lemma DroppedFacts(b: Board, task: Id, jobs: map<Id, Job>)
    requires Held(b, jobs) && task !in jobs
    ensures NoBolder(b, b - {task}) && Held(b - {task}, jobs)
  {
  }

  lemma RecordDroppedIsSafe(w: World, task: Id, save: Save)
    requires Safe(w) && Enabled(w, DropRecord(task, save))
    ensures Safe(Next(w, DropRecord(task, save)))
  {
    assert w.memory in Versions(w);
    DroppedFacts(w.memory, task, w.jobs);
    NoBolderFits(w, w.memory - {task});
    PublishIsSafe(w, w.memory - {task}, save);
  }

  lemma RestartIsSafe(w: World, e: Event)
    requires Safe(w) && Enabled(w, e) && (e.ProcessDies? || e.PowerFails?)
    ensures Safe(Next(w, e)) && Next(w, e).memory == Next(w, e).file.visible && Next(w, e).jobs == map[]
  {
    var next := Next(w, e);
    forall b | b in Versions(next) ensures b in Versions(w) && Held(b, next.jobs) {
    }
  }

  lemma GoneKeepsHonest(b: Board, disk: map<Path, Disk>, path: Path)
    requires Honest(b, disk) && DiskAt(disk, path) != Whole
    ensures Honest(b, disk[path := Gone])
  {
  }

  lemma ClearedIsHonest(b: Board, task: Id, disk: map<Path, Disk>)
    requires Honest(b, disk) && task in b
    ensures Honest(b[task := Cleared(b[task])], disk)
  {
  }

  lemma StartupIsSafe(w: World, task: Id, save: Save)
    requires Safe(w) && Enabled(w, StartupClears(task, save))
    ensures Safe(Next(w, StartupClears(task, save)))
  {
    var next := Next(w, StartupClears(task, save));
    var cleared := next.memory;
    assert w.memory in Versions(w) && Honest(w.memory, w.disk);
    SafeIsTracked(w);
    NamesNoMoreApart(w, cleared);
    forall b | b in Versions(next) ensures b == cleared || b in Versions(w) {
    }
    forall b: Board | b in Versions(w) ensures Honest(b, next.disk) {
      if w.memory[task].worktree.Some? { GoneKeepsHonest(b, w.disk, w.memory[task].worktree.value); }
    }
    ClearedIsHonest(w.memory, task, next.disk);
  }

  /** Every step of every writer, git, a crash or the startup after it keeps the
      invariant, except exactly the one that forgets a quarantine. */
  lemma NextIsSafeIff(w: World, e: Event)
    requires Safe(w) && Enabled(w, e)
    ensures Safe(Next(w, e)) <==> !ForgetsQuarantine(w, e)
  {
    match e
    case Edit(staged, save) => EditIsSafe(w, staged, save);
    case Acquire(task, path, save) => AcquireIsSafe(w, task, path, save);
    case Stamp(task, request, save) => StampIsSafe(w, task, request, save);
    case GitAnswers(task, outcome) => GitAnswersIsSafe(w, task, outcome);
    case Commit(task, now, save) =>
      if ForgetsQuarantine(w, e) { ForgettingIsUnsafe(w, task, now, save); } else { CommitIsSafe(w, task, now, save); }
    case Settle(task, request, now, save) =>
      CommitFits(w, task, Cleaned, request, now);
      PublishIsSafe(w, Committed(w.memory, task, Cleaned, request, now), save);
    case DropRecord(task, save) => RecordDroppedIsSafe(w, task, save);
    case ProcessDies => RestartIsSafe(w, e);
    case PowerFails(_) => RestartIsSafe(w, e);
    case StartupClears(task, save) => StartupIsSafe(w, task, save);
  }

  /** Only a terminalization asked for on a Task already flagged can forget. */
  lemma OnlyRetriesForget(w: World, e: Event)
    requires Safe(w) && ForgetsQuarantine(w, e)
    ensures w.jobs[e.task].retry
  {
    assert JobsSound(w.disk, w.jobs);
  }

  // --------------------------------------------------------------- whole runs

  function Play(w: World, events: seq<Event>): World
    decreases |events|
  {
    if events == [] then w else Play(Next(w, events[0]), events[1..])
  }

  /** Every event of the run is enabled when its turn comes. */
  ghost predicate EnabledRun(w: World, events: seq<Event>)
    decreases |events|
  {
    events == [] || (Enabled(w, events[0]) && EnabledRun(Next(w, events[0]), events[1..]))
  }

  ghost predicate NeverForgets(w: World, events: seq<Event>)
    decreases |events|
  {
    events == [] || (!ForgetsQuarantine(w, events[0]) && NeverForgets(Next(w, events[0]), events[1..]))
  }

  ghost predicate SafeThroughout(w: World, events: seq<Event>)
    decreases |events|
  {
    Safe(w) && (events == [] || SafeThroughout(Next(w, events[0]), events[1..]))
  }

  lemma {:induction false} RunIsSafeIff(w: World, events: seq<Event>)
    requires Safe(w) && EnabledRun(w, events)
    ensures SafeThroughout(w, events) <==> NeverForgets(w, events)
    decreases |events|
  {
    if events != [] {
      NextIsSafeIff(w, events[0]);
      if !ForgetsQuarantine(w, events[0]) {
        RunIsSafeIff(Next(w, events[0]), events[1..]);
      }
    }
  }

  /** Whatever the next start loads, a Task that names a checkout SlashIt's own
      removal took or may have torn is flagged, so it is never run. */
  lemma {:induction false} NeverHealthy(w: World, events: seq<Event>, loaded: Board, task: Id)
    requires Safe(w) && EnabledRun(w, events) && NeverForgets(w, events)
    requires loaded in Play(w, events).file.possible && task in loaded && loaded[task].worktree.Some?
    requires DiskAt(Play(w, events).disk, loaded[task].worktree.value) != Whole
    ensures loaded[task].cleanupInFlight && !ReadyToExecute(loaded[task])
    decreases |events|
  {
    if events == [] {
      assert loaded in Versions(w) && Honest(loaded, w.disk);
    } else {
      NextIsSafeIff(w, events[0]);
      NeverHealthy(Next(w, events[0]), events[1..], loaded, task);
    }
  }

  // ------------------------------------------------------ nothing is stranded

  ghost predicate NamedIn(b: Board, path: Path) {
    exists id :: Names(b, id, path)
  }

  /** Every board the disk may hold has a record that names `path`. */
  ghost predicate Named(w: World, path: Path) {
    forall b :: b in Versions(w) ==> NamedIn(b, path)
  }

  /** Every Task of `b`, other than `except`, keeps its checkout in `r`. */
  ghost predicate KeepsNames(b: Board, r: Board, except: Option<Id>) {
    forall id :: id in b && except != Some(id) && b[id].worktree.Some? ==> id in r && r[id].worktree == b[id].worktree
  }

  lemma PublishKeepsNamed(w: World, staged: Board, save: Save, path: Path, except: Option<Id>)
    requires Named(w, path) && KeepsNames(w.memory, staged, except)
    requires except.Some? ==> !Names(w.memory, except.value, path)
    ensures Named(Publish(w, staged, save), path)
  {
    assert w.memory in Versions(w);
    var id :| Names(w.memory, id, path);
    assert Names(staged, id, path);
    forall b | b in Versions(Publish(w, staged, save)) ensures NamedIn(b, path) {
      assert b == staged || b in Versions(w);
    }
  }

  lemma SameVersionsKeepNamed(w: World, next: World, path: Path)
    requires Named(w, path) && Versions(next) <= Versions(w)
    ensures Named(next, path)
  {
  }

  lemma CommitKeepsNamed(w: World, task: Id, outcome: Outcome, request: Request, now: Time, save: Save, path: Path)
    requires Named(w, path) && task in w.memory && Amends(w.memory, task, outcome, request, now)
    requires outcome.Cleaned? ==> !Names(w.memory, task, path)
    ensures Named(Publish(w, Committed(w.memory, task, outcome, request, now), save), path)
  {
    CommittedFacts(w.memory, task, outcome, request, now);
    PublishKeepsNamed(w, Committed(w.memory, task, outcome, request, now), save, path,
      if outcome.Cleaned? then Some(task) else None);
  }

  lemma StartupKeepsNamed(w: World, task: Id, save: Save, path: Path)
    requires Named(w, path) && Enabled(w, StartupClears(task, save)) && !Names(w.memory, task, path)
    ensures Named(Next(w, StartupClears(task, save)), path)
  {
    var next := Next(w, StartupClears(task, save));
    assert w.memory in Versions(w);
    var id :| Names(w.memory, id, path);
    assert Names(next.memory, id, path);
    forall b | b in Versions(next) ensures NamedIn(b, path) {
      assert b == next.memory || b in Versions(w);
    }
  }

  lemma AcquireKeepsNamed(w: World, task: Id, at: Path, save: Save, path: Path)
    requires Named(w, path) && Enabled(w, Acquire(task, at, save))
    ensures Named(Next(w, Acquire(task, at, save)), path)
  {
    var base := w.(disk := w.disk[at := Whole]);
    SameVersionsKeepNamed(w, base, path);
    PublishKeepsNamed(base, w.memory[task := w.memory[task].(worktree := Some(at))], save, path, None);
  }

  lemma StampKeepsNamed(w: World, task: Id, request: Request, save: Save, path: Path)
    requires Named(w, path) && Enabled(w, Stamp(task, request, save))
    ensures Named(Next(w, Stamp(task, request, save)), path)
  {
    StampedNames(w.memory, task, request);
    PublishKeepsNamed(w, Stamped(w.memory, task, request), save, path, None);
    SameVersionsKeepNamed(Publish(w, Stamped(w.memory, task, request), save), Next(w, Stamp(task, request, save)), path);
  }

  lemma StampedNames(b: Board, task: Id, request: Request)
    requires task in b && Respects(b, request.record(b))
    ensures KeepsNames(b, Stamped(b, task, request), None)
  {
  }

  // What follows holds of every run, quarantines forgotten or not.

  /** A published board that names no more than memory does, and keeps the names
      and flags of checkouts being removed. */
  lemma PublishIsTracked(w: World, staged: Board, save: Save)
    requires Tracked(w) && Held(staged, w.jobs) && Apart(staged, staged)
    requires forall b :: b in Versions(w) ==> Apart(staged, b) && Apart(b, staged)
    ensures Tracked(Publish(w, staged, save))
  {
    forall b | b in Versions(Publish(w, staged, save)) ensures b == staged || b in Versions(w) {
    }
  }

  lemma NoMoreIsTracked(w: World, staged: Board, save: Save)
    requires Tracked(w) && NamesNoMore(w.memory, staged) && Held(staged, w.jobs)
    ensures Tracked(Publish(w, staged, save))
  {
    NamesNoMoreApart(w, staged);
    PublishIsTracked(w, staged, save);
  }

  lemma EditIsTracked(w: World, staged: Board, save: Save)
    requires Tracked(w) && Respects(w.memory, staged)
    ensures Tracked(Publish(w, staged, save))
  {
    assert w.memory in Versions(w);
    RespectsKeeps(w.memory, staged, w.jobs);
    NoMoreIsTracked(w, staged, save);
  }

  lemma OtherDiskIsGone(disk: map<Path, Disk>, jobs: map<Id, Job>, path: Path, now: Disk)
    requires CleanedAreGone(disk, jobs) && forall id :: id in jobs ==> jobs[id].path != path
    ensures CleanedAreGone(disk[path := now], jobs)
  {
  }

  lemma JobIsGone(disk: map<Path, Disk>, jobs: map<Id, Job>, task: Id, job: Job)
    requires CleanedAreGone(disk, jobs)
    requires job.Ended? && job.outcome.Cleaned? ==> DiskAt(disk, job.path) == Gone
    ensures CleanedAreGone(disk, jobs[task := job])
  {
  }

  lemma NewNameIsHeld(b: Board, task: Id, path: Path, jobs: map<Id, Job>)
    requires Held(b, jobs) && task in b && task !in jobs
    ensures Held(b[task := b[task].(worktree := Some(path))], jobs)
  {
  }

  lemma AcquireIsTracked(w: World, task: Id, path: Path, save: Save)
    requires Tracked(w) && Enabled(w, Acquire(task, path, save))
    ensures Tracked(Next(w, Acquire(task, path, save)))
  {
    var base := w.(disk := w.disk[path := Whole]);
    var staged := w.memory[task := w.memory[task].(worktree := Some(path))];
    assert w.memory in Versions(w) && Versions(base) == Versions(w);
    forall id | id in w.jobs ensures w.jobs[id].path != path {
      assert Names(w.memory, id, w.jobs[id].path);
    }
    forall b | b in Versions(w) ensures Apart(staged, b) && Apart(b, staged) {
      NewNameApart(w.memory, task, path, b);
    }
    NewNameApart(w.memory, task, path, w.memory);
    NewNameApart(w.memory, task, path, staged);
    NewNameIsHeld(w.memory, task, path, w.jobs);
    OtherDiskIsGone(w.disk, w.jobs, path, Whole);
    PublishIsTracked(base, staged, save);
  }

  lemma OneVersionIsTracked(w: World, only: Board)
    requires w.file == File(only, {only}) && w.memory == only
    requires Held(only, w.jobs) && Apart(only, only) && CleanedAreGone(w.disk, w.jobs)
    ensures Tracked(w)
  {
    assert Versions(w) == {only};
  }

  lemma ConfirmedStampIsTracked(w: World, task: Id, path: Path, staged: Board, job: Job, next: World)
    requires Tracked(w) && Names(w.memory, task, path) && task !in w.jobs
    requires Held(staged, w.jobs) && NamesNoMore(w.memory, staged) && Names(staged, task, path) && staged[task].cleanupInFlight
    requires next == World(staged, File(staged, {staged}), w.disk[path := Unsure], w.jobs[task := job])
    requires job.Removing? && job.path == path
    ensures Tracked(next)
  {
    assert w.memory in Versions(w);
    forall id | id in w.jobs ensures w.jobs[id].path != path {
      assert Names(w.memory, id, w.jobs[id].path) && Apart(w.memory, w.memory);
    }
    NamesNoMoreApart(w, staged);
    JobAdded(staged, w.jobs, task, job);
    OtherDiskIsGone(w.disk, w.jobs, path, Unsure);
    JobIsGone(next.disk, w.jobs, task, job);
    OneVersionIsTracked(next, staged);
  }

  lemma StampIsTracked(w: World, task: Id, request: Request, save: Save)
    requires Tracked(w) && Enabled(w, Stamp(task, request, save))
    ensures Tracked(Next(w, Stamp(task, request, save)))
  {
    var staged := Stamped(w.memory, task, request);
    assert w.memory in Versions(w);
    StampedFacts(w.memory, task, request, w.jobs);
    if save.Confirmed? {
      var path := w.memory[task].worktree.value;
      var next := Next(w, Stamp(task, request, save));
      StampConfirmed(w, task, request, path);
      ConfirmedStampIsTracked(w, task, path, staged, next.jobs[task], next);
    } else {
      NoMoreIsTracked(w, staged, save);
    }
  }

  lemma AnsweredIsGone(disk: map<Path, Disk>, jobs: map<Id, Job>, task: Id, now: Disk, job: Job)
    requires CleanedAreGone(disk, jobs) && task in jobs && job.path == jobs[task].path
    requires forall id :: id in jobs && id != task ==> jobs[id].path != job.path
    requires job.Ended? && job.outcome.Cleaned? ==> now == Gone
    ensures CleanedAreGone(disk[job.path := now], jobs[task := job])
  {
  }

  lemma GitAnswersIsTracked(w: World, task: Id, outcome: Outcome)
    requires Tracked(w) && Enabled(w, GitAnswers(task, outcome))
    ensures Tracked(Next(w, GitAnswers(task, outcome)))
  {
    var next := Next(w, GitAnswers(task, outcome));
    assert Versions(next) == Versions(w);
    forall id | id in w.jobs && id != task ensures w.jobs[id].path != w.jobs[task].path {
      JobsApart(w, id, task);
    }
    var job := w.jobs[task];
    AnsweredIsGone(w.disk, w.jobs, task, if outcome.Cleaned? then Gone else job.before, next.jobs[task]);
    forall b: Board | b in Versions(w) ensures Held(b, next.jobs) {
      AnswerKeepsHeld(b, w.jobs, task, next.jobs[task]);
    }
  }

  lemma EndedIsTracked(w: World, task: Id, outcome: Outcome, request: Request, now: Time, save: Save)
    requires Tracked(w) && task in w.memory && task !in w.jobs && Amends(w.memory, task, outcome, request, now)
    ensures Tracked(Publish(w, Committed(w.memory, task, outcome, request, now), save))
  {
    var r := Committed(w.memory, task, outcome, request, now);
    CommittedFacts(w.memory, task, outcome, request, now);
    assert w.memory in Versions(w);
    EndsKeepsNames(w.memory, r, task, outcome, w.jobs);
    NoMoreIsTracked(w, r, save);
  }

  lemma EndsKeepsNames(b: Board, r: Board, task: Id, outcome: Outcome, jobs: map<Id, Job>)
    requires task in b && EndsOne(b, r, task, outcome) && Held(b, jobs) && task !in jobs
    ensures NamesNoMore(b, r) && Held(r, jobs)
  {
  }

  lemma FewerJobsAreTracked(w: World, task: Id)
    requires Tracked(w)
    ensures Tracked(w.(jobs := w.jobs - {task}))
  {
    var base := w.(jobs := w.jobs - {task});
    assert Versions(base) == Versions(w);
    forall b | b in Versions(w) ensures Held(b, base.jobs) {
      FewerJobs(b, w.disk, w.jobs, task);
    }
  }

  lemma DropIsTracked(w: World, task: Id, save: Save)
    requires Tracked(w) && Enabled(w, DropRecord(task, save))
    ensures Tracked(Next(w, DropRecord(task, save)))
  {
    assert w.memory in Versions(w);
    DroppedFacts(w.memory, task, w.jobs);
    NoMoreIsTracked(w, w.memory - {task}, save);
  }

  lemma RestartIsTracked(w: World, e: Event)
    requires Tracked(w) && Enabled(w, e) && (e.ProcessDies? || e.PowerFails?)
    ensures Tracked(Next(w, e))
  {
    forall b | b in Versions(Next(w, e)) ensures b in Versions(w) {
    }
  }

  lemma StartupIsTracked(w: World, task: Id, save: Save)
    requires Tracked(w) && Enabled(w, StartupClears(task, save))
    ensures Tracked(Next(w, StartupClears(task, save)))
  {
    var next := Next(w, StartupClears(task, save));
    NamesNoMoreApart(w, next.memory);
    forall b | b in Versions(next) ensures b == next.memory || b in Versions(w) {
    }
  }

  /** Every step keeps track, the one that forgets a quarantine included. */
  lemma NextIsTracked(w: World, e: Event)
    requires Tracked(w) && Enabled(w, e)
    ensures Tracked(Next(w, e))
  {
    match e
    case Edit(staged, save) => EditIsTracked(w, staged, save);
    case Acquire(task, path, save) => AcquireIsTracked(w, task, path, save);
    case Stamp(task, request, save) => StampIsTracked(w, task, request, save);
    case GitAnswers(task, outcome) => GitAnswersIsTracked(w, task, outcome);
    case Commit(task, now, save) =>
      FewerJobsAreTracked(w, task);
      EndedIsTracked(w.(jobs := w.jobs - {task}), task, w.jobs[task].outcome, w.jobs[task].request, now, save);
    case Settle(task, request, now, save) => EndedIsTracked(w, task, Cleaned, request, now, save);
    case DropRecord(task, save) => DropIsTracked(w, task, save);
    case ProcessDies => RestartIsTracked(w, e);
    case PowerFails(_) => RestartIsTracked(w, e);
    case StartupClears(task, save) => StartupIsTracked(w, task, save);
  }

  lemma JobEndKeepsNamed(w: World, task: Id, now: Time, save: Save, path: Path)
    requires Tracked(w) && Named(w, path) && Enabled(w, Commit(task, now, save))
    requires DiskAt(w.disk, path) != Gone
    ensures Named(Next(w, Commit(task, now, save)), path)
  {
    var job := w.jobs[task];
    assert w.memory in Versions(w) && Names(w.memory, task, job.path);
    CommitKeepsNamed(w.(jobs := w.jobs - {task}), task, job.outcome, job.request, now, save, path);
  }

  /** No step strands a checkout, whatever became of its quarantine: while it is
      not gone, every version of the board that named it before still names it. */
  lemma NothingStranded(w: World, e: Event, path: Path)
    requires Tracked(w) && Enabled(w, e) && Named(w, path) && DiskAt(Next(w, e).disk, path) != Gone
    ensures Named(Next(w, e), path)
  {
    match e
    case Edit(staged, save) => PublishKeepsNamed(w, staged, save, path, None);
    case Acquire(task, at, save) => AcquireKeepsNamed(w, task, at, save, path);
    case Stamp(task, request, save) => StampKeepsNamed(w, task, request, save, path);
    case Commit(task, now, save) => JobEndKeepsNamed(w, task, now, save, path);
    case Settle(task, request, now, save) => CommitKeepsNamed(w, task, Cleaned, request, now, save, path);
    case DropRecord(task, save) => PublishKeepsNamed(w, w.memory - {task}, save, path, Some(task));
    case StartupClears(task, save) => StartupKeepsNamed(w, task, save, path);
    case _ => SameVersionsKeepNamed(w, Next(w, e), path);
  }

  ghost predicate NeverGone(w: World, events: seq<Event>, path: Path)
    decreases |events|
  {
    DiskAt(w.disk, path) != Gone && (events == [] || NeverGone(Next(w, events[0]), events[1..], path))
  }

  /** Over any run of finishes, deletes, retries, refusals, unconfirmed writes,
      crashes and starts, a checkout that never goes stays named in every version. */
  lemma {:induction false} RunStrandsNothing(w: World, events: seq<Event>, path: Path)
    requires Tracked(w) && EnabledRun(w, events) && Named(w, path) && NeverGone(w, events, path)
    ensures Named(Play(w, events), path) && Tracked(Play(w, events))
    decreases |events|
  {
    if events != [] {
      NothingStranded(w, events[0], path);
      NextIsTracked(w, events[0]);
      RunStrandsNothing(Next(w, events[0]), events[1..], path);
    }
  }
}
