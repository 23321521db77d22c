/** What a quarantine survives: every first attempt to remove a checkout, every
    crash of one, and the start that follows; but not an explicit retry that git
    refuses (`lifecycle.rs`, `app_core.rs`). */
module Quarantine {
  import opened Durability
  import opened Tasks
  import opened Lifecycle
  import opened Terminalization
  import opened Cleanup
  import S = Startup

  // ------------------------------------------------------ first attempts only

  /** No terminalization under way was asked for on a Task already flagged. */
  ghost predicate NoRetries(w: World) {
    forall id :: id in w.jobs ==> !w.jobs[id].retry
  }

  /** No terminalization of the run is asked for on a Task that is flagged when
      it is asked, which is what its caller can see. */
  ghost predicate FirstAttemptsOnly(w: World, events: seq<Event>)
    decreases |events|
  {
    events == [] || (
      && (events[0].Stamp? && events[0].task in w.memory ==> !w.memory[events[0].task].cleanupInFlight)
      && FirstAttemptsOnly(Next(w, events[0]), events[1..]))
  }

  lemma NoRetriesStay(w: World, e: Event)
    requires NoRetries(w) && (e.Stamp? && e.task in w.memory ==> !w.memory[e.task].cleanupInFlight)
    ensures NoRetries(Next(w, e))
  {
  }

  /** While nobody retries a quarantined Task, every version names a checkout a
      removal touched for a flagged Task only: whatever is saved, refused, cut
      short or lost. */
  lemma {:induction false} FirstAttemptsAreSafe(w: World, events: seq<Event>)
    requires Safe(w) && NoRetries(w) && EnabledRun(w, events) && FirstAttemptsOnly(w, events)
    ensures SafeThroughout(w, events)
    decreases |events|
  {
    if events != [] {
      if ForgetsQuarantine(w, events[0]) {
        OnlyRetriesForget(w, events[0]);
        assert false;
      }
      NextIsSafeIff(w, events[0]);
      NoRetriesStay(w, events[0]);
      FirstAttemptsAreSafe(Next(w, events[0]), events[1..]);
    }
  }

  // ------------------------------------------------------------- runs in parts

  lemma {:induction false} Joined(w: World, a: seq<Event>, b: seq<Event>)
    requires EnabledRun(w, a) && EnabledRun(Play(w, a), b)
    ensures EnabledRun(w, a + b) && Play(w, a + b) == Play(Play(w, a), b)
    decreases |a|
  {
    if a == [] {
      assert a + b == b;
    } else {
      Joined(Next(w, a[0]), a[1..], b);
      assert (a + b)[1..] == a[1..] + b;
    }
  }

  lemma OneStep(w: World, e: Event)
    requires Enabled(w, e)
    ensures EnabledRun(w, [e]) && Play(w, [e]) == Next(w, e)
  {
    assert [e][1..] == [];
    assert EnabledRun(Next(w, e), []) && Play(Next(w, e), []) == Next(w, e);
  }

  lemma ThreeSteps(w: World, x: Event, y: Event, z: Event)
    requires Enabled(w, x) && Enabled(Next(w, x), y) && Enabled(Next(Next(w, x), y), z)
    ensures EnabledRun(w, [x, y, z]) && Play(w, [x, y, z]) == Next(Next(Next(w, x), y), z)
  {
    var v := Next(w, x);
    OneStep(w, x);
    OneStep(v, y);
    OneStep(Next(v, y), z);
    Joined(v, [y], [z]);
    Joined(w, [x], [y] + [z]);
    assert [x] + ([y] + [z]) == [x, y, z];
  }

  /** An attempt that git refuses. */
  function KeptRun(task: Id, request: Request, kept: Outcome, now: Time): seq<Event> {
    [Stamp(task, request, Confirmed), GitAnswers(task, kept), Commit(task, now, Confirmed)]
  }

  lemma StampedJob(w: World, task: Id, request: Request, path: Path)
    requires Safe(w) && Enabled(w, Stamp(task, request, Confirmed)) && Names(w.memory, task, path)
    ensures var next := Next(w, Stamp(task, request, Confirmed));
      && Safe(next) && Names(next.memory, task, path)
      && task in next.jobs && next.jobs[task] == Removing(path, w.memory[task].cleanupInFlight, request, DiskAt(w.disk, path))
  {
    StampIsSafe(w, task, request, Confirmed);
    StampConfirmed(w, task, request, path);
    var next := Next(w, Stamp(task, request, Confirmed));
    assert next.memory in Versions(next) && Held(next.memory, next.jobs);
  }

  lemma AnsweredJob(w: World, task: Id, path: Path, kept: Outcome)
    requires Safe(w) && task in w.jobs && w.jobs[task].Removing? && w.jobs[task].path == path && kept.Kept?
    ensures var next := Next(w, GitAnswers(task, kept)); var job := w.jobs[task];
      && Safe(next) && next.memory == w.memory && DiskAt(next.disk, path) == job.before
      && task in next.jobs && next.jobs[task] == Ended(path, job.retry, job.request, kept)
  {
    GitAnswersIsSafe(w, task, kept);
  }

  lemma PlainAmends(b: Board, task: Id, outcome: Outcome, request: Request, now: Time)
    requires request.record == Unchanged() && request.success == Unchanged()
    ensures Amends(b, task, outcome, request, now)
  {
  }

  /** In every safe world: an attempt that git refuses keeps the board safe exactly
      when the checkout was whole when it was asked for, as it is whenever the
      Task was not flagged then. */
  lemma KeptIsSafeIff(w: World, task: Id, request: Request, kept: Outcome, now: Time)
    requires Safe(w) && Enabled(w, Stamp(task, request, Confirmed)) && kept.Kept?
    requires request.record == Unchanged() && request.success == Unchanged()
    ensures var run := KeptRun(task, request, kept, now); var path := w.memory[task].worktree.value;
      && EnabledRun(w, run)
      && (Safe(Play(w, run)) <==> DiskAt(w.disk, path) == Whole)
      && (!w.memory[task].cleanupInFlight ==> DiskAt(w.disk, path) == Whole)
  {
    var path := w.memory[task].worktree.value;
    assert Honest(w.memory, w.disk) by { assert w.memory in Versions(w); }
    var run := KeptRun(task, request, kept, now);
    var stamped := Next(w, run[0]);
    StampedJob(w, task, request, path);
    var answered := Next(stamped, run[1]);
    AnsweredJob(stamped, task, path, kept);
    PlainAmends(answered.memory, task, kept, request, now);
    NextIsSafeIff(answered, run[2]);
    ThreeSteps(w, run[0], run[1], run[2]);
  }

  // -------------------------------------------------- a start is made of steps

  /** A checkout no removal has touched is where it was. */
  ghost predicate WholeIsPresent(disk: map<Path, Disk>, h: S.Host) {
    forall path: Path :: DiskAt(disk, path).Whole? ==> h.present(path)
  }

  lemma PresentStays(h: S.Host, owner: Option<Id>, t: Task)
    requires !t.cleanupInFlight && (t.worktree.Some? ==> h.present(t.worktree.value))
    ensures S.Reconcile(h, owner, t).worktree == t.worktree && !S.Reconcile(h, owner, t).cleanupInFlight
  {
  }

  lemma UnflaggedStays(h: S.Host, owner: Option<Id>, t: Task)
    ensures !t.cleanupInFlight ==> !S.Reconcile(h, owner, t).cleanupInFlight
  {
    if t.worktree.Some? && !t.cleanupInFlight {
      var missing := S.ReconcileMissing(h, owner, t, t.worktree.value);
      assert !missing.cleanupInFlight;
    }
  }

  /** A start left path and flag as they were. */
  predicate LeftAlone(t: Task, r: Task) {
    r.worktree == t.worktree && r.cleanupInFlight == t.cleanupInFlight
  }

  /** It took the clearing step of the run model, whose guard holds. */
  predicate TookClearingStep(t: Task, r: Task, disk: map<Path, Disk>) {
    r.worktree.None? && !r.cleanupInFlight && (t.worktree.Some? ==> DiskAt(disk, t.worktree.value) != Whole)
  }

  /** It pointed an unflagged Task, whose directory is not there, elsewhere. */
  predicate Repointed(h: S.Host, t: Task, r: Task) {
    !t.cleanupInFlight && !r.cleanupInFlight && t.worktree.Some? && r.worktree.Some? && !h.present(t.worktree.value)
  }

  /** What a start does to whatever board an interrupted process left, checkout by
      checkout: it keeps path and flag, takes the clearing step of the run model,
      or re-points a Task whose directory is not there. On a board that names torn
      checkouts only with a flag, it clears flagged Tasks only and re-points none. */
  lemma StartIsMadeOfSteps(h: S.Host, keys: seq<Id>, b: Board, disk: map<Path, Disk>, now: Time, id: Id)
    requires WholeIsPresent(disk, h) && id in b
    ensures var t := b[id]; var r := S.StartupBoard(h, keys, b, now)[id];
      && (LeftAlone(t, r) || TookClearingStep(t, r, disk) || Repointed(h, t, r))
      && (Honest(b, disk) ==> LeftAlone(t, r) || (t.cleanupInFlight && TookClearingStep(t, r, disk)))
  {
    var t := b[id];
    var owner := S.Owner(h, b, keys, id);
    var m := S.Migrate(t, now);
    S.MigrateFacts(t, now);
    assert Honest(b, disk) && t.worktree.Some? && !t.cleanupInFlight ==> DiskAt(disk, t.worktree.value).Whole?;
    if !m.cleanupInFlight {
      if m.worktree.None? || h.present(m.worktree.value) {
        PresentStays(h, owner, m);
      } else {
        UnflaggedStays(h, owner, m);
      }
    } else if m.worktree.Some? {
      S.FlaggedStays(h, owner, m);
      S.ClearedIffProvenAbsent(h, owner, m, m.worktree.value);
    } else {
      S.UnnamedIsUnflagged(h, owner, m);
    }
  }

  /** Where reconciliation forgets a checkout, or there was none, it leaves exactly
      the Task the run model's clearing step leaves. */
  lemma ClearingIsTheStep(h: S.Host, owner: Option<Id>, t: Task)
    requires !S.HandoffPending(t)
    ensures S.Reconcile(h, owner, t).worktree.None? ==> S.Reconcile(h, owner, t) == Cleared(t)
  {
    S.ReconcileSays(h, owner, t);
  }

  // ------------------------------------------------------------- the retry

  function Alone(t: Task, disk: map<Path, Disk>): World {
    World(map[t.id := t], File(map[t.id := t], {map[t.id := t]}), disk, map[])
  }

  lemma StampedAlone(t: Task, request: Request)
    requires request.record == Unchanged()
    ensures Stamped(map[t.id := t], t.id, request) == map[t.id := t.(cleanupInFlight := true)]
  {
    assert StampStaged(map[t.id := t], t.id, request.record).Some?;
    assert map[t.id := t][t.id := t.(cleanupInFlight := true)] == map[t.id := t.(cleanupInFlight := true)];
  }

  lemma StampAlone(t: Task, path: Path, disk: map<Path, Disk>, request: Request)
    requires t.worktree == Some(path) && request.record == Unchanged()
    ensures Enabled(Alone(t, disk), Stamp(t.id, request, Confirmed))
    ensures Next(Alone(t, disk), Stamp(t.id, request, Confirmed))
         == Alone(t.(cleanupInFlight := true), disk[path := Unsure])
              .(jobs := map[t.id := Removing(path, t.cleanupInFlight, request, DiskAt(disk, path))])
  {
    var w := Alone(t, disk);
    var flagged := t.(cleanupInFlight := true);
    var job := Removing(path, t.cleanupInFlight, request, DiskAt(disk, path));
    StampedAlone(t, request);
    StampConfirmed(w, t.id, request, path);
    assert flagged.id == t.id;
    assert w.jobs[t.id := job] == map[t.id := job];
    var next := Next(w, Stamp(t.id, request, Confirmed));
    assert next.memory == map[flagged.id := flagged] && next.file == File(map[flagged.id := flagged], {map[flagged.id := flagged]});
  }

  lemma AnswerAlone(t: Task, path: Path, request: Request, kept: Outcome)
    requires kept.Kept?
    ensures var w := Alone(t, map[path := Unsure]).(jobs := map[t.id := Removing(path, true, request, Unsure)]);
      && Enabled(w, GitAnswers(t.id, kept))
      && Next(w, GitAnswers(t.id, kept))
         == Alone(t, map[path := Unsure]).(jobs := map[t.id := Ended(path, true, request, kept)])
  {
    var w := Alone(t, map[path := Unsure]).(jobs := map[t.id := Removing(path, true, request, Unsure)]);
    assert w.disk[path := Unsure] == map[path := Unsure];
    assert w.jobs[t.id := Ended(path, true, request, kept)] == map[t.id := Ended(path, true, request, kept)];
  }

  lemma CommittedAlone(t: Task, kept: Outcome, request: Request, now: Time)
    requires request.record == Unchanged() && kept.Kept?
    ensures Committed(map[t.id := t], t.id, kept, request, now) == map[t.id := Concluded(t, kept, request.desired, now)]
    ensures Concluded(t, kept, request.desired, now).id == t.id
    ensures Concluded(t, kept, request.desired, now).worktree == t.worktree
    ensures !Concluded(t, kept, request.desired, now).cleanupInFlight
  {
    var b := map[t.id := t];
    assert b[t.id := Concluded(t, kept, request.desired, now)] == map[t.id := Concluded(t, kept, request.desired, now)];
  }

  lemma KeptAlone(t: Task, path: Path, request: Request, kept: Outcome, now: Time)
    requires request.record == Unchanged() && kept.Kept?
    ensures var w := Alone(t, map[path := Unsure]).(jobs := map[t.id := Ended(path, true, request, kept)]);
      && Enabled(w, Commit(t.id, now, Confirmed))
      && Next(w, Commit(t.id, now, Confirmed)) == Alone(Concluded(t, kept, request.desired, now), map[path := Unsure])
  {
    var w := Alone(t, map[path := Unsure]).(jobs := map[t.id := Ended(path, true, request, kept)]);
    CommittedAlone(t, kept, request, now);
    assert w.jobs - {t.id} == map[];
  }

  /** The board as the start after the crash leaves it: the half-removed directory
      is still there, so the Task stays flagged over it. */
  function Restarted(h: S.Host, t: Task, boot: Time): Task {
    S.StartupTask(h, None, t.(cleanupInFlight := true), boot)
  }

  lemma OnlyTask(h: S.Host, t: Task, boot: Time)
    ensures S.StartupBoard(h, [t.id], map[t.id := t], boot) == map[t.id := S.StartupTask(h, None, t, boot)]
  {
    assert S.Owner(h, map[t.id := t], [t.id], t.id) == None;
  }

  lemma RestartAlone(h: S.Host, t: Task, path: Path, boot: Time)
    requires t.worktree == Some(path) && t.cleanupInFlight && h.present(path)
    ensures var s := S.StartupTask(h, None, t, boot); var e := Edit(S.StartupBoard(h, [t.id], map[t.id := t], boot), Confirmed);
      && s.id == t.id && s.worktree == Some(path) && s.cleanupInFlight
      && Enabled(Alone(t, map[path := Unsure]), e)
      && Next(Alone(t, map[path := Unsure]), e) == Alone(s, map[path := Unsure])
  {
    OnlyTask(h, t, boot);
    S.FlaggedIsClearedOrHeld(h, None, t, boot, path);
    S.TaskKeepsIdentity(h, None, t, boot);
  }

  /** A start leaves a Task that was not running as fit to be finished as it was. */
  lemma RestartStaysFit(h: S.Host, t: Task, first: Ask, retry: Ask, boot: Time)
    requires !t.status.InProgress? && EarlyRefusal(t, first).None?
    requires retry.origin.User? && !retry.running && retry.repository
    ensures EarlyRefusal(Restarted(h, t, boot), retry).None?
  {
    var flagged := t.(cleanupInFlight := true);
    assert !(t.handoff.Some? && t.handoff.value.stage.Started?);
    S.MigratesQuietly(flagged, boot);
    S.ReconcileKeeps(h, None, S.Migrate(flagged, boot));
  }

  /** The first attempt is announced and cut short, and the next start keeps the
      Task quarantined. */
  function CutShort(h: S.Host, t: Task, first: Ask, boot: Time): seq<Event> {
    [Stamp(t.id, first.request, Confirmed), ProcessDies,
     Edit(S.StartupBoard(h, [t.id], map[t.id := t.(cleanupInFlight := true)], boot), Confirmed)]
  }

  lemma CutShortRuns(h: S.Host, t: Task, path: Path, first: Ask, boot: Time)
    requires t.worktree == Some(path) && h.present(path) && first.request.record == Unchanged()
    ensures var w := Alone(t, map[]); var run := CutShort(h, t, first, boot); var s := Restarted(h, t, boot);
      && EnabledRun(w, run) && Play(w, run) == Alone(s, map[path := Unsure])
      && s.id == t.id && s.worktree == Some(path) && s.cleanupInFlight
  {
    var w := Alone(t, map[]);
    var run := CutShort(h, t, first, boot);
    var flagged := t.(cleanupInFlight := true);
    var none: map<Path, Disk> := map[];
    StampAlone(t, path, none, first.request);
    assert none[path := Unsure] == map[path := Unsure];
    assert Next(Next(w, run[0]), ProcessDies) == Alone(flagged, map[path := Unsure]);
    RestartAlone(h, flagged, path, boot);
    ThreeSteps(w, run[0], run[1], run[2]);
  }

  lemma RefusedRuns(s: Task, path: Path, retry: Ask, kept: Outcome)
    requires s.worktree == Some(path) && s.cleanupInFlight && kept.Kept? && retry.request.record == Unchanged()
    ensures var w := Alone(s, map[path := Unsure]); var run := KeptRun(s.id, retry.request, kept, retry.now);
      EnabledRun(w, run) && Play(w, run) == Alone(Concluded(s, kept, retry.request.desired, retry.now), map[path := Unsure])
  {
    var w := Alone(s, map[path := Unsure]);
    var run := KeptRun(s.id, retry.request, kept, retry.now);
    StampAlone(s, path, map[path := Unsure], retry.request);
    assert s.(cleanupInFlight := true) == s;
    assert map[path := Unsure][path := Unsure] == map[path := Unsure];
    AnswerAlone(s, path, retry.request, kept);
    KeptAlone(s, path, retry.request, kept, retry.now);
    ThreeSteps(w, run[0], run[1], run[2]);
  }

  lemma AloneIsSafe(t: Task)
    requires !t.cleanupInFlight
    ensures Safe(Alone(t, map[]))
  {
    assert Versions(Alone(t, map[])) == {map[t.id := t]};
  }

  lemma UnflaggedIsUnsafe(t: Task, path: Path)
    requires t.worktree == Some(path) && !t.cleanupInFlight
    ensures !Safe(Alone(t, map[path := Unsure]))
  {
    var end := Alone(t, map[path := Unsure]);
    assert end.memory in Versions(end);
    assert end.memory[t.id].worktree == Some(path) && DiskAt(end.disk, path) == Unsure;
    assert !Honest(end.memory, end.disk);
  }

  /** Nothing refuses either attempt, and every step is one the code takes; yet
      from a safe board the run ends with the Task unflagged over a checkout of
      which anything may be left. */
  lemma RetryForgets(h: S.Host, t: Task, path: Path, first: Ask, retry: Ask, reason: string, boot: Time)
    requires t.worktree == Some(path) && !t.cleanupInFlight && !t.status.InProgress? && h.present(path)
    requires EarlyRefusal(t, first).None? && retry.origin.User? && !retry.running && retry.repository
    requires first.request.record == Unchanged() && retry.request.record == Unchanged()
    ensures EarlyRefusal(Restarted(h, t, boot), retry).None?
    ensures var start := Alone(t, map[]); var s := Restarted(h, t, boot); var kept := Kept(path, reason, None);
      var run := CutShort(h, t, first, boot) + KeptRun(s.id, retry.request, kept, retry.now); var end := Play(start, run);
      && Safe(start) && EnabledRun(start, run) && !Safe(end)
      && end == Alone(Concluded(s, kept, retry.request.desired, retry.now), map[path := Unsure])
      && t.id in end.memory && end.memory[t.id].worktree == Some(path) && !end.memory[t.id].cleanupInFlight
  {
    var kept, s := Kept(path, reason, None), Restarted(h, t, boot);
    RestartStaysFit(h, t, first, retry, boot);
    AloneIsSafe(t);
    CutShortRuns(h, t, path, first, boot);
    RefusedRuns(s, path, retry, kept);
    Joined(Alone(t, map[]), CutShort(h, t, first, boot), KeptRun(s.id, retry.request, kept, retry.now));
    CommittedAlone(s, kept, retry.request, retry.now);
    UnflaggedIsUnsafe(Concluded(s, kept, retry.request.desired, retry.now), path);
  }
}
