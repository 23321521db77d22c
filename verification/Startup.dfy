/** What a start makes of whatever the last process left: each Task is migrated,
    then its recorded checkout is reconciled with the disk and with git
    (`migrate_task` and the loop of `build_state_with_paths` in
    `src-tauri/src/app_core.rs`, `CheckoutState` in `worktree/manager.rs`). */
module Startup {
  import opened Durability
  import opened Tasks
  import opened Columns
  import opened Orders

  datatype Doubt = NoRepository | NotListed | Unreadable(why: string)

  datatype Registration =
    | NotRegistered
    | PresentAt(path: Path)
    | MissingPrunable(path: Path)
    | MissingLocked(lock: Lock)
    | Unknown(why: Doubt)

  datatype CheckoutState = CheckoutState(byPath: Registration, byBranch: Option<Registration>)

  /** The answer that keeps a checkout from being treated as gone. */
  function Holding(s: CheckoutState): Option<Registration> {
    if s.byPath.Unknown? then Some(s.byPath)
    else if s.byBranch.Some? && s.byBranch.value.Unknown? then s.byBranch
    else if s.byPath.MissingLocked? then Some(s.byPath)
    else if s.byBranch.Some? && s.byBranch.value.MissingLocked? then s.byBranch
    else None
  }

  predicate NothingRegistered(s: CheckoutState) {
    s.byPath.NotRegistered? && (s.byBranch.None? || s.byBranch.value.NotRegistered?)
  }

  /** The facts a start reads and never changes. `repository` gives a Project's
      repository, `listed` whether git answered for it, `adoptable` a registered
      checkout of a branch whose directory is there. */
  datatype Host = Host(
    present: Path -> bool, repository: Id -> Option<Path>, listed: Path -> bool,
    adoptable: (Path, string) -> Option<Path>, registeredAt: (Path, Path) -> Registration,
    registeredFor: (Path, string) -> Registration, mayBeSame: (Path, Path) -> bool)

  /** Only a directory that is there is offered for adoption. */
  ghost predicate AdoptsExisting(h: Host) {
    forall repo, branch :: h.adoptable(repo, branch).Some? ==> h.present(h.adoptable(repo, branch).value)
  }

  function StateOf(h: Host, project: Id, path: Path, branch: Option<string>): CheckoutState {
    match h.repository(project)
    case None => Unanswered(NoRepository, branch)
    case Some(repo) =>
      if !h.listed(repo) then Unanswered(NotListed, branch)
      else CheckoutState(h.registeredAt(repo, path), if branch.Some? then Some(h.registeredFor(repo, branch.value)) else None)
  }

  function Unanswered(why: Doubt, branch: Option<string>): CheckoutState {
    CheckoutState(Unknown(why), if branch.Some? then Some(Unknown(why)) else None)
  }

  datatype Recovery = Adopt(path: Path) | ConfirmedAbsent | Locked(lock: Lock) | Unverified

  /** `classify_missing_worktree`, and what is decided without a repository. */
  function Classify(h: Host, project: Id, path: Path, branch: Option<string>): Recovery {
    match h.repository(project)
    case None => if branch.None? then ConfirmedAbsent else Unverified
    case Some(repo) =>
      if !h.listed(repo) then Unverified
      else if branch.Some? && h.adoptable(repo, branch.value).Some? then Adopt(h.adoptable(repo, branch.value).value)
      else match Holding(StateOf(h, project, path, branch))
        case Some(MissingLocked(lock)) => Locked(lock)
        case Some(_) => Unverified
        case None => ConfirmedAbsent
  }

  // ------------------------------------------------------------- migration

  /** The latest run, if it started and has no recorded end. */
  function UnfinishedRun(t: Task): Option<u32> {
    var next := NextRun(t.activity);
    if next == 0 then None
    else
      var run: u32 := next - 1;
      if (exists e :: e in t.activity && e.kind == RunStarted(run))
        && !(exists e :: e in t.activity && EndsRun(e.kind, run))
      then Some(run) else None
  }

  predicate EndsRun(kind: Milestone, run: u32) {
    kind == RunCompleted(run) || (kind.RunFailed? && kind.of == Some(run))
  }

  function ObservedCommit(stage: HandoffStage): Option<string> {
    match stage
    case Started => None
    case CommittedAwaitingReview(commit) => Some(commit)
    case RecoveryNeeded(_, observed) => observed
    case ResolvedToAiReview(commit) => Some(commit)
  }

  /** `mark_worker_recovery_required`. */
  function RecoveryMarked(t: Task, run: Option<u32>, reason: Said, now: Time): Task {
    var observed := if t.handoff.Some? then ObservedCommit(t.handoff.value.stage) else None;
    var base := if t.handoff.Some? then t.handoff.value else Handoff(run, t.branch, Started);
    t.(
      handoff := Some(base.(run := if run.Some? then run else base.run, stage := RecoveryNeeded(reason, observed))),
      handoffConfirmed := false, status := Error, phase := Idle, progress := 0, error := Some(Note(reason, None)),
      activity := Record(t.activity, now, RecoveryRequired(run, reason)))
  }

  predicate StaleModel(model: string) {
    "claude-3" <= model || "claude-2" <= model
  }

  function Loaded(t: Task): Task {
    t.(newAttempt := false, model := if StaleModel(t.model) then "default" else t.model)
  }

  function MigratedRun(t: Task, now: Time): Task {
    if t.status.InProgress? then
      if t.handoff.Some? then
        if t.handoff.value.stage.Started? then RecoveryMarked(t, UnfinishedRun(t), OutcomeNotRecorded, now) else t
      else if UnfinishedRun(t).Some? || t.phase.Coding? then RecoveryMarked(t, UnfinishedRun(t), NoExactEvidence, now)
      else t.(status := Queue, activity := Record(t.activity, now, Interrupted(InProgress)))
    else if t.handoff.Some? && t.handoff.value.stage.Started? then
      RecoveryMarked(t, t.handoff.value.run, EndedEarly, now)
    else t
  }

  function Calmed(t: Task): Task {
    if (t.status.Backlog? || t.status.Queue?) && !t.phase.Idle? then t.(phase := Idle, progress := 0, error := None) else t
  }

  /** `migrate_task`. */
  function Migrate(t: Task, now: Time): Task {
    Calmed(MigratedRun(Loaded(t), now))
  }

  // --------------------------------------------------------- reconciliation

  predicate HandoffPending(t: Task) {
    t.handoff.Some? && (!t.handoff.value.stage.ResolvedToAiReview? || t.status.InProgress? || t.status.AiReview?)
  }

  /** The Task with what reconciliation may change set to these. */
  function Rechecked(t: Task, worktree: Option<Path>, flagged: bool, error: Option<Note>): Task {
    t.(worktree := worktree, cleanupInFlight := flagged, error := error)
  }

  /** `drop_lifted_lock_notice`. */
  function Lifted(error: Option<Note>): Option<Note> {
    if error.Some? && error.value.lock.Some? then None else error
  }

  function LockNotice(lock: Lock): Note {
    Note(RegistrationLocked(lock.path), Some(lock))
  }

  function ElsewhereNote(at: Path, owner: Id): Note {
    Note(NowElsewhere(at, owner), None)
  }

  function QuarantineNote(path: Path, s: CheckoutState): Note {
    match Holding(s)
    case Some(MissingLocked(lock)) => Note(CleanupInterrupted(path), Some(lock))
    case _ => Note(CleanupInterrupted(path), None)
  }

  /** The loop body: `owner` is another Task that records the same branch. */
  function Reconcile(h: Host, owner: Option<Id>, t: Task): Task {
    if HandoffPending(t) then t
    else if t.worktree.None? then Rechecked(t, None, false, t.error)
    else if t.cleanupInFlight then ReconcileFlagged(h, t, t.worktree.value)
    else if h.present(t.worktree.value) then Rechecked(t, t.worktree, t.cleanupInFlight, Lifted(t.error))
    else ReconcileMissing(h, owner, t, t.worktree.value)
  }

  function ReconcileFlagged(h: Host, t: Task, path: Path): Task {
    var s := StateOf(h, t.project, path, t.branch);
    if !h.present(path) && NothingRegistered(s) then Rechecked(t, None, false, None)
    else Rechecked(t, t.worktree, t.cleanupInFlight, Some(QuarantineNote(path, s)))
  }

  function ReconcileMissing(h: Host, owner: Option<Id>, t: Task, path: Path): Task {
    match Classify(h, t.project, path, t.branch)
    case Adopt(at) =>
      if owner.Some? then Rechecked(t, t.worktree, t.cleanupInFlight, Some(ElsewhereNote(at, owner.value)))
      else Rechecked(t, Some(at), t.cleanupInFlight, Lifted(t.error))
    case ConfirmedAbsent => Rechecked(t, None, t.cleanupInFlight, Lifted(t.error))
    case Locked(lock) => Rechecked(t, t.worktree, t.cleanupInFlight, Some(LockNotice(lock)))
    case Unverified => t
  }

  /** `tasks_sharing_a_recorded_branch`: a Task without a repository is taken to
      share any. */
  predicate Shares(h: Host, a: Task, b: Task) {
    && a.branch.Some? && a.branch == b.branch
    && var x, y := h.repository(a.project), h.repository(b.project);
       x.None? || y.None? || h.mayBeSame(x.value, y.value)
  }

  function Owner(h: Host, b: Board, keys: seq<Id>, id: Id): (owner: Option<Id>)
    requires id in b
    ensures owner.Some? <==> exists k :: k in keys && k in b && k != id && Shares(h, b[id], b[k])
  {
    if keys == [] then None
    else if keys[0] in b && keys[0] != id && Shares(h, b[id], b[keys[0]]) then Some(keys[0])
    else Owner(h, b, keys[1..], id)
  }

  function StartupTask(h: Host, owner: Option<Id>, t: Task, now: Time): Task {
    Reconcile(h, owner, Migrate(t, now))
  }

  /** The whole pass over the loaded board, in the order `keys` it was loaded. */
  function StartupBoard(h: Host, keys: seq<Id>, b: Board, now: Time): Board {
    map id | id in b :: StartupTask(h, Owner(h, b, keys, id), b[id], now)
  }

  // ------------------------------------------------------------- what it keeps

  /** The fields no part of a start changes. */
  ghost predicate SameIdentity(t: Task, r: Task) {
    r.id == t.id && r.project == t.project && r.branch == t.branch && r.title == t.title && r.binding == t.binding
    && r.executed == t.executed && r.position == t.position
  }

  /** What a start makes of a Task's stage, phase and status. */
  ghost predicate Settled(t: Task) {
    && !t.newAttempt && !StaleModel(t.model) && !(t.handoff.Some? && t.handoff.value.stage.Started?)
    && (t.status.Backlog? || t.status.Queue? ==> t.phase.Idle?)
    && (t.status.InProgress? ==> t.handoff.Some?)
  }

  ghost predicate SameCheckout(t: Task, r: Task) {
    r.worktree == t.worktree && r.cleanupInFlight == t.cleanupInFlight
  }

  lemma RecoveryFacts(t: Task, run: Option<u32>, reason: Said, now: Time)
    ensures var r := RecoveryMarked(t, run, reason, now);
      && SameIdentity(t, r) && SameCheckout(t, r) && r.newAttempt == t.newAttempt && r.model == t.model
      && r.status.Error? && r.phase.Idle? && r.handoff.Some? && r.handoff.value.stage.RecoveryNeeded?
  {
  }

  lemma LoadedFacts(t: Task)
    ensures var r := Loaded(t);
      && SameIdentity(t, r) && SameCheckout(t, r) && !r.newAttempt && !StaleModel(r.model)
      && r.status == t.status && r.phase == t.phase && r.handoff == t.handoff && r.activity == t.activity
  {
    assert "default"[0] == 'd' && "claude-3"[0] == 'c' && "claude-2"[0] == 'c';
  }

  lemma CalmedFacts(t: Task)
    requires !t.newAttempt && !StaleModel(t.model) && !(t.handoff.Some? && t.handoff.value.stage.Started?)
    requires t.status.InProgress? ==> t.handoff.Some?
    ensures SameIdentity(t, Calmed(t)) && SameCheckout(t, Calmed(t)) && Settled(Calmed(t))
    ensures Calmed(t).status == t.status && Calmed(t).handoff == t.handoff
  {
  }

  lemma RequeuedFacts(t: Task, activity: seq<Entry>)
    ensures var r := t.(status := Queue, activity := activity);
      && SameIdentity(t, r) && SameCheckout(t, r) && r.newAttempt == t.newAttempt && r.model == t.model
      && r.status.Queue? && r.handoff == t.handoff
  {
  }

  lemma MigratedRunFacts(t: Task, now: Time)
    requires !t.newAttempt && !StaleModel(t.model)
    ensures var r := MigratedRun(t, now);
      && SameIdentity(t, r) && SameCheckout(t, r) && !r.newAttempt && !StaleModel(r.model)
      && !(r.handoff.Some? && r.handoff.value.stage.Started?) && (r.status.InProgress? ==> r.handoff.Some?)
  {
    RecoveryFacts(t, UnfinishedRun(t), OutcomeNotRecorded, now);
    RecoveryFacts(t, UnfinishedRun(t), NoExactEvidence, now);
    if t.handoff.Some? { RecoveryFacts(t, t.handoff.value.run, EndedEarly, now); }
    RequeuedFacts(t, Record(t.activity, now, Interrupted(InProgress)));
  }

  lemma MigrateFacts(t: Task, now: Time)
    ensures SameIdentity(t, Migrate(t, now)) && SameCheckout(t, Migrate(t, now)) && Settled(Migrate(t, now))
  {
    LoadedFacts(t);
    MigratedRunFacts(Loaded(t), now);
    CalmedFacts(MigratedRun(Loaded(t), now));
  }

  /** A Task left in these terms is left alone by the next migration. */
  lemma MigrateSettled(t: Task, now: Time)
    requires Settled(t)
    ensures Migrate(t, now) == t
  {
    LoadedUnchanged(t);
    assert MigratedRun(t, now) == t;
  }

  lemma LoadedUnchanged(t: Task)
    ensures !t.newAttempt && !StaleModel(t.model) ==> Loaded(t) == t
  {
  }

  /** What reconciliation may touch. */
  ghost predicate SameButCheckout(t: Task, r: Task) {
    SameIdentity(t, r) && r.newAttempt == t.newAttempt && r.model == t.model && r.handoff == t.handoff
    && r.status == t.status && r.phase == t.phase && r.progress == t.progress && r.activity == t.activity && r.review == t.review
    && r.handoffConfirmed == t.handoffConfirmed && r.restackPending == t.restackPending
    && r.integrationPending == t.integrationPending
  }

  lemma RecheckedKeeps(t: Task, worktree: Option<Path>, flagged: bool, error: Option<Note>)
    ensures SameButCheckout(t, Rechecked(t, worktree, flagged, error))
  {
  }

  lemma Unchecked(t: Task)
    ensures Rechecked(t, t.worktree, t.cleanupInFlight, t.error) == t
  {
  }

  lemma FlaggedKeeps(h: Host, t: Task, path: Path)
    ensures SameButCheckout(t, ReconcileFlagged(h, t, path))
  {
    RecheckedKeeps(t, None, false, None);
    RecheckedKeeps(t, t.worktree, t.cleanupInFlight, Some(QuarantineNote(path, StateOf(h, t.project, path, t.branch))));
  }

  lemma MissingKeeps(h: Host, owner: Option<Id>, t: Task, path: Path)
    ensures SameButCheckout(t, ReconcileMissing(h, owner, t, path))
  {
    match Classify(h, t.project, path, t.branch)
    case Adopt(at) =>
      if owner.Some? { RecheckedKeeps(t, t.worktree, t.cleanupInFlight, Some(ElsewhereNote(at, owner.value))); }
      RecheckedKeeps(t, Some(at), t.cleanupInFlight, Lifted(t.error));
    case ConfirmedAbsent => RecheckedKeeps(t, None, t.cleanupInFlight, Lifted(t.error));
    case Locked(lock) => RecheckedKeeps(t, t.worktree, t.cleanupInFlight, Some(LockNotice(lock)));
    case Unverified =>
  }

  lemma ReconcileKeeps(h: Host, owner: Option<Id>, t: Task)
    ensures SameButCheckout(t, Reconcile(h, owner, t))
  {
    RecheckedKeeps(t, None, false, t.error);
    RecheckedKeeps(t, t.worktree, t.cleanupInFlight, Lifted(t.error));
    if t.worktree.Some? {
      FlaggedKeeps(h, t, t.worktree.value);
      MissingKeeps(h, owner, t, t.worktree.value);
    }
  }

  lemma FlaggedSettles(h: Host, owner: Option<Id>, t: Task)
    requires !HandoffPending(t) && t.worktree.Some? && t.cleanupInFlight
    ensures Reconcile(h, owner, Reconcile(h, owner, t)) == Reconcile(h, owner, t)
  {
    var path := t.worktree.value;
    var r := ReconcileFlagged(h, t, path);
    FlaggedKeeps(h, t, path);
    Unchecked(r);
    assert StateOf(h, r.project, path, r.branch) == StateOf(h, t.project, path, t.branch);
  }

  lemma AdoptedSettles(h: Host, owner: Option<Id>, t: Task, at: Path, error: Option<Note>)
    requires h.present(at) && !HandoffPending(t) && !t.cleanupInFlight && Lifted(error) == error
    ensures var r := Rechecked(t, Some(at), t.cleanupInFlight, error); Reconcile(h, owner, r) == r
  {
    Unchecked(Rechecked(t, Some(at), t.cleanupInFlight, error));
  }

  lemma ClearedSettles(h: Host, owner: Option<Id>, t: Task, error: Option<Note>)
    requires !HandoffPending(t) && !t.cleanupInFlight
    ensures var r := Rechecked(t, None, t.cleanupInFlight, error); Reconcile(h, owner, r) == r
  {
    Unchecked(Rechecked(t, None, t.cleanupInFlight, error));
  }

  lemma NotedSettles(h: Host, owner: Option<Id>, t: Task, note: Note)
    requires !HandoffPending(t) && t.worktree.Some? && !t.cleanupInFlight && !h.present(t.worktree.value)
    requires match Classify(h, t.project, t.worktree.value, t.branch)
             case Adopt(at) => owner.Some? && note == ElsewhereNote(at, owner.value)
             case Locked(lock) => note == LockNotice(lock)
             case _ => false
    ensures var r := Rechecked(t, t.worktree, t.cleanupInFlight, Some(note)); Reconcile(h, owner, r) == r
  {
    Unchecked(Rechecked(t, t.worktree, t.cleanupInFlight, Some(note)));
  }

  lemma MissingSettles(h: Host, owner: Option<Id>, t: Task)
    requires AdoptsExisting(h) && !HandoffPending(t) && t.worktree.Some? && !t.cleanupInFlight
    requires !h.present(t.worktree.value)
    ensures var r := ReconcileMissing(h, owner, t, t.worktree.value); Reconcile(h, owner, r) == r
  {
    var path := t.worktree.value;
    match Classify(h, t.project, path, t.branch)
    case Adopt(at) =>
      if owner.Some? { NotedSettles(h, owner, t, ElsewhereNote(at, owner.value)); }
      else { AdoptedSettles(h, owner, t, at, Lifted(t.error)); }
    case ConfirmedAbsent => ClearedSettles(h, owner, t, Lifted(t.error));
    case Locked(lock) => NotedSettles(h, owner, t, LockNotice(lock));
    case Unverified =>
  }

  lemma PresentSettles(h: Host, owner: Option<Id>, t: Task)
    requires !HandoffPending(t) && t.worktree.Some? && !t.cleanupInFlight && h.present(t.worktree.value)
    ensures Reconcile(h, owner, Reconcile(h, owner, t)) == Reconcile(h, owner, t)
  {
    AdoptedSettles(h, owner, t, t.worktree.value, Lifted(t.error));
    assert Some(t.worktree.value) == t.worktree;
  }

  /** Reconciling again, with the same facts, changes nothing. */
  lemma ReconcileSettles(h: Host, owner: Option<Id>, t: Task)
    requires AdoptsExisting(h)
    ensures Reconcile(h, owner, Reconcile(h, owner, t)) == Reconcile(h, owner, t)
  {
    if !HandoffPending(t) && t.worktree.Some? {
      if t.cleanupInFlight { FlaggedSettles(h, owner, t); }
      else if h.present(t.worktree.value) { PresentSettles(h, owner, t); }
      else { MissingSettles(h, owner, t); }
    }
  }

  lemma TaskSettles(h: Host, owner: Option<Id>, t: Task, now: Time, later: Time)
    requires AdoptsExisting(h)
    ensures StartupTask(h, owner, StartupTask(h, owner, t, now), later) == StartupTask(h, owner, t, now)
    ensures SameIdentity(t, StartupTask(h, owner, t, now))
  {
    var m := Migrate(t, now);
    MigrateFacts(t, now);
    ReconcileKeeps(h, owner, m);
    MigrateSettled(Reconcile(h, owner, m), later);
    ReconcileSettles(h, owner, m);
  }

  lemma {:induction false} OwnerSettles(h: Host, b: Board, r: Board, keys: seq<Id>, id: Id)
    requires id in b && b.Keys == r.Keys && forall k :: k in b ==> SameIdentity(b[k], r[k])
    ensures Owner(h, b, keys, id) == Owner(h, r, keys, id)
  {
    if keys != [] {
      OwnerSettles(h, b, r, keys[1..], id);
    }
  }

  lemma StartupKeepsIdentity(h: Host, keys: seq<Id>, b: Board, now: Time)
    ensures StartupBoard(h, keys, b, now).Keys == b.Keys
    ensures forall id :: id in b ==> SameIdentity(b[id], StartupBoard(h, keys, b, now)[id])
  {
    forall id | id in b ensures SameIdentity(b[id], StartupBoard(h, keys, b, now)[id]) {
      MigrateFacts(b[id], now);
      ReconcileKeeps(h, Owner(h, b, keys, id), Migrate(b[id], now));
    }
  }

  /** The same Task, but that a message may name another of the Tasks that record
      the same branch. */
  ghost predicate SameButNamed(a: Task, b: Task) {
    || b == a
    || (exists at, x, y :: a.error == Some(ElsewhereNote(at, x)) && b == Rechecked(a, a.worktree, a.cleanupInFlight, Some(ElsewhereNote(at, y))))
  }

  lemma MissingNames(h: Host, a: Option<Id>, b: Option<Id>, t: Task, path: Path)
    requires a.Some? == b.Some? && t.worktree == Some(path)
    ensures SameButNamed(ReconcileMissing(h, a, t, path), ReconcileMissing(h, b, t, path))
  {
    match Classify(h, t.project, path, t.branch)
    case Adopt(at) =>
      if a.Some? {
        var r := Rechecked(t, t.worktree, t.cleanupInFlight, Some(ElsewhereNote(at, a.value)));
        assert r.error == Some(ElsewhereNote(at, a.value));
        assert Rechecked(r, r.worktree, r.cleanupInFlight, Some(ElsewhereNote(at, b.value)))
            == Rechecked(t, t.worktree, t.cleanupInFlight, Some(ElsewhereNote(at, b.value)));
      }
    case _ =>
  }

  lemma OwnerOnlyNames(h: Host, a: Option<Id>, b: Option<Id>, t: Task)
    requires a.Some? == b.Some?
    ensures SameButNamed(Reconcile(h, a, t), Reconcile(h, b, t))
  {
    if t.worktree.Some? {
      MissingNames(h, a, b, t, t.worktree.value);
    }
  }

  lemma TaskSettlesButNamed(h: Host, a: Option<Id>, b: Option<Id>, t: Task, now: Time, later: Time)
    requires AdoptsExisting(h) && a.Some? == b.Some?
    ensures var r := StartupTask(h, a, t, now); SameButNamed(r, StartupTask(h, b, r, later))
  {
    var m := Migrate(t, now);
    var r := Reconcile(h, a, m);
    MigrateFacts(t, now);
    ReconcileKeeps(h, a, m);
    MigrateSettled(r, later);
    ReconcileSettles(h, a, m);
    OwnerOnlyNames(h, a, b, r);
  }

  /** With unchanged disk and git facts, a second start changes no Task, in
      whatever order either start loads the board, but for which other Task a
      message names; and not even that when the order is the same. */
  lemma StartupIsAFixedPoint(h: Host, keys: seq<Id>, again: seq<Id>, b: Board, now: Time, later: Time)
    requires AdoptsExisting(h) && forall id :: id in keys <==> id in again
    ensures var r := StartupBoard(h, keys, b, now); var r' := StartupBoard(h, again, r, later);
      r'.Keys == r.Keys && (forall id :: id in r ==> SameButNamed(r[id], r'[id])) && (keys == again ==> r' == r)
  {
    var r := StartupBoard(h, keys, b, now);
    StartupKeepsIdentity(h, keys, b, now);
    forall id | id in r ensures SameButNamed(r[id], StartupTask(h, Owner(h, r, again, id), r[id], later)) {
      OwnerSettles(h, b, r, again, id);
      assert Owner(h, b, keys, id).Some? == Owner(h, b, again, id).Some?;
      TaskSettlesButNamed(h, Owner(h, b, keys, id), Owner(h, b, again, id), b[id], now, later);
    }
    if keys == again {
      SameOrderSettles(h, keys, b, now, later);
    }
  }

  lemma SameOrderSettles(h: Host, keys: seq<Id>, b: Board, now: Time, later: Time)
    requires AdoptsExisting(h)
    ensures StartupBoard(h, keys, StartupBoard(h, keys, b, now), later) == StartupBoard(h, keys, b, now)
  {
    var r := StartupBoard(h, keys, b, now);
    StartupKeepsIdentity(h, keys, b, now);
    forall id | id in r ensures StartupTask(h, Owner(h, r, keys, id), r[id], later) == r[id] {
      OwnerSettles(h, b, r, keys, id);
      TaskSettles(h, Owner(h, b, keys, id), b[id], now, later);
    }
    EachUnchanged(h, keys, r, later);
  }

  lemma EachUnchanged(h: Host, keys: seq<Id>, r: Board, later: Time)
    requires forall id :: id in r ==> StartupTask(h, Owner(h, r, keys, id), r[id], later) == r[id]
    ensures StartupBoard(h, keys, r, later) == r
  {
  }

  // --------------------------------------------------------- how careful it is

  /** A start puts a Task back in Queue only when nothing shows a run began. */
  lemma RequeuedOnlyUnstarted(h: Host, owner: Option<Id>, t: Task, now: Time)
    requires t.status.InProgress?
    ensures StartupTask(h, owner, t, now).status.Queue? <==>
      t.handoff.None? && !t.phase.Coding? && UnfinishedRun(t).None?
  {
    LoadedFacts(t);
    var l := Loaded(t);
    SameUnfinished(l, t);
    ReconcileKeeps(h, owner, Migrate(t, now));
    MigratedStatus(l, now);
    CalmedStatus(MigratedRun(l, now));
  }

  lemma SameUnfinished(a: Task, b: Task)
    ensures a.activity == b.activity ==> UnfinishedRun(a) == UnfinishedRun(b)
  {
  }

  lemma MigratedStatus(t: Task, now: Time)
    requires t.status.InProgress?
    ensures MigratedRun(t, now).status.Queue? <==> t.handoff.None? && !t.phase.Coding? && UnfinishedRun(t).None?
  {
    RecoveryFacts(t, UnfinishedRun(t), OutcomeNotRecorded, now);
    RecoveryFacts(t, UnfinishedRun(t), NoExactEvidence, now);
  }

  lemma CalmedStatus(t: Task)
    ensures Calmed(t).status == t.status
  {
  }

  /** No `Started` stage survives a start, and nothing it leaves InProgress
      lacks a handoff, so only a resolved handoff can be run again. */
  lemma StartupLeavesNothingStarted(h: Host, owner: Option<Id>, t: Task, now: Time)
    ensures Settled(StartupTask(h, owner, t, now))
    ensures ReadyToExecute(StartupTask(h, owner, t, now)) ==>
      StartupTask(h, owner, t, now).handoff.Some? && StartupTask(h, owner, t, now).handoff.value.stage.ResolvedToAiReview?
  {
    MigrateFacts(t, now);
    ReconcileKeeps(h, owner, Migrate(t, now));
  }

  /** Git answered, and its answer keeps nothing at this place. */
  predicate Lets(r: Registration) {
    r.NotRegistered? || r.PresentAt? || r.MissingPrunable?
  }

  /** The directory is not there, and either git's own listing holds nothing for
      the path or the branch, or there was never anything to look it up by. */
  predicate ProvenAbsent(h: Host, t: Task, path: Path) {
    && !h.present(path)
    && match h.repository(t.project)
       case None => t.branch.None? && !t.cleanupInFlight
       case Some(repo) =>
         && h.listed(repo) && Lets(h.registeredAt(repo, path))
         && (t.branch.Some? ==> Lets(h.registeredFor(repo, t.branch.value)))
         && (if t.cleanupInFlight
             then h.registeredAt(repo, path).NotRegistered?
               && (t.branch.Some? ==> h.registeredFor(repo, t.branch.value).NotRegistered?)
             else t.branch.Some? ==> h.adoptable(repo, t.branch.value).None?)
  }

  lemma MissingPlace(h: Host, owner: Option<Id>, t: Task, path: Path)
    requires t.worktree == Some(path)
    ensures ReconcileMissing(h, owner, t, path).worktree ==
      match Classify(h, t.project, path, t.branch)
      case Adopt(at) => if owner.Some? then t.worktree else Some(at)
      case ConfirmedAbsent => None
      case _ => t.worktree
  {
  }

  lemma FlaggedPlace(h: Host, t: Task, path: Path)
    requires t.worktree == Some(path)
    ensures ReconcileFlagged(h, t, path).worktree ==
      if !h.present(path) && NothingRegistered(StateOf(h, t.project, path, t.branch)) then None else t.worktree
  {
  }

  lemma ReconcilePlace(h: Host, owner: Option<Id>, t: Task, path: Path)
    requires t.worktree == Some(path)
    ensures Reconcile(h, owner, t).worktree ==
      if HandoffPending(t) then t.worktree
      else if t.cleanupInFlight then ReconcileFlagged(h, t, path).worktree
      else if h.present(path) then t.worktree
      else ReconcileMissing(h, owner, t, path).worktree
  {
  }

  lemma ClassifiedAbsent(h: Host, t: Task, path: Path)
    requires !t.cleanupInFlight && !h.present(path)
    ensures Classify(h, t.project, path, t.branch).ConfirmedAbsent? <==> ProvenAbsent(h, t, path)
  {
  }

  lemma FlaggedAbsent(h: Host, t: Task, path: Path)
    requires t.cleanupInFlight
    ensures !h.present(path) && NothingRegistered(StateOf(h, t.project, path, t.branch)) <==> ProvenAbsent(h, t, path)
  {
  }

  /** A recorded checkout is forgotten exactly when its absence is proven and no
      handoff is pending; a flagged one needs the stronger proof. */
  lemma ClearedIffProvenAbsent(h: Host, owner: Option<Id>, t: Task, path: Path)
    requires t.worktree == Some(path)
    ensures Reconcile(h, owner, t).worktree.None? <==> !HandoffPending(t) && ProvenAbsent(h, t, path)
  {
    ReconcilePlace(h, owner, t, path);
    if t.cleanupInFlight {
      FlaggedPlace(h, t, path);
      FlaggedAbsent(h, t, path);
    } else if !h.present(path) {
      MissingPlace(h, owner, t, path);
      ClassifiedAbsent(h, t, path);
    }
  }

  /** Reconciliation names another checkout for the Task. */
  predicate Repoints(h: Host, owner: Option<Id>, t: Task) {
    var at := Reconcile(h, owner, t).worktree;
    at.Some? && at != t.worktree
  }

  /** A Task is pointed at another checkout only when it is not flagged, its own
      directory is gone, no other Task records its branch, and git vouches for
      the other directory, which is there. */
  lemma RepointedOnlySafely(h: Host, owner: Option<Id>, t: Task, path: Path)
    requires AdoptsExisting(h) && t.worktree == Some(path) && Repoints(h, owner, t)
    ensures !t.cleanupInFlight && !HandoffPending(t) && !h.present(path) && owner.None?
    ensures h.present(Reconcile(h, owner, t).worktree.value)
    ensures t.branch.Some? && h.repository(t.project).Some? && h.listed(h.repository(t.project).value)
    ensures h.adoptable(h.repository(t.project).value, t.branch.value) == Reconcile(h, owner, t).worktree
  {
    ReconcilePlace(h, owner, t, path);
    if t.cleanupInFlight { FlaggedPlace(h, t, path); } else { MissingPlace(h, owner, t, path); }
  }

  /** A checkout whose cleanup was interrupted is cleared on proof or stays
      quarantined; either way the Task is not run against it. */
  lemma FlaggedIsClearedOrHeld(h: Host, owner: Option<Id>, t: Task, now: Time, path: Path)
    requires t.worktree == Some(path) && t.cleanupInFlight
    ensures var r := StartupTask(h, owner, t, now);
      if r.worktree.None? then !r.cleanupInFlight && ProvenAbsent(h, t, path)
      else r.worktree == t.worktree && r.cleanupInFlight && !ReadyToExecute(r)
  {
    var m := Migrate(t, now);
    MigrateFacts(t, now);
    ClearedIffProvenAbsent(h, owner, m, path);
    FlaggedStays(h, owner, m);
  }

  lemma UnnamedIsUnflagged(h: Host, owner: Option<Id>, t: Task)
    requires t.worktree.None?
    ensures var r := Reconcile(h, owner, t);
      r.worktree.None? && (r.cleanupInFlight == t.cleanupInFlight || !r.cleanupInFlight)
  {
  }

  lemma TaskKeepsIdentity(h: Host, owner: Option<Id>, t: Task, now: Time)
    ensures SameIdentity(t, StartupTask(h, owner, t, now))
  {
    MigrateFacts(t, now);
    ReconcileKeeps(h, owner, Migrate(t, now));
  }

  /** Migration leaves alone everything a refusal reads of a Task that was not
      running and whose Worker had not started. */
  lemma MigratesQuietly(t: Task, now: Time)
    requires !t.status.InProgress? && !(t.handoff.Some? && t.handoff.value.stage.Started?)
    ensures var r := Migrate(t, now);
      && r.status == t.status && r.handoff == t.handoff && r.handoffConfirmed == t.handoffConfirmed
      && r.review == t.review && r.activity == t.activity && r.restackPending == t.restackPending
      && r.integrationPending == t.integrationPending && r.cleanupInFlight == t.cleanupInFlight
  {
    LoadedFacts(t);
    var l := Loaded(t);
    assert MigratedRun(l, now) == l;
    assert l == t.(newAttempt := l.newAttempt, model := l.model);
  }

  lemma FlaggedStays(h: Host, owner: Option<Id>, t: Task)
    requires t.worktree.Some? && t.cleanupInFlight
    ensures var r := Reconcile(h, owner, t);
      if r.worktree.None? then !r.cleanupInFlight else r.worktree == t.worktree && r.cleanupInFlight
  {
  }

  // ----------------------------------------------- what it says of a checkout

  /** Git could not be asked, or cannot say whether it still holds the path or the
      branch. */
  predicate Undecided(h: Host, t: Task, path: Path) {
    match h.repository(t.project)
    case None => true
    case Some(repo) =>
      !h.listed(repo) || h.registeredAt(repo, path).Unknown? || (t.branch.Some? && h.registeredFor(repo, t.branch.value).Unknown?)
  }

  /** The locked registration that keeps the checkout: of its path, else its branch. */
  function LockOn(h: Host, t: Task, path: Path): Option<Lock> {
    match h.repository(t.project)
    case None => None
    case Some(repo) =>
      if h.registeredAt(repo, path).MissingLocked? then Some(h.registeredAt(repo, path).lock)
      else if t.branch.Some? && h.registeredFor(repo, t.branch.value).MissingLocked?
      then Some(h.registeredFor(repo, t.branch.value).lock) else None
  }

  /** Another directory git has for the Task's branch. */
  function Elsewhere(h: Host, t: Task): Option<Path> {
    if h.repository(t.project).Some? && h.listed(h.repository(t.project).value) && t.branch.Some?
    then h.adoptable(h.repository(t.project).value, t.branch.value) else None
  }

  /** `r` is the Task with this path, flag and error. */
  predicate Now(t: Task, worktree: Option<Path>, flagged: bool, error: Option<Note>, r: Task) {
    && r.worktree == worktree && r.cleanupInFlight == flagged && r.error == error
    && r == t.(worktree := r.worktree, cleanupInFlight := r.cleanupInFlight, error := r.error)
  }

  /** A message about a lock goes once the lock no longer stands in the way. */
  predicate Unlocked(before: Option<Note>, after: Option<Note>) {
    if before.Some? && before.value.lock.Some? then after.None? else after == before
  }

  predicate FlaggedSays(h: Host, t: Task, path: Path, r: Task) {
    if r.worktree.None? then Now(t, None, false, None, r)
    else
      && r.error.Some? && r.error.value.said == CleanupInterrupted(path)
      && r.error.value.lock == (if Undecided(h, t, path) then None else LockOn(h, t, path))
      && Now(t, t.worktree, true, r.error, r)
  }

  predicate MissingSays(h: Host, owner: Option<Id>, t: Task, path: Path, r: Task) {
    if Elsewhere(h, t).Some? then
      if owner.Some? then Now(t, t.worktree, false, Some(Note(NowElsewhere(Elsewhere(h, t).value, owner.value), None)), r)
      else Unlocked(t.error, r.error) && Now(t, Elsewhere(h, t), false, r.error, r)
    else if h.repository(t.project).None? && t.branch.None? then Unlocked(t.error, r.error) && Now(t, None, false, r.error, r)
    else if Undecided(h, t, path) then r == t
    else if LockOn(h, t, path).Some? then
      Now(t, t.worktree, false, Some(Note(RegistrationLocked(LockOn(h, t, path).value.path), LockOn(h, t, path))), r)
    else Unlocked(t.error, r.error) && Now(t, None, false, r.error, r)
  }

  lemma FlaggedIsSaid(h: Host, t: Task, path: Path)
    requires t.worktree == Some(path) && t.cleanupInFlight
    ensures FlaggedSays(h, t, path, ReconcileFlagged(h, t, path))
  {
  }

  lemma ClassifiedAs(h: Host, t: Task, path: Path)
    ensures Classify(h, t.project, path, t.branch) ==
      if Elsewhere(h, t).Some? then Adopt(Elsewhere(h, t).value)
      else if h.repository(t.project).None? && t.branch.None? then ConfirmedAbsent
      else if Undecided(h, t, path) then Unverified
      else if LockOn(h, t, path).Some? then Locked(LockOn(h, t, path).value) else ConfirmedAbsent
  {
  }

  lemma MissingIsSaid(h: Host, owner: Option<Id>, t: Task, path: Path)
    requires t.worktree == Some(path) && !t.cleanupInFlight
    ensures MissingSays(h, owner, t, path, ReconcileMissing(h, owner, t, path))
  {
    ClassifiedAs(h, t, path);
    var r := ReconcileMissing(h, owner, t, path);
    match Classify(h, t.project, path, t.branch) {
      case Adopt(at) =>
        assert r == if owner.Some? then Rechecked(t, t.worktree, false, Some(ElsewhereNote(at, owner.value)))
                    else Rechecked(t, Some(at), false, Lifted(t.error));
      case ConfirmedAbsent => assert r == Rechecked(t, None, false, Lifted(t.error));
      case Locked(lock) => assert r == Rechecked(t, t.worktree, false, Some(LockNotice(lock)));
      case Unverified => assert r == t;
    }
  }

  /** What reconciliation makes of a Task with no pending handoff: its path, its
      flag and its message, in terms of what the disk and git say of it. */
  lemma ReconcileSays(h: Host, owner: Option<Id>, t: Task)
    ensures var r := Reconcile(h, owner, t);
      if HandoffPending(t) then r == t
      else if t.worktree.None? then Now(t, None, false, t.error, r)
      else if t.cleanupInFlight then FlaggedSays(h, t, t.worktree.value, r)
      else if h.present(t.worktree.value) then Unlocked(t.error, r.error) && Now(t, t.worktree, false, r.error, r)
      else MissingSays(h, owner, t, t.worktree.value, r)
  {
    if t.worktree.Some? {
      if t.cleanupInFlight { FlaggedIsSaid(h, t, t.worktree.value); } else { MissingIsSaid(h, owner, t, t.worktree.value); }
    }
  }

  /** When reconciliation writes the Task again: whenever it decides something of its
      checkout, but for a lock it has already noted. */
  lemma RevisitedMeans(h: Host, t: Task)
    ensures Revisits(h, t) <==>
      !HandoffPending(t) &&
      match t.worktree
      case None => t.cleanupInFlight
      case Some(path) =>
        || t.cleanupInFlight
        || (h.present(path) && t.error.Some? && t.error.value.lock.Some?)
        || (!h.present(path)
            && (Elsewhere(h, t).Some? || (h.repository(t.project).None? && t.branch.None?)
                || (!Undecided(h, t, path)
                    && (LockOn(h, t, path).None?
                        || t.error != Some(Note(RegistrationLocked(LockOn(h, t, path).value.path), LockOn(h, t, path)))))))
  {
    if t.worktree.Some? {
      ClassifiedAs(h, t, t.worktree.value);
    }
  }

  /** A Task that waits, or was put back to wait, loses the message of a run that is
      no longer happening together with its phase; any other keeps its message. */
  lemma MigratedMessage(t: Task, now: Time)
    requires !(t.handoff.Some? && t.handoff.value.stage.Started?)
    requires t.status.InProgress? ==> t.handoff.Some? || NeverBegun(t)
    ensures var r := Migrate(t, now);
      r.error == if (r.status.Backlog? || r.status.Queue?) && !t.phase.Idle? then None else t.error
  {
    var l := LoadedIs(t);
    UnfinishedMeans(t);
    assert l.error == t.error && l.phase == t.phase;
    MigratedKeepsMessage(l, now);
  }

  lemma MigratedKeepsMessage(t: Task, now: Time)
    requires !(t.handoff.Some? && t.handoff.value.stage.Started?)
    requires t.status.InProgress? ==> t.handoff.Some? || (!t.phase.Coding? && UnfinishedRun(t).None?)
    ensures var m := MigratedRun(t, now); var r := Calmed(m);
      r.error == if (r.status.Backlog? || r.status.Queue?) && !t.phase.Idle? then None else t.error
  {
    if t.status.InProgress? && t.handoff.None? {
      var q := t.(status := Queue, activity := Record(t.activity, now, Interrupted(InProgress)));
      assert MigratedRun(t, now) == q && q.error == t.error && q.phase == t.phase;
    } else {
      assert MigratedRun(t, now) == t;
    }
  }

  /** Why nothing is known of a checkout: the Project has no repository, or git did
      not answer for it. */
  lemma UnansweredSays(h: Host, project: Id, path: Path, branch: Option<string>)
    ensures var s := StateOf(h, project, path, branch);
      && (h.repository(project).None? ==> s.byPath == Unknown(NoRepository))
      && (h.repository(project).Some? && !h.listed(h.repository(project).value) ==> s.byPath == Unknown(NotListed))
      && (h.repository(project).None? || !h.listed(h.repository(project).value) ==>
            s.byBranch == if branch.None? then None else Some(s.byPath))
  {
  }

  /** Two Tasks may share a checkout when they record one branch and nothing shows
      that their repositories differ. */
  lemma SharesMeans(h: Host, a: Task, b: Task)
    ensures Shares(h, a, b) <==>
      && a.branch.Some? && b.branch.Some? && a.branch.value == b.branch.value
      && !(h.repository(a.project).Some? && h.repository(b.project).Some?
           && !h.mayBeSame(h.repository(a.project).value, h.repository(b.project).value))
  {
  }

  /** A Task is loaded without a claim to a new attempt, and with a model that is
      still offered. */
  lemma LoadedModel(h: Host, owner: Option<Id>, t: Task, now: Time)
    ensures var r := StartupTask(h, owner, t, now);
      !r.newAttempt && r.model == if "claude-3" <= t.model || "claude-2" <= t.model then "default" else t.model
  {
    var l := Loaded(t);
    MigratedModel(l, now);
    ReconcileKeeps(h, owner, Migrate(t, now));
    MigrateFacts(t, now);
  }

  lemma MigratedModel(t: Task, now: Time)
    ensures Calmed(MigratedRun(t, now)).model == t.model
  {
    RecoveryFacts(t, UnfinishedRun(t), OutcomeNotRecorded, now);
    RecoveryFacts(t, UnfinishedRun(t), NoExactEvidence, now);
    if t.handoff.Some? { RecoveryFacts(t, t.handoff.value.run, EndedEarly, now); }
  }

  /** A handoff is pending until its run is resolved, and even then while the Task
      stands where its review is made. */
  lemma HandoffPendingMeans(t: Task)
    ensures HandoffPending(t) <==>
      t.handoff.Some? &&
      match t.handoff.value.stage
      case ResolvedToAiReview(_) => t.status.InProgress? || t.status.AiReview?
      case Started => true
      case CommittedAwaitingReview(_) => true
      case RecoveryNeeded(_, _) => true
  {
  }

  // ------------------------------------------- what it writes of a lost Worker

  /** `run` is the latest run, started and without a recorded end, or `None`. */
  predicate IsUnfinished(t: Task, run: Option<u32>) {
    var highest := HighestRun(t.activity);
    var latest := if highest == U32_MAX then U32_MAX - 1 else highest;
    if (exists e :: e in t.activity && e.kind == RunStarted(latest))
      && (forall e :: e in t.activity ==>
            e.kind != RunCompleted(latest) && !(e.kind.RunFailed? && e.kind.of == Some(latest)))
    then run == Some(latest) else run.None?
  }

  lemma UnfinishedMeans(t: Task)
    ensures IsUnfinished(t, UnfinishedRun(t))
  {
  }

  /** A Worker had begun on the Task and nothing says how it ended: the run a start
      settles and the reason it gives. */
  predicate LostWorker(t: Task, run: Option<u32>, reason: Said) {
    var begun := t.handoff.Some? && t.handoff.value.stage.Started?;
    || (t.status.InProgress? && begun && IsUnfinished(t, run) && reason == OutcomeNotRecorded)
    || (t.status.InProgress? && t.handoff.None? && IsUnfinished(t, run) && (run.Some? || t.phase.Coding?)
        && reason == NoExactEvidence)
    || (!t.status.InProgress? && begun && run == t.handoff.value.run && reason == EndedEarly)
  }

  /** A Task that was InProgress without any sign that its run began. */
  predicate NeverBegun(t: Task) {
    t.status.InProgress? && t.handoff.None? && !t.phase.Coding? && IsUnfinished(t, None)
  }

  /** The Task is stopped for a person to look at: the log holds the milestone, the
      handoff names the run and the reason, and the checkout is as it was. */
  predicate HeldForRecovery(t: Task, run: Option<u32>, reason: Said, now: Time, r: Task) {
    && r.activity == Record(t.activity, now, RecoveryRequired(run, reason))
    && r.handoff.Some? && r.handoff.value.stage == RecoveryNeeded(reason, None)
    && r.handoff.value.run == (if run.Some? || t.handoff.None? then run else t.handoff.value.run)
    && r.handoff.value.branch == (if t.handoff.Some? then t.handoff.value.branch else t.branch)
    && !r.handoffConfirmed && r.status.Error? && r.phase.Idle? && r.progress == 0
    && r.error.Some? && r.error.value.said == reason && r.error.value.lock.None?
    && r.worktree == t.worktree && r.cleanupInFlight == t.cleanupInFlight && r.review == t.review
  }

  predicate Requeued(t: Task, now: Time, r: Task) {
    && r.status.Queue? && r.phase.Idle?
    && r.activity == Record(t.activity, now, Interrupted(InProgress))
    && r.handoff.None? && r.handoffConfirmed == t.handoffConfirmed && r.review == t.review
    && r.progress == if t.phase.Idle? then t.progress else 0
  }

  /** Neither: the log, the handoff and the column are as they were. A waiting
      Task no longer shows a phase. */
  predicate LeftToItself(t: Task, r: Task) {
    && r.activity == t.activity && r.handoff == t.handoff && r.status == t.status
    && r.handoffConfirmed == t.handoffConfirmed && r.review == t.review
    && if (t.status.Backlog? || t.status.Queue?) && !t.phase.Idle? then r.phase.Idle? && r.progress == 0
       else r.phase == t.phase && r.progress == t.progress
  }

  lemma MarkedIsHeld(t: Task, l: Task, run: Option<u32>, reason: Said, now: Time)
    requires l == t.(newAttempt := l.newAttempt, model := l.model)
    requires t.handoff.Some? ==> t.handoff.value.stage.Started?
    ensures HeldForRecovery(t, run, reason, now, RecoveryMarked(l, run, reason, now))
    ensures Calmed(RecoveryMarked(l, run, reason, now)) == RecoveryMarked(l, run, reason, now)
  {
  }

  lemma LoadedIs(t: Task) returns (l: Task)
    ensures l == Loaded(t) == t.(newAttempt := l.newAttempt, model := l.model)
    ensures UnfinishedRun(l) == UnfinishedRun(t)
  {
    l := Loaded(t);
    SameUnfinished(l, t);
  }

  lemma PendingStays(h: Host, owner: Option<Id>, t: Task)
    ensures t.handoff.Some? && !t.handoff.value.stage.ResolvedToAiReview? ==> Reconcile(h, owner, t) == t
  {
  }

  lemma LostIsMarked(t: Task, l: Task, now: Time, run: Option<u32>, reason: Said)
    requires LostWorker(t, run, reason) && l == t.(newAttempt := l.newAttempt, model := l.model)
    requires IsUnfinished(t, UnfinishedRun(l))
    ensures MigratedRun(l, now) == RecoveryMarked(l, run, reason, now)
  {
  }

  lemma LostIsHeld(h: Host, owner: Option<Id>, t: Task, now: Time, run: Option<u32>, reason: Said)
    requires LostWorker(t, run, reason)
    ensures HeldForRecovery(t, run, reason, now, StartupTask(h, owner, t, now))
  {
    var l := LoadedIs(t);
    UnfinishedMeans(t);
    LostIsMarked(t, l, now, run, reason);
    MarkedIsHeld(t, l, run, reason, now);
    PendingStays(h, owner, RecoveryMarked(l, run, reason, now));
  }

  lemma UnbegunIsQueued(t: Task, l: Task, now: Time)
    requires NeverBegun(t) && l == t.(newAttempt := l.newAttempt, model := l.model)
    requires IsUnfinished(t, UnfinishedRun(l))
    ensures MigratedRun(l, now) == l.(status := Queue, activity := Record(t.activity, now, Interrupted(InProgress)))
  {
  }

  lemma QueuedIsCalm(t: Task, l: Task, now: Time, q: Task)
    requires t.handoff.None? && l == t.(newAttempt := l.newAttempt, model := l.model)
    requires q == l.(status := Queue, activity := Record(t.activity, now, Interrupted(InProgress)))
    ensures Requeued(t, now, Calmed(q))
  {
  }

  lemma StaysRequeued(t: Task, now: Time, m: Task, r: Task)
    requires Requeued(t, now, m) && SameButCheckout(m, r)
    ensures Requeued(t, now, r)
  {
  }

  lemma NeverBegunIsRequeued(h: Host, owner: Option<Id>, t: Task, now: Time)
    requires NeverBegun(t)
    ensures Requeued(t, now, StartupTask(h, owner, t, now))
  {
    var l := LoadedIs(t);
    UnfinishedMeans(t);
    UnbegunIsQueued(t, l, now);
    QueuedIsCalm(t, l, now, MigratedRun(l, now));
    ReconcileKeeps(h, owner, Migrate(t, now));
    StaysRequeued(t, now, Migrate(t, now), StartupTask(h, owner, t, now));
  }

  lemma OthersAreLeft(h: Host, owner: Option<Id>, t: Task, now: Time)
    requires !(t.handoff.Some? && t.handoff.value.stage.Started?) && (t.status.InProgress? ==> t.handoff.Some?)
    ensures LeftToItself(t, StartupTask(h, owner, t, now))
  {
    var l := LoadedIs(t);
    assert MigratedRun(l, now) == l;
    CalmedLeaves(l);
    ReconcileKeeps(h, owner, Migrate(t, now));
  }

  lemma CalmedLeaves(t: Task)
    ensures LeftToItself(t, Calmed(t))
  {
  }

  /** Everything a start writes about runs. Exactly a Task whose Worker was lost is
      held for recovery, with one milestone that names its run; exactly one whose
      run never began goes back to Queue; and every other keeps its log. */
  lemma StartupRecords(h: Host, owner: Option<Id>, t: Task, now: Time)
    ensures var r := StartupTask(h, owner, t, now);
      if t.status.InProgress? && t.handoff.None? && !t.phase.Coding? && IsUnfinished(t, None) then Requeued(t, now, r)
      else if (t.handoff.Some? && t.handoff.value.stage.Started?) || (t.status.InProgress? && t.handoff.None?) then
        exists run, reason :: LostWorker(t, run, reason) && HeldForRecovery(t, run, reason, now, r)
      else LeftToItself(t, r)
  {
    UnfinishedMeans(t);
    var begun := t.handoff.Some? && t.handoff.value.stage.Started?;
    if NeverBegun(t) {
      NeverBegunIsRequeued(h, owner, t, now);
    } else if begun || (t.status.InProgress? && t.handoff.None?) {
      var run := if t.status.InProgress? then UnfinishedRun(t) else t.handoff.value.run;
      var reason := if !t.status.InProgress? then EndedEarly else if begun then OutcomeNotRecorded else NoExactEvidence;
      assert LostWorker(t, run, reason);
      LostIsHeld(h, owner, t, now, run, reason);
    } else {
      OthersAreLeft(h, owner, t, now);
    }
  }

  // ------------------------------------------------------------------ the code

  /** The run of an InProgress Task, and the stage of any other. */
  method MigrateRun(found: Task, now: Time) returns (t: Task, changed: bool)
    ensures t == MigratedRun(found, now)
    ensures if changed then t.status != found.status || t.handoff != found.handoff else t == found
    ensures t.newAttempt == found.newAttempt && t.model == found.model
  {
    t, changed := found, false;
    if t.status.InProgress? {
      if t.handoff.Some? {
        if t.handoff.value.stage.Started? {
          RecoveryFacts(t, UnfinishedRun(t), OutcomeNotRecorded, now);
          t := RecoveryMarked(t, UnfinishedRun(t), OutcomeNotRecorded, now);
          changed := true;
        }
      } else if UnfinishedRun(t).Some? || t.phase.Coding? {
        RecoveryFacts(t, UnfinishedRun(t), NoExactEvidence, now);
        t := RecoveryMarked(t, UnfinishedRun(t), NoExactEvidence, now);
        changed := true;
      } else {
        t := t.(status := Queue, activity := Record(t.activity, now, Interrupted(InProgress)));
        changed := true;
      }
    }
    if !t.status.InProgress? && t.handoff.Some? && t.handoff.value.stage.Started? {
      RecoveryFacts(t, t.handoff.value.run, EndedEarly, now);
      t := RecoveryMarked(t, t.handoff.value.run, EndedEarly, now);
      changed := true;
    }
  }

  /** The fields a Task loaded from disk never keeps. */
  method LoadTask(found: Task) returns (t: Task, changed: bool)
    ensures t == Loaded(found)
    ensures changed <==> t != found
  {
    t, changed := found, false;
    if t.newAttempt {
      t, changed := t.(newAttempt := false), true;
    }
    if StaleModel(t.model) {
      t, changed := t.(model := "default"), true;
    }
    LoadedFacts(found);
    LoadedUnchanged(t);
  }

  /** `migrate_task`, and whether anything changed. */
  method MigrateTask(found: Task, now: Time) returns (t: Task, changed: bool)
    ensures t == Migrate(found, now)
    ensures changed <==> t != found
  {
    var loaded, dropped := LoadTask(found);
    var migrated, ran := MigrateRun(loaded, now);
    var calmed: bool;
    t, calmed := CalmTask(migrated);
    MigrationShows(found, loaded, migrated, t, dropped, ran, calmed);
    changed := dropped || ran || calmed;
  }

  /** A waiting Task shows no phase of a run that is no longer happening. */
  method CalmTask(found: Task) returns (t: Task, changed: bool)
    ensures t == Calmed(found)
    ensures changed <==> (found.status.Backlog? || found.status.Queue?) && !found.phase.Idle?
  {
    t, changed := found, false;
    if (t.status.Backlog? || t.status.Queue?) && !t.phase.Idle? {
      t, changed := t.(phase := Idle, progress := 0, error := None), true;
    }
  }

  /** No part of a migration undoes what another part changed. */
  lemma MigrationShows(found: Task, loaded: Task, migrated: Task, t: Task, changed: bool, ran: bool, calmed: bool)
    requires loaded == Loaded(found) && (changed <==> loaded != found)
    requires if ran then migrated.status != loaded.status || migrated.handoff != loaded.handoff else migrated == loaded
    requires migrated.newAttempt == loaded.newAttempt && migrated.model == loaded.model
    requires t == Calmed(migrated) && (calmed <==> (migrated.status.Backlog? || migrated.status.Queue?) && !migrated.phase.Idle?)
    ensures (changed || ran || calmed) <==> t != found
  {
    LoadedFacts(found);
    if !found.newAttempt && !StaleModel(found.model) {
      LoadedUnchanged(found);
    }
    if ran {
      assert t.status != found.status || t.handoff != found.handoff;
    } else if calmed {
      assert t.phase != found.phase;
    }
  }

  ghost function MigratedBoard(b: Board, now: Time): Board {
    map id | id in b :: Migrate(b[id], now)
  }

  /** Reconciliation writes the Task again, if only to say the same of it. */
  predicate Revisits(h: Host, t: Task) {
    if HandoffPending(t) then false
    else if t.worktree.None? then t.cleanupInFlight
    else if t.cleanupInFlight then true
    else if h.present(t.worktree.value) then Lifted(t.error) != t.error
    else match Classify(h, t.project, t.worktree.value, t.branch)
      case Adopt(_) => true
      case ConfirmedAbsent => true
      case Locked(lock) => t.error != Some(LockNotice(lock))
      case Unverified => false
  }

  lemma ChangedIsRevisited(h: Host, owner: Option<Id>, t: Task)
    ensures Reconcile(h, owner, t) != t ==> Revisits(h, t)
  {
    Unchecked(t);
  }

  ghost function MigratedIds(loaded: Board, now: Time): set<Id> {
    set id | id in loaded && Migrate(loaded[id], now) != loaded[id]
  }

  ghost function RevisitedIds(h: Host, loaded: Board, now: Time): set<Id> {
    set id | id in loaded && Revisits(h, Migrate(loaded[id], now))
  }

  /** The Projects of the Tasks among the first `i` that are in `picks`. */
  ghost predicate Listed(keys: seq<Id>, i: nat, loaded: Board, picks: set<Id>, listed: set<Id>)
    requires i <= |keys| && forall id :: id in keys ==> id in loaded
  {
    forall project :: project in listed <==> exists k :: 0 <= k < i && keys[k] in picks && loaded[keys[k]].project == project
  }

  lemma ListedNext(keys: seq<Id>, i: nat, loaded: Board, picks: set<Id>, listed: set<Id>)
    requires i < |keys| && (forall id :: id in keys ==> id in loaded) && Listed(keys, i, loaded, picks, listed)
    ensures Listed(keys, i + 1, loaded, picks, if keys[i] in picks then listed + {loaded[keys[i]].project} else listed)
  {
    var next := if keys[i] in picks then listed + {loaded[keys[i]].project} else listed;
    forall project
      ensures project in next <==> exists k :: 0 <= k < i + 1 && keys[k] in picks && loaded[keys[k]].project == project
    {
      if k :| 0 <= k < i && keys[k] in picks && loaded[keys[k]].project == project {
        assert project in listed;
      }
    }
  }

  /** The first `i` Tasks are done as `target` has them; the rest are as `from`. */
  ghost predicate Done(keys: seq<Id>, i: nat, from: Board, target: Board, tasks: Board)
    requires i <= |keys|
  {
    && tasks.Keys == from.Keys == target.Keys
    && forall id :: id in tasks ==> tasks[id] == if id in keys[..i] then target[id] else from[id]
  }

  lemma DoneNext(keys: seq<Id>, i: nat, from: Board, target: Board, tasks: Board)
    requires NoDup(keys) && i < |keys| && Done(keys, i, from, target, tasks) && keys[i] in target
    ensures tasks[keys[i]] == from[keys[i]]
    ensures Done(keys, i + 1, from, target, tasks[keys[i] := target[keys[i]]])
  {
    NoDupPrefix(keys, i);
    assert keys[..i + 1] == keys[..i] + [keys[i]];
  }

  lemma AllDone(keys: seq<Id>, from: Board, target: Board, tasks: Board)
    requires Enumerates(keys, from) && Done(keys, |keys|, from, target, tasks)
    ensures tasks == target
  {
    assert keys[..|keys|] == keys;
  }

  /** Every Task is migrated as it is taken into the board. */
  method TakeIn(keys: seq<Id>, loaded: Board, now: Time) returns (tasks: Board, migrated: set<Id>)
    requires Enumerates(keys, loaded)
    ensures tasks == MigratedBoard(loaded, now)
    ensures Listed(keys, |keys|, loaded, MigratedIds(loaded, now), migrated)
  {
    ghost var target := MigratedBoard(loaded, now);
    tasks, migrated := loaded, {};
    for i := 0 to |keys|
      invariant Done(keys, i, loaded, target, tasks)
      invariant Listed(keys, i, loaded, MigratedIds(loaded, now), migrated)
    {
      var found := loaded[keys[i]];
      var t, changed := MigrateTask(found, now);
      DoneNext(keys, i, loaded, target, tasks);
      ListedNext(keys, i, loaded, MigratedIds(loaded, now), migrated);
      tasks, migrated := tasks[keys[i] := t], if changed then migrated + {found.project} else migrated;
    }
    AllDone(keys, loaded, target, tasks);
  }

  /** One Task against the disk and git, and whether it is written again. */
  method ReconcileTask(h: Host, owner: Option<Id>, found: Task) returns (t: Task, revisited: bool)
    ensures t == Reconcile(h, owner, found) && revisited == Revisits(h, found)
  {
    t := found;
    Unchecked(found);
    if HandoffPending(found) {
      return found, false;
    }
    if found.worktree.None? {
      return Rechecked(found, None, false, found.error), found.cleanupInFlight;
    }
    var path := found.worktree.value;
    if found.cleanupInFlight {
      return ReconcileFlagged(h, found, path), true;
    }
    if h.present(path) {
      return Rechecked(found, found.worktree, false, Lifted(found.error)), Lifted(found.error) != found.error;
    }
    var recovery := Classify(h, found.project, path, found.branch);
    t := ReconcileMissing(h, owner, found, path);
    revisited := recovery.Adopt? || recovery.ConfirmedAbsent? || (recovery.Locked? && found.error != Some(LockNotice(recovery.lock)));
  }

  /** The Projects whose boards the start saves again. */
  ghost predicate ListedForSaving(h: Host, loaded: Board, now: Time, listed: set<Id>) {
    forall project :: project in listed <==>
      exists id :: id in MigratedIds(loaded, now) + RevisitedIds(h, loaded, now) && loaded[id].project == project
  }

  lemma AllListed(h: Host, keys: seq<Id>, loaded: Board, now: Time, migrated: set<Id>, again: set<Id>)
    requires Enumerates(keys, loaded)
    ensures Listed(keys, |keys|, loaded, MigratedIds(loaded, now), migrated)
      && Listed(keys, |keys|, loaded, RevisitedIds(h, loaded, now), again)
      ==> ListedForSaving(h, loaded, now, migrated + again)
  {
    if !(Listed(keys, |keys|, loaded, MigratedIds(loaded, now), migrated)
         && Listed(keys, |keys|, loaded, RevisitedIds(h, loaded, now), again)) {
      return;
    }
    ghost var picks := MigratedIds(loaded, now) + RevisitedIds(h, loaded, now);
    forall project ensures project in migrated + again <==> exists id :: id in picks && loaded[id].project == project {
      if id :| id in picks && loaded[id].project == project {
        assert id in keys;
        var k :| 0 <= k < |keys| && keys[k] == id;
      }
    }
  }

  /** Reconcile every Task taken in, one after another. */
  method ReconcileAll(h: Host, keys: seq<Id>, loaded: Board, taken: Board, now: Time) returns (tasks: Board, again: set<Id>)
    requires Enumerates(keys, loaded) && taken == MigratedBoard(loaded, now)
    ensures tasks == StartupBoard(h, keys, loaded, now)
    ensures Listed(keys, |keys|, loaded, RevisitedIds(h, loaded, now), again)
  {
    ghost var target := StartupBoard(h, keys, loaded, now);
    tasks, again := taken, {};
    for i := 0 to |keys|
      invariant Done(keys, i, taken, target, tasks)
      invariant Listed(keys, i, loaded, RevisitedIds(h, loaded, now), again)
    {
      DoneNext(keys, i, taken, target, tasks);
      ListedNext(keys, i, loaded, RevisitedIds(h, loaded, now), again);
      var t, revisited := ReconcileTask(h, Owner(h, loaded, keys, keys[i]), tasks[keys[i]]);
      tasks, again := tasks[keys[i] := t], if revisited then again + {loaded[keys[i]].project} else again;
    }
    AllDone(keys, taken, target, tasks);
  }

  /** The pass over the loaded board. A Project is saved again exactly when one of
      its Tasks was migrated or written again. */
  method LoadBoard(h: Host, keys: seq<Id>, loaded: Board, now: Time) returns (tasks: Board, listed: set<Id>)
    requires Enumerates(keys, loaded)
    ensures tasks == StartupBoard(h, keys, loaded, now)
    ensures ListedForSaving(h, loaded, now, listed)
  {
    var taken, migrated := TakeIn(keys, loaded, now);
    var again;
    tasks, again := ReconcileAll(h, keys, loaded, taken, now);
    AllListed(h, keys, loaded, now, migrated, again);
    listed := migrated + again;
  }

  /** Whatever differs from what was loaded is in a Project listed for saving. */
  lemma ChangedIsListed(h: Host, keys: seq<Id>, loaded: Board, now: Time, listed: set<Id>, id: Id)
    requires id in loaded && ListedForSaving(h, loaded, now, listed)
    ensures StartupBoard(h, keys, loaded, now)[id] != loaded[id] ==> loaded[id].project in listed
  {
    ChangedIsRevisited(h, Owner(h, loaded, keys, id), Migrate(loaded[id], now));
    if StartupBoard(h, keys, loaded, now)[id] != loaded[id] {
      assert id in MigratedIds(loaded, now) + RevisitedIds(h, loaded, now);
    }
  }
}
