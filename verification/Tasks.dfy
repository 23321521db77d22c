/** The Task record and the small pure rules the stores share
    (`domain/task.rs` and the activity log of `slashit-activity`). */
module Tasks {
  import opened Durability

  type Id = nat
  type Path = string
  type Time = nat
  const U32_MAX := 0xFFFF_FFFF
  type u32 = n: int | 0 <= n <= U32_MAX

  datatype Status = Backlog | Queue | InProgress | AiReview | HumanReview | Done | PrCreated | Error
  datatype Phase = Idle | Planning | Coding | QaReview | QaFixing | Complete | Failed
  datatype Priority = Urgent | High | Medium | Low
  datatype Category =
    | Feature | BugFix | Refactoring | Documentation | Security | Performance | UiUx | Infrastructure | Testing

  datatype RunResult =
    | Available(text: string)
    | Truncated(text: string, originalChars: u32)
    | Unavailable(reason: string)

  /** What a message says; `Words` are git's, an agent's or a caller's own. */
  datatype Said =
    | Words(text: string)
    | EditedAfterApproval
    | OutcomeNotRecorded
    | NoExactEvidence
    | EndedEarly
    | WorktreeKept(path: Path, reason: string)
    | CleanupInterrupted(path: Path)
    | RegistrationLocked(path: Path)
    | NowElsewhere(path: Path, owner: Id)

  /** One kind of milestone. `Tool` stands for both tool-call kinds, and
      `Other` for the review and delivery milestones no rule here reads. */
  datatype Milestone =
    | Moved(from: Status, to: Status)
    | RunStarted(run: u32)
    | Tool(run: u32)
    | RunCompleted(run: u32)
    | RunAnswer(run: u32, result: RunResult)
    | RecoveryRequired(at: Option<u32>, reason: Said)
    | RunFailed(of: Option<u32>, reason: Said)
    | Stopped(from: Status)
    | Interrupted(from: Status)
    | CompletedLocally
    | Other(name: string)

  datatype Entry = Entry(at: Time, kind: Milestone)

  datatype HandoffStage =
    | Started
    | CommittedAwaitingReview(commit: string)
    | RecoveryNeeded(reason: Said, observed: Option<string>)
    | ResolvedToAiReview(commit: string)

  datatype Handoff = Handoff(run: Option<u32>, branch: Option<string>, stage: HandoffStage)

  /** The facts of an existing Task Checkout, as a person was shown them. */
  datatype Evidence = Evidence(
    project: Id, task: Id, checkoutPath: Path, branch: string, head: string, baseCommit: string, run: u32)

  /** The coding input approved for one run (`ApprovedExecution`). */
  datatype Binding = Binding(
    approvalId: Id, digest: string, forRun: u32, request: Option<string>, checkout: Option<Evidence>)

  datatype ExecutedApproval = ExecutedApproval(approvalId: Id, run: u32, digest: string)

  /** The current Human Review decision, when there is one. */
  datatype Review = Review(approved: bool, at: Time)

  /** A locked registration git holds; the one message startup must tell apart. */
  datatype Lock = Lock(path: Path, branch: Option<string>, reason: Option<string>)
  datatype Note = Note(said: Said, lock: Option<Lock>)

  datatype Task = Task(
    id: Id,
    project: Id,
    title: string,
    description: Option<string>,
    priority: Priority,
    category: Category,
    model: string,
    dependencies: seq<Id>,
    status: Status,
    position: int,
    phase: Phase,
    progress: nat,
    error: Option<Note>,
    worktree: Option<Path>,
    branch: Option<string>,
    baseCommit: Option<string>,
    cleanupInFlight: bool,
    restackPending: bool,
    integrationPending: bool,
    review: Option<Review>,
    handoff: Option<Handoff>,
    handoffConfirmed: bool,
    newAttempt: bool,
    binding: Option<Binding>,
    executed: seq<ExecutedApproval>,
    activity: seq<Entry>)

  type Board = map<Id, Task>

  /** The approved-input digest, left uninterpreted: no claim needs it to be
      injective. Its arguments are the Task and the additional request. */
  type Digest = (Task, Option<string>) -> string

  // ---------------------------------------------------------------- activity

  const MAX_ENTRIES := 200

  datatype Identity = StartOf(run: u32) | EndOf(run: u32) | AnswerOf(run: u32) | RecoveryOf(run: u32) | LocalEnd

  /** What makes a milestone the same one if it is recorded again. */
  function IdentityOf(kind: Milestone): Option<Identity> {
    match kind
    case RunStarted(run) => Some(StartOf(run))
    case RunAnswer(run, _) => Some(AnswerOf(run))
    case RunCompleted(run) => Some(EndOf(run))
    case RunFailed(Some(run), _) => Some(EndOf(run))
    case RecoveryRequired(Some(run), _) => Some(RecoveryOf(run))
    case CompletedLocally => Some(LocalEnd)
    case _ => None
  }

  /** The entry that makes room: the oldest tool call, else the oldest entry. */
  function Oldest(entries: seq<Entry>, i: nat): (k: nat)
    requires 0 < |entries|
    ensures k < |entries|
    decreases |entries| - i
  {
    if i >= |entries| then 0
    else if entries[i].kind.Tool? then i
    else Oldest(entries, i + 1)
  }

  function Trim(entries: seq<Entry>): (r: seq<Entry>)
    ensures |r| <= MAX_ENTRIES
    ensures forall e :: e in r ==> e in entries
    decreases |entries|
  {
    if |entries| <= MAX_ENTRIES then entries
    else
      var k := Oldest(entries, 0);
      Trim(entries[..k] + entries[k + 1..])
  }

  /** The log already holds this once-only milestone. */
  predicate OnTheLog(entries: seq<Entry>, kind: Milestone) {
    IdentityOf(kind).Some? && exists e :: e in entries && IdentityOf(e.kind) == IdentityOf(kind)
  }

  function Record(entries: seq<Entry>, at: Time, kind: Milestone): seq<Entry> {
    if OnTheLog(entries, kind) then entries
    else Trim(entries + [Entry(at, kind)])
  }

  lemma {:induction false} OldestSparesTheLast(entries: seq<Entry>, i: nat)
    requires |entries| >= 2 && !entries[|entries| - 1].kind.Tool?
    ensures Oldest(entries, i) < |entries| - 1
    decreases |entries| - i
  {
    if i < |entries| && !entries[i].kind.Tool? {
      OldestSparesTheLast(entries, i + 1);
    }
  }

  /** A new entry that is no tool call is never the one that makes room. */
  lemma NewestStays(entries: seq<Entry>, e: Entry)
    requires |entries| <= MAX_ENTRIES && !e.kind.Tool?
    ensures e in Trim(entries + [e])
  {
    var full := entries + [e];
    assert full[|entries|] == e;
    if |full| > MAX_ENTRIES {
      OldestSparesTheLast(full, 0);
      var k := Oldest(full, 0);
      var kept := full[..k] + full[k + 1..];
      assert Trim(full) == Trim(kept) == kept;
      assert kept[|kept| - 1] == e;
    } else {
      assert Trim(full) == full;
    }
  }

  /** A once-only milestone, once recorded, is on the log, and recording it again
      changes nothing, even when the log was full. */
  lemma RecordedOnce(entries: seq<Entry>, at: Time, kind: Milestone, later: Time, again: Milestone)
    requires |entries| <= MAX_ENTRIES && IdentityOf(kind).Some? && IdentityOf(again) == IdentityOf(kind)
    ensures var r := Record(entries, at, kind);
      && |r| <= MAX_ENTRIES && OnTheLog(r, kind)
      && Record(r, later, again) == r
  {
    if !OnTheLog(entries, kind) {
      NewestStays(entries, Entry(at, kind));
    }
  }

  /** The run a milestone shows to have existed. */
  function RunOf(kind: Milestone): nat {
    match kind
    case RunStarted(run) => run
    case RunCompleted(run) => run
    case RunAnswer(run, _) => run
    case RunFailed(Some(run), _) => run
    case Tool(run) => run
    case _ => 0
  }

  function HighestRun(entries: seq<Entry>): (r: u32)
    ensures forall e :: e in entries ==> RunOf(e.kind) <= r
    ensures r == 0 || exists e :: e in entries && RunOf(e.kind) == r
  {
    if entries == [] then 0
    else
      var rest := HighestRun(entries[1..]);
      if RunOf(entries[0].kind) > rest then RunOf(entries[0].kind) else rest
  }

  /** One past any run recorded, saturating as a `u32` does. */
  function NextRun(entries: seq<Entry>): u32 {
    var high := HighestRun(entries);
    if high == U32_MAX then high else high + 1
  }

  // ------------------------------------------------------------ transitions

  /** `Task::record_move`: a change of column ends the binding, withdraws an
      approval when work resumes, and leaves one milestone. */
  function RecordMove(t: Task, from: Status, now: Time): Task {
    if from == t.status then t
    else
      var kept := !from.HumanReview? || t.status.Done? || t.status.PrCreated?;
      t.(binding := None,
         review := if kept then t.review else Withdrawn(t.review),
         activity := Record(t.activity, now, Moved(from, t.status)))
  }

  predicate IsApproved(t: Task) {
    t.review.Some? && t.review.value.approved
  }

  /** A change of column ends the binding, and an approval survives it exactly
      unless it takes the Task out of Human Review for more work. Rejections and
      every other field of the Task stay. */
  lemma MoveFacts(t: Task, from: Status, now: Time)
    ensures var r := RecordMove(t, from, now);
      && (from == t.status ==> r == t)
      && (from != t.status ==>
            && r.binding.None? && r.activity == Record(t.activity, now, Moved(from, t.status))
            && (IsApproved(r) <==> IsApproved(t) && (!from.HumanReview? || t.status.Done? || t.status.PrCreated?))
            && (t.review.Some? && !t.review.value.approved ==> r.review == t.review))
      && r.(binding := t.binding, review := t.review, activity := t.activity) == t
  {
  }

  lemma RecordMoveProject(t: Task, from: Status, now: Time)
    ensures RecordMove(t, from, now).project == t.project
  {
  }

  function Withdrawn(review: Option<Review>): Option<Review> {
    if review.Some? && review.value.approved then None else review
  }

  /** `Task::reset_execution_state`. */
  function ResetExecution(t: Task): Task {
    t.(phase := Idle, progress := 0, error := None, review := Withdrawn(t.review))
  }

  predicate InBacklog(existing: Board, project: Id, id: Id) {
    id in existing && existing[id].project == project && existing[id].status.Backlog?
  }

  /** The highest Backlog position, over any enumeration `keys` of the board. */
  function HighestBacklog(existing: Board, project: Id, keys: seq<Id>): (high: Option<int>)
    ensures high.None? <==> forall k :: k in keys ==> !InBacklog(existing, project, k)
    ensures high.Some? ==>
      && (forall k :: k in keys && InBacklog(existing, project, k) ==> existing[k].position <= high.value)
      && (exists k :: k in keys && InBacklog(existing, project, k) && existing[k].position == high.value)
  {
    if keys == [] then None
    else
      var rest := HighestBacklog(existing, project, keys[1..]);
      if InBacklog(existing, project, keys[0]) && (rest.None? || rest.value < existing[keys[0]].position)
      then Some(existing[keys[0]].position)
      else rest
  }

  /** `Task::next_backlog_position`. */
  function NextBacklogPosition(existing: Board, project: Id, keys: seq<Id>): int {
    match HighestBacklog(existing, project, keys)
    case None => 0
    case Some(high) => high + 1
  }

  /** `Task::new_backlog`: no checkout, no run, no progress. */
  function NewBacklog(
    existing: Board, keys: seq<Id>, id: Id, project: Id, title: string, description: Option<string>,
    priority: Priority, category: Category, model: string): Task
  {
    Task(
      id := id, project := project, title := title, description := description, priority := priority,
      category := category, model := model, dependencies := [], status := Backlog,
      position := NextBacklogPosition(existing, project, keys), phase := Idle, progress := 0, error := None,
      worktree := None, branch := None, baseCommit := None, cleanupInFlight := false, restackPending := false,
      integrationPending := false, review := None, handoff := None, handoffConfirmed := false, newAttempt := false,
      binding := None, executed := [], activity := [])
  }

  // --------------------------------------------------------------- refusals

  predicate Superseded(t: Task) {
    && t.handoff.Some? && t.handoff.value.run.Some? && t.handoff.value.stage.ResolvedToAiReview?
    && t.review.Some? && !t.review.value.approved
    && var run := t.handoff.value.run.value;
       FirstCompletion(t.activity, run).Some? && FirstCompletion(t.activity, run).value <= t.review.value.at
  }

  function FirstCompletion(entries: seq<Entry>, run: u32): Option<Time> {
    if entries == [] then None
    else if entries[0].kind == RunCompleted(run) then Some(entries[0].at)
    else FirstCompletion(entries[1..], run)
  }

  /** `Task::worker_recovery_refusal`. */
  predicate WorkerRecoveryPending(t: Task) {
    t.handoff.Some? &&
    match t.handoff.value.stage
    case ResolvedToAiReview(_) =>
      !Superseded(t) && !t.handoffConfirmed && (t.status.InProgress? || t.status.AiReview?)
    case _ => true
  }

  predicate WasCompletedLocally(t: Task) {
    t.status.Done? && exists e :: e in t.activity && e.kind == CompletedLocally
  }

  /** `Task::integration_unfinished_refusal`. */
  predicate IntegrationUnfinished(t: Task) {
    && t.integrationPending
    && match t.status
       case HumanReview => t.review.Some? && t.review.value.approved
       case Done => WasCompletedLocally(t)
       case _ => false
  }

  datatype Block =
    | CleanupUnfinished
    | RestackPending
    | RecoveryPending
    | IntegrationPending
    | AlreadyRan
    | CheckoutWithoutRequest
    | NoCheckoutToReuse
    | CheckoutNotSettled
    | CheckoutNotNamed
    | AwaitingHumanReview

  /** `Task::queue_entry_refusal`: the refusals that need no approval. */
  function QueueEntryRefusal(t: Task): Option<Block> {
    if t.cleanupInFlight then Some(CleanupUnfinished)
    else if t.restackPending then Some(RestackPending)
    else if WorkerRecoveryPending(t) then Some(RecoveryPending)
    else if IntegrationUnfinished(t) then Some(IntegrationPending)
    else None
  }

  /** `Task::settled_checkout_refusal`. */
  predicate CheckoutUnsettled(t: Task) {
    || t.newAttempt
    || t.cleanupInFlight
    || t.restackPending
    || IntegrationUnfinished(t)
    || (t.handoff.Some? && !(t.handoff.value.stage.ResolvedToAiReview? && Superseded(t)))
  }

  /** `Task::is_ready_to_execute`: only such a Task is started. */
  predicate ReadyToExecute(t: Task) {
    && t.status.InProgress?
    && t.phase.Idle?
    && !t.cleanupInFlight
    && !t.restackPending
    && (t.handoff.None?
        || (t.handoff.value.stage.ResolvedToAiReview? && (t.handoffConfirmed || Superseded(t))))
  }

  // ------------------------------------------------------ what the rules say

  /** The log already has a milestone that may be on it once only. A run ends once,
      completed or failed. */
  ghost predicate Repeated(entries: seq<Entry>, kind: Milestone) {
    match kind
    case RunStarted(run) => exists e :: e in entries && e.kind == RunStarted(run)
    case RunAnswer(run, _) => exists e :: e in entries && e.kind.RunAnswer? && e.kind.run == run
    case RunCompleted(run) => EndOnLog(entries, run)
    case RunFailed(Some(run), _) => EndOnLog(entries, run)
    case RecoveryRequired(Some(run), _) => exists e :: e in entries && e.kind.RecoveryRequired? && e.kind.at == Some(run)
    case CompletedLocally => exists e :: e in entries && e.kind.CompletedLocally?
    case _ => false
  }

  ghost predicate EndOnLog(entries: seq<Entry>, run: u32) {
    exists e :: e in entries && (e.kind == RunCompleted(run) || (e.kind.RunFailed? && e.kind.of == Some(run)))
  }

  lemma RepeatedIsOnTheLog(entries: seq<Entry>, kind: Milestone)
    ensures OnTheLog(entries, kind) <==> Repeated(entries, kind)
  {
  }

  /** The entry of a full log that goes: its first tool call, or its oldest entry
      when there is none. */
  predicate MakesRoom(full: seq<Entry>, k: nat) {
    && k < |full|
    && if exists j :: 0 <= j < |full| && full[j].kind.Tool?
       then full[k].kind.Tool? && forall j :: 0 <= j < k ==> !full[j].kind.Tool?
       else k == 0
  }

  lemma {:induction false} OldestMakesRoom(entries: seq<Entry>, i: nat)
    requires 0 < |entries| && i <= |entries| && forall j :: 0 <= j < i ==> !entries[j].kind.Tool?
    ensures MakesRoom(entries, Oldest(entries, i))
    decreases |entries| - i
  {
    if i < |entries| && !entries[i].kind.Tool? {
      OldestMakesRoom(entries, i + 1);
    }
  }

  /** What recording does to a log: nothing for a repeated milestone; otherwise the
      entry goes last, and of two hundred and one entries one makes room. */
  lemma RecordMeans(entries: seq<Entry>, at: Time, kind: Milestone) returns (k: nat)
    requires |entries| <= 200
    ensures var r := Record(entries, at, kind); var full := entries + [Entry(at, kind)];
      if Repeated(entries, kind) then r == entries
      else if |entries| < 200 then r == full
      else MakesRoom(full, k) && r == full[..k] + full[k + 1..]
  {
    RepeatedIsOnTheLog(entries, kind);
    var full := entries + [Entry(at, kind)];
    OldestMakesRoom(full, 0);
    k := Oldest(full, 0);
    var kept := full[..k] + full[k + 1..];
    assert |kept| == |entries| && Trim(kept) == kept;
    assert |entries| == 200 ==> Trim(full) == Trim(kept);
  }

  /** The milestone shows that the run existed. A recovery alone does not. */
  predicate ShowsRun(kind: Milestone, run: int) {
    || (kind.RunStarted? && kind.run == run) || (kind.RunCompleted? && kind.run == run)
    || (kind.RunAnswer? && kind.run == run) || (kind.Tool? && kind.run == run)
    || (kind.RunFailed? && kind.of.Some? && kind.of.value == run)
  }

  /** The next run is one past every run the log shows, as long as there is such a
      number; and its predecessor is on the log unless it is the first. */
  lemma NextRunMeans(entries: seq<Entry>)
    ensures 1 <= NextRun(entries)
    ensures forall e, run :: e in entries && ShowsRun(e.kind, run) ==> run < NextRun(entries) || NextRun(entries) == 0xFFFF_FFFF
    ensures NextRun(entries) == 1 || NextRun(entries) == 0xFFFF_FFFF
      || exists e :: e in entries && ShowsRun(e.kind, NextRun(entries) - 1)
  {
    var high := HighestRun(entries);
    forall e, run | e in entries && ShowsRun(e.kind, run) ensures run <= high {
      assert RunOf(e.kind) == run;
    }
    if high != 0 {
      var e :| e in entries && RunOf(e.kind) == high;
      assert ShowsRun(e.kind, high);
    }
  }

  /** The Worker's outcome is settled: the run's handoff was resolved, and then it
      was confirmed, or the Task left the columns where it matters, or a person
      rejected the work after it was done. */
  predicate OutcomeSettled(t: Task) {
    || t.handoff.None?
    || (t.handoff.value.stage.ResolvedToAiReview?
        && (t.handoffConfirmed || !(t.status.InProgress? || t.status.AiReview?) || RejectedAfterwards(t)))
  }

  /** A person rejected the Task no earlier than its handoff's run is first on the
      log as completed. */
  predicate RejectedAfterwards(t: Task) {
    && t.handoff.Some? && t.handoff.value.stage.ResolvedToAiReview? && t.handoff.value.run.Some?
    && t.review.Some? && !t.review.value.approved
    && exists k :: 0 <= k < |t.activity| && FirstDone(t.activity, t.handoff.value.run.value, k) && t.activity[k].at <= t.review.value.at
  }

  predicate FirstDone(entries: seq<Entry>, run: u32, k: nat) {
    k < |entries| && entries[k].kind == RunCompleted(run) && forall j :: 0 <= j < k ==> entries[j].kind != RunCompleted(run)
  }

  lemma {:induction false} FirstCompletionIs(entries: seq<Entry>, run: u32, k: nat)
    requires FirstDone(entries, run, k)
    ensures FirstCompletion(entries, run) == Some(entries[k].at)
  {
    if k > 0 {
      assert entries[0].kind != RunCompleted(run);
      assert FirstDone(entries[1..], run, k - 1);
      FirstCompletionIs(entries[1..], run, k - 1);
    }
  }

  lemma {:induction false} FirstCompletionAt(entries: seq<Entry>, run: u32) returns (k: nat)
    requires FirstCompletion(entries, run).Some?
    ensures FirstDone(entries, run, k) && FirstCompletion(entries, run) == Some(entries[k].at)
  {
    if entries[0].kind == RunCompleted(run) {
      k := 0;
    } else {
      var rest := FirstCompletionAt(entries[1..], run);
      k := rest + 1;
      forall j | 0 <= j < k ensures entries[j].kind != RunCompleted(run) {
        assert j > 0 ==> entries[j] == entries[1..][j - 1];
      }
    }
  }

  lemma SupersededMeans(t: Task)
    ensures Superseded(t) <==> RejectedAfterwards(t)
  {
    if t.handoff.Some? && t.handoff.value.run.Some? {
      var run := t.handoff.value.run.value;
      if FirstCompletion(t.activity, run).Some? {
        var k := FirstCompletionAt(t.activity, run);
      }
      if t.review.Some? {
        if k :| 0 <= k < |t.activity| && FirstDone(t.activity, run, k) && t.activity[k].at <= t.review.value.at {
          FirstCompletionIs(t.activity, run, k);
        }
      }
    }
  }

  /** Exactly when a Worker's outcome is still to be looked at. */
  lemma RecoveryPendingIff(t: Task)
    ensures WorkerRecoveryPending(t) <==> !OutcomeSettled(t)
  {
    SupersededMeans(t);
  }

  /** An integration is unfinished exactly while the Task is marked so and stands
      where one is made: approved in Human Review, or completed locally. */
  lemma IntegrationUnfinishedIff(t: Task)
    ensures IntegrationUnfinished(t) <==>
      t.integrationPending
      && ((t.status.HumanReview? && IsApproved(t)) || (t.status.Done? && exists e :: e in t.activity && e.kind.CompletedLocally?))
  {
  }

  /** Which Tasks the executor starts. */
  lemma ReadyIff(t: Task)
    ensures ReadyToExecute(t) <==>
      && t.status.InProgress? && t.phase.Idle? && !t.cleanupInFlight && !t.restackPending
      && (t.handoff.None?
          || (t.handoff.value.stage.ResolvedToAiReview? && (t.handoffConfirmed || RejectedAfterwards(t))))
  {
    SupersededMeans(t);
  }
}
