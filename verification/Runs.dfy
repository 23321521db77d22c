/** From an approval to the run it admits: the binding a queue entry leaves, the
    write that starts a run, and why an approval never starts two
    (`queue/executor.rs`, `queue/prompt.rs`, `queue/manager.rs`). */
module Runs {
  import opened Durability
  import opened Orders
  import opened Tasks
  import opened QueueEntry

  datatype InputCheck = Unbound | Matches | Differs | Superseded

  /** `check_approved_input`. */
  function CheckApprovedInput(h: Digest, t: Task): InputCheck {
    match t.binding
    case None => Unbound
    case Some(b) =>
      if b.forRun != NextRun(t.activity) then Superseded
      else if b.digest == h(t, b.request) then Matches
      else Differs
  }

  /** `fail_stale_approval` and `fail_refused_launch`, which differ in wording. */
  function FailClosed(t: Task, reason: Said, now: Time): Task {
    var failed := t.(
      status := Error, phase := Phase.Failed, handoffConfirmed := false, error := Some(Note(reason, None)),
      activity := Record(t.activity, now, RunFailed(None, reason)));
    RecordMove(failed, t.status, now).(binding := None)
  }

  /** `QueueManager::apply_promotion`: no move is recorded, so a binding stays. */
  function Promoted(t: Task): Task {
    t.(status := InProgress, phase := Idle, progress := 0, error := None)
  }

  /** What the start write finds: the acquired checkout, whether the Workspace
      still holds the Project, and whether a decision admits a new attempt. */
  datatype Acquired = Acquired(
    path: Path, branch: string, baseCommit: Option<string>, head: string, membershipHolds: bool,
    launchRefused: Option<string>, newAttempt: Option<bool>, now: Time)

  predicate SameCheckout(t: Task, e: Evidence, a: Acquired) {
    t.worktree == Some(e.checkoutPath) && t.branch == Some(e.branch) && a.path == e.checkoutPath && a.head == e.head
  }

  /** The Task as the write that records the start of a run leaves it. */
  function Launched(t: Task, approved: Option<Binding>, a: Acquired): Task {
    var p := if a.newAttempt.Some? then Promoted(t).(newAttempt := false) else t;
    var run := NextRun(p.activity);
    p.(
      binding := None,
      worktree := Some(a.path),
      branch := Some(a.branch),
      baseCommit := if a.baseCommit.Some? then a.baseCommit else p.baseCommit,
      phase := Coding,
      executed := if approved.Some? then p.executed + [ExecutedApproval(approved.value.approvalId, run, approved.value.digest)]
                  else p.executed,
      activity := Record(p.activity, a.now, RunStarted(run)),
      handoffConfirmed := false,
      handoff := Some(Handoff(Some(run), Some(a.branch), Started)))
  }

  /** The start write: it launches, fails the Task closed, or changes nothing. */
  function StartWrite(h: Digest, t: Task, a: Acquired): Task {
    var check := CheckApprovedInput(h, t);
    if !a.membershipHolds then t
    else if check.Differs? || check.Superseded? then FailClosed(t, EditedAfterApproval, a.now)
    else if a.launchRefused.Some? then FailClosed(t, Words(a.launchRefused.value), a.now)
    else
      var approved := if check.Matches? then t.binding else None;
      if approved.Some? && approved.value.checkout.Some? && !SameCheckout(t, approved.value.checkout.value, a)
      then FailClosed(t, EditedAfterApproval, a.now)
      else if a.newAttempt == Some(false) then t
      else Launched(t, approved, a)
  }

  /** The launch itself: a new attempt is promoted first, then the run is
      numbered, its approval put on record, and the start written. */
  method Launch(found: Task, approved: Option<Binding>, a: Acquired) returns (t: Task)
    ensures t == Launched(found, approved, a)
  {
    t := found;
    if a.newAttempt.Some? {
      t := Promoted(t).(newAttempt := false);
    }
    var run := NextRun(t.activity);
    var executed := t.executed;
    if approved.Some? {
      executed := executed + [ExecutedApproval(approved.value.approvalId, run, approved.value.digest)];
    }
    var baseCommit := t.baseCommit;
    if a.baseCommit.Some? {
      baseCommit := a.baseCommit;
    }
    t := t.(
      binding := None, worktree := Some(a.path), branch := Some(a.branch), baseCommit := baseCommit, phase := Coding,
      executed := executed, activity := Record(t.activity, a.now, RunStarted(run)), handoffConfirmed := false,
      handoff := Some(Handoff(Some(run), Some(a.branch), Started)));
  }

  /** The amendment of the start write, with its early returns. */
  method Amend(h: Digest, found: Task, a: Acquired) returns (t: Task)
    ensures t == StartWrite(h, found, a)
  {
    if !a.membershipHolds {
      return found;
    }
    var check := CheckApprovedInput(h, found);
    if check.Differs? || check.Superseded? {
      return FailClosed(found, EditedAfterApproval, a.now);
    }
    if a.launchRefused.Some? {
      return FailClosed(found, Words(a.launchRefused.value), a.now);
    }
    var approved: Option<Binding> := None;
    if check.Matches? {
      approved := found.binding;
    }
    if approved.Some? && approved.value.checkout.Some? && !SameCheckout(found, approved.value.checkout.value, a) {
      return FailClosed(found, EditedAfterApproval, a.now);
    }
    if a.newAttempt == Some(false) {
      return found;
    }
    t := Launch(found, approved, a);
  }

  // ------------------------------------------------------------- the history

  /** No approval ran twice, and the Task is not bound to one that already ran. */
  ghost predicate RanOnce(t: Task) {
    && (forall i, j :: 0 <= i < j < |t.executed| ==> t.executed[i].approvalId != t.executed[j].approvalId)
    && (t.binding.Some? ==> !RanUnder(t, t.binding.value.approvalId))
  }

  datatype Event =
    | Enqueue(h: Digest, project: Id, seenIn: Status, approval: Option<Approval>, now: Time, position: int)
    | Start(h: Digest, acquired: Acquired)
    | Promote
    | MoveTo(to: Status, position: int, reset: bool, now: Time)
    | Fail(reason: Said, now: Time)
    | Rewrite(after: Task)

  /** Any other writer may do as it likes with the rest of the Task, but it
      starts nothing and binds nothing. */
  predicate Quiet(before: Task, after: Task) {
    after.executed == before.executed && (after.binding == before.binding || after.binding.None?)
  }

  function Next(t: Task, e: Event): Task {
    match e
    case Enqueue(h, project, seenIn, approval, now, position) =>
      if QueueEntryCheck(h, t, project, seenIn, approval).None? then Entered(t, approval, now).(position := position) else t
    case Start(h, acquired) => StartWrite(h, t, acquired)
    case Promote => if t.status.Queue? then Promoted(t) else t
    case MoveTo(to, position, reset, now) =>
      var moved := RecordMove(t.(status := to, position := position), t.status, now);
      if reset then ResetExecution(moved) else moved
    case Fail(reason, now) => FailClosed(t, reason, now)
    case Rewrite(after) => if Quiet(t, after) then after else t
  }

  function Play(t: Task, events: seq<Event>): Task
    decreases |events|
  {
    if events == [] then t else Play(Next(t, events[0]), events[1..])
  }

  lemma FailClosedFacts(t: Task, reason: Said, now: Time)
    ensures var r := FailClosed(t, reason, now);
      r.status.Error? && r.binding.None? && r.executed == t.executed && r.worktree == t.worktree && r.branch == t.branch
      && r.title == t.title && r.description == t.description && r.handoff == t.handoff
  {
  }

  lemma EntryIsRanOnce(t: Task, e: Event)
    requires RanOnce(t) && e.Enqueue?
    ensures RanOnce(Next(t, e))
  {
    if QueueEntryCheck(e.h, t, e.project, e.seenIn, e.approval).None? {
      AdmittedFacts(e.h, t, e.project, e.seenIn, e.approval);
      EnteredFacts(t, e.approval, e.now);
    }
  }

  /** A run starts exactly when the Workspace still holds the Project, a binding
      (if any) is for this run, this input and this checkout, the provider can
      launch, and a new attempt (if this is one) is still authorized. */
  predicate CanLaunch(h: Digest, t: Task, a: Acquired) {
    && a.membershipHolds && a.launchRefused.None? && a.newAttempt != Some(false)
    && (t.binding.Some? ==>
          var b := t.binding.value;
          && b.forRun == NextRun(t.activity) && b.digest == h(t, b.request)
          && (b.checkout.Some? ==> SameCheckout(t, b.checkout.value, a)))
  }

  /** Otherwise the Task is failed closed, or left alone. */
  lemma StartShape(h: Digest, t: Task, a: Acquired)
    ensures var r := StartWrite(h, t, a);
      if CanLaunch(h, t, a) then r == Launched(t, t.binding, a)
      else
        || r == t
        || r == FailClosed(t, EditedAfterApproval, a.now)
        || (a.launchRefused.Some? && r == FailClosed(t, Words(a.launchRefused.value), a.now))
  {
  }

  lemma StartIsRanOnce(h: Digest, t: Task, a: Acquired)
    requires RanOnce(t)
    ensures RanOnce(StartWrite(h, t, a))
  {
    StartShape(h, t, a);
    FailIsQuiet(t, EditedAfterApproval, a.now);
    if a.launchRefused.Some? { FailIsQuiet(t, Words(a.launchRefused.value), a.now); }
    if CanLaunch(h, t, a) {
      LaunchIsRanOnce(t, t.binding, a);
    } else {
      QuietIsRanOnce(t, StartWrite(h, t, a));
    }
  }

  lemma LaunchIsRanOnce(t: Task, approved: Option<Binding>, a: Acquired)
    requires RanOnce(t) && (approved.None? || approved == t.binding)
    ensures RanOnce(Launched(t, approved, a))
  {
    var r := Launched(t, approved, a);
    forall i, j | 0 <= i < j < |r.executed| ensures r.executed[i].approvalId != r.executed[j].approvalId {
      if j == |t.executed| { assert t.executed[i] in t.executed; }
    }
  }

  lemma QuietIsRanOnce(before: Task, after: Task)
    requires RanOnce(before) && Quiet(before, after)
    ensures RanOnce(after)
  {
  }

  lemma MoveIsQuiet(t: Task, to: Status, position: int, reset: bool, now: Time)
    ensures Quiet(t, Next(t, MoveTo(to, position, reset, now)))
    ensures to != t.status ==> Next(t, MoveTo(to, position, reset, now)).binding.None?
  {
  }

  lemma FailIsQuiet(t: Task, reason: Said, now: Time)
    ensures Quiet(t, FailClosed(t, reason, now))
  {
    FailClosedFacts(t, reason, now);
  }

  lemma NextIsRanOnce(t: Task, e: Event)
    requires RanOnce(t)
    ensures RanOnce(Next(t, e))
  {
    match e
    case Enqueue(_, _, _, _, _, _) => EntryIsRanOnce(t, e);
    case Start(h, acquired) => StartIsRanOnce(h, t, acquired);
    case MoveTo(to, position, reset, now) =>
      MoveIsQuiet(t, to, position, reset, now);
      QuietIsRanOnce(t, Next(t, e));
    case Fail(reason, now) =>
      FailIsQuiet(t, reason, now);
      QuietIsRanOnce(t, Next(t, e));
    case _ => QuietIsRanOnce(t, Next(t, e));
  }

  /** Over any history of queue entries, promotions, starts, failures and moves,
      however often an approval is retried, it never ran twice and the Task is
      never bound to an approval it already ran. */
  lemma {:induction false} AnApprovalRunsOnce(t: Task, events: seq<Event>)
    requires RanOnce(t)
    ensures RanOnce(Play(t, events))
    decreases |events|
  {
    if events != [] {
      NextIsRanOnce(t, events[0]);
      AnApprovalRunsOnce(Next(t, events[0]), events[1..]);
    }
  }

  /** Nothing takes an executed approval off the record again. */
  lemma {:induction false} EvidenceOnlyGrows(t: Task, events: seq<Event>)
    ensures t.executed <= Play(t, events).executed
    decreases |events|
  {
    if events != [] {
      EvidenceStep(t, events[0]);
      EvidenceOnlyGrows(Next(t, events[0]), events[1..]);
    }
  }

  lemma StartGrows(h: Digest, t: Task, a: Acquired)
    ensures t.executed <= StartWrite(h, t, a).executed && |StartWrite(h, t, a).executed| <= |t.executed| + 1
  {
    if StartWrite(h, t, a).executed != t.executed {
      EvidenceMeansApproved(h, t, a);
    }
  }

  /** One write adds at most one run, and only a start adds any. */
  lemma EvidenceStep(t: Task, e: Event)
    ensures t.executed <= Next(t, e).executed && |Next(t, e).executed| <= |t.executed| + 1
    ensures Next(t, e).executed != t.executed ==> e.Start?
  {
    match e
    case Start(h, a) => StartGrows(h, t, a);
    case Fail(reason, now) => FailIsQuiet(t, reason, now);
    case MoveTo(to, position, reset, now) => MoveIsQuiet(t, to, position, reset, now);
    case Enqueue(_, _, _, _, _, _) => EntryKeepsEvidence(t, e);
    case _ =>
  }

  lemma EntryKeepsEvidence(t: Task, e: Event)
    requires e.Enqueue?
    ensures Next(t, e).executed == t.executed
  {
    if QueueEntryCheck(e.h, t, e.project, e.seenIn, e.approval).None? {
      EnteredFacts(t, e.approval, e.now);
    }
  }

  /** What a launch puts on record, approved or not. */
  lemma LaunchedFacts(t: Task, approved: Option<Binding>, a: Acquired)
    ensures var r := Launched(t, approved, a); var run := NextRun(t.activity);
      && r.binding.None? && r.phase.Coding? && r.handoff == Some(Handoff(Some(run), Some(a.branch), Started))
      && r.worktree == Some(a.path) && r.branch == Some(a.branch)
      && r.activity == Record(t.activity, a.now, RunStarted(run))
      && r.status == (if a.newAttempt.Some? then InProgress else t.status)
      && r.executed == t.executed +
           (if approved.Some? then [ExecutedApproval(approved.value.approvalId, run, approved.value.digest)] else [])
  {
  }

  /** A run put on record under an approval is the run that approval was made
      for, of exactly the input approved, and the same write ends the binding. */
  lemma EvidenceMeansApproved(h: Digest, t: Task, a: Acquired)
    requires StartWrite(h, t, a).executed != t.executed
    ensures t.binding.Some?
    ensures var r := StartWrite(h, t, a); var b := t.binding.value;
      && r.executed == t.executed + [ExecutedApproval(b.approvalId, b.forRun, b.digest)]
      && b.digest == h(t, b.request) && b.forRun == NextRun(t.activity)
      && r.binding.None? && r.phase.Coding?
      && r.handoff == Some(Handoff(Some(b.forRun), Some(a.branch), Started))
      && (b.checkout.Some? ==> SameCheckout(t, b.checkout.value, a))
  {
    StartShape(h, t, a);
    FailIsQuiet(t, EditedAfterApproval, a.now);
    if a.launchRefused.Some? { FailIsQuiet(t, Words(a.launchRefused.value), a.now); }
    LaunchedFacts(t, t.binding, a);
  }

  /** A binding that no longer speaks for the input, or for this run, never
      starts one: the Task fails closed with its work kept. */
  lemma StaleApprovalFailsClosed(h: Digest, t: Task, a: Acquired)
    requires a.membershipHolds && t.binding.Some?
    requires t.binding.value.digest != h(t, t.binding.value.request) || t.binding.value.forRun != NextRun(t.activity)
    ensures var r := StartWrite(h, t, a);
      && r.status.Error? && r.phase.Failed? && r.binding.None? && r.executed == t.executed
      && r.worktree == t.worktree && r.branch == t.branch && r.handoff == t.handoff
  {
    FailClosedFacts(t, EditedAfterApproval, a.now);
    PhaseFailed(t, EditedAfterApproval, a.now);
  }

  lemma PhaseFailed(t: Task, reason: Said, now: Time)
    ensures FailClosed(t, reason, now).phase.Failed?
  {
  }

  // ----------------------------------------------------- what the write writes

  /** The binding speaks for another input or another run. */
  predicate Stale(h: Digest, t: Task) {
    t.binding.Some? && (t.binding.value.forRun != NextRun(t.activity) || t.binding.value.digest != h(t, t.binding.value.request))
  }

  /** The checkout approved is not the Task's, or not the one that was acquired. */
  predicate CheckoutMoved(t: Task, a: Acquired) {
    && t.binding.Some? && t.binding.value.checkout.Some?
    && var e := t.binding.value.checkout.value;
       t.worktree != Some(e.checkoutPath) || t.branch != Some(e.branch) || a.path != e.checkoutPath || a.head != e.head
  }

  /** The run is on record: numbered, with its approval, its checkout and a handoff
      that says it started; the binding has ended. A new attempt begins afresh. */
  predicate StartedAs(t: Task, a: Acquired, r: Task) {
    var run := NextRun(t.activity);
    && r.handoff.Some? && r.handoff.value.run == Some(run) && r.handoff.value.branch == Some(a.branch)
    && r.handoff.value.stage.Started? && !r.handoffConfirmed
    && r.activity == Record(t.activity, a.now, RunStarted(run))
    && r.executed == t.executed
         + (if t.binding.Some? then [ExecutedApproval(t.binding.value.approvalId, run, t.binding.value.digest)] else [])
    && r.binding.None? && r.phase.Coding?
    && r.worktree == Some(a.path) && r.branch == Some(a.branch)
    && r.baseCommit == (if a.baseCommit.Some? then a.baseCommit else t.baseCommit)
    && (if a.newAttempt.Some? then r.status.InProgress? && r.progress == 0 && r.error.None? && !r.newAttempt
        else r.status == t.status && r.progress == t.progress && r.error == t.error && r.newAttempt == t.newAttempt)
    && r == t.(handoff := r.handoff, handoffConfirmed := r.handoffConfirmed, activity := r.activity, executed := r.executed,
               binding := r.binding, phase := r.phase, worktree := r.worktree, branch := r.branch, baseCommit := r.baseCommit,
               status := r.status, progress := r.progress, error := r.error, newAttempt := r.newAttempt)
  }

  /** The Task stands in Error for this reason, with a failure of no run and then
      its move on the log, no binding, and its checkout and handoff as they were. */
  predicate FailedAs(t: Task, reason: Said, now: Time, r: Task) {
    var failed := Record(t.activity, now, RunFailed(None, reason));
    && r.status.Error? && r.phase.Failed? && !r.handoffConfirmed && r.binding.None?
    && r.error.Some? && r.error.value.said == reason && r.error.value.lock.None?
    && r.activity == (if t.status.Error? then failed else Record(failed, now, Moved(t.status, Error)))
    && (if IsApproved(t) && t.status.HumanReview? then r.review.None? else r.review == t.review)
    && r == t.(status := r.status, phase := r.phase, handoffConfirmed := r.handoffConfirmed, binding := r.binding,
               error := r.error, activity := r.activity, review := r.review)
  }

  lemma LaunchStarts(t: Task, a: Acquired)
    ensures StartedAs(t, a, Launched(t, t.binding, a))
  {
  }

  lemma FailClosedFails(t: Task, reason: Said, now: Time)
    ensures FailedAs(t, reason, now, FailClosed(t, reason, now))
  {
  }

  /** What the start write makes of the Task, for every answer it can meet: which
      launches start a run, which fail the Task closed and why, and which leave it
      exactly as it was. */
  lemma StartWrites(h: Digest, t: Task, a: Acquired)
    ensures var r := StartWrite(h, t, a);
      if !a.membershipHolds then r == t
      else if Stale(h, t) then FailedAs(t, EditedAfterApproval, a.now, r)
      else if a.launchRefused.Some? then FailedAs(t, Words(a.launchRefused.value), a.now, r)
      else if CheckoutMoved(t, a) then FailedAs(t, EditedAfterApproval, a.now, r)
      else if a.newAttempt == Some(false) then r == t
      else StartedAs(t, a, r)
  {
    LaunchStarts(t, a);
    FailClosedFails(t, EditedAfterApproval, a.now);
    if a.launchRefused.Some? { FailClosedFails(t, Words(a.launchRefused.value), a.now); }
    StartAsChecked(h, t, a);
  }

  lemma StartAsChecked(h: Digest, t: Task, a: Acquired)
    ensures StartWrite(h, t, a) ==
      if !a.membershipHolds then t
      else if Stale(h, t) then FailClosed(t, EditedAfterApproval, a.now)
      else if a.launchRefused.Some? then FailClosed(t, Words(a.launchRefused.value), a.now)
      else if CheckoutMoved(t, a) then FailClosed(t, EditedAfterApproval, a.now)
      else if a.newAttempt == Some(false) then t
      else Launched(t, t.binding, a)
  {
  }

  /** A promotion starts the clock of the run and nothing else: the binding stays
      until the start write, and no move is recorded. */
  lemma PromotionKeepsBinding(t: Task)
    ensures var r := Next(t, Promote);
      if t.status.Queue? then
        && r.status.InProgress? && r.phase.Idle? && r.progress == 0 && r.error.None?
        && r == t.(status := r.status, phase := r.phase, progress := r.progress, error := r.error)
      else r == t
  {
  }

  // --------------------------------------------------------- run numbers

  /** No two approvals are on record with one run number. */
  ghost predicate DistinctRuns(t: Task) {
    forall i, j :: 0 <= i < j < |t.executed| ==> t.executed[i].run != t.executed[j].run
  }

  predicate Numbered(t: Task, run: u32) {
    exists e :: e in t.executed && e.run == run
  }

  /** An approved start whose number an executed approval already has. The number
      is read from the activity log, which forgets. */
  predicate ReusesRun(t: Task, e: Event) {
    e.Start? && CanLaunch(e.h, t, e.acquired) && t.binding.Some? && Numbered(t, NextRun(t.activity))
  }

  lemma StartAdds(h: Digest, t: Task, a: Acquired)
    ensures var r := StartWrite(h, t, a).executed;
      if CanLaunch(h, t, a) && t.binding.Some?
      then r == t.executed + [ExecutedApproval(t.binding.value.approvalId, NextRun(t.activity), t.binding.value.digest)]
      else r == t.executed
  {
    StartShape(h, t, a);
    LaunchedFacts(t, t.binding, a);
    FailIsQuiet(t, EditedAfterApproval, a.now);
    if a.launchRefused.Some? { FailIsQuiet(t, Words(a.launchRefused.value), a.now); }
  }

  /** One step keeps the numbers distinct exactly when it reuses none. */
  lemma NextIsDistinctIff(t: Task, e: Event)
    requires DistinctRuns(t)
    ensures DistinctRuns(Next(t, e)) <==> !ReusesRun(t, e)
  {
    var r := Next(t, e).executed;
    EvidenceStep(t, e);
    if e.Start? {
      StartAdds(e.h, t, e.acquired);
      if ReusesRun(t, e) {
        var i :| 0 <= i < |t.executed| && t.executed[i].run == NextRun(t.activity);
        assert r[i].run == r[|t.executed|].run;
      } else if r != t.executed {
        forall i, j | 0 <= i < j < |r| ensures r[i].run != r[j].run {
          if j == |t.executed| { assert t.executed[i] in t.executed; }
        }
      }
    }
  }

  predicate NeverReuses(t: Task, events: seq<Event>)
    decreases |events|
  {
    events == [] || (!ReusesRun(t, events[0]) && NeverReuses(Next(t, events[0]), events[1..]))
  }

  lemma ClashStays(t: Task, r: Task)
    requires !DistinctRuns(t) && t.executed <= r.executed
    ensures !DistinctRuns(r)
  {
    var i, j :| 0 <= i < j < |t.executed| && t.executed[i].run == t.executed[j].run;
    assert r.executed[i] == t.executed[i] && r.executed[j] == t.executed[j];
  }

  /** Over a whole history, no two approvals share a run number exactly when no
      approved start takes a number that an executed approval has. */
  lemma {:induction false} RunsAreDistinctIff(t: Task, events: seq<Event>)
    requires DistinctRuns(t)
    ensures DistinctRuns(Play(t, events)) <==> NeverReuses(t, events)
    decreases |events|
  {
    if events != [] {
      NextIsDistinctIff(t, events[0]);
      if ReusesRun(t, events[0]) {
        EvidenceOnlyGrows(Next(t, events[0]), events[1..]);
        ClashStays(Next(t, events[0]), Play(t, events));
      } else {
        RunsAreDistinctIff(Next(t, events[0]), events[1..]);
      }
    }
  }

  /** The log still shows a run as late as every executed approval's. */
  predicate LogIsAbreast(t: Task) {
    forall e :: e in t.executed ==> exists x :: x in t.activity && e.run <= RunOf(x.kind)
  }

  /** Then no number is reused, short of the largest there is. */
  lemma AbreastReusesNone(t: Task, e: Event)
    requires LogIsAbreast(t) && NextRun(t.activity) < U32_MAX
    ensures !ReusesRun(t, e)
  {
  }

  /** The Task in another column: its binding ended with the old one, one move is on
      its log, and a move that resets it clears the traces of its runs. */
  predicate MovedAs(t: Task, to: Status, position: int, reset: bool, now: Time, r: Task) {
    && r.status == to && r.position == position
    && (if t.status == to then r.binding == t.binding && r.activity == t.activity
        else r.binding.None? && r.activity == Record(t.activity, now, Moved(t.status, to)))
    && (if reset then r.phase.Idle? && r.progress == 0 && r.error.None?
        else r.phase == t.phase && r.progress == t.progress && r.error == t.error)
    && (if IsApproved(t) && (reset || (t.status.HumanReview? && to != t.status && !to.Done? && !to.PrCreated?))
        then r.review.None? else r.review == t.review)
    && r == t.(status := r.status, position := r.position, binding := r.binding, activity := r.activity,
               phase := r.phase, progress := r.progress, error := r.error, review := r.review)
  }

  lemma MovesAreSaid(t: Task, to: Status, position: int, reset: bool, now: Time)
    ensures MovedAs(t, to, position, reset, now, Next(t, MoveTo(to, position, reset, now)))
  {
  }

  /** What the other events of a history make of the Task. */
  lemma OtherEventsSay(
    t: Task, h: Digest, project: Id, seenIn: Status, approval: Option<Approval>, position: int, reason: Said, after: Task, now: Time)
    ensures var r := Next(t, Enqueue(h, project, seenIn, approval, now, position));
      if QueueEntryCheck(h, t, project, seenIn, approval).None? then QueuedAs(t, approval, now, r) && r.position == position
      else r == t
    ensures FailedAs(t, reason, now, Next(t, Fail(reason, now)))
    ensures Quiet(t, after) ==> Next(t, Rewrite(after)) == after
  {
    FailClosedFails(t, reason, now);
    if QueueEntryCheck(h, t, project, seenIn, approval).None? {
      AdmittedFacts(h, t, project, seenIn, approval);
      EnteredIsQueued(t, approval, now, position);
    }
  }

  /** A history goes on from where its first part left off. */
  lemma {:induction false} HistoriesGoOn(t: Task, first: seq<Event>, rest: seq<Event>, e: Event)
    ensures Play(t, first + rest) == Play(Play(t, first), rest)
    ensures Play(t, [e]) == Next(t, e)
    decreases |first|
  {
    assert [e][1..] == [];
    if first == [] {
      assert first + rest == rest;
    } else {
      assert (first + rest)[1..] == first[1..] + rest;
      HistoriesGoOn(Next(t, first[0]), first[1..], rest, e);
    }
  }
}
