/** The one ordered list of refusals every queue entry is checked against, and
    what an admitted entry does to the Project's board. */
module QueueEntry {
  import opened Durability
  import opened Orders
  import opened Tasks
  import opened Columns

  /** The Human approval a Queue transition is made under. */
  datatype Approval = Approval(id: Id, digest: string, request: Option<string>, checkout: Option<Evidence>)

  datatype Verdict =
    | Queued(title: string)
    | AlreadyQueued(title: string)
    | MovedOn(status: Status)
    | InputChanged
    | Missing
    | OtherProject
    | Blocked(why: Block)

  predicate HoldsCheckout(t: Task) {
    t.worktree.Some? || t.branch.Some? || t.handoff.Some?
  }

  predicate ReuseIsForThisTask(t: Task, e: Evidence) {
    && e.task == t.id && e.project == t.project
    && t.worktree == Some(e.checkoutPath) && t.branch == Some(e.branch)
    && t.baseCommit == Some(e.baseCommit) && e.run == NextRun(t.activity)
  }

  predicate RanUnder(t: Task, approval: Id) {
    exists e :: e in t.executed && e.approvalId == approval
  }

  /** `queue_entry_check`: the one ordered list of refusals, `None` to admit. */
  function QueueEntryCheck(
    h: Digest, t: Task, project: Id, seenIn: Status, approval: Option<Approval>): Option<Verdict>
  {
    if t.project != project then Some(OtherProject)
    else if t.status.Queue? then Some(AlreadyQueued(t.title))
    else if t.status != seenIn then Some(MovedOn(t.status))
    else
      var refused := if approval.Some? then ApprovalCheck(h, t, approval.value) else None;
      if refused.Some? then refused
      else match QueueEntryRefusal(t)
        case Some(why) => Some(Blocked(why))
        case None => None
  }

  function ApprovalCheck(h: Digest, t: Task, a: Approval): Option<Verdict> {
    if h(t, a.request) != a.digest then Some(InputChanged)
    else if RanUnder(t, a.id) then Some(Blocked(AlreadyRan))
    else if a.checkout.Some? && a.request.None? then Some(Blocked(CheckoutWithoutRequest))
    else if a.checkout.Some? && !HoldsCheckout(t) then Some(Blocked(NoCheckoutToReuse))
    else if a.request.Some? && HoldsCheckout(t) && CheckoutUnsettled(t) then Some(Blocked(CheckoutNotSettled))
    else if a.request.Some? && HoldsCheckout(t)
      && !(a.checkout.Some? && ReuseIsForThisTask(t, a.checkout.value)) then Some(Blocked(CheckoutNotNamed))
    else None
  }

  /** The Task as the admitted entry leaves it, before its column is renumbered. */
  function Entered(t: Task, approval: Option<Approval>, now: Time): Task {
    var moved := ResetExecution(RecordMove(t.(status := Queue), t.status, now));
    moved.(binding :=
      if approval.None? then None
      else
        var a := approval.value;
        Some(Binding(a.id, a.digest, NextRun(moved.activity), a.request, a.checkout)))
  }

  /** The reasons `enqueue_current_held` checks before it ends anyone's run. The
      command line may not take a Task out of Human Review on its own. */
  function StandingRefusal(t: Task, refuseHumanReview: bool): Option<Block> {
    if refuseHumanReview && t.status.HumanReview? then Some(AwaitingHumanReview)
    else if t.status.Queue? then None
    else QueueEntryRefusal(t)
  }

  /** `enqueue_leased`: the verdict, and the board staged when it is `Queued`. */
  function EnqueueStaged(
    h: Digest, staged: Board, project: Id, task: Id, seenIn: Status, approval: Option<Approval>, now: Time,
    keys: seq<Id>): (Verdict, Board)
  {
    if task !in staged then (Missing, staged)
    else match QueueEntryCheck(h, staged[task], project, seenIn, approval)
      case Some(refusal) => (refusal, staged)
      case None =>
        var b := staged[task := Entered(staged[task], approval, now)];
        (Queued(staged[task].title), Renumbered(b, project, task, Queue, 0, keys))
  }

  /** Every successful queue entry passed every refusal, lands on top of a
      gapless Queue, records one move, and changes no other card except its
      position in Queue. */
  lemma EnqueueLandsOnTop(
    h: Digest, staged: Board, project: Id, task: Id, seenIn: Status, approval: Option<Approval>, now: Time,
    keys: seq<Id>)
    requires Enumerates(keys, staged)
    requires EnqueueStaged(h, staged, project, task, seenIn, approval, now, keys).0.Queued?
    ensures var r := EnqueueStaged(h, staged, project, task, seenIn, approval, now, keys).1;
      && task in staged
      && QueueEntryRefusal(staged[task]).None?
      && Gapless(r, project, Queue)
      && OnlyPositions(staged[task := Entered(staged[task], approval, now)], r, project, Queue)
      && PositionIn(r, task) == 0
      && KeepsOrder(staged, r, project, Queue, task)
  {
    AdmittedFacts(h, staged[task], project, seenIn, approval);
    LandsOnTop(staged, project, task, Entered(staged[task], approval, now), keys);
  }

  lemma AdmittedFacts(h: Digest, t: Task, project: Id, seenIn: Status, approval: Option<Approval>)
    requires QueueEntryCheck(h, t, project, seenIn, approval).None?
    ensures t.project == project && t.status == seenIn && !t.status.Queue? && QueueEntryRefusal(t).None?
    ensures approval.Some? ==> !RanUnder(t, approval.value.id) && h(t, approval.value.request) == approval.value.digest
  {
  }

  /** An approval may queue the Task only with the input it showed, once, and over
      a checkout only by naming exactly the settled checkout the Task has. */
  predicate Authorizes(h: Digest, t: Task, a: Approval) {
    && h(t, a.request) == a.digest
    && !RanUnder(t, a.id)
    && (a.checkout.Some? ==> a.request.Some? && HoldsCheckout(t))
    && (a.request.Some? && HoldsCheckout(t) ==>
          && a.checkout.Some? && ReuseIsForThisTask(t, a.checkout.value)
          && !t.newAttempt && !t.cleanupInFlight && !t.restackPending && !IntegrationUnfinished(t)
          && (t.handoff.Some? ==> t.handoff.value.stage.ResolvedToAiReview? && Superseded(t)))
  }

  /** Exactly which entries are admitted. */
  lemma AdmittedIff(h: Digest, t: Task, project: Id, seenIn: Status, approval: Option<Approval>)
    ensures QueueEntryCheck(h, t, project, seenIn, approval).None? <==>
      && t.project == project && t.status == seenIn && !t.status.Queue?
      && !t.cleanupInFlight && !t.restackPending && !WorkerRecoveryPending(t) && !IntegrationUnfinished(t)
      && (approval.Some? ==> Authorizes(h, t, approval.value))
  {
  }

  lemma LandsOnTop(staged: Board, project: Id, task: Id, entered: Task, keys: seq<Id>)
    requires Enumerates(keys, staged) && task in staged && !InColumn(staged, project, Queue, task)
    requires entered.project == project && entered.status == Queue
    ensures var r := Renumbered(staged[task := entered], project, task, Queue, 0, keys);
      && Gapless(r, project, Queue)
      && OnlyPositions(staged[task := entered], r, project, Queue)
      && PositionIn(r, task) == 0
      && KeepsOrder(staged, r, project, Queue, task)
  {
    var b := staged[task := entered];
    assert Enumerates(keys, b);
    RenumberedColumn(b, project, task, Queue, 0, keys);
    KeepsOrderElsewhere(staged, b, Renumbered(b, project, task, Queue, 0, keys), project, Queue, task);
  }

  lemma KeepsOrderElsewhere(staged: Board, b: Board, r: Board, project: Id, status: Status, task: Id)
    requires staged.Keys == b.Keys && forall id :: id in staged && id != task ==> staged[id] == b[id]
    requires KeepsOrder(b, r, project, status, task)
    ensures KeepsOrder(staged, r, project, status, task)
  {
    forall x, y |
      && InColumn(staged, project, status, x) && InColumn(staged, project, status, y)
      && x != task && y != task && PositionIn(staged, x) < PositionIn(staged, y)
      ensures PositionIn(r, x) < PositionIn(r, y)
    {
      assert InColumn(b, project, status, x) && InColumn(b, project, status, y);
      assert PositionIn(b, x) < PositionIn(b, y);
    }
  }

  lemma EnteredFacts(t: Task, approval: Option<Approval>, now: Time)
    requires !t.status.Queue?
    ensures var r := Entered(t, approval, now);
      && r.id == t.id && r.project == t.project && r.status == Queue
      && r.activity == Record(t.activity, now, Moved(t.status, Queue))
      && r.worktree == t.worktree && r.branch == t.branch && r.cleanupInFlight == t.cleanupInFlight
      && r.executed == t.executed
      && (r.binding.Some? <==> approval.Some?)
      && (approval.Some? ==> r.binding.value.approvalId == approval.value.id && r.binding.value.digest == approval.value.digest)
  {
  }

  // ------------------------------------------------- what an entry writes and says

  /** The Task as the Queue holds it: waiting, with the traces of earlier runs
      cleared, an approval withdrawn, one more move on its log, and bound to
      exactly what was approved, for the run that log makes the next. */
  predicate QueuedAs(t: Task, approval: Option<Approval>, now: Time, r: Task) {
    && r.status.Queue? && r.phase.Idle? && r.progress == 0 && r.error.None?
    && r.activity == Record(t.activity, now, Moved(t.status, Queue))
    && (if IsApproved(t) then r.review.None? else r.review == t.review)
    && (match approval
        case None => r.binding.None?
        case Some(a) =>
          && r.binding.Some?
          && r.binding.value.approvalId == a.id && r.binding.value.digest == a.digest
          && r.binding.value.forRun == NextRun(r.activity)
          && r.binding.value.request == a.request && r.binding.value.checkout == a.checkout)
    && r == t.(status := r.status, phase := r.phase, progress := r.progress, error := r.error, activity := r.activity,
               review := r.review, binding := r.binding, position := r.position)
  }

  lemma EnteredAsQueued(t: Task, approval: Option<Approval>, now: Time)
    requires !t.status.Queue?
    ensures QueuedAs(t, approval, now, Entered(t, approval, now))
  {
  }

  lemma EnteredIsQueued(t: Task, approval: Option<Approval>, now: Time, position: int)
    requires !t.status.Queue?
    ensures QueuedAs(t, approval, now, Entered(t, approval, now).(position := position))
  {
    EnteredAsQueued(t, approval, now);
    PlacedIsQueued(t, approval, now, Entered(t, approval, now), position);
  }

  lemma PlacedIsQueued(t: Task, approval: Option<Approval>, now: Time, r: Task, position: int)
    requires QueuedAs(t, approval, now, r)
    ensures QueuedAs(t, approval, now, r.(position := position))
  {
  }

  /** What an admitted entry makes of another Task, or of the Task itself. */
  predicate EntryMakes(
    staged: Board, project: Id, task: Id, approval: Option<Approval>, now: Time, r: Board, other: Id)
    requires task in staged && other in staged && r.Keys == staged.Keys
  {
    if other == task then r[task].position == 0 && QueuedAs(staged[task], approval, now, r[task])
    else if staged[other].project == project && staged[other].status.Queue?
    then r[other] == staged[other].(position := r[other].position)
    else r[other] == staged[other]
  }

  lemma EntryIsMade(
    staged: Board, project: Id, task: Id, approval: Option<Approval>, now: Time, entered: Task, r: Board, other: Id)
    requires task in staged && other in staged && r.Keys == staged.Keys
    requires entered == Entered(staged[task], approval, now) && !staged[task].status.Queue? && staged[task].project == project
    requires OnlyPositions(staged[task := entered], r, project, Queue) && PositionIn(r, task) == 0
    ensures EntryMakes(staged, project, task, approval, now, r, other)
  {
    EnteredIsQueued(staged[task], approval, now, r[task].position);
    assert InColumn(staged[task := entered], project, Queue, task);
    assert r[task] == entered.(position := r[task].position);
  }

  /** What an admitted entry makes of every Task of the Project. */
  lemma EnqueueWrites(
    h: Digest, staged: Board, project: Id, task: Id, seenIn: Status, approval: Option<Approval>, now: Time, keys: seq<Id>,
    other: Id)
    requires Enumerates(keys, staged) && other in staged
    requires EnqueueStaged(h, staged, project, task, seenIn, approval, now, keys).0.Queued?
    ensures var (verdict, r) := EnqueueStaged(h, staged, project, task, seenIn, approval, now, keys);
      && task in staged && verdict.title == staged[task].title && r.Keys == staged.Keys
      && EntryMakes(staged, project, task, approval, now, r, other)
  {
    var (verdict, r) := EnqueueStaged(h, staged, project, task, seenIn, approval, now, keys);
    EnqueueLandsOnTop(h, staged, project, task, seenIn, approval, now, keys);
    AdmittedFacts(h, staged[task], project, seenIn, approval);
    EntryIsMade(staged, project, task, approval, now, Entered(staged[task], approval, now), r, other);
  }

  /** The list of refusals, in the order they are checked, each with what it looks
      at; those of an approval only when there is one. */
  function Refusals(h: Digest, t: Task, project: Id, seenIn: Status, approval: Option<Approval>): seq<(bool, Verdict)> {
    PlaceRefusals(t, project, seenIn) + (if approval.None? then [] else ApprovalRefusals(h, t, approval.value)) + BoardRefusals(t)
  }

  function PlaceRefusals(t: Task, project: Id, seenIn: Status): seq<(bool, Verdict)> {
    [(t.project != project, OtherProject), (t.status.Queue?, AlreadyQueued(t.title)), (t.status != seenIn, MovedOn(t.status))]
  }

  function BoardRefusals(t: Task): seq<(bool, Verdict)> {
    [(t.cleanupInFlight, Blocked(CleanupUnfinished)),
     (t.restackPending, Blocked(RestackPending)),
     (WorkerRecoveryPending(t), Blocked(RecoveryPending)),
     (IntegrationUnfinished(t), Blocked(IntegrationPending))]
  }

  /** The facts of a checkout are those of the one the Task has, at its next run. */
  predicate IsItsCheckout(t: Task, e: Evidence) {
    && e.task == t.id && e.project == t.project
    && t.worktree.Some? && t.worktree.value == e.checkoutPath && t.branch.Some? && t.branch.value == e.branch
    && t.baseCommit.Some? && t.baseCommit.value == e.baseCommit && e.run == NextRun(t.activity)
  }

  /** The checkout still awaits something: a new attempt, a cleanup, a restack, an
      integration, or the outcome of the run that is on its handoff. */
  predicate Awaits(t: Task) {
    || t.newAttempt || t.cleanupInFlight || t.restackPending
    || (t.integrationPending
        && ((t.status.HumanReview? && IsApproved(t)) || (t.status.Done? && exists e :: e in t.activity && e.kind.CompletedLocally?)))
    || (t.handoff.Some? && !RejectedAfterwards(t))
  }

  lemma AwaitsIsUnsettled(t: Task)
    ensures Awaits(t) <==> CheckoutUnsettled(t)
  {
    SupersededMeans(t);
    IntegrationUnfinishedIff(t);
  }

  function ApprovalRefusals(h: Digest, t: Task, a: Approval): seq<(bool, Verdict)> {
    var holds := t.worktree.Some? || t.branch.Some? || t.handoff.Some?;
    [(h(t, a.request) != a.digest, InputChanged),
     (exists e :: e in t.executed && e.approvalId == a.id, Blocked(AlreadyRan)),
     (a.checkout.Some? && a.request.None?, Blocked(CheckoutWithoutRequest)),
     (a.checkout.Some? && !holds, Blocked(NoCheckoutToReuse)),
     (a.request.Some? && holds && Awaits(t), Blocked(CheckoutNotSettled)),
     (a.request.Some? && holds && (a.checkout.None? || !IsItsCheckout(t, a.checkout.value)), Blocked(CheckoutNotNamed))]
  }

  /** The first of the list that stands. */
  function FirstOf(list: seq<(bool, Verdict)>): (first: Option<Verdict>)
    ensures first.None? <==> forall k :: 0 <= k < |list| ==> !list[k].0
    ensures first.Some? ==>
      exists k :: 0 <= k < |list| && list[k].0 && list[k].1 == first.value && forall j :: 0 <= j < k ==> !list[j].0
  {
    if list == [] then None else if list[0].0 then Some(list[0].1) else FirstOf(list[1..])
  }

  lemma {:induction false} FirstOfBoth(xs: seq<(bool, Verdict)>, ys: seq<(bool, Verdict)>)
    ensures FirstOf(xs + ys) == if FirstOf(xs).Some? then FirstOf(xs) else FirstOf(ys)
  {
    if xs == [] {
      assert xs + ys == ys;
    } else {
      assert (xs + ys)[0] == xs[0] && (xs + ys)[1..] == xs[1..] + ys;
      FirstOfBoth(xs[1..], ys);
    }
  }

  lemma FirstOfTwo(a: (bool, Verdict), b: (bool, Verdict))
    ensures FirstOf([a, b]) == if a.0 then Some(a.1) else if b.0 then Some(b.1) else None
  {
    assert [a, b][1..] == [b] && [b][1..] == [];
  }

  lemma FirstOfThree(a: (bool, Verdict), b: (bool, Verdict), c: (bool, Verdict))
    ensures FirstOf([a, b, c]) == if a.0 then Some(a.1) else if b.0 then Some(b.1) else if c.0 then Some(c.1) else None
  {
    FirstOfTwo(b, c);
    assert [a, b, c][1..] == [b, c];
  }

  lemma BoardAnswers(t: Task)
    ensures FirstOf(BoardRefusals(t)) == match QueueEntryRefusal(t) case Some(why) => Some(Blocked(why)) case None => None
  {
    var list := BoardRefusals(t);
    FirstOfTwo(list[0], list[1]);
    FirstOfTwo(list[2], list[3]);
    assert list == [list[0], list[1]] + [list[2], list[3]];
    FirstOfBoth([list[0], list[1]], [list[2], list[3]]);
  }

  lemma PlaceAnswers(t: Task, project: Id, seenIn: Status)
    ensures FirstOf(PlaceRefusals(t, project, seenIn)) ==
      if t.project != project then Some(OtherProject)
      else if t.status.Queue? then Some(AlreadyQueued(t.title))
      else if t.status != seenIn then Some(MovedOn(t.status)) else None
  {
    var list := PlaceRefusals(t, project, seenIn);
    FirstOfThree(list[0], list[1], list[2]);
  }

  lemma ApprovalAnswers(h: Digest, t: Task, a: Approval)
    ensures FirstOf(ApprovalRefusals(h, t, a)) == ApprovalCheck(h, t, a)
  {
    var list := ApprovalRefusals(h, t, a);
    AwaitsIsUnsettled(t);
    FirstOfThree(list[0], list[1], list[2]);
    FirstOfThree(list[3], list[4], list[5]);
    assert list == [list[0], list[1], list[2]] + [list[3], list[4], list[5]];
    FirstOfBoth([list[0], list[1], list[2]], [list[3], list[4], list[5]]);
  }

  /** Every entry is answered with the first refusal of the list that stands, and
      admitted when none does. */
  lemma FirstRefusalAnswers(h: Digest, t: Task, project: Id, seenIn: Status, approval: Option<Approval>)
    ensures QueueEntryCheck(h, t, project, seenIn, approval) == FirstOf(Refusals(h, t, project, seenIn, approval))
  {
    var place, board := PlaceRefusals(t, project, seenIn), BoardRefusals(t);
    var middle := if approval.None? then [] else ApprovalRefusals(h, t, approval.value);
    FirstOfBoth(place + middle, board);
    FirstOfBoth(place, middle);
    PlaceAnswers(t, project, seenIn);
    BoardAnswers(t);
    if approval.Some? {
      ApprovalAnswers(h, t, approval.value);
    }
  }

  /** A Task that is not on the staged board is missing, whatever else is asked. */
  lemma AbsentIsMissing(
    h: Digest, staged: Board, project: Id, task: Id, seenIn: Status, approval: Option<Approval>, now: Time, keys: seq<Id>)
    ensures task !in staged ==> EnqueueStaged(h, staged, project, task, seenIn, approval, now, keys) == (Missing, staged)
  {
  }

  /** What stands in the way before anyone's run is ended: the review a person is
      waiting to make, unless they ask themselves; and for a Task not yet queued the
      refusals every entry meets. */
  lemma StandingSays(t: Task, refuseHumanReview: bool)
    ensures match StandingRefusal(t, refuseHumanReview)
      case Some(AwaitingHumanReview) => refuseHumanReview && t.status.HumanReview?
      case Some(why) =>
        && !(refuseHumanReview && t.status.HumanReview?) && !t.status.Queue?
        && FirstOf(BoardRefusals(t)) == Some(Blocked(why))
      case None => !(refuseHumanReview && t.status.HumanReview?) && (t.status.Queue? || FirstOf(BoardRefusals(t)).None?)
  {
    BoardAnswers(t);
  }
}
