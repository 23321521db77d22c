/** `terminalize_leased` and `delete` as uninterrupted calls: what they answer
    and what they leave on the board. `Cleanup` interleaves and crashes them. */
module Terminalization {
  import opened Durability
  import opened Tasks
  import opened Boards
  import opened Lifecycle
  import C = Cleanup

  datatype Refusal =
    | TaskNotFound
    | RestackRefusal
    | WorkerRecoveryRefusal
    | IntegrationRefusal
    | ExecutionActive
    | Quarantined
    | RepositoryUnresolved
    | CleanupRefused
    | NotRecorded(save: Save)
    | DeleteBlockedByIntegration

  /** One request, with the answers of the executor, the repository lookup, git
      and the two saves. `removal` says what git answers if it is asked. */
  datatype Ask = Ask(
    project: Id, task: Id, origin: Origin, request: Request, running: bool, repository: bool, removal: Outcome,
    stampSave: Save, commitSave: Save, now: Time)

  /** The refusals decided before anything is written, in the code's order. */
  function EarlyRefusal(t: Task, a: Ask): Option<Refusal> {
    if t.restackPending then Some(RestackRefusal)
    else if WorkerRecoveryPending(t) then Some(WorkerRecoveryRefusal)
    else if IntegrationUnfinished(t) then Some(IntegrationRefusal)
    else if a.running then Some(ExecutionActive)
    else if t.cleanupInFlight && a.origin.Automatic? then Some(Quarantined)
    else if t.worktree.Some? && !a.repository then Some(RepositoryUnresolved)
    else None
  }

  function Settle(s: Store, a: Ask, outcome: Outcome): (Store, Result<Task, Refusal>) {
    var op := CommitOp(a.project, a.task, outcome, a.request, a.now, a.commitSave);
    match Plan(s, op)
    case Replace(_, staged, save) =>
      (Step(s, op),
       if !save.Confirmed? then Err(NotRecorded(save))
       else if outcome.Kept? then Err(CleanupRefused)
       else if a.task in staged then Ok(staged[a.task]) else Err(TaskNotFound))
    case _ => (s, Err(TaskNotFound))
  }

  /** The last write, seen from what it stages. */
  lemma SettleStep(s: Store, a: Ask, outcome: Outcome)
    ensures var staged := CommitStaged(Stage(s.tasks, a.project), a.task, outcome, a.request, a.now);
      Settle(s, a, outcome) ==
        if staged.None? then (s, Err(TaskNotFound))
        else (Perform(s, Replace(a.project, staged.value, a.commitSave)),
              if !a.commitSave.Confirmed? then Err(NotRecorded(a.commitSave))
              else if outcome.Kept? then Err(CleanupRefused)
              else if a.task in staged.value then Ok(staged.value[a.task]) else Err(TaskNotFound))
  {
  }

  function Terminalize(s: Store, a: Ask): (Store, Result<Task, Refusal>) {
    if a.task !in s.tasks then (s, Err(TaskNotFound))
    else
      var refused := EarlyRefusal(s.tasks[a.task], a);
      if refused.Some? then (s, Err(refused.value))
      else if s.tasks[a.task].worktree.None? then Settle(s, a, Cleaned)
      else
        var stamp := StampOp(a.project, a.task, a.request, a.stampSave);
        if Plan(s, stamp).Nothing? || !a.stampSave.Confirmed? then (Step(s, stamp), Err(NotRecorded(a.stampSave)))
        else Settle(Step(s, stamp), a, a.removal)
  }

  function DeletionRefusal(t: Task): Option<Refusal> {
    if t.integrationPending then Some(DeleteBlockedByIntegration)
    else if t.restackPending then Some(RestackRefusal)
    else None
  }

  /** `delete`: the cleanup first, then one write without the record. */
  function Delete(s: Store, a: Ask, deleteSave: Save): (Store, Result<bool, Refusal>) {
    if a.task !in s.tasks then (s, Ok(false))
    else if DeletionRefusal(s.tasks[a.task]).Some? then (s, Err(DeletionRefusal(s.tasks[a.task]).value))
    else
      var plain := a.(origin := User, request := Request(s.tasks[a.task].status, Unchanged(), Unchanged()));
      var (cleaned, answer) := Terminalize(s, plain);
      DropFinished(cleaned, a, answer, deleteSave)
  }

  function DropFinished(cleaned: Store, a: Ask, answer: Result<Task, Refusal>, save: Save): (Store, Result<bool, Refusal>) {
    match answer
    case Err(TaskNotFound) => (cleaned, Ok(false))
    case Err(refusal) => (cleaned, Err(refusal))
    case Ok(_) =>
      var op := DeleteOp(a.project, a.task, save);
      if Plan(cleaned, op).Nothing? then (cleaned, Ok(false))
      else if save.Confirmed? then (Step(cleaned, op), Ok(true))
      else (Step(cleaned, op), Err(NotRecorded(save)))
  }

  /** What no refusal may change about a Task. */
  ghost predicate SameWork(before: Task, after: Task) {
    after.status == before.status && after.branch == before.branch && after.worktree == before.worktree
  }

  /** The request carries no amendment of its caller's. */
  ghost predicate Plain(s: Store, a: Ask) {
    && a.task in s.tasks && s.tasks[a.task].project == a.project
    && a.request.record == Unchanged() && a.request.success == Unchanged()
  }

  lemma SettleFacts(s: Store, a: Ask, outcome: Outcome)
    requires Plain(s, a)
    ensures var (after, answer) := Settle(s, a, outcome);
      var concluded := Concluded(s.tasks[a.task], outcome, a.request.desired, a.now);
      && answer == (if !a.commitSave.Confirmed? then Err(NotRecorded(a.commitSave))
                    else if outcome.Kept? then Err(CleanupRefused) else Ok(concluded))
      && after.tasks == (if Published(a.commitSave) then s.tasks[a.task := concluded] else s.tasks)
      && (a.commitSave.Confirmed? ==>
            && FileOf(after, a.project).visible == Stage(s.tasks, a.project)[a.task := concluded]
            && FileOf(after, a.project).possible == {FileOf(after, a.project).visible})
  {
    var staged := Stage(s.tasks, a.project);
    assert a.task in staged;
    var concluded := Concluded(s.tasks[a.task], outcome, a.request.desired, a.now);
    assert s.tasks + staged[a.task := concluded] == s.tasks[a.task := concluded];
  }

  lemma StampFacts(s: Store, a: Ask)
    requires Plain(s, a)
    ensures var stamp := StampOp(a.project, a.task, a.request, a.stampSave);
      && Plan(s, stamp).Replace?
      && Step(s, stamp).tasks ==
           if Published(a.stampSave) then s.tasks[a.task := s.tasks[a.task].(cleanupInFlight := true)] else s.tasks
  {
    var staged := Stage(s.tasks, a.project);
    assert a.task in staged;
    assert s.tasks + Flagged(staged, a.task) == s.tasks[a.task := s.tasks[a.task].(cleanupInFlight := true)];
  }

  /** What git answered, or `Cleaned` where there was nothing to ask it. */
  function OutcomeOf(t: Task, a: Ask): Outcome {
    if t.worktree.None? then Cleaned else a.removal
  }

  /** A terminalization touches one Task only, and either refuses early, stops
      at its stamp, or settles with what git answered. */
  ghost predicate Terminalized(s: Store, a: Ask, after: Store, answer: Result<Task, Refusal>)
    requires a.task in s.tasks
  {
    var t := s.tasks[a.task];
    if EarlyRefusal(t, a).Some? then after == s && answer == Err(EarlyRefusal(t, a).value)
    else if t.worktree.Some? && !a.stampSave.Confirmed? then
      && answer == Err(NotRecorded(a.stampSave))
      && after.tasks == if Published(a.stampSave) then s.tasks[a.task := t.(cleanupInFlight := true)] else s.tasks
    else SettledAs(s, a, t, Concluded(t, OutcomeOf(t, a), a.request.desired, a.now), after, answer)
  }

  ghost predicate SettledAs(s: Store, a: Ask, t: Task, concluded: Task, after: Store, answer: Result<Task, Refusal>) {
    && answer == (if !a.commitSave.Confirmed? then Err(NotRecorded(a.commitSave))
                  else if OutcomeOf(t, a).Kept? then Err(CleanupRefused) else Ok(concluded))
    && after.tasks == (if Published(a.commitSave) then s.tasks[a.task := concluded]
                       else if t.worktree.Some? then s.tasks[a.task := t.(cleanupInFlight := true)] else s.tasks)
    && (a.commitSave.Confirmed? ==>
          && a.task in FileOf(after, a.project).visible && FileOf(after, a.project).visible[a.task] == concluded
          && FileOf(after, a.project).possible == {FileOf(after, a.project).visible})
  }

  /** The stamp got through and git was asked. */
  lemma StampedSettles(s: Store, a: Ask)
    requires Plain(s, a) && s.tasks[a.task].worktree.Some? && a.stampSave.Confirmed?
    ensures var t := s.tasks[a.task];
      var (after, answer) := Settle(Step(s, StampOp(a.project, a.task, a.request, a.stampSave)), a, a.removal);
      SettledAs(s, a, t, Concluded(t, a.removal, a.request.desired, a.now), after, answer)
  {
    var t := s.tasks[a.task];
    StampFacts(s, a);
    var stamped := Step(s, StampOp(a.project, a.task, a.request, a.stampSave));
    SettleFacts(stamped, a, a.removal);
    ConcludedIgnoresFlag(t, a.removal, a.request.desired, a.now);
    var concluded := Concluded(t, a.removal, a.request.desired, a.now);
    assert s.tasks[a.task := t.(cleanupInFlight := true)][a.task := concluded] == s.tasks[a.task := concluded];
  }

  lemma TerminalizeFacts(s: Store, a: Ask)
    requires Plain(s, a)
    ensures Terminalized(s, a, Terminalize(s, a).0, Terminalize(s, a).1)
  {
    var t := s.tasks[a.task];
    if EarlyRefusal(t, a).None? {
      if t.worktree.None? {
        SettleFacts(s, a, Cleaned);
      } else {
        StampFacts(s, a);
        if a.stampSave.Confirmed? {
          StampedSettles(s, a);
        }
      }
    }
  }

  lemma FlagKeepsWork(t: Task)
    ensures SameWork(t, t.(cleanupInFlight := true))
  {
  }

  lemma KeptKeepsWork(t: Task, kept: Outcome, desired: Status, now: Time)
    ensures kept.Kept? ==> SameWork(t, Concluded(t, kept, desired, now))
  {
  }

  /** The one refusal of a Task that is finished: nothing was left of its
      checkout, and the write that says so is in place but not confirmed. */
  predicate FinishedUnconfirmed(t: Task, a: Ask) {
    && EarlyRefusal(t, a).None? && a.commitSave.PublishedNotDurable?
    && (t.worktree.Some? ==> a.stampSave.Confirmed? && a.removal.Cleaned?)
  }

  lemma PlainRefusalKeepsWork(s: Store, a: Ask, after: Store, answer: Result<Task, Refusal>)
    requires Plain(s, a) && Terminalized(s, a, after, answer) && answer.Err?
    ensures a.task in after.tasks
    ensures !FinishedUnconfirmed(s.tasks[a.task], a) ==> SameWork(s.tasks[a.task], after.tasks[a.task])
    ensures FinishedUnconfirmed(s.tasks[a.task], a) ==>
      && answer == Err(NotRecorded(PublishedNotDurable))
      && after.tasks[a.task] == Concluded(s.tasks[a.task], Cleaned, a.request.desired, a.now)
  {
    var t := s.tasks[a.task];
    FlagKeepsWork(t);
    if OutcomeOf(t, a).Kept? { KeptKeepsWork(t, OutcomeOf(t, a), a.request.desired, a.now); }
  }

  // -------------------------------------------- requests with amendments

  /** The Task the request is about is in the Project it names. */
  predicate OnBoard(s: Store, a: Ask) {
    a.task in s.tasks && s.tasks[a.task].project == a.project
  }

  /** Amendments that leave every checkout and flag alone and move no Task to
      another Project, as those of SlashIt's own finishes do. */
  ghost predicate Gentle(r: Request) {
    forall b: Board ::
      C.Respects(b, r.record(b)) && C.Respects(b, r.success(b)) && KeepsProjects(b, r.record(b))
  }

  ghost predicate KeepsProjects(b: Board, r: Board) {
    forall id :: id in b && id in r ==> r[id].project == b[id].project
  }

  /** The record amendment leaves status, branch and path of every Task alone. */
  ghost predicate RecordKeepsWork(r: Request) {
    forall b: Board, id :: id in b && id in r.record(b) ==> SameWork(b[id], r.record(b)[id])
  }

  /** The amendment of a success leaves every status alone. */
  ghost predicate SuccessKeepsStatus(r: Request) {
    forall b: Board, id :: id in b && id in r.success(b) ==> r.success(b)[id].status == b[id].status
  }

  lemma GentleAmends(b: Board, task: Id, outcome: Outcome, request: Request, now: Time)
    requires Gentle(request)
    ensures C.Amends(b, task, outcome, request, now)
  {
  }

  lemma UnchangedIsGentle(desired: Status)
    ensures var r := Request(desired, Unchanged(), Unchanged()); Gentle(r) && RecordKeepsWork(r) && SuccessKeepsStatus(r)
  {
  }

  /** What the finish of a merged pull request adds: the Task is complete. */
  function MarkComplete(task: Id): Amend {
    (b: Board) => if task in b then b[task := b[task].(progress := 100, phase := Complete)] else b
  }

  /** The record of a merge touches the pull request references alone, which the
      Task of this model does not carry. */
  lemma MergedFinishIsGentle(task: Id)
    ensures var r := Request(Done, Unchanged(), MarkComplete(task)); Gentle(r) && RecordKeepsWork(r) && SuccessKeepsStatus(r)
  {
  }

  /** `r` is what the last write stages, and the answer goes with it. */
  ghost predicate EndedAs(base: Store, a: Ask, outcome: Outcome, r: Board, after: Store, answer: Result<Task, Refusal>)
    requires OnBoard(base, a)
  {
    && C.EndsOne(Stage(base.tasks, a.project), r, a.task, outcome)
    && answer == (if !a.commitSave.Confirmed? then Err(NotRecorded(a.commitSave))
                  else if outcome.Kept? then Err(CleanupRefused) else Ok(r[a.task]))
    && after.tasks == (if Published(a.commitSave) then base.tasks + r else base.tasks)
    && (a.commitSave.Confirmed? ==> FileOf(after, a.project).possible == {r})
  }

  lemma ReplaceFacts(s: Store, project: Id, r: Board, save: Save)
    ensures var after := Perform(s, Replace(project, r, save));
      && after.tasks == (if Published(save) then s.tasks + r else s.tasks)
      && (save.Confirmed? ==> FileOf(after, project).possible == {r})
  {
  }

  lemma SettleEnds(base: Store, a: Ask, outcome: Outcome)
    requires OnBoard(base, a) && Gentle(a.request)
    ensures var r := C.Committed(Stage(base.tasks, a.project), a.task, outcome, a.request, a.now);
      EndedAs(base, a, outcome, r, Settle(base, a, outcome).0, Settle(base, a, outcome).1)
  {
    var staged := Stage(base.tasks, a.project);
    assert a.task in staged;
    var r := C.Committed(staged, a.task, outcome, a.request, a.now);
    GentleAmends(staged, a.task, outcome, a.request, a.now);
    C.CommittedFacts(staged, a.task, outcome, a.request, a.now);
    CommitIsStaged(staged, a.task, outcome, a.request, a.now);
    SettleStep(base, a, outcome);
    ReplaceFacts(base, a.project, r, a.commitSave);
  }

  lemma CommitIsStaged(b: Board, task: Id, outcome: Outcome, request: Request, now: Time)
    requires task in b && Gentle(request)
    ensures CommitStaged(b, task, outcome, request, now) == Some(C.Committed(b, task, outcome, request, now))
  {
    GentleAmends(b, task, outcome, request, now);
    assert task in request.record(b);
    var c := C.Settled(request.record(b), task, outcome, request, now);
    assert C.Respects(c, request.success(c));
  }

  /** The Task after the stamp that announces the removal. */
  lemma StampAnnounces(s: Store, a: Ask)
    requires OnBoard(s, a) && Gentle(a.request)
    ensures var stamp := StampOp(a.project, a.task, a.request, a.stampSave); var after := Step(s, stamp);
      && Plan(s, stamp).Replace? && OnBoard(after, a)
      && after.tasks[a.task].worktree == s.tasks[a.task].worktree
      && (RecordKeepsWork(a.request) ==> SameWork(s.tasks[a.task], after.tasks[a.task]))
  {
    var staged := Stage(s.tasks, a.project);
    assert a.task in staged && C.Respects(staged, a.request.record(staged)) && KeepsProjects(staged, a.request.record(staged));
    FlagKeepsWork(a.request.record(staged)[a.task]);
  }

  /** The store git's answer, or the lack of a checkout, is settled on. */
  function SettledOn(s: Store, a: Ask): Store
    requires a.task in s.tasks
  {
    if s.tasks[a.task].worktree.None? then s else Step(s, StampOp(a.project, a.task, a.request, a.stampSave))
  }

  /** A terminalization that neither refuses early nor stops at its stamp. */
  predicate Settles(t: Task, a: Ask) {
    EarlyRefusal(t, a).None? && (t.worktree.Some? ==> a.stampSave.Confirmed?)
  }

  /** Whatever is amended, a terminalization that gets past its refusals and its
      stamp settles the Task, and no other is at risk: it ends as `EndsOne` says. */
  lemma AmendedFacts(s: Store, a: Ask)
    requires OnBoard(s, a) && Gentle(a.request) && Settles(s.tasks[a.task], a)
    ensures var (after, answer) := Terminalize(s, a); var base := SettledOn(s, a); var outcome := OutcomeOf(s.tasks[a.task], a);
      && OnBoard(base, a) && base.tasks[a.task].worktree == s.tasks[a.task].worktree
      && EndedAs(base, a, outcome, C.Committed(Stage(base.tasks, a.project), a.task, outcome, a.request, a.now), after, answer)
  {
    if s.tasks[a.task].worktree.Some? { StampAnnounces(s, a); }
    SettleEnds(SettledOn(s, a), a, OutcomeOf(s.tasks[a.task], a));
  }

  lemma EndedStatus(b: Board, task: Id, request: Request, now: Time)
    requires task in b && Gentle(request) && SuccessKeepsStatus(request)
    ensures task in C.Committed(b, task, Cleaned, request, now)
    ensures C.Committed(b, task, Cleaned, request, now)[task].status == request.desired
  {
    CommitIsStaged(b, task, Cleaned, request, now);
    var recorded := request.record(b);
    var c := recorded[task := Concluded(recorded[task], Cleaned, request.desired, now)];
    assert c[task].status == request.desired && task in request.success(c);
  }

  lemma EndedWell(base: Store, a: Ask, outcome: Outcome, r: Board, after: Store, answer: Result<Task, Refusal>)
    requires OnBoard(base, a) && EndedAs(base, a, outcome, r, after, answer) && answer.Ok?
    ensures outcome.Cleaned? && answer.value == r[a.task] && answer.value.worktree.None? && !answer.value.cleanupInFlight
    ensures a.task in after.tasks && after.tasks[a.task] == answer.value
    ensures forall b :: b in FileOf(after, a.project).possible ==> a.task in b && b[a.task] == answer.value
  {
  }

  /** A finished Task names no checkout and carries no flag, on the board and in
      every version of the file a power loss may leave, whatever its caller's
      amendments record. It is finished only after git removed the checkout, or
      because it had none. */
  lemma FinishedHasNoCheckout(s: Store, a: Ask)
    requires OnBoard(s, a) && Gentle(a.request) && Terminalize(s, a).1.Ok?
    ensures var (after, answer) := Terminalize(s, a);
      && answer.value.worktree == None && !answer.value.cleanupInFlight
      && a.task in after.tasks && after.tasks[a.task] == answer.value
      && (forall b :: b in FileOf(after, a.project).possible ==> a.task in b && b[a.task] == answer.value)
      && (s.tasks[a.task].worktree.Some? ==> a.removal.Cleaned?)
      && (SuccessKeepsStatus(a.request) ==> answer.value.status == a.request.desired)
  {
    var (after, answer) := Terminalize(s, a);
    var base := SettledOn(s, a);
    var staged, outcome := Stage(base.tasks, a.project), OutcomeOf(s.tasks[a.task], a);
    AmendedFacts(s, a);
    EndedWell(base, a, outcome, C.Committed(staged, a.task, outcome, a.request, a.now), after, answer);
    if SuccessKeepsStatus(a.request) {
      EndedStatus(staged, a.task, a.request, a.now);
    }
  }

  lemma KeptEnd(b: Board, task: Id, kept: Outcome, request: Request, now: Time)
    requires task in b && Gentle(request) && RecordKeepsWork(request) && kept.Kept?
    ensures task in C.Committed(b, task, kept, request, now) && SameWork(b[task], C.Committed(b, task, kept, request, now)[task])
  {
    CommitIsStaged(b, task, kept, request, now);
    assert task in request.record(b) && SameWork(b[task], request.record(b)[task]);
    KeptKeepsWork(request.record(b)[task], kept, request.desired, now);
  }

  /** Every refusal leaves the Task's worktree path as found, and its status and
      branch unless the record amendment itself sets them; except exactly the
      unconfirmed finish, which leaves the Task finished. */
  lemma RefusalKeepsWork(s: Store, a: Ask)
    requires OnBoard(s, a) && Gentle(a.request) && Terminalize(s, a).1.Err?
    ensures var (after, answer) := Terminalize(s, a); var t := s.tasks[a.task];
      && a.task in after.tasks
      && if FinishedUnconfirmed(t, a) then
           && answer == Err(NotRecorded(PublishedNotDurable))
           && after.tasks[a.task].worktree.None? && !after.tasks[a.task].cleanupInFlight
           && (SuccessKeepsStatus(a.request) ==> after.tasks[a.task].status == a.request.desired)
           && (Plain(s, a) ==> after.tasks[a.task] == Concluded(t, Cleaned, a.request.desired, a.now))
         else
           && after.tasks[a.task].worktree == t.worktree
           && (RecordKeepsWork(a.request) ==> SameWork(t, after.tasks[a.task]))
  {
    var (after, answer) := Terminalize(s, a);
    var t := s.tasks[a.task];
    if Settles(t, a) {
      SettledRefusal(s, a);
    } else if EarlyRefusal(t, a).None? {
      StampAnnounces(s, a);
    }
    if Plain(s, a) {
      TerminalizeFacts(s, a);
      PlainRefusalKeepsWork(s, a, after, answer);
    }
  }

  /** What a refusal leaves of the Task, in the terms `RefusalKeepsWork` uses. */
  ghost predicate LeftByRefusal(t: Task, a: Ask, answer: Result<Task, Refusal>, r: Task) {
    if FinishedUnconfirmed(t, a) then
      && answer == Err(NotRecorded(PublishedNotDurable)) && r.worktree.None? && !r.cleanupInFlight
      && (SuccessKeepsStatus(a.request) ==> r.status == a.request.desired)
    else r.worktree == t.worktree && (RecordKeepsWork(a.request) ==> SameWork(t, r))
  }

  /** What the stamp and the last write leave alone of the Task's work. */
  ghost predicate WorkIsKept(t: Task, a: Ask, stamped: Task, ended: Task, outcome: Outcome) {
    && stamped.worktree == t.worktree
    && (RecordKeepsWork(a.request) ==> SameWork(t, stamped))
    && (outcome.Cleaned? && SuccessKeepsStatus(a.request) ==> ended.status == a.request.desired)
    && (outcome.Kept? && RecordKeepsWork(a.request) ==> SameWork(stamped, ended))
  }

  lemma SettledWorkIsKept(s: Store, a: Ask)
    requires OnBoard(s, a) && Gentle(a.request) && Settles(s.tasks[a.task], a)
    ensures var base := SettledOn(s, a); var outcome := OutcomeOf(s.tasks[a.task], a);
      var r := C.Committed(Stage(base.tasks, a.project), a.task, outcome, a.request, a.now);
      OnBoard(base, a) && a.task in r && WorkIsKept(s.tasks[a.task], a, base.tasks[a.task], r[a.task], outcome)
  {
    var base, outcome := SettledOn(s, a), OutcomeOf(s.tasks[a.task], a);
    AmendedFacts(s, a);
    var staged := Stage(base.tasks, a.project);
    assert a.task in staged;
    if outcome.Cleaned? && SuccessKeepsStatus(a.request) { EndedStatus(staged, a.task, a.request, a.now); }
    if outcome.Kept? && RecordKeepsWork(a.request) { KeptEnd(staged, a.task, outcome, a.request, a.now); }
    if s.tasks[a.task].worktree.Some? { StampAnnounces(s, a); }
  }

  lemma EndedRefusal(t: Task, a: Ask, base: Store, r: Board, after: Store, answer: Result<Task, Refusal>)
    requires OnBoard(base, a) && Settles(t, a) && answer.Err? && a.task in r
    requires WorkIsKept(t, a, base.tasks[a.task], r[a.task], OutcomeOf(t, a))
    requires EndedAs(base, a, OutcomeOf(t, a), r, after, answer)
    ensures a.task in after.tasks && LeftByRefusal(t, a, answer, after.tasks[a.task])
  {
  }

  lemma SettledRefusal(s: Store, a: Ask)
    requires OnBoard(s, a) && Gentle(a.request)
    ensures var (after, answer) := Terminalize(s, a);
      Settles(s.tasks[a.task], a) && answer.Err? ==>
        a.task in after.tasks && LeftByRefusal(s.tasks[a.task], a, answer, after.tasks[a.task])
  {
    var t := s.tasks[a.task];
    var (after, answer) := Terminalize(s, a);
    if Settles(t, a) && answer.Err? {
      AmendedFacts(s, a);
      SettledWorkIsKept(s, a);
      var base := SettledOn(s, a);
      EndedRefusal(t, a, base, C.Committed(Stage(base.tasks, a.project), a.task, OutcomeOf(t, a), a.request, a.now), after, answer);
    }
  }

  // ------------------------------------------------ what is written, field by field

  /** A finish of SlashIt's own: it records nothing beside the end, and at most
      marks the Task complete. */
  ghost predicate OwnFinish(a: Ask, complete: bool) {
    a.request.record == Unchanged() && a.request.success == if complete then MarkComplete(a.task) else Unchanged()
  }

  predicate OnlyFlagged(t: Task, r: Task) {
    r.cleanupInFlight && r == t.(cleanupInFlight := r.cleanupInFlight)
  }

  /** The checkout is gone: the Task is in the column asked for, names no checkout,
      carries no flag and no error, and leaving its old column ended its binding,
      left one entry in the log and withdrew an approval taken back to work. */
  predicate EndedClean(t: Task, desired: Status, now: Time, complete: bool, r: Task) {
    && r.status == desired && r.worktree.None? && !r.cleanupInFlight && r.error.None?
    && (if t.status == desired then r.binding == t.binding && r.review == t.review && r.activity == t.activity
        else
          && r.binding.None?
          && r.activity == Record(t.activity, now, Moved(t.status, desired))
          && (if IsApproved(t) && t.status.HumanReview? && !desired.Done? && !desired.PrCreated? then r.review.None?
              else r.review == t.review))
    && (if complete then r.progress == 100 && r.phase == Complete else r.progress == t.progress && r.phase == t.phase)
    && r == t.(status := r.status, worktree := r.worktree, cleanupInFlight := r.cleanupInFlight, error := r.error,
               binding := r.binding, review := r.review, activity := r.activity, progress := r.progress, phase := r.phase)
  }

  /** Git kept the checkout: the Task says so, and is otherwise as it was. */
  predicate EndedKept(t: Task, path: Path, reason: string, lock: Option<Lock>, r: Task) {
    && !r.cleanupInFlight
    && r.error.Some? && r.error.value.said == WorktreeKept(path, reason) && r.error.value.lock == lock
    && r == t.(cleanupInFlight := r.cleanupInFlight, error := r.error)
  }

  predicate EndsAs(t: Task, outcome: Outcome, desired: Status, now: Time, complete: bool, r: Task) {
    match outcome
    case Cleaned => EndedClean(t, desired, now, complete, r)
    case Kept(path, reason, lock) => EndedKept(t, path, reason, lock, r)
  }

  /** What a terminalization that goes ahead makes of the Task. */
  predicate LeftBy(t: Task, a: Ask, complete: bool, r: Task) {
    if t.worktree.None? then
      if Published(a.commitSave) then EndedClean(t, a.request.desired, a.now, complete, r) else r == t
    else if a.stampSave.NotPublished? then r == t
    else if a.stampSave.PublishedNotDurable? || a.commitSave.NotPublished? then OnlyFlagged(t, r)
    else EndsAs(t, a.removal, a.request.desired, a.now, complete, r)
  }

  lemma CommitWrites(b: Board, a: Ask, outcome: Outcome, complete: bool) returns (r: Task)
    requires a.task in b && OwnFinish(a, complete)
    ensures CommitStaged(b, a.task, outcome, a.request, a.now) == Some(b[a.task := r])
    ensures EndsAs(b[a.task], outcome, a.request.desired, a.now, complete, r) && r.project == b[a.task].project
  {
    var t := b[a.task];
    var c := Concluded(t, outcome, a.request.desired, a.now);
    r := if complete && outcome.Cleaned? then c.(progress := 100, phase := Complete) else c;
    var concluded := b[a.task := c];
    assert concluded[a.task := r] == b[a.task := r];
    assert concluded[a.task] == c;
  }

  /** What the last write puts in memory and in the file. */
  ghost predicate WroteLast(base: Store, a: Ask, outcome: Outcome, r: Task, after: Store, answer: Result<Task, Refusal>) {
    var staged := Stage(base.tasks, a.project)[a.task := r];
    && after == (if Published(a.commitSave)
                 then Store(base.tasks[a.task := r], base.files[a.project := FileOf(base, a.project).Write(staged, a.commitSave)])
                 else base)
    && answer == (if !a.commitSave.Confirmed? then Err(NotRecorded(a.commitSave))
                  else if outcome.Kept? then Err(CleanupRefused) else Ok(r))
  }

  lemma SettleWrites(base: Store, a: Ask, outcome: Outcome, complete: bool) returns (r: Task)
    requires OnBoard(base, a) && OwnFinish(a, complete)
    ensures EndsAs(base.tasks[a.task], outcome, a.request.desired, a.now, complete, r)
    ensures WroteLast(base, a, outcome, r, Settle(base, a, outcome).0, Settle(base, a, outcome).1)
  {
    var staged := Stage(base.tasks, a.project);
    assert a.task in staged;
    r := CommitWrites(staged, a, outcome, complete);
    SettleStep(base, a, outcome);
    assert base.tasks + staged[a.task := r] == base.tasks[a.task := r];
  }

  lemma StampWrites(s: Store, a: Ask, complete: bool)
    requires OnBoard(s, a) && OwnFinish(a, complete)
    ensures var after := Step(s, StampOp(a.project, a.task, a.request, a.stampSave)); var t := s.tasks[a.task].(cleanupInFlight := true);
      after == if Published(a.stampSave)
               then Store(s.tasks[a.task := t],
                          s.files[a.project := FileOf(s, a.project).Write(Stage(s.tasks, a.project)[a.task := t], a.stampSave)])
               else s
    ensures Plan(s, StampOp(a.project, a.task, a.request, a.stampSave)).Replace?
  {
    var staged := Stage(s.tasks, a.project);
    assert a.task in staged;
    assert s.tasks + Flagged(staged, a.task) == s.tasks[a.task := s.tasks[a.task].(cleanupInFlight := true)];
  }

  /** What the caller of one that goes ahead is told: the save that failed, that
      git kept the checkout, or the Task as it ended. */
  predicate ToldOf(t: Task, a: Ask, r: Task, answer: Result<Task, Refusal>) {
    if t.worktree.Some? && !a.stampSave.Confirmed? then answer == Err(NotRecorded(a.stampSave))
    else if !a.commitSave.Confirmed? then answer == Err(NotRecorded(a.commitSave))
    else if t.worktree.Some? && a.removal.Kept? then answer == Err(CleanupRefused)
    else answer == Ok(r)
  }

  /** The Project's file holds what memory holds if anything was published. The
      versions before stay possible until a save is confirmed; over a checkout the
      last write leaves none but the flagged one. */
  ghost predicate FiledAs(b: Board, before: File<Board>, t: Task, a: Ask, r: Task, f: File<Board>) {
    var flagged, ended := b[a.task := t.(cleanupInFlight := true)], b[a.task := r];
    if t.worktree.None? then
      if a.commitSave.NotPublished? then f == before
      else f.visible == ended && f.possible == if a.commitSave.Confirmed? then {ended} else before.possible + {ended}
    else if a.stampSave.NotPublished? then f == before
    else if a.stampSave.PublishedNotDurable? then f.visible == flagged && f.possible == before.possible + {flagged}
    else f.visible == ended && f.possible == if a.commitSave.PublishedNotDurable? then {flagged, ended} else {ended}
  }

  /** The Task as its board, its file and the caller find it afterwards. */
  ghost predicate Wrote(s: Store, a: Ask, complete: bool, r: Task, after: Store, answer: Result<Task, Refusal>)
    requires OnBoard(s, a)
  {
    && after.tasks == s.tasks[a.task := r]
    && LeftBy(s.tasks[a.task], a, complete, r)
    && ToldOf(s.tasks[a.task], a, r, answer)
    && FiledAs(Stage(s.tasks, a.project), FileOf(s, a.project), s.tasks[a.task], a, r, FileOf(after, a.project))
    && after.files - {a.project} == s.files - {a.project}
  }

  lemma CleanWrites(s: Store, a: Ask, complete: bool) returns (r: Task)
    requires OnBoard(s, a) && OwnFinish(a, complete) && s.tasks[a.task].worktree.None?
    ensures Wrote(s, a, complete, r, Settle(s, a, Cleaned).0, Settle(s, a, Cleaned).1)
  {
    var ended := SettleWrites(s, a, Cleaned, complete);
    CleanIsWritten(s, a, complete, ended, Settle(s, a, Cleaned).0, Settle(s, a, Cleaned).1);
    r := if Published(a.commitSave) then ended else s.tasks[a.task];
  }

  lemma CleanIsWritten(s: Store, a: Ask, complete: bool, ended: Task, after: Store, answer: Result<Task, Refusal>)
    requires OnBoard(s, a) && s.tasks[a.task].worktree.None?
    requires EndedClean(s.tasks[a.task], a.request.desired, a.now, complete, ended)
    requires WroteLast(s, a, Cleaned, ended, after, answer)
    ensures Wrote(s, a, complete, if Published(a.commitSave) then ended else s.tasks[a.task], after, answer)
  {
    assert s.tasks[a.task := s.tasks[a.task]] == s.tasks;
  }

  lemma StampIsWritten(s: Store, a: Ask, complete: bool, flagged: Task, after: Store)
    requires OnBoard(s, a) && s.tasks[a.task].worktree.Some? && !a.stampSave.Confirmed?
    requires flagged == s.tasks[a.task].(cleanupInFlight := true)
    requires after ==
      if Published(a.stampSave)
      then Store(s.tasks[a.task := flagged],
                 s.files[a.project := FileOf(s, a.project).Write(Stage(s.tasks, a.project)[a.task := flagged], a.stampSave)])
      else s
    ensures Wrote(s, a, complete, if Published(a.stampSave) then flagged else s.tasks[a.task], after, Err(NotRecorded(a.stampSave)))
  {
    assert s.tasks[a.task := s.tasks[a.task]] == s.tasks;
  }

  lemma StampStops(s: Store, a: Ask, complete: bool) returns (r: Task)
    requires OnBoard(s, a) && OwnFinish(a, complete) && s.tasks[a.task].worktree.Some? && !a.stampSave.Confirmed?
    ensures Wrote(s, a, complete, r, Step(s, StampOp(a.project, a.task, a.request, a.stampSave)), Err(NotRecorded(a.stampSave)))
  {
    var flagged := s.tasks[a.task].(cleanupInFlight := true);
    StampWrites(s, a, complete);
    StampIsWritten(s, a, complete, flagged, Step(s, StampOp(a.project, a.task, a.request, a.stampSave)));
    r := if Published(a.stampSave) then flagged else s.tasks[a.task];
  }

  lemma EndsAsIgnoresFlag(t: Task, outcome: Outcome, desired: Status, now: Time, complete: bool, r: Task)
    requires EndsAs(t.(cleanupInFlight := true), outcome, desired, now, complete, r)
    ensures EndsAs(t, outcome, desired, now, complete, r)
  {
  }

  /** The store after a confirmed stamp. */
  function Announced(s: Store, a: Ask, flagged: Task): Store {
    Store(s.tasks[a.task := flagged],
          s.files[a.project := FileOf(s, a.project).Write(Stage(s.tasks, a.project)[a.task := flagged], Confirmed)])
  }

  lemma AnnouncedStage(s: Store, a: Ask, flagged: Task, r: Task)
    requires OnBoard(s, a) && flagged.project == a.project
    ensures var base := Announced(s, a, flagged);
      && Stage(base.tasks, a.project)[a.task := r] == Stage(s.tasks, a.project)[a.task := r]
      && base.tasks[a.task := r] == s.tasks[a.task := r]
      && FileOf(base, a.project).visible == Stage(s.tasks, a.project)[a.task := flagged]
      && FileOf(base, a.project).possible == {Stage(s.tasks, a.project)[a.task := flagged]}
      && base.files - {a.project} == s.files - {a.project}
  {
  }

  lemma RemovalIsWritten(s: Store, a: Ask, complete: bool, ended: Task, after: Store, answer: Result<Task, Refusal>)
    requires OnBoard(s, a) && s.tasks[a.task].worktree.Some? && a.stampSave.Confirmed?
    requires EndsAs(s.tasks[a.task], a.removal, a.request.desired, a.now, complete, ended)
    requires WroteLast(Announced(s, a, s.tasks[a.task].(cleanupInFlight := true)), a, a.removal, ended, after, answer)
    ensures Wrote(s, a, complete, if Published(a.commitSave) then ended else s.tasks[a.task].(cleanupInFlight := true), after, answer)
  {
    AnnouncedStage(s, a, s.tasks[a.task].(cleanupInFlight := true), ended);
  }

  lemma RemovalWrites(s: Store, a: Ask, complete: bool) returns (r: Task)
    requires OnBoard(s, a) && OwnFinish(a, complete) && s.tasks[a.task].worktree.Some? && a.stampSave.Confirmed?
    ensures var base := Step(s, StampOp(a.project, a.task, a.request, a.stampSave));
      Wrote(s, a, complete, r, Settle(base, a, a.removal).0, Settle(base, a, a.removal).1)
  {
    var t := s.tasks[a.task];
    var flagged := t.(cleanupInFlight := true);
    StampWrites(s, a, complete);
    var base := Announced(s, a, flagged);
    var ended := SettleWrites(base, a, a.removal, complete);
    EndsAsIgnoresFlag(t, a.removal, a.request.desired, a.now, complete, ended);
    RemovalIsWritten(s, a, complete, ended, Settle(base, a, a.removal).0, Settle(base, a, a.removal).1);
    r := if Published(a.commitSave) then ended else flagged;
  }

  /** Nothing is pending on the Task, nobody runs it, only a person touches a
      quarantined one, and a checkout has a repository to remove it from. */
  predicate GoesAhead(t: Task, a: Ask) {
    && !t.restackPending && !WorkerRecoveryPending(t) && !IntegrationUnfinished(t) && !a.running
    && (t.cleanupInFlight ==> a.origin.User?) && (t.worktree.Some? ==> a.repository)
  }

  /** The first refusal that stands, in the order they are checked. */
  predicate FirstRefusal(t: Task, a: Ask, refused: Refusal) {
    match refused
    case RestackRefusal => t.restackPending
    case WorkerRecoveryRefusal => WorkerRecoveryPending(t) && !t.restackPending
    case IntegrationRefusal => IntegrationUnfinished(t) && !t.restackPending && !WorkerRecoveryPending(t)
    case ExecutionActive => a.running && !t.restackPending && !WorkerRecoveryPending(t) && !IntegrationUnfinished(t)
    case Quarantined =>
      && t.cleanupInFlight && a.origin.Automatic?
      && !t.restackPending && !WorkerRecoveryPending(t) && !IntegrationUnfinished(t) && !a.running
    case RepositoryUnresolved =>
      && t.worktree.Some? && !a.repository
      && GoesAhead(t, a.(repository := true))
    case _ => false
  }

  lemma RefusedFirst(s: Store, a: Ask)
    requires OnBoard(s, a)
    ensures GoesAhead(s.tasks[a.task], a) <==> EarlyRefusal(s.tasks[a.task], a).None?
    ensures !GoesAhead(s.tasks[a.task], a) ==>
      Terminalize(s, a).0 == s && Terminalize(s, a).1.Err? && FirstRefusal(s.tasks[a.task], a, Terminalize(s, a).1.error)
  {
  }

  /** What every terminalization of SlashIt's own writes, for each answer of git,
      the executor and both saves: the Task field by field, every other Task as it
      was, the file and each version of it, and the answer. */
  lemma TerminalizeWrites(s: Store, a: Ask, complete: bool)
    requires OnBoard(s, a) && OwnFinish(a, complete)
    ensures var (after, answer) := Terminalize(s, a); var t := s.tasks[a.task];
      if GoesAhead(t, a) then a.task in after.tasks && Wrote(s, a, complete, after.tasks[a.task], after, answer)
      else after == s && answer.Err? && FirstRefusal(t, a, answer.error)
  {
    RefusedFirst(s, a);
    if GoesAhead(s.tasks[a.task], a) {
      if s.tasks[a.task].worktree.None? {
        var r := CleanWrites(s, a, complete);
      } else {
        StampWrites(s, a, complete);
        if a.stampSave.Confirmed? {
          var r := RemovalWrites(s, a, complete);
        } else {
          var r := StampStops(s, a, complete);
        }
      }
    }
  }

  function DeleteAsk(s: Store, a: Ask): Ask
    requires a.task in s.tasks
  {
    a.(origin := User, request := Request(s.tasks[a.task].status, Unchanged(), Unchanged()))
  }

  /** The write without the record. */
  lemma DropFacts(cleaned: Store, a: Ask, answer: Result<Task, Refusal>, save: Save)
    requires answer.Ok? && a.task in cleaned.tasks && cleaned.tasks[a.task].project == a.project
    ensures var (after, dropped) := DropFinished(cleaned, a, answer, save);
      && dropped == (if save.Confirmed? then Ok(true) else Err(NotRecorded(save)))
      && (if Published(save) then a.task !in after.tasks else after == cleaned)
      && (save.Confirmed? ==> forall b :: b in FileOf(after, a.project).possible ==> a.task !in b)
      && (forall other :: other in cleaned.tasks && other != a.task ==>
            other in after.tasks && after.tasks[other] == cleaned.tasks[other])
  {
    assert a.task in Stage(cleaned.tasks, a.project);
  }

  lemma ConcludedKeepsProject(t: Task, outcome: Outcome, desired: Status, now: Time)
    ensures Concluded(t, outcome, desired, now).project == t.project
  {
  }

  lemma TerminalizeTouchesOne(s: Store, a: Ask)
    requires Plain(s, a)
    ensures var after := Terminalize(s, a).0.tasks;
      && a.task in after && after[a.task].project == a.project
      && forall other :: other in s.tasks && other != a.task ==> other in after && after[other] == s.tasks[other]
    ensures Terminalize(s, a).1 != Err(TaskNotFound)
  {
    var t := s.tasks[a.task];
    TerminalizeFacts(s, a);
    ConcludedKeepsProject(t, OutcomeOf(t, a), a.request.desired, a.now);
  }

  /** A delete that answers `true` leaves no record in memory, in the file, or
      after a power loss, and git had removed the checkout or there was none. */
  lemma DeletedIsGone(s: Store, a: Ask, deleteSave: Save)
    requires a.task in s.tasks && s.tasks[a.task].project == a.project
    requires Delete(s, a, deleteSave).1 == Ok(true)
    ensures a.task !in Delete(s, a, deleteSave).0.tasks
    ensures forall b :: b in FileOf(Delete(s, a, deleteSave).0, a.project).possible ==> a.task !in b
    ensures s.tasks[a.task].worktree.Some? ==> a.removal.Cleaned?
  {
    var (cleaned, answer) := Terminalize(s, DeleteAsk(s, a));
    TerminalizeTouchesOne(s, DeleteAsk(s, a));
    UnchangedIsGentle(s.tasks[a.task].status);
    FinishedHasNoCheckout(s, DeleteAsk(s, a));
    DropFacts(cleaned, a, answer, deleteSave);
  }

  /** The Task as found, except that it stops naming a checkout git removed. */
  ghost predicate WorkKeptOrRemoved(before: Task, a: Ask, after: Task) {
    && after.status == before.status && after.branch == before.branch
    && (after.worktree == before.worktree ||
        (after.worktree.None? && before.worktree.Some? && a.stampSave.Confirmed? && a.removal.Cleaned?))
  }

  lemma FinishedWork(t: Task, a: Ask, now: Time)
    ensures (t.worktree.Some? ==> a.stampSave.Confirmed? && a.removal.Cleaned?) ==>
      WorkKeptOrRemoved(t, a, Concluded(t, Cleaned, t.status, now))
  {
  }

  lemma SettledWork(s: Store, a: Ask, after: Store, answer: Result<Task, Refusal>)
    requires Plain(s, a) && a.request.desired == s.tasks[a.task].status && Terminalized(s, a, after, answer)
    requires answer.Ok? || FinishedUnconfirmed(s.tasks[a.task], a)
    ensures a.task in after.tasks && WorkKeptOrRemoved(s.tasks[a.task], a, after.tasks[a.task])
  {
    FinishedWork(s.tasks[a.task], a, a.now);
  }

  /** What the cleanup of a delete leaves, whatever it answers. */
  lemma CleanupKeepsWork(s: Store, a: Ask)
    requires a.task in s.tasks && s.tasks[a.task].project == a.project
    ensures var (cleaned, answer) := Terminalize(s, DeleteAsk(s, a)); var t := s.tasks[a.task];
      a.task in cleaned.tasks && WorkKeptOrRemoved(t, a, cleaned.tasks[a.task])
  {
    var plain := DeleteAsk(s, a);
    var (cleaned, answer) := Terminalize(s, plain);
    TerminalizeFacts(s, plain);
    if answer.Ok? || FinishedUnconfirmed(s.tasks[a.task], plain) {
      SettledWork(s, plain, cleaned, answer);
    } else {
      PlainRefusalKeepsWork(s, plain, cleaned, answer);
    }
  }

  /** A delete that refuses keeps the Task and its work, but for a checkout git
      removed; the record is missing only after the last write, which is then in
      place but not confirmed. */
  lemma RefusedDeleteKeepsWork(s: Store, a: Ask, deleteSave: Save)
    requires a.task in s.tasks && s.tasks[a.task].project == a.project && Delete(s, a, deleteSave).1.Err?
    ensures var (after, answer) := Delete(s, a, deleteSave); var t := s.tasks[a.task];
      if a.task in after.tasks then WorkKeptOrRemoved(t, a, after.tasks[a.task])
      else
        && answer == Err(NotRecorded(PublishedNotDurable)) && deleteSave.PublishedNotDurable?
        && Terminalize(s, DeleteAsk(s, a)).1.Ok?
  {
    if DeletionRefusal(s.tasks[a.task]).None? {
      var (cleaned, answer) := Terminalize(s, DeleteAsk(s, a));
      CleanupKeepsWork(s, a);
      TerminalizeTouchesOne(s, DeleteAsk(s, a));
      if answer.Ok? {
        DropFacts(cleaned, a, answer, deleteSave);
      }
    }
  }

  /** A delete of a Task that is on the board never answers that there was none,
      and touches no other Task. */
  lemma DeleteTouchesNoSibling(s: Store, a: Ask, deleteSave: Save, other: Id)
    requires a.task in s.tasks && s.tasks[a.task].project == a.project
    requires other in s.tasks && other != a.task
    ensures Delete(s, a, deleteSave).1 != Ok(false)
    ensures other in Delete(s, a, deleteSave).0.tasks && Delete(s, a, deleteSave).0.tasks[other] == s.tasks[other]
  {
    if DeletionRefusal(s.tasks[a.task]).None? {
      var (cleaned, answer) := Terminalize(s, DeleteAsk(s, a));
      TerminalizeTouchesOne(s, DeleteAsk(s, a));
      if answer.Ok? {
        DropFacts(cleaned, a, answer, deleteSave);
      }
    }
  }

  /** Every answer of a delete. A pending integration or restack refuses it outright;
      otherwise the Task is finished in its own column, as a person would ask, and
      the record goes only after that succeeded. */
  lemma DeleteMeans(s: Store, a: Ask, deleteSave: Save)
    requires OnBoard(s, a)
    ensures var (after, answer) := Delete(s, a, deleteSave); var t := s.tasks[a.task];
      var finish := a.(origin := User, request := Request(t.status, Unchanged(), Unchanged()));
      var (cleaned, ended) := Terminalize(s, finish);
      if t.integrationPending then after == s && answer == Err(DeleteBlockedByIntegration)
      else if t.restackPending then after == s && answer == Err(RestackRefusal)
      else if ended.Err? then after == cleaned && answer == Err(ended.error)
      else if deleteSave.NotPublished? then after == cleaned && answer == Err(NotRecorded(deleteSave))
      else
        && after.tasks == s.tasks - {a.task}
        && FileOf(after, a.project).visible == Stage(s.tasks, a.project) - {a.task}
        && answer == if deleteSave.Confirmed? then Ok(true) else Err(NotRecorded(deleteSave))
    ensures var t := s.tasks[a.task]; OwnFinish(a.(origin := User, request := Request(t.status, Unchanged(), Unchanged())), false)
  {
    if DeletionRefusal(s.tasks[a.task]).None? {
      var (cleaned, ended) := Terminalize(s, DeleteAsk(s, a));
      TerminalizeTouchesOne(s, DeleteAsk(s, a));
      if ended.Ok? {
        TerminalizeWrites(s, DeleteAsk(s, a), false);
        DroppedFile(s, a, cleaned, deleteSave);
      }
    }
  }

  /** A Task that is not there is not found, and a delete has nothing to delete;
      neither has one whose Task vanished before its last write. */
  lemma AbsentIsNotFound(s: Store, a: Ask, deleteSave: Save, t: Task)
    requires a.task !in s.tasks
    ensures Terminalize(s, a) == (s, Err(TaskNotFound))
    ensures Delete(s, a, deleteSave) == (s, Ok(false))
    ensures DropFinished(s, a, Err(TaskNotFound), deleteSave) == (s, Ok(false)) == DropFinished(s, a, Ok(t), deleteSave)
  {
    assert a.task !in Stage(s.tasks, a.project);
  }

  lemma DroppedFile(s: Store, a: Ask, cleaned: Store, save: Save)
    requires OnBoard(s, a) && a.task in cleaned.tasks && cleaned.tasks == s.tasks[a.task := cleaned.tasks[a.task]]
    requires cleaned.tasks[a.task].project == a.project
    ensures var (after, answer) := DropFinished(cleaned, a, Ok(cleaned.tasks[a.task]), save);
      && answer == (if save.Confirmed? then Ok(true) else Err(NotRecorded(save)))
      && if save.NotPublished? then after == cleaned
         else
           && after.tasks == s.tasks - {a.task}
           && FileOf(after, a.project).visible == Stage(s.tasks, a.project) - {a.task}
  {
    assert a.task in Stage(cleaned.tasks, a.project);
    assert cleaned.tasks - {a.task} == s.tasks - {a.task};
    assert Stage(cleaned.tasks, a.project) - {a.task} == Stage(s.tasks, a.project) - {a.task};
  }
}
