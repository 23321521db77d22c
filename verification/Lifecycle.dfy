/** What each writer of `src-tauri/src/lifecycle.rs` stages, as a plan over the
    store, and what every sequence of writers keeps. `BoardStore` is the code
    that carries the plans out. */
module Lifecycle {
  import opened Durability
  import opened Tasks
  import opened Boards
  import opened Columns
  import opened QueueEntry

  // ---------------------------------------------------------- terminalization

  type Amend = Board -> Board

  /** `record` runs in every durable write, `success` only after a removal. */
  datatype Request = Request(desired: Status, record: Amend, success: Amend)

  datatype Outcome = Cleaned | Kept(path: Path, reason: string, lock: Option<Lock>)

  datatype Origin = User | Automatic

  function Unchanged(): Amend {
    (b: Board) => b
  }

  function Flagged(b: Board, task: Id): Board
    requires task in b
  {
    b[task := b[task].(cleanupInFlight := true)]
  }

  /** `stamp_cleanup_in_flight`: `None` when the Task vanished. */
  function StampStaged(b: Board, task: Id, record: Amend): Option<Board> {
    var recorded := record(b);
    if task in recorded then Some(Flagged(recorded, task)) else None
  }

  /** The Task a finished terminalization leaves. */
  function Concluded(t: Task, outcome: Outcome, desired: Status, now: Time): Task {
    match outcome
    case Cleaned =>
      RecordMove(t.(cleanupInFlight := false, status := desired), t.status, now).(worktree := None, error := None)
    case Kept(path, reason, lock) =>
      t.(cleanupInFlight := false,
         error := Some(Note(WorktreeKept(path, reason), lock)))
  }

  /** `commit`: the one durable write that ends a terminalization. */
  function CommitStaged(b: Board, task: Id, outcome: Outcome, request: Request, now: Time): Option<Board> {
    var recorded := request.record(b);
    if task !in recorded then None
    else
      var concluded := recorded[task := Concluded(recorded[task], outcome, request.desired, now)];
      var done := if outcome.Cleaned? then request.success(concluded) else concluded;
      if task in done then Some(done) else None
  }

  /** The record amendment runs in the stamp and again in the commit. When
      running it on its own flagged result changes nothing, the Task ends as if
      it had run once. */
  lemma RecordFirstTwice(b: Board, task: Id, outcome: Outcome, request: Request, now: Time)
    requires StampStaged(b, task, request.record).Some?
    requires var stamped := StampStaged(b, task, request.record).value; request.record(stamped) == stamped
    ensures CommitStaged(StampStaged(b, task, request.record).value, task, outcome, request, now)
         == CommitStaged(request.record(b), task, outcome, request.(record := Unchanged()), now)
  {
    var once := request.record(b);
    var stamped := Flagged(once, task);
    assert Concluded(stamped[task], outcome, request.desired, now) == Concluded(once[task], outcome, request.desired, now) by {
      ConcludedIgnoresFlag(once[task], outcome, request.desired, now);
    }
    assert stamped[task := Concluded(once[task], outcome, request.desired, now)]
        == once[task := Concluded(once[task], outcome, request.desired, now)];
  }

  lemma ConcludedIgnoresFlag(t: Task, outcome: Outcome, desired: Status, now: Time)
    ensures Concluded(t.(cleanupInFlight := true), outcome, desired, now) == Concluded(t, outcome, desired, now)
  {
    if outcome.Cleaned? {
      var flagged := t.(cleanupInFlight := true);
      assert flagged.(cleanupInFlight := false, status := desired) == t.(cleanupInFlight := false, status := desired);
    }
  }

  // ------------------------------------------------------------------ writers

  /** One call of a board writer, with the answer its save will get. The
      caller's closures are arbitrary functions. */
  datatype Op =
    | RecordOp(task: Id, amend: Amend, save: Save)
    | ReviseOp(task: Id, revise: Board -> Option<Board>, save: Save)
    | CreateOp(project: Id, projectPresent: bool, build: Board -> Option<Task>, save: Save)
    | BatchOp(project: Id, projectPresent: bool, arrivals: seq<Task>, save: Save)
    | SelectOp(select: Board -> Option<Id>, choose: (Board, Id) -> Board, save: Save)
    | EnqueueOp(
        h: Digest, project: Id, task: Id, seenIn: Status, approval: Option<Approval>, now: Time, keys: seq<Id>,
        save: Save)
    | StampOp(project: Id, task: Id, request: Request, save: Save)
    | CommitOp(project: Id, task: Id, outcome: Outcome, request: Request, now: Time, save: Save)
    | DeleteOp(project: Id, task: Id, save: Save)

  function Inserted(b: Board, arrivals: seq<Task>): Board
    decreases |arrivals|
  {
    if arrivals == [] then b else Inserted(b[arrivals[0].id := arrivals[0]], arrivals[1..])
  }

  /** What `op` publishes on `s`. */
  function Plan(s: Store, op: Op): Change {
    match op
    case RecordOp(task, amend, save) =>
      if task !in s.tasks then Nothing
      else var p := s.tasks[task].project; Replace(p, amend(Stage(s.tasks, p)), save)
    case ReviseOp(task, revise, save) =>
      if task !in s.tasks then Nothing
      else
        var p := s.tasks[task].project;
        (match revise(Stage(s.tasks, p))
         case None => Nothing
         case Some(staged) => Replace(p, staged, save))
    case CreateOp(project, projectPresent, build, save) =>
      if !projectPresent then Nothing
      else (match build(Stage(s.tasks, project))
            case None => Nothing
            case Some(t) => Replace(project, Stage(s.tasks, project)[t.id := t], save))
    case BatchOp(project, projectPresent, arrivals, save) =>
      if !projectPresent then Nothing else Replace(project, Inserted(Stage(s.tasks, project), arrivals), save)
    case SelectOp(select, choose, save) =>
      (match select(s.tasks)
       case None => Nothing
       case Some(task) =>
         if task !in s.tasks then Nothing
         else var p := s.tasks[task].project; Replace(p, choose(Stage(s.tasks, p), task), save))
    case EnqueueOp(h, project, task, seenIn, approval, now, keys, save) =>
      if task !in s.tasks then Nothing
      else
        var p := s.tasks[task].project;
        var (verdict, staged) := EnqueueStaged(h, Stage(s.tasks, p), project, task, seenIn, approval, now, keys);
        if verdict.Queued? then Replace(p, staged, save) else Nothing
    case StampOp(project, task, request, save) =>
      (match StampStaged(Stage(s.tasks, project), task, request.record)
       case None => Nothing
       case Some(staged) => Replace(project, staged, save))
    case CommitOp(project, task, outcome, request, now, save) =>
      (match CommitStaged(Stage(s.tasks, project), task, outcome, request, now)
       case None => Nothing
       case Some(staged) => Replace(project, staged, save))
    case DeleteOp(project, task, save) =>
      if task in Stage(s.tasks, project) then Remove(project, task, save) else Nothing
  }

  function Step(s: Store, op: Op): Store {
    Perform(s, Plan(s, op))
  }

  function Run(s: Store, ops: seq<Op>): Store
    decreases |ops|
  {
    if ops == [] then s else Run(Step(s, ops[0]), ops[1..])
  }

  /** Every change the run publishes is lawful when it is published. */
  ghost predicate LawfulRun(s: Store, ops: seq<Op>)
    decreases |ops|
  {
    ops == [] || (
      && (var c := Plan(s, ops[0]); c.Nothing? || c.save.NotPublished? || Lawful(s, c))
      && LawfulRun(Step(s, ops[0]), ops[1..]))
  }

  /** After every step of the run, memory holds what the files hold. */
  ghost predicate AgreesThroughout(s: Store, ops: seq<Op>)
    decreases |ops|
  {
    Agrees(s) && (ops == [] || AgreesThroughout(Step(s, ops[0]), ops[1..]))
  }

  /** A run from an agreeing store agrees throughout exactly when each
      published amendment drops no key and claims no other Project's Task. */
  lemma {:induction false} RunAgreesIffLawful(s: Store, ops: seq<Op>)
    requires Agrees(s)
    ensures AgreesThroughout(s, ops) <==> LawfulRun(s, ops)
    decreases |ops|
  {
    if ops != [] {
      AgreementIffLawful(s, Plan(s, ops[0]));
      if Agrees(Step(s, ops[0])) {
        RunAgreesIffLawful(Step(s, ops[0]), ops[1..]);
      }
    }
  }

  // ----------------------------------------------------- writers that are safe

  /** A writer whose own amendment is the whole change. */
  ghost predicate OwnWriter(s: Store, op: Op) {
    match op
    case EnqueueOp(_, _, task, _, _, _, keys, _) =>
      task in s.tasks ==> Enumerates(keys, Stage(s.tasks, s.tasks[task].project))
    case StampOp(_, _, request, _) => request.record == Unchanged()
    case CommitOp(_, _, _, request, _, _) => request.record == Unchanged() && request.success == Unchanged()
    case DeleteOp(_, _, _) => true
    case CreateOp(project, _, build, _) =>
      var t := build(Stage(s.tasks, project));
      t.Some? ==> t.value.project == project && (t.value.id in s.tasks ==> s.tasks[t.value.id].project == project)
    case _ => false
  }

  /** What a queue entry of a present Task does to the store. */
  lemma EnqueueStep(
    s: Store, h: Digest, project: Id, task: Id, seenIn: Status, approval: Option<Approval>, now: Time, keys: seq<Id>,
    save: Save)
    requires task in s.tasks
    ensures var p := s.tasks[task].project;
      var r := EnqueueStaged(h, Stage(s.tasks, p), project, task, seenIn, approval, now, keys);
      Step(s, EnqueueOp(h, project, task, seenIn, approval, now, keys, save))
        == if r.0.Queued? then Perform(s, Replace(p, r.1, save)) else s
  {
  }

  lemma EnqueuePlan(s: Store, op: Op)
    requires op.EnqueueOp? && OwnWriter(s, op)
    ensures Plan(s, op).Replace? ==>
      && op.task in s.tasks
      && var staged := Stage(s.tasks, s.tasks[op.task].project); var r := Plan(s, op).staged;
      && op.task in staged
      && r.Keys == staged.Keys
      && OnlyPositions(staged[op.task := Entered(staged[op.task], op.approval, op.now)], r, op.project, Queue)
      && staged[op.task].project == op.project == Plan(s, op).project
  {
    if Plan(s, op).Replace? {
      var staged := Stage(s.tasks, s.tasks[op.task].project);
      EnqueueLandsOnTop(op.h, staged, op.project, op.task, op.seenIn, op.approval, op.now, op.keys);
      AdmittedFacts(op.h, staged[op.task], op.project, op.seenIn, op.approval);
    }
  }

  lemma EnqueueIsLawful(s: Store, op: Op)
    requires op.EnqueueOp? && OwnWriter(s, op)
    ensures Lawful(s, Plan(s, op))
  {
    if Plan(s, op).Replace? {
      EnqueuePlan(s, op);
      var staged := Stage(s.tasks, op.project);
      var t := staged[op.task];
      var r := Plan(s, op).staged;
      assert Entered(t, op.approval, op.now).project == op.project;
      forall id | id in r ensures r[id].project == op.project && (id in s.tasks ==> s.tasks[id].project == op.project) {
        assert id in staged;
      }
    }
  }

  lemma CreateIsLawful(s: Store, op: Op)
    requires op.CreateOp? && OwnWriter(s, op)
    ensures Lawful(s, Plan(s, op))
  {
  }

  lemma StampIsLawful(s: Store, op: Op)
    requires op.StampOp? && OwnWriter(s, op)
    ensures Lawful(s, Plan(s, op))
  {
  }

  lemma CommitIsLawful(s: Store, op: Op)
    requires op.CommitOp? && OwnWriter(s, op)
    ensures Lawful(s, Plan(s, op))
  {
  }

  lemma OwnWritersAreLawful(s: Store, op: Op)
    requires OwnWriter(s, op)
    ensures Lawful(s, Plan(s, op))
  {
    match op
    case EnqueueOp(_, _, _, _, _, _, _, _) => EnqueueIsLawful(s, op);
    case StampOp(_, _, _, _) => StampIsLawful(s, op);
    case CommitOp(_, _, _, _, _, _) => CommitIsLawful(s, op);
    case CreateOp(_, _, _, _) => CreateIsLawful(s, op);
    case DeleteOp(_, _, _) =>
  }

  lemma OnlyPositionsOf(staged: Board, task: Id, t: Task, r: Board, project: Id, other: Id)
    requires OnlyPositions(staged[task := t], r, project, Queue) && other in staged && other != task
    ensures other in r
    ensures r[other] ==
      if InColumn(staged, project, Queue, other) then staged[other].(position := r[other].position) else staged[other]
  {
    assert InColumn(staged[task := t], project, Queue, other) <==> InColumn(staged, project, Queue, other);
  }

  lemma EnqueueKeepsSiblings(s: Store, op: Op, other: Id)
    requires op.EnqueueOp? && OwnWriter(s, op) && other in s.tasks && other != op.task
    ensures other in Step(s, op).tasks
    ensures var after := Step(s, op).tasks[other];
      after == if InColumn(s.tasks, op.project, Queue, other) then s.tasks[other].(position := after.position) else s.tasks[other]
  {
    if Plan(s, op).Replace? {
      EnqueuePlan(s, op);
      var staged := Stage(s.tasks, op.project);
      var r := Plan(s, op).staged;
      if other in staged {
        OnlyPositionsOf(staged, op.task, Entered(staged[op.task], op.approval, op.now), r, op.project, other);
        assert staged[other] == s.tasks[other];
      } else {
        assert other !in r;
      }
      StepOf(s, op, op.project, r, other);
    } else {
      assert Step(s, op) == s;
      SamePosition(s.tasks[other]);
    }
  }

  lemma SamePosition(t: Task)
    ensures t.(position := t.position) == t
  {
  }

  lemma StepOf(s: Store, op: Op, project: Id, r: Board, other: Id)
    requires Plan(s, op).Replace? && Plan(s, op).project == project && Plan(s, op).staged == r && other in s.tasks
    ensures other in Step(s, op).tasks
    ensures Step(s, op).tasks[other] == if Plan(s, op).save.NotPublished? || other !in r then s.tasks[other] else r[other]
  {
  }

  lemma OthersKeepSiblings(s: Store, op: Op, other: Id)
    requires !op.EnqueueOp? && OwnWriter(s, op) && other in s.tasks
    requires op.CreateOp? ==> (op.build(Stage(s.tasks, op.project)).Some? ==> other != op.build(Stage(s.tasks, op.project)).value.id)
    requires !op.CreateOp? ==> other != op.task
    ensures other in Step(s, op).tasks && Step(s, op).tasks[other] == s.tasks[other]
  {
  }

  /** Which other Tasks a writer may touch, and how: a queue entry may renumber
      Queue cards of its Project; nothing else touches a sibling at all. */
  lemma SiblingsKept(s: Store, op: Op, other: Id)
    requires OwnWriter(s, op) && other in s.tasks
    requires op.CreateOp? ==> (op.build(Stage(s.tasks, op.project)).Some? ==> other != op.build(Stage(s.tasks, op.project)).value.id)
    requires !op.CreateOp? ==> other != op.task
    ensures other in Step(s, op).tasks
    ensures var after := Step(s, op).tasks[other];
      if op.EnqueueOp? && InColumn(s.tasks, op.project, Queue, other)
      then after == s.tasks[other].(position := after.position)
      else after == s.tasks[other]
  {
    if op.EnqueueOp? { EnqueueKeepsSiblings(s, op, other); } else { OthersKeepSiblings(s, op, other); }
  }

  // ------------------------------------------------------------ no Task is lost

  /** The Task is on the board, and in every version of its Project's file. */
  ghost predicate OnEveryVersion(s: Store, id: Id) {
    && id in s.tasks
    && forall b :: b in FileOf(s, s.tasks[id].project).possible ==> id in b
  }

  /** The writer deletes this Task's record. */
  predicate Deletes(op: Op, id: Id) {
    op.DeleteOp? && op.task == id
  }

  lemma LawfulKeepsTask(s: Store, c: Change, id: Id)
    requires OnEveryVersion(s, id) && Lawful(s, c) && !(c.Remove? && c.id == id)
    ensures OnEveryVersion(Perform(s, c), id) && Perform(s, c).tasks[id].project == s.tasks[id].project
  {
    assert c.Replace? ==> (id in Stage(s.tasks, c.project) <==> s.tasks[id].project == c.project);
  }

  /** One step of any of the nine writers, refused, confirmed or left in doubt. */
  lemma StepKeepsTask(s: Store, op: Op, id: Id)
    requires OnEveryVersion(s, id) && !Deletes(op, id)
    requires Plan(s, op).Nothing? || Plan(s, op).save.NotPublished? || Lawful(s, Plan(s, op))
    ensures OnEveryVersion(Step(s, op), id) && Step(s, op).tasks[id].project == s.tasks[id].project
  {
    var c := Plan(s, op);
    RemovesOnlyItsTask(s, op);
    if !c.Nothing? && Published(c.save) {
      LawfulKeepsTask(s, c, id);
    }
  }

  lemma RemovesOnlyItsTask(s: Store, op: Op)
    ensures Plan(s, op).Remove? ==> op.DeleteOp? && Plan(s, op).id == op.task
  {
  }

  /** Over any sequence of lawful writers and save outcomes, a Task nobody deletes
      stays on the board, in its Project and in every version of its file. */
  lemma {:induction false} NoTaskIsLost(s: Store, ops: seq<Op>, id: Id)
    requires OnEveryVersion(s, id) && LawfulRun(s, ops) && forall op :: op in ops ==> !Deletes(op, id)
    ensures OnEveryVersion(Run(s, ops), id) && Run(s, ops).tasks[id].project == s.tasks[id].project
    decreases |ops|
  {
    if ops != [] {
      assert ops[0] in ops;
      StepKeepsTask(s, ops[0], id);
      NoTaskIsLost(Step(s, ops[0]), ops[1..], id);
    }
  }

  // ------------------------------------------------- what each writer writes

  /** The board a writer stages, and its Project; `None` when it writes nothing. */
  ghost predicate BoardWritten(s: Store, project: Id, staged: Board, save: Save, after: Store) {
    if save.NotPublished? then after == s
    else
      && (forall id :: id in after.tasks <==> id in s.tasks || id in staged)
      && (forall id :: id in after.tasks ==> after.tasks[id] == if id in staged then staged[id] else s.tasks[id])
      && FileOf(after, project).visible == staged
      && FileOf(after, project).possible == (if save.Confirmed? then {staged} else FileOf(s, project).possible + {staged})
      && after.files - {project} == s.files - {project}
  }

  lemma PerformWrites(s: Store, project: Id, staged: Board, save: Save)
    ensures BoardWritten(s, project, staged, save, Perform(s, Replace(project, staged, save)))
  {
  }

  /** A record amends the Project of the Task it names, and writes nothing for one
      that is not there. */
  lemma RecordWrites(s: Store, task: Id, amend: Amend, save: Save)
    ensures var after := Step(s, RecordOp(task, amend, save));
      if task in s.tasks
      then BoardWritten(s, s.tasks[task].project, amend(Stage(s.tasks, s.tasks[task].project)), save, after)
      else after == s
  {
    if task in s.tasks {
      PerformWrites(s, s.tasks[task].project, amend(Stage(s.tasks, s.tasks[task].project)), save);
    }
  }

  /** A revision may also find nothing to change. */
  lemma RevisionWrites(s: Store, task: Id, revise: Board -> Option<Board>, save: Save)
    ensures var after := Step(s, ReviseOp(task, revise, save));
      if task in s.tasks && revise(Stage(s.tasks, s.tasks[task].project)).Some?
      then BoardWritten(s, s.tasks[task].project, revise(Stage(s.tasks, s.tasks[task].project)).value, save, after)
      else after == s
  {
    if task in s.tasks && revise(Stage(s.tasks, s.tasks[task].project)).Some? {
      PerformWrites(s, s.tasks[task].project, revise(Stage(s.tasks, s.tasks[task].project)).value, save);
    }
  }

  /** `r` is `b` with the arrivals on it, a later one over an earlier. */
  ghost predicate Arrived(b: Board, arrivals: seq<Task>, r: Board) {
    && (forall id :: id in r <==> id in b || exists k :: 0 <= k < |arrivals| && arrivals[k].id == id)
    && (forall id :: id in r ==>
          || (id in b && r[id] == b[id] && forall k :: 0 <= k < |arrivals| ==> arrivals[k].id != id)
          || exists k :: LastOf(arrivals, id, k) && r[id] == arrivals[k])
  }

  predicate LastOf(arrivals: seq<Task>, id: Id, k: int) {
    0 <= k < |arrivals| && arrivals[k].id == id && forall j :: k < j < |arrivals| ==> arrivals[j].id != id
  }

  /** One arrival before the rest. */
  lemma ArrivesFirst(b: Board, arrivals: seq<Task>, r: Board)
    requires arrivals != [] && Arrived(b[arrivals[0].id := arrivals[0]], arrivals[1..], r)
    ensures Arrived(b, arrivals, r)
  {
    var first, rest := arrivals[0], arrivals[1..];
    forall id ensures id in r <==> id in b || exists k :: 0 <= k < |arrivals| && arrivals[k].id == id {
      if k :| 0 <= k < |rest| && rest[k].id == id { assert arrivals[k + 1].id == id; }
      if k :| 0 <= k < |arrivals| && arrivals[k].id == id { assert k > 0 ==> rest[k - 1].id == id; }
    }
    forall id | id in r
      ensures (id in b && r[id] == b[id] && forall k :: 0 <= k < |arrivals| ==> arrivals[k].id != id)
        || exists k :: LastOf(arrivals, id, k) && r[id] == arrivals[k]
    {
      if k :| LastOf(rest, id, k) && r[id] == rest[k] {
        assert LastOf(arrivals, id, k + 1);
      } else if id == first.id {
        assert LastOf(arrivals, id, 0);
      }
    }
  }

  lemma {:induction false} InsertedArrive(b: Board, arrivals: seq<Task>)
    ensures Arrived(b, arrivals, Inserted(b, arrivals))
    decreases |arrivals|
  {
    if arrivals != [] {
      InsertedArrive(b[arrivals[0].id := arrivals[0]], arrivals[1..]);
      ArrivesFirst(b, arrivals, Inserted(b, arrivals));
    }
  }

  /** A creation adds the Task it built to a Project that is there. */
  lemma CreationWrites(s: Store, project: Id, present: bool, build: Board -> Option<Task>, save: Save)
    ensures var after := Step(s, CreateOp(project, present, build, save)); var built := build(Stage(s.tasks, project));
      if present && built.Some? then BoardWritten(s, project, Stage(s.tasks, project)[built.value.id := built.value], save, after)
      else after == s
  {
    var b := Stage(s.tasks, project);
    if present && build(b).Some? {
      PerformWrites(s, project, b[build(b).value.id := build(b).value], save);
    }
  }

  /** A batch adds all of its arrivals. */
  lemma BatchWrites(s: Store, project: Id, present: bool, arrivals: seq<Task>, save: Save)
    ensures var after := Step(s, BatchOp(project, present, arrivals, save));
      if present
      then exists staged :: Arrived(Stage(s.tasks, project), arrivals, staged) && BoardWritten(s, project, staged, save, after)
      else after == s
  {
    if present {
      var staged := Inserted(Stage(s.tasks, project), arrivals);
      assert Step(s, BatchOp(project, present, arrivals, save)) == Perform(s, Replace(project, staged, save));
      PerformWrites(s, project, staged, save);
      InsertedArrive(Stage(s.tasks, project), arrivals);
    }
  }

  /** A selection writes the Project of the Task it selects. */
  lemma SelectionWrites(s: Store, select: Board -> Option<Id>, choose: (Board, Id) -> Board, save: Save)
    ensures var after := Step(s, SelectOp(select, choose, save)); var chosen := select(s.tasks);
      if chosen.Some? && chosen.value in s.tasks
      then
        var p := s.tasks[chosen.value].project;
        BoardWritten(s, p, choose(Stage(s.tasks, p), chosen.value), save, after)
      else after == s
  {
    var chosen := select(s.tasks);
    if chosen.Some? && chosen.value in s.tasks {
      var p := s.tasks[chosen.value].project;
      PerformWrites(s, p, choose(Stage(s.tasks, p), chosen.value), save);
    }
  }

  /** A delete of a Task of the Project leaves it on no board and in no file that
      was written, and every other Task as it was. */
  lemma DeletionWrites(s: Store, project: Id, task: Id, save: Save)
    ensures var after := Step(s, DeleteOp(project, task, save)); var left := Stage(s.tasks, project) - {task};
      if task in s.tasks && s.tasks[task].project == project && Published(save) then
        && after.tasks == s.tasks - {task}
        && FileOf(after, project).visible == left
        && FileOf(after, project).possible == (if save.Confirmed? then {left} else FileOf(s, project).possible + {left})
        && after.files - {project} == s.files - {project}
      else after == s
  {
  }

  /** A run goes on from where its first part left off. */
  lemma {:induction false} RunsGoOn(s: Store, first: seq<Op>, rest: seq<Op>, op: Op)
    ensures Run(s, first + rest) == Run(Run(s, first), rest)
    ensures Run(s, [op]) == Step(s, op)
    decreases |first|
  {
    assert [op][1..] == [];
    if first == [] {
      assert first + rest == rest;
    } else {
      assert (first + rest)[1..] == first[1..] + rest;
      RunsGoOn(Step(s, first[0]), first[1..], rest, op);
    }
  }
}
