/** The Task board: one map in memory and one file per Project, and what one
    published change does to both (`src-tauri/src/lifecycle.rs`). */
module Boards {
  import opened Durability
  import opened Tasks

  datatype Store = Store(tasks: Board, files: map<Id, File<Board>>)

  function FileOf(s: Store, project: Id): File<Board> {
    if project in s.files then s.files[project] else File(map[], {map[]})
  }

  /** `stage_project`: a working copy of one Project's Tasks. */
  function Stage(tasks: Board, project: Id): Board {
    map id | id in tasks && tasks[id].project == project :: tasks[id]
  }

  /** Every Project's Tasks in memory are exactly those in its visible file. */
  ghost predicate Agrees(s: Store) {
    forall project :: Stage(s.tasks, project) == FileOf(s, project).visible
  }

  /** What one writer asks of the board. */
  datatype Change =
    | Nothing
    | Replace(project: Id, staged: Board, save: Save)
    | Remove(project: Id, id: Id, save: Save)

  /** `publish_typed` (and the tail of `delete`): the file first, then memory.
      A published `Replace` only inserts into memory; it never removes. */
  function Perform(s: Store, c: Change): Store {
    match c
    case Nothing => s
    case Replace(project, staged, save) =>
      if save.NotPublished? then s
      else Store(s.tasks + staged, s.files[project := FileOf(s, project).Write(staged, save)])
    case Remove(project, id, save) =>
      if save.NotPublished? then s
      else
        var staged := Stage(s.tasks, project) - {id};
        Store(s.tasks - {id}, s.files[project := FileOf(s, project).Write(staged, save)])
  }

  /** A change drops no Task of its Project and claims none of another's. */
  ghost predicate Lawful(s: Store, c: Change) {
    match c
    case Nothing => true
    case Replace(project, staged, _) =>
      && Stage(s.tasks, project).Keys <= staged.Keys
      && (forall id :: id in staged ==> staged[id].project == project)
      && (forall id :: id in staged && id in s.tasks ==> s.tasks[id].project == project)
    case Remove(project, id, _) => id in s.tasks ==> s.tasks[id].project == project
  }

  /** The working copies of a lawful replacement: its own, and every other. */
  lemma ReplacedStages(tasks: Board, project: Id, staged: Board, other: Id)
    requires Stage(tasks, project).Keys <= staged.Keys && forall id :: id in staged ==> staged[id].project == project
    requires forall id :: id in staged && id in tasks ==> tasks[id].project == project
    ensures Stage(tasks + staged, other) == if other == project then staged else Stage(tasks, other)
  {
    var after := Stage(tasks + staged, other);
    if other == project {
      forall id ensures id in after <==> id in staged {
        assert id in tasks && tasks[id].project == project ==> id in Stage(tasks, project);
      }
    } else {
      assert after.Keys == Stage(tasks, other).Keys;
    }
  }

  lemma LawfulReplaceAgrees(s: Store, project: Id, staged: Board, save: Save)
    requires Agrees(s) && Published(save) && Lawful(s, Replace(project, staged, save))
    ensures Agrees(Perform(s, Replace(project, staged, save)))
  {
    var after := Perform(s, Replace(project, staged, save));
    forall other ensures Stage(after.tasks, other) == FileOf(after, other).visible {
      assert Stage(s.tasks, other) == FileOf(s, other).visible;
      ReplacedStages(s.tasks, project, staged, other);
    }
  }

  lemma AgreeingReplaceIsLawful(s: Store, project: Id, staged: Board, save: Save)
    requires Agrees(s) && Published(save) && Agrees(Perform(s, Replace(project, staged, save)))
    ensures Lawful(s, Replace(project, staged, save))
  {
    var after := Perform(s, Replace(project, staged, save));
    assert Stage(after.tasks, project) == FileOf(after, project).visible == staged;
    forall id | id in staged && id in s.tasks ensures s.tasks[id].project == project {
      var other := s.tasks[id].project;
      assert id in Stage(s.tasks, other) && Stage(s.tasks, other) == FileOf(s, other).visible;
      assert Stage(after.tasks, other) == FileOf(after, other).visible;
      assert other == project || FileOf(after, other) == FileOf(s, other);
    }
    forall id | id in Stage(s.tasks, project) ensures id in staged {
      assert id in Stage(after.tasks, project);
    }
  }

  lemma RemoveAgreement(s: Store, project: Id, id: Id, save: Save)
    requires Agrees(s) && Published(save)
    ensures Agrees(Perform(s, Remove(project, id, save))) <==> Lawful(s, Remove(project, id, save))
  {
    var after := Perform(s, Remove(project, id, save));
    if Lawful(s, Remove(project, id, save)) {
      forall other ensures Stage(after.tasks, other) == FileOf(after, other).visible {
        assert Stage(s.tasks, other) == FileOf(s, other).visible;
      }
    } else {
      var other := s.tasks[id].project;
      assert id in Stage(s.tasks, other) && Stage(s.tasks, other) == FileOf(s, other).visible;
      assert id !in Stage(after.tasks, other) && FileOf(after, other) == FileOf(s, other);
    }
  }

  /** Memory and the files stay in step exactly when the change is lawful. */
  lemma AgreementIffLawful(s: Store, c: Change)
    requires Agrees(s)
    ensures Agrees(Perform(s, c)) <==> c.Nothing? || c.save.NotPublished? || Lawful(s, c)
  {
    match c
    case Nothing =>
    case Replace(project, staged, save) =>
      if Published(save) && Lawful(s, c) { LawfulReplaceAgrees(s, project, staged, save); }
      if Published(save) && Agrees(Perform(s, c)) { AgreeingReplaceIsLawful(s, project, staged, save); }
    case Remove(project, id, save) =>
      if Published(save) { RemoveAgreement(s, project, id, save); }
  }

  /** A lawful change leaves every other Project's Tasks and files alone, in
      memory and in each version a power loss may leave. */
  lemma OtherProjectsUntouched(s: Store, c: Change, other: Id)
    requires Lawful(s, c) && (c.Nothing? || c.project != other)
    ensures FileOf(Perform(s, c), other) == FileOf(s, other)
    ensures Stage(Perform(s, c).tasks, other) == Stage(s.tasks, other)
  {
    assert Stage(Perform(s, c).tasks, other) == Stage(s.tasks, other);
  }
}
