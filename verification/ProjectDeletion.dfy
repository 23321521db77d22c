/** Deleting a Project across a configuration file, two cleanup records and the
    Project's own files, cut short anywhere and finished by a later start
    (`delete_project_committed` in `src-tauri/src/commands/project.rs`, pending
    cleanup in `app_core.rs`, the durability barrier in `config/storage.rs`). */
module ProjectDeletion {
  import opened Durability
  import opened Tasks
  import opened Orders

  /** Where a deletion under its Project's gate is. `retry` is one that found
      the Project already gone from the process's list. */
  datatype Stage = Marked | Removed(retry: bool) | Barred(retry: bool) | BoardGone(retry: bool) | TaskMarkGone | TalkGone

  /** `readable`: the configuration could be read in full at this start. `held`:
      Projects import recovery keeps out of this process. `unconfirmed`: this
      process knows of a configuration write it could not confirm.
      `synchronizes`: the filesystem can confirm a write at all. */
  datatype World = World(
    config: File<set<Id>>, readable: bool, memory: set<Id>, held: set<Id>, unconfirmed: bool, starting: bool,
    trusted: bool, taskMarks: set<Id>, talkMarks: set<Id>, boards: set<Id>, talks: set<Id>, deletions: map<Id, Stage>,
    synchronizes: bool)

  datatype Event =
    | Restart(survivor: Option<set<Id>>, readable: bool, held: set<Id>, save: Save)
    | SettleTasks(id: Id, deleted: bool, cleared: bool)
    | SettleTalk(id: Id, deleted: bool, cleared: bool)
    | Ready
    | Create(id: Id, save: Save)
    | Resave(save: Save)
    | WriteFiles(id: Id)
    | Begin(id: Id, tasks: bool, talk: bool, cleared: bool)
    | Commit(id: Id, save: Save, clearedTasks: bool, clearedTalk: bool)
    | Retry(id: Id)
    | Bar(id: Id, save: Save)
    | DropBoard(id: Id, remarked: bool, deleted: bool)
    | ClearTaskMark(id: Id, ok: bool)
    | DropTalk(id: Id, deleted: bool)
    | ClearTalkMark(id: Id, ok: bool)

  /** `update_config`: it reads the file in full first, so a file that cannot be
      read is never replaced. A Project held back keeps its entry. */
  function Saved(w: World, proposed: set<Id>, save: Save): World {
    if !w.readable || !Published(save) then w
    else w.(config := w.config.Write((w.config.visible * w.held) + proposed, Kept(w, save)),
            unconfirmed := !Kept(w, save).Confirmed?, memory := proposed)
  }

  /** What an accepted write is worth: where a directory cannot be synchronized,
      an ordinary save is accepted, and never confirmed. */
  function Kept(w: World, save: Save): Save {
    if save.Confirmed? && !w.synchronizes then PublishedNotDurable else save
  }

  /** `confirm_config_durable`: nothing to do unless this process knows of an
      unconfirmed write; else one full rewrite of the file as it is. */
  function Barrier(w: World, save: Save): (World, bool) {
    if !w.unconfirmed then (w, true)
    else var after := Saved(w, w.memory, save); (after, w.readable && Kept(w, save).Confirmed?)
  }

  function Without<T(==)>(s: set<T>, x: T, really: bool): set<T> {
    if really then s - {x} else s
  }

  function End(w: World, id: Id): World {
    w.(deletions := w.deletions - {id})
  }

  function Boot(w: World, e: Event): World
    requires e.Restart?
  {
    var config := if e.survivor.Some? && e.survivor.value in w.config.possible then w.config.Lose(e.survivor.value) else w.config;
    var memory := if e.readable then config.visible - e.held else {};
    var up := w.(config := config, readable := e.readable, memory := memory, held := e.held, unconfirmed := false,
                 starting := true, trusted := e.readable, deletions := map[]);
    if e.readable && w.taskMarks + w.talkMarks != {} then
      var after := Saved(up.(unconfirmed := true), memory, e.save);
      after.(trusted := Kept(w, e.save).Confirmed?)
    else up
  }

  predicate StageIs(w: World, id: Id, s: Stage) {
    id in w.deletions && w.deletions[id] == s
  }

  // The legs of one deletion, in order. Each ends the deletion when it fails.

  function Begun(w: World, id: Id, tasks: bool, talk: bool, cleared: bool): World {
    if w.starting || id !in w.memory || id in w.deletions || !tasks then w
    else if talk then w.(taskMarks := w.taskMarks + {id}, talkMarks := w.talkMarks + {id}, deletions := w.deletions[id := Marked])
    else w.(taskMarks := Without(w.taskMarks + {id}, id, cleared))
  }

  function Committed(w: World, id: Id, save: Save, clearedTasks: bool, clearedTalk: bool): World {
    if !StageIs(w, id, Marked) then w
    else if !w.readable || save.NotPublished? then
      End(w, id).(taskMarks := Without(w.taskMarks, id, clearedTasks),
                  talkMarks := Without(w.talkMarks, id, clearedTasks && clearedTalk))
    else
      var after := Saved(w, w.memory - {id}, save);
      if save.Confirmed? then after.(deletions := w.deletions[id := Removed(false)]) else End(after, id)
  }

  function Retried(w: World, id: Id): World {
    if w.starting || id in w.memory || id in w.deletions || !(id in w.boards || id in w.taskMarks) then w
    else w.(deletions := w.deletions[id := Removed(true)])
  }

  function PastBarrier(w: World, id: Id, save: Save): World {
    if !(id in w.deletions && w.deletions[id].Removed?) then w
    else
      var (after, ok) := Barrier(w, save);
      if ok then after.(deletions := w.deletions[id := Barred(w.deletions[id].retry)]) else End(after, id)
  }

  function BoardDropped(w: World, id: Id, remarked: bool, deleted: bool): World {
    if !(id in w.deletions && w.deletions[id].Barred?) then w
    else
      var retry := w.deletions[id].retry;
      if retry && !remarked then End(w, id)
      else
        var marked := if retry then w.(taskMarks := w.taskMarks + {id}) else w;
        if !deleted then End(marked, id)
        else marked.(boards := w.boards - {id}, deletions := w.deletions[id := BoardGone(retry)])
  }

  function TaskMarkCleared(w: World, id: Id, ok: bool): World {
    if !(id in w.deletions && w.deletions[id].BoardGone?) then w
    else if !ok then End(w, id)
    else
      var cleared := w.(taskMarks := w.taskMarks - {id});
      if w.deletions[id].retry then End(cleared, id) else cleared.(deletions := w.deletions[id := TaskMarkGone])
  }

  function TalkDropped(w: World, id: Id, deleted: bool): World {
    if !StageIs(w, id, TaskMarkGone) then w
    else if !deleted then End(w, id)
    else w.(talks := w.talks - {id}, deletions := w.deletions[id := TalkGone])
  }

  function TalkMarkCleared(w: World, id: Id, ok: bool): World {
    if !StageIs(w, id, TalkGone) then w else End(w, id).(talkMarks := Without(w.talkMarks, id, ok))
  }

  // The startup pass over one record of each kind.

  function TasksSettled(w: World, id: Id, deleted: bool, cleared: bool): World {
    if !(w.starting && w.trusted && id in w.taskMarks) || id in w.held then w
    else if id in w.memory then w.(taskMarks := Without(w.taskMarks, id, cleared))
    else if !deleted then w
    else w.(boards := w.boards - {id}, taskMarks := Without(w.taskMarks, id, cleared))
  }

  function TalkSettled(w: World, id: Id, deleted: bool, cleared: bool): World {
    if !(w.starting && w.trusted && id in w.talkMarks) || id in w.held then w
    else if id in w.memory then w.(talkMarks := Without(w.talkMarks, id, cleared))
    else if !deleted then w
    else w.(talks := w.talks - {id}, talkMarks := Without(w.talkMarks, id, cleared))
  }

  function Next(w: World, e: Event): World {
    match e
    case Restart(_, _, _, _) => Boot(w, e)
    case SettleTasks(id, deleted, cleared) => TasksSettled(w, id, deleted, cleared)
    case SettleTalk(id, deleted, cleared) => TalkSettled(w, id, deleted, cleared)
    case Ready => w.(starting := false)
    case Create(id, save) => if w.starting || !Fresh(w, id) then w else Saved(w, w.memory + {id}, save)
    case Resave(save) => if w.starting then w else Saved(w, w.memory, save)
    case WriteFiles(id) => if id in w.memory then w.(boards := w.boards + {id}, talks := w.talks + {id}) else w
    case Begin(id, tasks, talk, cleared) => Begun(w, id, tasks, talk, cleared)
    case Commit(id, save, clearedTasks, clearedTalk) => Committed(w, id, save, clearedTasks, clearedTalk)
    case Retry(id) => Retried(w, id)
    case Bar(id, save) => PastBarrier(w, id, save)
    case DropBoard(id, remarked, deleted) => BoardDropped(w, id, remarked, deleted)
    case ClearTaskMark(id, ok) => TaskMarkCleared(w, id, ok)
    case DropTalk(id, deleted) => TalkDropped(w, id, deleted)
    case ClearTalkMark(id, ok) => TalkMarkCleared(w, id, ok)
  }

  /** An id no file, record or deletion has ever seen. */
  predicate Fresh(w: World, id: Id) {
    && Gone(w, id) && id !in w.memory && id !in w.held && id !in w.deletions
    && id !in w.taskMarks && id !in w.talkMarks && id !in w.boards && id !in w.talks
  }

  /** No configuration the disk may still hold names the Project. */
  predicate Gone(w: World, id: Id) {
    forall v :: v in w.config.possible ==> id !in v
  }

  // --------------------------------------------------------------- invariant

  ghost predicate ListsAgree(w: World) {
    w.config.Valid() && w.memory == if w.readable then w.config.visible - w.held else {}
  }

  /** A Project that may come back in a power loss is on record. */
  ghost predicate DoubtIsRecorded(w: World) {
    forall v, id :: v in w.config.possible && id in v && id !in w.config.visible ==> id in w.talkMarks
  }

  /** This process knows of every doubt about what the configuration lacks. */
  ghost predicate DoubtIsKnown(w: World) {
    w.readable && !w.unconfirmed ==> forall v :: v in w.config.possible ==> v <= w.config.visible
  }

  ghost predicate StagesSound(w: World) {
    forall id :: id in w.deletions ==> StageSound(w, id, w.deletions[id])
  }

  /** A first deletion is sure of its ground once it is past the barrier. A retry
      is sure only as far as this process can read. */
  ghost predicate StageSound(w: World, id: Id, s: Stage) {
    match s
    case Marked => id in w.memory && id in w.taskMarks && id in w.talkMarks
    case Removed(retry) => id !in w.memory && (!retry ==> w.readable && id !in w.held)
    case Barred(retry) =>
      id !in w.memory && (!retry ==> Sure(w, id)) && (w.readable && id !in w.config.visible ==> Gone(w, id))
    case BoardGone(retry) => id !in w.memory && (!retry ==> Sure(w, id)) && id !in w.boards
    case TaskMarkGone => Sure(w, id)
    case TalkGone => Sure(w, id) && id !in w.talks
  }

  predicate Sure(w: World, id: Id) {
    Gone(w, id) && id !in w.held
  }

  /** While starting with a trusted, confirmed configuration there is one version. */
  ghost predicate StartSound(w: World) {
    w.starting && w.trusted ==>
      w.readable && (w.taskMarks + w.talkMarks != {} ==> w.config.possible == {w.config.visible})
  }

  ghost predicate Inv(w: World) {
    ListsAgree(w) && DoubtIsRecorded(w) && DoubtIsKnown(w) && StagesSound(w) && StartSound(w)
    && (w.starting ==> w.deletions == map[])
  }

  lemma GoneAfterSave(w: World, proposed: set<Id>, save: Save, id: Id)
    ensures Gone(w, id) && id !in proposed && w.config.Valid() ==> Gone(Saved(w, proposed, save), id)
  {
  }

  /** A configuration write from this process keeps the lists in step, casts
      doubt only on Projects that are on record, and never drops a Project this
      process does not list. */
  lemma SaveKeeps(w: World, proposed: set<Id>, save: Save)
    requires ListsAgree(w) && DoubtIsRecorded(w) && DoubtIsKnown(w)
    requires forall id :: id in proposed ==> id !in w.held
    requires forall id :: id in w.memory && id !in proposed ==> id in w.talkMarks
    ensures var r := Saved(w, proposed, save);
      && ListsAgree(r) && DoubtIsRecorded(r) && DoubtIsKnown(r)
      && r.memory == (if w.readable && Published(save) then proposed else w.memory)
      && (w.readable && Kept(w, save).Confirmed? ==> r.config.possible == {r.config.visible} && !r.unconfirmed)
      && (forall id :: id in w.config.visible && id !in w.memory ==> id in r.config.visible)
  {
    var r := Saved(w, proposed, save);
    if w.readable && Published(save) {
      assert r.config.visible == (w.config.visible * w.held) + proposed;
      assert r.config.visible - w.held == proposed;
      forall v, id | v in r.config.possible && id in v && id !in r.config.visible ensures id in w.talkMarks {
        assert v in w.config.possible;
        if id in w.config.visible {
          assert id in w.memory;
        }
      }
    }
  }

  lemma NothingInDoubt(w: World)
    requires DoubtIsRecorded(w) && w.talkMarks == {}
    ensures forall v :: v in w.config.possible ==> v <= w.config.visible
  {
    forall v | v in w.config.possible ensures v <= w.config.visible {
      forall id | id in v ensures id in w.config.visible {
        assert id !in w.config.visible ==> id in w.talkMarks;
      }
    }
  }

  /** The world a start finds before it writes anything. */
  function Woken(w: World, e: Event): World
    requires e.Restart?
  {
    var config := if e.survivor.Some? && e.survivor.value in w.config.possible then w.config.Lose(e.survivor.value) else w.config;
    var memory := if e.readable then config.visible - e.held else {};
    w.(config := config, readable := e.readable, memory := memory, held := e.held, unconfirmed := true,
       starting := true, trusted := false, deletions := map[])
  }

  lemma WokenIsSound(w: World, e: Event)
    requires Inv(w) && e.Restart?
    ensures Inv(Woken(w, e))
  {
  }

  lemma BootFromWoken(w: World, e: Event)
    requires e.Restart?
    ensures var up := Woken(w, e);
      Boot(w, e) ==
        if e.readable && w.taskMarks + w.talkMarks != {}
        then Saved(up, up.memory, e.save).(trusted := Kept(w, e.save).Confirmed?)
        else up.(unconfirmed := false, trusted := e.readable)
  {
  }

  lemma BootIsSound(w: World, e: Event)
    requires Inv(w) && e.Restart?
    ensures Inv(Boot(w, e))
  {
    var up := Woken(w, e);
    WokenIsSound(w, e);
    BootFromWoken(w, e);
    if w.taskMarks + w.talkMarks == {} {
      assert up.talkMarks == {};
      NothingInDoubt(up);
    } else {
      SaveKeeps(up, up.memory, e.save);
    }
  }

  lemma SettleIsSound(w: World, e: Event)
    requires Inv(w) && (e.SettleTasks? || e.SettleTalk?)
    ensures Inv(Next(w, e))
  {
    var next := Next(w, e);
    if next != w {
      assert w.config.possible == {w.config.visible};
    }
  }

  lemma SaveIsSound(w: World, proposed: set<Id>, save: Save)
    requires Inv(w) && !w.starting && w.memory <= proposed && forall id :: id in proposed ==> id !in w.held
    requires forall id :: id in proposed && id !in w.memory ==> id !in w.deletions
    ensures Inv(Saved(w, proposed, save))
  {
    SaveKeeps(w, proposed, save);
    var r := Saved(w, proposed, save);
    forall id | id in w.deletions ensures StageSound(r, id, w.deletions[id]) {
      assert StageSound(w, id, w.deletions[id]);
      if Gone(w, id) {
        assert w.config.visible in w.config.possible;
        GoneAfterSave(w, proposed, save, id);
      }
    }
  }

  lemma BeginIsSound(w: World, id: Id, tasks: bool, talk: bool, cleared: bool)
    requires Inv(w)
    ensures Inv(Begun(w, id, tasks, talk, cleared))
  {
    var next := Begun(w, id, tasks, talk, cleared);
    forall v, other | v in w.config.possible && other in v && other !in w.config.visible ensures other in next.talkMarks {
      assert other in w.talkMarks;
    }
    forall other | other in next.deletions ensures StageSound(next, other, next.deletions[other]) {
      if other in w.deletions && other != id { assert StageSound(w, other, w.deletions[other]); }
    }
  }

  /** A step on one Project leaves every other deletion as sound as it was. */
  lemma OtherStages(w: World, next: World, id: Id)
    requires StagesSound(w) && next.held == w.held && next.readable == w.readable
    requires forall other :: other in next.deletions && other != id ==> other in w.deletions && next.deletions[other] == w.deletions[other]
    requires forall other :: other != id ==>
      && (other in w.memory <==> other in next.memory) && (other in w.taskMarks ==> other in next.taskMarks)
      && (other in w.talkMarks ==> other in next.talkMarks) && (other in next.boards ==> other in w.boards)
      && (other in next.talks ==> other in w.talks) && (Gone(w, other) ==> Gone(next, other))
      && (other in w.config.visible && other !in w.memory ==> other in next.config.visible)
    ensures forall other :: other in next.deletions && other != id ==> StageSound(next, other, next.deletions[other])
  {
    forall other | other in next.deletions && other != id ensures StageSound(next, other, next.deletions[other]) {
      assert StageSound(w, other, w.deletions[other]);
    }
  }

  lemma CommitIsSound(w: World, id: Id, save: Save, clearedTasks: bool, clearedTalk: bool)
    requires Inv(w)
    ensures Inv(Committed(w, id, save, clearedTasks, clearedTalk))
  {
    if StageIs(w, id, Marked) {
      var next := Committed(w, id, save, clearedTasks, clearedTalk);
      assert StageSound(w, id, Marked);
      assert w.readable && id in w.config.visible;
      if Published(save) {
        SaveKeeps(w, w.memory - {id}, save);
        forall other | other != id && Gone(w, other) ensures Gone(next, other) {
          assert w.config.visible in w.config.possible;
          GoneAfterSave(w, w.memory - {id}, save, other);
        }
      }
      OtherStages(w, next, id);
    }
  }

  lemma RetryIsSound(w: World, e: Event)
    requires Inv(w) && e.Retry?
    ensures Inv(Next(w, e))
  {
    OtherStages(w, Next(w, e), e.id);
  }

  /** Past the barrier, what the file does not name is gone for good, in a
      process that could read the file. */
  lemma BarrierSettles(w: World, save: Save, id: Id)
    requires ListsAgree(w) && DoubtIsRecorded(w) && DoubtIsKnown(w) && Barrier(w, save).1
    ensures var after := Barrier(w, save).0;
      && after.config.visible == w.config.visible
      && (w.readable ==> (Gone(after, id) <==> id !in w.config.visible))
      && (!w.readable ==> after == w)
  {
    SaveKeeps(w, w.memory, save);
    var after := Barrier(w, save).0;
    assert w.readable ==> (w.config.visible * w.held) + w.memory == w.config.visible;
    assert after.config.visible in after.config.possible;
  }

  lemma EndedStages(w: World, id: Id)
    requires StagesSound(w)
    ensures StagesSound(End(w, id))
  {
    forall other | other in w.deletions && other != id ensures StageSound(End(w, id), other, w.deletions[other]) {
      assert StageSound(w, other, w.deletions[other]);
    }
  }

  /** The deletion moves past the barrier, on the ground the barrier settled. */
  lemma BarredStages(w: World, id: Id, retry: bool)
    requires StagesSound(w) && StageSound(w, id, Barred(retry))
    ensures StagesSound(w.(deletions := w.deletions[id := Barred(retry)]))
  {
    var next := w.(deletions := w.deletions[id := Barred(retry)]);
    forall other | other in next.deletions ensures StageSound(next, other, next.deletions[other]) {
      if other != id { assert StageSound(w, other, w.deletions[other]); }
    }
  }

  lemma BarIsSound(w: World, id: Id, save: Save)
    requires Inv(w)
    ensures Inv(PastBarrier(w, id, save))
  {
    if id in w.deletions && w.deletions[id].Removed? {
      assert StageSound(w, id, w.deletions[id]);
      var (after, ok) := Barrier(w, save);
      SaveIsSound(w, w.memory, save);
      EndedStages(after, id);
      if ok {
        BarrierSettles(w, save, id);
        BarredStages(after, id, w.deletions[id].retry);
      }
    }
  }

  lemma SameConfig(w: World, next: World, id: Id)
    requires Inv(w) && next.config == w.config && next.readable == w.readable && next.memory == w.memory
    requires next.held == w.held && next.unconfirmed == w.unconfirmed
    requires w.talkMarks - {id} <= next.talkMarks && (Gone(w, id) || w.talkMarks <= next.talkMarks)
    ensures ListsAgree(next) && DoubtIsRecorded(next) && DoubtIsKnown(next)
  {
    forall v, other | v in w.config.possible && other in v && other !in w.config.visible ensures other in next.talkMarks {
      assert other in w.talkMarks;
      if other != id {
        assert other in w.talkMarks - {id};
      }
    }
  }

  lemma RemarkedStages(w: World, id: Id)
    requires StagesSound(w)
    ensures StagesSound(w.(taskMarks := w.taskMarks + {id}))
  {
    var next := w.(taskMarks := w.taskMarks + {id});
    forall other | other in w.deletions ensures StageSound(next, other, w.deletions[other]) {
      assert StageSound(w, other, w.deletions[other]);
    }
  }

  lemma DroppedStages(w: World, id: Id, retry: bool)
    requires StagesSound(w) && StageIs(w, id, Barred(retry))
    ensures StagesSound(w.(boards := w.boards - {id}, deletions := w.deletions[id := BoardGone(retry)]))
  {
    var next := w.(boards := w.boards - {id}, deletions := w.deletions[id := BoardGone(retry)]);
    assert StageSound(w, id, Barred(retry));
    forall other | other in next.deletions ensures StageSound(next, other, next.deletions[other]) {
      if other != id { assert StageSound(w, other, w.deletions[other]); }
    }
  }

  lemma DropBoardStages(w: World, id: Id, remarked: bool, deleted: bool)
    requires StagesSound(w)
    ensures StagesSound(BoardDropped(w, id, remarked, deleted))
  {
    if id in w.deletions && w.deletions[id].Barred? {
      var retry := w.deletions[id].retry;
      var marked := if retry then w.(taskMarks := w.taskMarks + {id}) else w;
      RemarkedStages(w, id);
      EndedStages(w, id);
      EndedStages(marked, id);
      DroppedStages(marked, id, retry);
    }
  }

  lemma DropBoardIsSound(w: World, e: Event)
    requires Inv(w) && e.DropBoard?
    ensures Inv(Next(w, e))
  {
    DropBoardStages(w, e.id, e.remarked, e.deleted);
    SameConfig(w, Next(w, e), e.id);
  }

  lemma UnmarkedStages(w: World, id: Id)
    requires StagesSound(w) && id in w.deletions && !w.deletions[id].Marked?
    ensures StagesSound(w.(taskMarks := w.taskMarks - {id}))
  {
    var next := w.(taskMarks := w.taskMarks - {id});
    forall other | other in w.deletions ensures StageSound(next, other, w.deletions[other]) {
      assert StageSound(w, other, w.deletions[other]);
    }
  }

  lemma ClearTaskMarkStages(w: World, id: Id, ok: bool)
    requires StagesSound(w)
    ensures StagesSound(TaskMarkCleared(w, id, ok))
  {
    EndedStages(w, id);
    if id in w.deletions && w.deletions[id].BoardGone? {
      assert StageSound(w, id, w.deletions[id]);
      var cleared := w.(taskMarks := w.taskMarks - {id});
      UnmarkedStages(w, id);
      EndedStages(cleared, id);
      var next := cleared.(deletions := w.deletions[id := TaskMarkGone]);
      forall other | other in next.deletions && !w.deletions[id].retry ensures StageSound(next, other, next.deletions[other]) {
        if other != id { assert StageSound(cleared, other, cleared.deletions[other]); }
      }
    }
  }

  lemma ClearTaskMarkIsSound(w: World, e: Event)
    requires Inv(w) && e.ClearTaskMark?
    ensures Inv(Next(w, e))
  {
    ClearTaskMarkStages(w, e.id, e.ok);
    SameConfig(w, Next(w, e), e.id);
  }

  lemma DropTalkIsSound(w: World, id: Id, deleted: bool)
    requires Inv(w)
    ensures Inv(TalkDropped(w, id, deleted))
  {
    if StageIs(w, id, TaskMarkGone) {
      assert StageSound(w, id, TaskMarkGone);
      SameConfig(w, TalkDropped(w, id, deleted), id);
      OtherStages(w, TalkDropped(w, id, deleted), id);
    }
  }

  lemma ClearTalkMarkIsSound(w: World, e: Event)
    requires Inv(w) && e.ClearTalkMark?
    ensures Inv(Next(w, e))
  {
    if StageIs(w, e.id, TalkGone) {
      assert StageSound(w, e.id, w.deletions[e.id]);
      SameConfig(w, Next(w, e), e.id);
      OtherStages(w, Next(w, e), e.id);
    }
  }

  /** Every step, trusted or not, keeps what this process knows of the disk. */
  lemma NextIsSound(w: World, e: Event)
    requires Inv(w)
    ensures Inv(Next(w, e))
  {
    match e
    case Restart(_, _, _, _) => BootIsSound(w, e);
    case SettleTasks(_, _, _) => SettleIsSound(w, e);
    case SettleTalk(_, _, _) => SettleIsSound(w, e);
    case Create(id, save) => if !w.starting && Fresh(w, id) { SaveIsSound(w, w.memory + {id}, save); }
    case Resave(save) => if !w.starting { SaveIsSound(w, w.memory, save); }
    case WriteFiles(id) => WriteIsSound(w, id);
    case Begin(id, tasks, talk, cleared) => BeginIsSound(w, id, tasks, talk, cleared);
    case Commit(id, save, clearedTasks, clearedTalk) => CommitIsSound(w, id, save, clearedTasks, clearedTalk);
    case Retry(_) => RetryIsSound(w, e);
    case Bar(id, save) => BarIsSound(w, id, save);
    case Ready =>
    case DropBoard(_, _, _) => DropBoardIsSound(w, e);
    case ClearTaskMark(_, _) => ClearTaskMarkIsSound(w, e);
    case DropTalk(id, deleted) => DropTalkIsSound(w, id, deleted);
    case ClearTalkMark(_, _) => ClearTalkMarkIsSound(w, e);
  }

  lemma WriteIsSound(w: World, id: Id)
    requires Inv(w)
    ensures Inv(Next(w, WriteFiles(id)))
  {
    if id in w.memory {
      assert w.config.visible in w.config.possible && id in w.config.visible;
      var next := Next(w, WriteFiles(id));
      forall other | other in w.deletions ensures StageSound(next, other, w.deletions[other]) {
        assert StageSound(w, other, w.deletions[other]);
      }
    }
  }

  // ------------------------------------------------------------- what follows

  function Play(w: World, events: seq<Event>): World
    decreases |events|
  {
    if events == [] then w else Play(Next(w, events[0]), events[1..])
  }

  lemma {:induction false} RunIsSound(w: World, events: seq<Event>)
    requires Inv(w)
    ensures Inv(Play(w, events))
    decreases |events|
  {
    if events != [] {
      NextIsSound(w, events[0]);
      RunIsSound(Next(w, events[0]), events[1..]);
    }
  }

  /** The step deletes a file of the Project. */
  predicate Deletes(w: World, e: Event, id: Id) {
    (id in w.boards && id !in Next(w, e).boards) || (id in w.talks && id !in Next(w, e).talks)
  }

  /** The step deletes a file of a Project that a configuration the disk may
      still hold names. */
  ghost predicate Loses(w: World, e: Event) {
    exists id :: Deletes(w, e, id) && !Gone(w, id)
  }

  /** A retried deletion drops the board of a Project the file still names; or,
      where the file could not be read in full, one that some version names. */
  predicate LooseDrop(w: World, e: Event) {
    && e.DropBoard? && e.remarked && e.deleted && StageIs(w, e.id, Barred(true)) && e.id in w.boards
    && if w.readable then e.id in w.config.visible else !Gone(w, e.id)
  }

  /** Files and records are as they were. */
  predicate SameFiles(w: World, next: World) {
    next.boards == w.boards && next.talks == w.talks && next.taskMarks == w.taskMarks && next.talkMarks == w.talkMarks
  }

  lemma SavedKeepsFiles(w: World, proposed: set<Id>, save: Save)
    ensures SameFiles(w, Saved(w, proposed, save))
  {
  }

  lemma BarKeepsFiles(w: World, id: Id, save: Save)
    ensures SameFiles(w, PastBarrier(w, id, save))
  {
  }

  lemma BootKeepsFiles(w: World, e: Event)
    requires e.Restart?
    ensures SameFiles(w, Boot(w, e))
  {
  }

  lemma BegunKeepsFiles(w: World, id: Id, tasks: bool, talk: bool, cleared: bool)
    ensures Begun(w, id, tasks, talk, cleared).boards == w.boards && Begun(w, id, tasks, talk, cleared).talks == w.talks
  {
  }

  lemma CommittedKeepsFiles(w: World, id: Id, save: Save, clearedTasks: bool, clearedTalk: bool)
    ensures var next := Committed(w, id, save, clearedTasks, clearedTalk); next.boards == w.boards && next.talks == w.talks
  {
    SavedKeepsFiles(w, w.memory - {id}, save);
  }

  lemma MarksKeepFiles(w: World, id: Id, ok: bool)
    ensures TaskMarkCleared(w, id, ok).boards == w.boards && TaskMarkCleared(w, id, ok).talks == w.talks
    ensures TalkMarkCleared(w, id, ok).boards == w.boards && TalkMarkCleared(w, id, ok).talks == w.talks
  {
  }

  lemma OthersDeleteNothing(w: World, e: Event, id: Id)
    requires !(e.SettleTasks? || e.SettleTalk? || e.DropBoard? || e.DropTalk?)
    ensures !Deletes(w, e, id)
  {
    match e
    case Restart(_, _, _, _) => BootKeepsFiles(w, e);
    case Create(other, save) => SavedKeepsFiles(w, w.memory + {other}, save);
    case Resave(save) => SavedKeepsFiles(w, w.memory, save);
    case Bar(other, save) => BarKeepsFiles(w, other, save);
    case Begin(other, tasks, talk, cleared) => BegunKeepsFiles(w, other, tasks, talk, cleared);
    case Commit(other, save, clearedTasks, clearedTalk) => CommittedKeepsFiles(w, other, save, clearedTasks, clearedTalk);
    case ClearTaskMark(other, ok) => MarksKeepFiles(w, other, ok);
    case ClearTalkMark(other, ok) => MarksKeepFiles(w, other, ok);
    case WriteFiles(_) =>
    case Ready =>
    case Retry(_) =>
  }

  lemma SettlingIsSure(w: World, e: Event, id: Id)
    requires Inv(w) && (e.SettleTasks? || e.SettleTalk?) && Deletes(w, e, id)
    ensures id !in w.memory && Sure(w, id)
  {
    assert w.config.possible == {w.config.visible};
  }

  lemma DroppingIsSure(w: World, e: Event, id: Id)
    requires Inv(w) && (e.DropBoard? || e.DropTalk?) && Deletes(w, e, id)
    ensures id !in w.memory && e.id == id
    ensures Sure(w, id) || (e.DropBoard? && StageIs(w, id, Barred(true)) && e.remarked && e.deleted && id in w.boards)
    ensures id in w.talks && id !in Next(w, e).talks ==> Sure(w, id)
  {
    assert StageSound(w, id, w.deletions[id]);
    assert w.config.visible in w.config.possible;
  }

  /** In every step but a retry's drop, files go only when no configuration the
      disk may still hold names their Project: never a live one's, nor one held
      back. */
  lemma FilesGoOnlyWhenGone(w: World, e: Event, id: Id)
    requires Inv(w) && Deletes(w, e, id)
    ensures id !in w.memory
    ensures Sure(w, id) || (e.DropBoard? && e.id == id && StageIs(w, id, Barred(true)) && e.remarked && e.deleted && id in w.boards)
    ensures id in w.talks && id !in Next(w, e).talks ==> Sure(w, id)
  {
    if e.SettleTasks? || e.SettleTalk? { SettlingIsSure(w, e, id); }
    else if e.DropBoard? || e.DropTalk? { DroppingIsSure(w, e, id); }
    else { OthersDeleteNothing(w, e, id); assert false; }
  }

  /** Exactly which steps lose a file of a Project that is, or may again be,
      configured. */
  lemma LosesIff(w: World, e: Event)
    requires Inv(w)
    ensures Loses(w, e) <==> LooseDrop(w, e)
  {
    assert w.config.visible in w.config.possible;
    if Loses(w, e) {
      var id :| Deletes(w, e, id) && !Gone(w, id);
      FilesGoOnlyWhenGone(w, e, id);
      assert StageSound(w, id, Barred(true));
    }
    if LooseDrop(w, e) {
      assert Deletes(w, e, e.id) && !Gone(w, e.id);
    }
  }

  ghost predicate NeverLoses(w: World, events: seq<Event>)
    decreases |events|
  {
    events == [] || (!Loses(w, events[0]) && NeverLoses(Next(w, events[0]), events[1..]))
  }

  predicate NeverLoose(w: World, events: seq<Event>)
    decreases |events|
  {
    events == [] || (!LooseDrop(w, events[0]) && NeverLoose(Next(w, events[0]), events[1..]))
  }

  /** A whole run of deletions, retries, saves, crashes and starts deletes no file
      of a Project that some version names exactly when no retry is loose. */
  lemma {:induction false} RunLosesNothingIff(w: World, events: seq<Event>)
    requires Inv(w)
    ensures NeverLoses(w, events) <==> NeverLoose(w, events)
    decreases |events|
  {
    if events != [] {
      LosesIff(w, events[0]);
      NextIsSound(w, events[0]);
      RunLosesNothingIff(Next(w, events[0]), events[1..]);
    }
  }

  /** A second deletion asked for on a Project this process does not list, in a
      process that read the configuration in full and does not hold it back. */
  predicate TrustedRetry(w: World, e: Event) {
    e.Retry? ==> w.readable && e.id !in w.held
  }

  predicate TrustedRun(w: World, events: seq<Event>)
    decreases |events|
  {
    events == [] || (TrustedRetry(w, events[0]) && TrustedRun(Next(w, events[0]), events[1..]))
  }

  /** A retry that has not dropped the board yet. */
  predicate RetryUnderWay(w: World, id: Id) {
    id in w.deletions && (w.deletions[id] == Removed(true) || w.deletions[id] == Barred(true))
  }

  /** No retry under way is one to distrust. */
  ghost predicate RetriesTrusted(w: World) {
    forall id :: RetryUnderWay(w, id) ==> w.readable && id !in w.held
  }

  /** `next` has no retry under way that `w` had not. */
  ghost predicate StartsNoRetry(w: World, next: World) {
    next.readable == w.readable && next.held == w.held && forall id :: RetryUnderWay(next, id) ==> RetryUnderWay(w, id)
  }

  lemma BarStartsNoRetry(w: World, id: Id, save: Save)
    ensures StartsNoRetry(w, PastBarrier(w, id, save))
  {
  }

  lemma BeginStartsNoRetry(w: World, id: Id, tasks: bool, talk: bool, cleared: bool)
    ensures StartsNoRetry(w, Begun(w, id, tasks, talk, cleared))
  {
  }

  lemma CommitStartsNoRetry(w: World, id: Id, save: Save, clearedTasks: bool, clearedTalk: bool)
    ensures StartsNoRetry(w, Committed(w, id, save, clearedTasks, clearedTalk))
  {
  }

  lemma DropStartsNoRetry(w: World, id: Id, remarked: bool, deleted: bool)
    ensures StartsNoRetry(w, BoardDropped(w, id, remarked, deleted))
  {
  }

  lemma ClearTaskStartsNoRetry(w: World, id: Id, ok: bool)
    ensures StartsNoRetry(w, TaskMarkCleared(w, id, ok))
  {
  }

  lemma DropTalkStartsNoRetry(w: World, id: Id, deleted: bool)
    ensures StartsNoRetry(w, TalkDropped(w, id, deleted))
  {
  }

  lemma ClearTalkStartsNoRetry(w: World, id: Id, ok: bool)
    ensures StartsNoRetry(w, TalkMarkCleared(w, id, ok))
  {
  }

  lemma SavedStartsNoRetry(w: World, proposed: set<Id>, save: Save)
    ensures StartsNoRetry(w, Saved(w, proposed, save))
  {
  }

  lemma SettlingStartsNoRetry(w: World, id: Id, deleted: bool, cleared: bool)
    ensures StartsNoRetry(w, TasksSettled(w, id, deleted, cleared)) && StartsNoRetry(w, TalkSettled(w, id, deleted, cleared))
  {
  }

  lemma TrustStays(w: World, e: Event)
    requires RetriesTrusted(w) && TrustedRetry(w, e)
    ensures RetriesTrusted(Next(w, e))
  {
    match e
    case Bar(id, save) => BarStartsNoRetry(w, id, save);
    case Begin(id, tasks, talk, cleared) => BeginStartsNoRetry(w, id, tasks, talk, cleared);
    case Commit(id, save, clearedTasks, clearedTalk) => CommitStartsNoRetry(w, id, save, clearedTasks, clearedTalk);
    case DropBoard(id, remarked, deleted) => DropStartsNoRetry(w, id, remarked, deleted);
    case ClearTaskMark(id, ok) => ClearTaskStartsNoRetry(w, id, ok);
    case DropTalk(id, deleted) => DropTalkStartsNoRetry(w, id, deleted);
    case ClearTalkMark(id, ok) => ClearTalkStartsNoRetry(w, id, ok);
    case Retry(id) => RetryIsTrusted(w, id);
    case Restart(_, _, _, _) =>
    case SettleTasks(id, deleted, cleared) => SettlingStartsNoRetry(w, id, deleted, cleared);
    case SettleTalk(id, deleted, cleared) => SettlingStartsNoRetry(w, id, deleted, cleared);
    case Create(id, save) => SavedStartsNoRetry(w, w.memory + {id}, save);
    case Resave(save) => SavedStartsNoRetry(w, w.memory, save);
    case WriteFiles(_) => assert StartsNoRetry(w, Next(w, e));
    case Ready => assert StartsNoRetry(w, Next(w, e));
  }

  lemma RetryIsTrusted(w: World, id: Id)
    requires RetriesTrusted(w) && w.readable && id !in w.held
    ensures RetriesTrusted(Retried(w, id))
  {
    forall other | RetryUnderWay(Retried(w, id), other) ensures other !in w.held {
      assert other == id || RetryUnderWay(w, other);
    }
  }

  lemma TrustedIsNotLoose(w: World, e: Event)
    requires Inv(w) && RetriesTrusted(w)
    ensures !LooseDrop(w, e)
  {
    if e.DropBoard? && StageIs(w, e.id, Barred(true)) {
      assert RetryUnderWay(w, e.id) && StageSound(w, e.id, Barred(true));
    }
  }

  /** What a caller can see before it asks is enough: while each retry is of a
      Project not held back, in a process that read the configuration in full,
      nothing is lost. */
  lemma {:induction false} TrustedRunLosesNothing(w: World, events: seq<Event>)
    requires Inv(w) && RetriesTrusted(w) && TrustedRun(w, events)
    ensures NeverLoses(w, events)
    decreases |events|
  {
    if events != [] {
      LosesIff(w, events[0]);
      TrustedIsNotLoose(w, events[0]);
      NextIsSound(w, events[0]);
      TrustStays(w, events[0]);
      TrustedRunLosesNothing(Next(w, events[0]), events[1..]);
    }
  }

  /** The only steps that take a cleanup record away. */
  predicate ClearsRecords(e: Event) {
    e.SettleTasks? || e.SettleTalk? || e.Begin? || e.Commit? || e.ClearTaskMark? || e.ClearTalkMark?
  }

  lemma DroppedKeepsRecords(w: World, id: Id, remarked: bool, deleted: bool)
    ensures w.taskMarks <= BoardDropped(w, id, remarked, deleted).taskMarks
    ensures w.talkMarks <= BoardDropped(w, id, remarked, deleted).talkMarks
  {
  }

  lemma TalkDroppedKeepsRecords(w: World, id: Id, deleted: bool)
    ensures TalkDropped(w, id, deleted).taskMarks == w.taskMarks && TalkDropped(w, id, deleted).talkMarks == w.talkMarks
  {
  }

  lemma OthersKeepRecords(w: World, e: Event)
    ensures !ClearsRecords(e) ==> w.taskMarks <= Next(w, e).taskMarks && w.talkMarks <= Next(w, e).talkMarks
  {
    match e
    case Restart(_, _, _, _) => BootKeepsFiles(w, e);
    case Create(id, save) => SavedKeepsFiles(w, w.memory + {id}, save);
    case Resave(save) => SavedKeepsFiles(w, w.memory, save);
    case Bar(id, save) => BarKeepsFiles(w, id, save);
    case DropBoard(id, remarked, deleted) => DroppedKeepsRecords(w, id, remarked, deleted);
    case DropTalk(id, deleted) => TalkDroppedKeepsRecords(w, id, deleted);
    case _ =>
  }

  lemma ListedIsVisible(w: World, id: Id)
    ensures ListsAgree(w) && id in w.memory ==> id in w.config.visible
  {
  }

  lemma BegunRecords(w: World, other: Id, tasks: bool, talk: bool, cleared: bool, id: Id)
    requires Inv(w)
    ensures var next := Begun(w, other, tasks, talk, cleared);
      && (id in w.taskMarks && id !in next.taskMarks ==> id in w.memory) && w.talkMarks <= next.talkMarks
  {
  }

  lemma CommittedRecords(w: World, other: Id, save: Save, clearedTasks: bool, clearedTalk: bool, id: Id)
    requires Inv(w)
    ensures var next := Committed(w, other, save, clearedTasks, clearedTalk);
      && (id in w.taskMarks && id !in next.taskMarks ==> id in w.memory)
      && (id in w.talkMarks && id !in next.talkMarks ==> id in w.memory)
  {
    if StageIs(w, other, Marked) { assert StageSound(w, other, Marked); }
  }

  lemma ClearedTaskRecord(w: World, other: Id, ok: bool, id: Id)
    requires Inv(w)
    ensures var next := TaskMarkCleared(w, other, ok);
      && (id in w.taskMarks && id !in next.taskMarks ==> id !in next.boards) && w.talkMarks == next.talkMarks
  {
    if other in w.deletions { assert StageSound(w, other, w.deletions[other]); }
  }

  lemma ClearedTalkRecord(w: World, other: Id, ok: bool, id: Id)
    requires Inv(w)
    ensures var next := TalkMarkCleared(w, other, ok);
      && (id in w.talkMarks && id !in next.talkMarks ==> id !in next.talks && Gone(w, id)) && w.taskMarks == next.taskMarks
  {
    if other in w.deletions { assert StageSound(w, other, w.deletions[other]); }
  }

  lemma SettledRecords(w: World, e: Event, id: Id)
    requires Inv(w) && (e.SettleTasks? || e.SettleTalk?)
    ensures id in w.taskMarks && id !in Next(w, e).taskMarks ==> id in w.memory || id !in Next(w, e).boards
    ensures id in w.talkMarks && id !in Next(w, e).talkMarks ==> id in w.memory || (id !in Next(w, e).talks && Gone(w, id))
  {
    if w.starting && w.trusted && w.taskMarks + w.talkMarks != {} { assert w.config.possible == {w.config.visible}; }
  }

  lemma RecordsGo(w: World, e: Event, id: Id)
    requires Inv(w)
    ensures id in w.taskMarks && id !in Next(w, e).taskMarks ==> id in w.config.visible || id !in Next(w, e).boards
    ensures id in w.talkMarks && id !in Next(w, e).talkMarks ==>
      id in w.config.visible || (id !in Next(w, e).talks && Gone(w, id))
  {
    if id in w.memory { ListedIsVisible(w, id); }
    match e
    case SettleTasks(_, _, _) => SettledRecords(w, e, id);
    case SettleTalk(_, _, _) => SettledRecords(w, e, id);
    case Begin(other, tasks, talk, cleared) => BegunRecords(w, other, tasks, talk, cleared, id);
    case Commit(other, save, clearedTasks, clearedTalk) => CommittedRecords(w, other, save, clearedTasks, clearedTalk, id);
    case ClearTaskMark(other, ok) => ClearedTaskRecord(w, other, ok, id);
    case ClearTalkMark(other, ok) => ClearedTalkRecord(w, other, ok, id);
    case _ => OthersKeepRecords(w, e);
  }

  /** The Task cleanup record goes only when the board is gone, or the Project is
      in the configuration as every reader sees it. */
  lemma TaskRecordGoesLast(w: World, e: Event, id: Id)
    requires Inv(w) && id in w.taskMarks && id !in Next(w, e).taskMarks
    ensures id in w.config.visible || id !in Next(w, e).boards
  {
    RecordsGo(w, e, id);
  }

  /** And the Conversation's record likewise. */
  lemma TalkRecordGoesLast(w: World, e: Event, id: Id)
    requires Inv(w) && id in w.talkMarks && id !in Next(w, e).talkMarks
    ensures id in w.config.visible || (id !in Next(w, e).talks && Gone(w, id))
  {
    RecordsGo(w, e, id);
  }

  /** A start that read the configuration in full and confirmed it, and whose
      unlinks succeed, finishes what any crash left: for each pending Project it
      does not hold back, no record is left, and no file unless it is live. */
  lemma StartFinishes(w: World, id: Id)
    requires Inv(w) && w.starting && w.trusted && id !in w.held && id in w.taskMarks + w.talkMarks
    requires id in w.boards ==> id in w.taskMarks || id in w.memory
    requires id in w.talks ==> id in w.talkMarks || id in w.memory
    ensures var end := Next(Next(w, SettleTasks(id, true, true)), SettleTalk(id, true, true));
      && id !in end.taskMarks && id !in end.talkMarks
      && (id in w.config.visible <==> id in end.memory)
      && (id !in end.memory ==> id !in end.boards && id !in end.talks && Gone(end, id))
      && (id in end.memory ==> (id in w.boards ==> id in end.boards) && (id in w.talks ==> id in end.talks))
  {
    assert w.config.possible == {w.config.visible};
  }

  // ------------------------------------------------ every leftover is on record

  /** Every configuration the disk may still hold names the Project. */
  predicate Everywhere(w: World, id: Id) {
    forall v :: v in w.config.possible ==> id in v
  }

  /** A file of the Project is on record, or no power loss can lose the Project;
      and the Project's own creation is not in doubt. */
  ghost predicate Covered(w: World, id: Id) {
    && (id in w.boards ==> id in w.taskMarks || Everywhere(w, id))
    && (id in w.talks ==> id in w.talkMarks || Everywhere(w, id))
    && (id in w.config.visible ==> Everywhere(w, id))
  }

  /** The Project is not created by a write left in doubt. */
  predicate SureCreation(w: World, e: Event, id: Id) {
    e.Create? && e.id == id ==> !Kept(w, e.save).PublishedNotDurable?
  }

  /** A write of the configuration that drops nobody this process does not list. */
  lemma SavedStaysCovered(w: World, proposed: set<Id>, save: Save, id: Id)
    requires Inv(w) && Covered(w, id)
    requires id in w.memory ==> id in proposed
    requires id in proposed && id !in w.config.visible ==> !Kept(w, save).PublishedNotDurable? && id !in w.boards && id !in w.talks
    requires id in w.held ==> id !in proposed
    ensures Covered(Saved(w, proposed, save), id)
    ensures Everywhere(w, id) ==> Everywhere(Saved(w, proposed, save), id)
  {
    assert w.config.visible in w.config.possible;
  }

  lemma WokenStaysCovered(w: World, e: Event, id: Id)
    requires Inv(w) && e.Restart? && Covered(w, id)
    ensures Covered(Woken(w, e), id)
  {
    assert w.config.visible in w.config.possible;
  }

  /** A start writes the configuration it found, or nothing. */
  lemma BootWrites(w: World, e: Event)
    requires e.Restart?
    ensures var up, boot := Woken(w, e), Boot(w, e); var r := Saved(up, up.memory, e.save);
      && boot.boards == up.boards && boot.talks == up.talks && boot.taskMarks == up.taskMarks && boot.talkMarks == up.talkMarks
      && (boot.config == up.config || boot.config == r.config)
      && r.boards == up.boards && r.talks == up.talks && r.taskMarks == up.taskMarks && r.talkMarks == up.talkMarks
  {
  }

  lemma CoveredFrame(w: World, next: World, id: Id)
    ensures next.config == w.config && SameFiles(w, next) && Covered(w, id) ==> Covered(next, id)
  {
  }

  lemma BootStaysCovered(w: World, e: Event, id: Id)
    requires Inv(w) && e.Restart? && Covered(w, id)
    ensures Covered(Boot(w, e), id)
  {
    var up := Woken(w, e);
    WokenIsSound(w, e);
    WokenStaysCovered(w, e, id);
    BootWrites(w, e);
    SavedStaysCovered(up, up.memory, e.save, id);
    CoveredFrame(if Boot(w, e).config == up.config then up else Saved(up, up.memory, e.save), Boot(w, e), id);
  }

  lemma SettlingStaysCovered(w: World, e: Event, id: Id)
    requires Inv(w) && (e.SettleTasks? || e.SettleTalk?) && Covered(w, id)
    ensures Covered(Next(w, e), id)
  {
  }

  lemma SavingStaysCovered(w: World, e: Event, id: Id)
    requires Inv(w) && (e.Create? || e.Resave? || e.Bar?) && Covered(w, id) && SureCreation(w, e, id)
    ensures Covered(Next(w, e), id)
  {
    if e.Create? && !w.starting && Fresh(w, e.id) {
      SavedStaysCovered(w, w.memory + {e.id}, e.save, id);
    } else if e.Resave? || e.Bar? {
      SavedStaysCovered(w, w.memory, e.save, id);
    }
  }

  lemma BegunStaysCovered(w: World, other: Id, tasks: bool, talk: bool, cleared: bool, id: Id)
    requires Inv(w) && Covered(w, id)
    ensures Covered(Begun(w, other, tasks, talk, cleared), id)
  {
    if id in w.memory { ListedIsVisible(w, id); }
  }

  lemma CommittedStaysCovered(w: World, other: Id, save: Save, clearedTasks: bool, clearedTalk: bool, id: Id)
    requires Inv(w) && Covered(w, id)
    ensures Covered(Committed(w, other, save, clearedTasks, clearedTalk), id)
  {
    if StageIs(w, other, Marked) {
      assert StageSound(w, other, Marked);
      ListedIsVisible(w, other);
      if other != id {
        SavedStaysCovered(w, w.memory - {other}, save, id);
      } else {
        assert id !in w.held;
      }
    }
  }

  lemma TaskMarkStaysCovered(w: World, other: Id, ok: bool, id: Id)
    requires Inv(w) && Covered(w, id)
    ensures Covered(TaskMarkCleared(w, other, ok), id)
  {
    if other in w.deletions { assert StageSound(w, other, w.deletions[other]); }
  }

  lemma TalkStaysCovered(w: World, other: Id, deleted: bool, id: Id)
    ensures Covered(w, id) ==> Covered(TalkDropped(w, other, deleted), id)
  {
  }

  lemma TalkMarkStaysCovered(w: World, other: Id, ok: bool, id: Id)
    requires Inv(w) && Covered(w, id)
    ensures Covered(TalkMarkCleared(w, other, ok), id)
  {
    if other in w.deletions { assert StageSound(w, other, w.deletions[other]); }
  }

  lemma DropStaysCovered(w: World, drop: Id, remarked: bool, deleted: bool, id: Id)
    ensures Covered(w, id) ==> Covered(BoardDropped(w, drop, remarked, deleted), id)
  {
  }

  /** At every stage of every deletion, retry, save, crash and start, what is left
      of the Project is on record, or every version still names it. */
  lemma StaysCovered(w: World, e: Event, id: Id)
    requires Inv(w) && Covered(w, id) && SureCreation(w, e, id)
    ensures Covered(Next(w, e), id)
  {
    match e
    case Restart(_, _, _, _) => BootStaysCovered(w, e, id);
    case SettleTasks(_, _, _) => SettlingStaysCovered(w, e, id);
    case SettleTalk(_, _, _) => SettlingStaysCovered(w, e, id);
    case Create(_, _) => SavingStaysCovered(w, e, id);
    case Resave(_) => SavingStaysCovered(w, e, id);
    case Bar(_, _) => SavingStaysCovered(w, e, id);
    case Begin(other, tasks, talk, cleared) => BegunStaysCovered(w, other, tasks, talk, cleared, id);
    case Commit(other, save, clearedTasks, clearedTalk) => CommittedStaysCovered(w, other, save, clearedTasks, clearedTalk, id);
    case DropBoard(other, remarked, deleted) => DropStaysCovered(w, other, remarked, deleted, id);
    case ClearTaskMark(other, ok) => TaskMarkStaysCovered(w, other, ok, id);
    case DropTalk(other, deleted) => TalkStaysCovered(w, other, deleted, id);
    case ClearTalkMark(other, ok) => TalkMarkStaysCovered(w, other, ok, id);
    case WriteFiles(other) => if other in w.memory { ListedIsVisible(w, other); }
    case Ready =>
    case Retry(_) =>
  }

  predicate SurelyCreated(w: World, events: seq<Event>, id: Id)
    decreases |events|
  {
    events == [] || (SureCreation(w, events[0], id) && SurelyCreated(Next(w, events[0]), events[1..], id))
  }

  lemma {:induction false} RunStaysCovered(w: World, events: seq<Event>, id: Id)
    requires Inv(w) && Covered(w, id) && SurelyCreated(w, events, id)
    ensures Covered(Play(w, events), id) && Inv(Play(w, events))
    decreases |events|
  {
    if events != [] {
      StaysCovered(w, events[0], id);
      NextIsSound(w, events[0]);
      RunStaysCovered(Next(w, events[0]), events[1..], id);
    }
  }

  /** Wherever a run of deletions was cut short, the next start that reads the
      configuration in full, confirms it and does not hold the Project back
      finishes its deletion: no record is left, and no file unless it is live. */
  lemma InterruptedDeletionFinishes(w: World, events: seq<Event>, start: Event, id: Id)
    requires Inv(w) && Covered(w, id) && SurelyCreated(w, events, id)
    requires start.Restart? && id !in start.held && Boot(Play(w, events), start).trusted
    ensures var up := Boot(Play(w, events), start);
      var end := Next(Next(up, SettleTasks(id, true, true)), SettleTalk(id, true, true));
      && id !in end.taskMarks && id !in end.talkMarks
      && (id in up.config.visible <==> id in end.memory)
      && (id !in end.memory ==> id !in end.boards && id !in end.talks)
      && (id in end.memory ==> (id in up.boards ==> id in end.boards) && (id in up.talks ==> id in end.talks))
  {
    var cut := Play(w, events);
    RunStaysCovered(w, events, id);
    BootIsSound(cut, start);
    BootStaysCovered(cut, start, id);
    var up := Boot(cut, start);
    assert up.config.visible in up.config.possible;
    if id in up.taskMarks + up.talkMarks {
      StartFinishes(up, id);
    }
  }

  lemma PlayThree(w: World, a: Event, b: Event, c: Event)
    ensures Play(w, [a, b, c]) == Next(Next(Next(w, a), b), c)
  {
    assert [a, b, c][1..] == [b, c] && [b, c][1..] == [c] && [c][1..] == [];
    assert Play(Next(Next(w, a), b), [c]) == Next(Next(Next(w, a), b), c);
  }

  /** What a retried deletion hangs on, whatever this process could read. Let
      through by its barrier, it deletes the board; and no version names the
      Project exactly when the file as it stands does not, or, where the file
      could not be read in full, when no version did in the first place. */
  lemma RetriedDeletion(w: World, id: Id, save: Save)
    requires Inv(w) && !w.starting && id in w.boards && id !in w.memory && id !in w.deletions && Barrier(w, save).1
    ensures var end := Play(w, [Retry(id), Bar(id, save), DropBoard(id, true, true)]);
      && id !in end.boards
      && (Gone(end, id) <==> if w.readable then id !in w.config.visible else Gone(w, id))
  {
    var asked := Next(w, Retry(id));
    var through := Next(asked, Bar(id, save));
    assert asked.deletions[id] == Removed(true) && Barrier(asked, save).1;
    BarrierSettles(asked, save, id);
    assert through.deletions[id] == Barred(true);
    PlayThree(w, Retry(id), Bar(id, save), DropBoard(id, true, true));
    assert Next(through, DropBoard(id, true, true)).config == through.config;
  }

  /** With no Conversation record of the Project, the file as it stands says the
      same as every version the disk may hold, even where it could not be read. */
  lemma UnrecordedIsCertain(w: World, id: Id)
    requires Inv(w) && id !in w.talkMarks
    ensures Gone(w, id) <==> id !in w.config.visible
  {
    assert w.config.visible in w.config.possible;
  }

  /** Both untrusted retries, on a Project that is configured: asked of one that
      import recovery holds back, or in a process that could not read the
      configuration, the deletion is let through and the board is lost. */
  lemma UntrustedRetryLosesABoard(id: Id, readable: bool)
    ensures var w := World(
        File({id}, {{id}}), readable, {}, if readable then {id} else {}, false, false, readable, {}, {}, {id}, {}, map[], true);
      var through := Next(Next(w, Retry(id)), Bar(id, Confirmed));
      && Inv(w) && !TrustedRetry(w, Retry(id))
      && Loses(through, DropBoard(id, true, true))
      && var end := Next(through, DropBoard(id, true, true)); id in end.config.visible && id !in end.boards
  {
    var w := World(
      File({id}, {{id}}), readable, {}, if readable then {id} else {}, false, false, readable, {}, {}, {id}, {}, map[], true);
    var asked := Next(w, Retry(id));
    assert asked.deletions == map[id := Removed(true)];
    var through := Next(asked, Bar(id, Confirmed));
    assert through.deletions == map[id := Barred(true)];
    assert Deletes(through, DropBoard(id, true, true), id) && !Gone(through, id);
  }

  // -------------------------------------------- a deletion nothing stands in the way of

  /** The first deletion of a listed Project, with every unlink done and every
      write answered as `save` says. */
  function Straight(id: Id, save: Save): seq<Event> {
    [Begin(id, true, true, true), Commit(id, save, true, true), Bar(id, save)] + Unlinks(id)
  }

  function Unlinks(id: Id): seq<Event> {
    [DropBoard(id, true, true), ClearTaskMark(id, true)] + [DropTalk(id, true), ClearTalkMark(id, true)]
  }

  lemma {:induction false} PlayConcat(w: World, first: seq<Event>, rest: seq<Event>)
    ensures Play(w, first + rest) == Play(Play(w, first), rest)
    decreases |first|
  {
    if first == [] {
      assert first + rest == rest;
    } else {
      assert (first + rest)[1..] == first[1..] + rest;
      PlayConcat(Next(w, first[0]), first[1..], rest);
    }
  }

  lemma PlayTwo(w: World, a: Event, b: Event)
    ensures Play(w, [a, b]) == Next(Next(w, a), b)
  {
    assert [a, b][1..] == [b] && [b][1..] == [];
    assert Play(Next(w, a), [b]) == Next(Next(w, a), b);
  }

  lemma PlayStraight(w: World, id: Id, save: Save)
    ensures var barred := Next(Next(Next(w, Begin(id, true, true, true)), Commit(id, save, true, true)), Bar(id, save));
      Play(w, Straight(id, save)) == Play(barred, Unlinks(id))
  {
    PlayConcat(w, [Begin(id, true, true, true), Commit(id, save, true, true), Bar(id, save)], Unlinks(id));
    PlayThree(w, Begin(id, true, true, true), Commit(id, save, true, true), Bar(id, save));
  }

  lemma BoardGoes(w: World, id: Id)
    requires StageIs(w, id, Barred(false))
    ensures Next(Next(w, DropBoard(id, true, true)), ClearTaskMark(id, true)) ==
      w.(boards := w.boards - {id}, taskMarks := w.taskMarks - {id}, deletions := w.deletions[id := TaskMarkGone])
  {
  }

  lemma TalkGoes(w: World, id: Id)
    requires StageIs(w, id, TaskMarkGone)
    ensures Next(Next(w, DropTalk(id, true)), ClearTalkMark(id, true)) ==
      w.(talks := w.talks - {id}, talkMarks := w.talkMarks - {id}, deletions := w.deletions - {id})
  {
    assert w.deletions[id := TalkGone] - {id} == w.deletions - {id};
  }

  /** The files go one after the other, each with its record. */
  lemma UnlinksFinish(w: World, id: Id)
    requires StageIs(w, id, Barred(false))
    ensures Play(w, Unlinks(id)) ==
      w.(boards := w.boards - {id}, taskMarks := w.taskMarks - {id}, talks := w.talks - {id},
         talkMarks := w.talkMarks - {id}, deletions := w.deletions - {id})
  {
    PlayConcat(w, [DropBoard(id, true, true), ClearTaskMark(id, true)], [DropTalk(id, true), ClearTalkMark(id, true)]);
    PlayTwo(w, DropBoard(id, true, true), ClearTaskMark(id, true));
    BoardGoes(w, id);
    var half := w.(boards := w.boards - {id}, taskMarks := w.taskMarks - {id}, deletions := w.deletions[id := TaskMarkGone]);
    PlayTwo(half, DropTalk(id, true), ClearTalkMark(id, true));
    TalkGoes(half, id);
    assert w.deletions[id := TaskMarkGone] - {id} == w.deletions - {id};
  }

  lemma UnlinksIgnored(w: World, id: Id)
    requires id !in w.deletions
    ensures Play(w, Unlinks(id)) == w
  {
    PlayConcat(w, [DropBoard(id, true, true), ClearTaskMark(id, true)], [DropTalk(id, true), ClearTalkMark(id, true)]);
    PlayTwo(w, DropBoard(id, true, true), ClearTaskMark(id, true));
    PlayTwo(w, DropTalk(id, true), ClearTalkMark(id, true));
  }

  /** The deletion has begun and been written to the configuration: both records
      are in place, and the Project is off every list. */
  lemma StraightCommits(w: World, id: Id)
    requires Inv(w) && !w.starting && w.readable && id in w.memory && id !in w.deletions
    ensures var r := Next(Next(w, Begin(id, true, true, true)), Commit(id, Confirmed, true, true));
      && r.memory == w.memory - {id} && id !in r.config.visible && r.deletions == w.deletions[id := Removed(false)]
      && r.taskMarks == w.taskMarks + {id} && r.talkMarks == w.talkMarks + {id} && r.boards == w.boards && r.talks == w.talks
      && r.readable && r.held == w.held && r.synchronizes == w.synchronizes && r.unconfirmed == !w.synchronizes
      && (w.synchronizes ==> r.config.possible == {r.config.visible})
  {
    assert id in w.config.visible - w.held;
  }

  /** A confirmed deletion nothing hinders leaves nothing of the Project: no file,
      no record, no entry in any version of the configuration; and it leaves every
      other Project as it was. */
  lemma StraightDeletionIsComplete(w: World, id: Id)
    requires Inv(w) && !w.starting && w.readable && w.synchronizes && id in w.memory && id !in w.deletions
    ensures var end := Play(w, Straight(id, Confirmed));
      && end.memory == w.memory - {id} && Gone(end, id)
      && end.boards == w.boards - {id} && end.talks == w.talks - {id}
      && end.taskMarks == w.taskMarks - {id} && end.talkMarks == w.talkMarks - {id}
      && end.deletions == w.deletions
  {
    StraightCommits(w, id);
    var committed := Next(Next(w, Begin(id, true, true, true)), Commit(id, Confirmed, true, true));
    PlayStraight(w, id, Confirmed);
    var barred := committed.(deletions := w.deletions[id := Barred(false)]);
    assert Next(committed, Bar(id, Confirmed)) == barred;
    UnlinksFinish(barred, id);
    assert w.taskMarks + {id} - {id} == w.taskMarks - {id} && w.talkMarks + {id} - {id} == w.talkMarks - {id};
    assert w.deletions[id := Barred(false)] - {id} == w.deletions;
  }

  /** Where the filesystem confirms nothing, the same deletion takes the Project off
      the lists and stops at the barrier: every file stays, and both records stay to
      finish it. */
  lemma UnsynchronizedDeletionWaits(w: World, id: Id)
    requires Inv(w) && !w.starting && w.readable && !w.synchronizes && id in w.memory && id !in w.deletions
    ensures var end := Play(w, Straight(id, Confirmed));
      && end.memory == w.memory - {id} && end.boards == w.boards && end.talks == w.talks
      && end.taskMarks == w.taskMarks + {id} && end.talkMarks == w.talkMarks + {id}
      && end.deletions == w.deletions && end.unconfirmed
  {
    StraightCommits(w, id);
    var committed := Next(Next(w, Begin(id, true, true, true)), Commit(id, Confirmed, true, true));
    PlayStraight(w, id, Confirmed);
    var barred := Next(committed, Bar(id, Confirmed));
    assert w.deletions[id := Removed(false)] - {id} == w.deletions;
    assert SameFiles(committed, barred) && barred.deletions == w.deletions && barred.unconfirmed && barred.memory == w.memory - {id};
    UnlinksIgnored(barred, id);
  }

  /** A deletion refused before the configuration was written leaves the Project as
      it was; its records go with it as far as they can be cleared, the Task record
      first. */
  lemma RefusedDeletionUndoes(w: World, id: Id, save: Save, talk: bool, clearedTasks: bool, clearedTalk: bool)
    requires Inv(w) && !w.starting && id in w.memory && id !in w.deletions && save.NotPublished?
    requires id !in w.taskMarks && id !in w.talkMarks
    ensures var begun := Next(w, Begin(id, true, talk, clearedTasks));
      var end := Next(begun, Commit(id, save, clearedTasks, clearedTalk));
      && end.config == w.config && end.memory == w.memory && end.boards == w.boards && end.talks == w.talks
      && end.deletions == w.deletions
      && end.taskMarks == (if clearedTasks then w.taskMarks else w.taskMarks + {id})
      && end.talkMarks == (if !talk || (clearedTasks && clearedTalk) then w.talkMarks else w.talkMarks + {id})
    ensures Next(w, Begin(id, false, talk, clearedTasks)) == w
  {
    assert w.taskMarks + {id} - {id} == w.taskMarks && w.talkMarks + {id} - {id} == w.talkMarks;
    assert w.deletions[id := Marked] - {id} == w.deletions;
  }

  /** Wherever a deletion fails after the configuration was written, it ends there:
      what it has not reached stays, with the record that speaks for it. */
  lemma FailedLegsStop(w: World, id: Id, retry: bool)
    ensures StageIs(w, id, Removed(retry)) && !Barrier(w, NotPublished).1 ==>
      Next(w, Bar(id, NotPublished)) == w.(deletions := w.deletions - {id})
    ensures StageIs(w, id, Barred(retry)) ==>
      Next(w, DropBoard(id, true, false)) ==
        w.(taskMarks := if retry then w.taskMarks + {id} else w.taskMarks, deletions := w.deletions - {id})
    ensures StageIs(w, id, Barred(true)) ==> Next(w, DropBoard(id, false, true)) == w.(deletions := w.deletions - {id})
    ensures StageIs(w, id, BoardGone(retry)) ==> Next(w, ClearTaskMark(id, false)) == w.(deletions := w.deletions - {id})
    ensures StageIs(w, id, TaskMarkGone) ==> Next(w, DropTalk(id, false)) == w.(deletions := w.deletions - {id})
    ensures StageIs(w, id, TalkGone) ==> Next(w, ClearTalkMark(id, false)) == w.(deletions := w.deletions - {id})
  {
  }

  /** A retry puts the Task record back before it deletes the board, clears it
      afterwards, and touches no Conversation. */
  lemma RetryRemarks(w: World, id: Id)
    requires StageIs(w, id, Barred(true))
    ensures var dropped := Next(w, DropBoard(id, true, true)); var end := Next(dropped, ClearTaskMark(id, true));
      && dropped.boards == w.boards - {id} && dropped.taskMarks == w.taskMarks + {id}
      && end == w.(boards := w.boards - {id}, taskMarks := w.taskMarks - {id}, deletions := w.deletions - {id})
  {
    assert w.taskMarks + {id} - {id} == w.taskMarks - {id};
    assert w.deletions[id := BoardGone(true)] - {id} == w.deletions - {id};
  }

  /** What a start finds: one version of the file or those it had, the Projects it
      can read and does not hold back, no deletion under way; and what it may rely
      on: a configuration it read in full, and where records are pending confirmed. */
  lemma StartFinds(w: World, survivor: Option<set<Id>>, readable: bool, held: set<Id>, save: Save)
    ensures var r := Next(w, Restart(survivor, readable, held, save));
      var lost := survivor.Some? && survivor.value in w.config.possible;
      var visible := if lost then survivor.value else w.config.visible;
      var before := if lost then {visible} else w.config.possible;
      var pending := w.taskMarks + w.talkMarks != {};
      var confirmed := save.Confirmed? && w.synchronizes;
      && r.config.visible == visible && r.memory == (if readable then visible - held else {})
      && r.config.possible == (if !(readable && pending) || save.NotPublished? then before
                               else if confirmed then {visible} else before + {visible})
      && r.readable == readable && r.held == held && r.starting && r.deletions == map[] && r.synchronizes == w.synchronizes
      && (r.trusted <==> readable && (pending ==> confirmed)) && (r.unconfirmed <==> readable && pending && !confirmed)
      && SameFiles(w, r)
  {
    var visible := Woken(w, Restart(survivor, readable, held, save)).config.visible;
    assert (visible * held) + (visible - held) == visible;
    BootFromWoken(w, Restart(survivor, readable, held, save));
  }

  /** A write of the configuration is made only by a process that has started and
      read it in full; it keeps the entries held back, and is confirmed only where
      the filesystem can. */
  predicate ConfigWritten(w: World, proposed: set<Id>, save: Save, r: World) {
    if !w.readable || save.NotPublished? then r == w
    else
      var content := (w.config.visible * w.held) + proposed; var confirmed := save.Confirmed? && w.synchronizes;
      && r.memory == proposed && r.config.visible == content
      && r.config.possible == (if confirmed then {content} else w.config.possible + {content})
      && r.unconfirmed == !confirmed
      && r == w.(config := r.config, memory := r.memory, unconfirmed := r.unconfirmed)
  }

  lemma OrdinarySteps(w: World, id: Id, save: Save)
    ensures if !w.starting && Fresh(w, id) then ConfigWritten(w, w.memory + {id}, save, Next(w, Create(id, save)))
      else Next(w, Create(id, save)) == w
    ensures if w.starting then Next(w, Resave(save)) == w else ConfigWritten(w, w.memory, save, Next(w, Resave(save)))
    ensures Next(w, Ready) == w.(starting := false)
    ensures Next(w, WriteFiles(id)) ==
      if id in w.memory then w.(boards := w.boards + {id}, talks := w.talks + {id}) else w
    ensures Next(w, Retry(id)) ==
      if !w.starting && id !in w.memory && id !in w.deletions && (id in w.boards || id in w.taskMarks)
      then w.(deletions := w.deletions[id := Removed(true)]) else w
  {
  }

  /** The write that takes the Project off the lists, left in doubt, ends the
      deletion with both records in place. */
  lemma DoubtfulCommitStops(w: World, id: Id, clearedTasks: bool, clearedTalk: bool)
    requires StageIs(w, id, Marked) && w.readable
    ensures var r := Next(w, Commit(id, PublishedNotDurable, clearedTasks, clearedTalk));
      && r.deletions == w.deletions - {id} && r.memory == w.memory - {id} && r.unconfirmed && SameFiles(w, r)
      && r.config.visible == (w.config.visible * w.held) + (w.memory - {id})
      && r.config.possible == w.config.possible + {r.config.visible}
  {
  }

  /** What a start does with one record of each kind: nothing for a Project held
      back or a start that is not trusted; for a live one it clears the record; for
      any other it deletes the file of that kind first. */
  predicate Settles(marks: set<Id>, files: set<Id>, live: bool, id: Id, deleted: bool, cleared: bool, m: set<Id>, f: set<Id>) {
    if live then f == files && m == (if cleared then marks - {id} else marks)
    else if !deleted then f == files && m == marks
    else f == files - {id} && m == (if cleared then marks - {id} else marks)
  }

  lemma SettlingMeans(w: World, id: Id, deleted: bool, cleared: bool)
    ensures var r := Next(w, SettleTasks(id, deleted, cleared));
      && r == w.(boards := r.boards, taskMarks := r.taskMarks)
      && if w.starting && w.trusted && id in w.taskMarks && id !in w.held
         then Settles(w.taskMarks, w.boards, id in w.memory, id, deleted, cleared, r.taskMarks, r.boards) else r == w
    ensures var r := Next(w, SettleTalk(id, deleted, cleared));
      && r == w.(talks := r.talks, talkMarks := r.talkMarks)
      && if w.starting && w.trusted && id in w.talkMarks && id !in w.held
         then Settles(w.talkMarks, w.talks, id in w.memory, id, deleted, cleared, r.talkMarks, r.talks) else r == w
  {
  }

  // ------------------------------------------------------------------ the code

  /** The startup pass over the Task cleanup records, in the order listed. */
  method SettleRecords(start: World, pending: seq<Id>, deleted: set<Id>, cleared: set<Id>) returns (w: World)
    requires Inv(start) && start.starting && start.trusted
    ensures Inv(w) && w.config == start.config && w.talkMarks == start.talkMarks && w.talks == start.talks
    ensures forall id :: id in start.boards && id !in w.boards ==> Gone(start, id) && id !in start.held
    ensures forall id :: id in pending && id !in start.held && id in cleared && (id in deleted || id in start.memory) ==>
      id !in w.taskMarks && (id in start.memory || id !in start.taskMarks || id !in w.boards)
  {
    w := start;
    for i := 0 to |pending|
      invariant Inv(w) && w == start.(taskMarks := w.taskMarks, boards := w.boards)
      invariant w.taskMarks <= start.taskMarks && w.boards <= start.boards
      invariant forall id :: id in start.boards && id !in w.boards ==> Gone(start, id) && id !in start.held
      invariant forall id :: id in start.taskMarks && id !in w.taskMarks && id !in start.memory ==> id !in w.boards
      invariant forall id :: id in pending[..i] && id !in start.held && id in cleared && (id in deleted || id in start.memory) ==>
        id !in w.taskMarks
    {
      var id := pending[i];
      var e := SettleTasks(id, id in deleted, id in cleared);
      NextIsSound(w, e);
      if id in w.boards && id !in Next(w, e).boards { FilesGoOnlyWhenGone(w, e, id); }
      w := Next(w, e);
      assert pending[..i + 1] == pending[..i] + [id];
    }
    assert pending[..|pending|] == pending;
  }
}
