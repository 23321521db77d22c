/** What a power loss may undo of an approval: an effect recorded as Applied, and
    how often it was made (`src-tauri/src/conversation_actions.rs`). */
module Survival {
  import opened Durability
  import opened Tasks
  import opened Boards
  import opened Conversations
  import opened Effects
  import opened Approvals

  // ------------------------------------------------------- applied, but lost

  /** An approval that is tried again, all the way, with the Conversation saved. */
  predicate CarriedOut(w: World, c: Call, m: Mutation) {
    && Find(w.saved.actions, c.action).Some? && Find(w.saved.actions, c.action).value.mutation == m
    && StatusOf(w, c.action) == Some(Approved) && c.approve && c.cut.Finishes?
  }

  lemma FailedCall(w: World, c: Call, m: Mutation)
    requires CarriedOut(w, c, m)
    ensures Execute(w.store, w.project, c.action, m, c.env).1.Err? ==>
      Decide(w, c).0 == w.(store := Execute(w.store, w.project, c.action, m, c.env).0)
  {
  }

  /** A call that finds the effect in memory records it and writes no Task. */
  lemma RetriedCall(w: World, c: Call, m: Mutation)
    requires CarriedOut(w, c, m) && Repeatable(m) && Visible(w.project, c.action, m, TaskAt(w.store, TargetOf(m)))
    requires c.last.Confirmed? && !HeldUp(m, c.env)
    ensures var (end, reply) := Decide(w, c);
      end.store == w.store && reply == Some(Ok(true)) && StatusOf(end, c.action) == Some(Applied)
  {
    RetryObserves(w.store, w.project, c.action, m, c.env);
    ConcludedStatus(w.saved, c.action, Execute(w.store, w.project, c.action, m, c.env).1.value, c.action);
  }

  lemma UnconfirmedFails(s: Store, project: Id, action: Id, m: Mutation, env: Env)
    requires env.save.PublishedNotDurable?
    ensures Execute(s, project, action, m, env).0 != s ==> Execute(s, project, action, m, env).1.Err?
  {
  }

  /** The Task write of the first attempt is in place but not confirmed. The next
      attempt finds the effect in memory and writes nothing, the Conversation is
      saved as Applied, and a power loss may still undo the effect. */
  lemma AppliedMayNotLast(w: World, c: Call, retry: Call, m: Mutation)
    requires CarriedOut(w, c, m) && Repeatable(m) && InStep(w.store, w.project)
    requires c.env.save.PublishedNotDurable?
    requires retry.action == c.action && retry.approve && retry.cut.Finishes? && retry.last.Confirmed? && !HeldUp(m, retry.env)
    ensures Execute(w.store, w.project, c.action, m, c.env).0 != w.store ==>
      var once := Decide(w, c).0; var (end, reply) := Decide(once, retry);
      && reply == Some(Ok(true)) && StatusOf(end, c.action) == Some(Applied)
      && Visible(w.project, c.action, m, TaskAt(end.store, TargetOf(m)))
      && !Lasting(end.store, w.project, c.action, m)
  {
    EffectBecomesVisible(w.store, w.project, c.action, m, c.env);
    UnconfirmedMayNotLast(w.store, w.project, c.action, m, c.env);
    UnconfirmedFails(w.store, w.project, c.action, m, c.env);
    FailedCall(w, c, m);
    if Execute(w.store, w.project, c.action, m, c.env).0 != w.store {
      RetriedCall(Decide(w, c).0, retry, m);
    }
  }

  /** No Task save of the run is left in doubt, and nothing else leaves the file
      in doubt either. */
  ghost predicate ConfirmedRun(w: World, events: seq<Event>)
    decreases |events|
  {
    events == [] || (
      && (events[0].Act? ==> !events[0].call.env.save.PublishedNotDurable?)
      && (events[0].Elsewhere? ==> OneVersion(events[0].store, w.project))
      && ConfirmedRun(Next(w, events[0]), events[1..]))
  }

  lemma ConfirmedStep(w: World, e: Event)
    requires OneVersion(w.store, w.project) && (e.Act? ==> !e.call.env.save.PublishedNotDurable?)
    requires e.Elsewhere? ==> OneVersion(e.store, w.project)
    ensures OneVersion(Next(w, e).store, w.project)
  {
    if e.Act? && Find(w.saved.actions, e.call.action).Some? {
      var m := Find(w.saved.actions, e.call.action).value.mutation;
      ActsOnce(w, e.call, m);
      AttemptKeepsOneVersion(w.store, w.project, e.call.action, m, e.call.env);
    }
  }

  lemma SameProject(w: World, e: Event)
    ensures Next(w, e).project == w.project
  {
    if e.Act? && Find(w.saved.actions, e.call.action).Some? {
      DecideShape(w, e.call);
    }
  }

  lemma {:induction false} ConfirmedRunKeepsOneVersion(w: World, events: seq<Event>)
    requires OneVersion(w.store, w.project) && ConfirmedRun(w, events)
    ensures OneVersion(Play(w, events).store, w.project) && Play(w, events).project == w.project
    decreases |events|
  {
    if events != [] {
      ConfirmedStep(w, events[0]);
      SameProject(w, events[0]);
      ConfirmedRunKeepsOneVersion(Next(w, events[0]), events[1..]);
    }
  }

  /** While no Task save is left in doubt, Applied means that every version of the
      Task file a power loss may leave shows the effect. */
  lemma AppliedLasts(w: World, events: seq<Event>, id: Id, m: Mutation, start: Option<Task>)
    requires Repeatable(m) && Accounted(w, id, m, start) && Undisturbed(w, events, id, TargetOf(m))
    requires OneVersion(w.store, w.project) && ConfirmedRun(w, events)
    ensures var end := Play(w, events); StatusOf(end, id) == Some(Applied) ==> Lasting(end.store, w.project, id, m)
  {
    var end := Play(w, events);
    RecordMatchesEffect(w, events, id, m, start);
    ConfirmedRunKeepsOneVersion(w, events);
    OneVersionLasts(end.store, w.project, id, m);
  }

  // -------------------------------------------- at most once, power lost or not

  function InVersion(b: Board, target: Id): Option<Task> {
    if target in b then Some(b[target]) else None
  }

  /** `t` is a state of the target in memory or in some version of its file. */
  ghost predicate Held(s: Store, project: Id, target: Id, t: Option<Task>) {
    t == TaskAt(s, target) || exists b :: b in FileOf(s, project).possible && t == InVersion(b, target)
  }

  /** As it was to begin with, or as exactly one attempt on that leaves it. */
  ghost predicate MadeOnce(project: Id, id: Id, m: Mutation, start: Option<Task>, t: Option<Task>) {
    t == start || exists s: Store, env: Env :: MadeFrom(s, env, project, id, m, start, t)
  }

  predicate MadeFrom(s: Store, env: Env, project: Id, id: Id, m: Mutation, start: Option<Task>, t: Option<Task>) {
    TaskAt(s, TargetOf(m)) == start && t == TaskAt(Execute(s, project, id, m, env).0, TargetOf(m))
  }

  ghost predicate AllMadeOnce(s: Store, project: Id, id: Id, m: Mutation, start: Option<Task>) {
    forall t :: Held(s, project, TargetOf(m), t) ==> MadeOnce(project, id, m, start, t)
  }

  /** Besides the action's own calls, no step gives the target a state it did not
      have in memory or in a version of the file: writers of other Tasks, confirmed
      and unconfirmed saves, and a power loss that brings back an older version. */
  ghost predicate OnlyReverted(w: World, events: seq<Event>, id: Id, target: Id)
    decreases |events|
  {
    events == [] || (
      && ((events[0].Act? && events[0].call.action == id)
          || forall t :: Held(Next(w, events[0]).store, w.project, target, t) ==> Held(w.store, w.project, target, t))
      && OnlyReverted(Next(w, events[0]), events[1..], id, target))
  }

  /** What has been made once is visible or still as it was. */
  lemma MadeOnceIsVisible(project: Id, id: Id, m: Mutation, start: Option<Task>, t: Option<Task>)
    requires Repeatable(m) && MadeOnce(project, id, m, start, t)
    ensures t == start || Visible(project, id, m, t)
  {
    if t != start {
      var s: Store, env: Env :| MadeFrom(s, env, project, id, m, start, t);
      EffectBecomesVisible(s, project, id, m, env);
    }
  }

  lemma AttemptMakesOnce(s: Store, project: Id, id: Id, m: Mutation, env: Env, start: Option<Task>)
    requires Repeatable(m) && AllMadeOnce(s, project, id, m, start)
    ensures AllMadeOnce(Execute(s, project, id, m, env).0, project, id, m, start)
  {
    var after := Execute(s, project, id, m, env).0;
    var target, now := TargetOf(m), TaskAt(s, TargetOf(m));
    AttemptIsLawful(s, project, id, m, env);
    if after != s {
      EffectBecomesVisible(s, project, id, m, env);
      assert Held(s, project, target, now);
      MadeOnceIsVisible(project, id, m, start, now);
      assert MadeFrom(s, env, project, id, m, start, TaskAt(after, target));
      var staged :| WroteBoard(s, project, target, env.save, staged, after);
      forall t | Held(after, project, target, t) ensures MadeOnce(project, id, m, start, t) {
        if t != TaskAt(after, target) {
          var b :| b in FileOf(after, project).possible && t == InVersion(b, target);
          assert b == staged || b in FileOf(s, project).possible;
          assert Held(s, project, target, t);
        }
      }
    }
  }

  /** However often the same approval is tried, wherever each try dies and whatever
      a power loss brings back in between, the target is in memory and in every
      version of its file as it was, or as exactly one attempt on that leaves it. */
  lemma {:induction false} MadeAtMostOnce(w: World, events: seq<Event>, id: Id, m: Mutation, start: Option<Task>)
    requires Repeatable(m) && Find(w.saved.actions, id).Some? && Find(w.saved.actions, id).value.mutation == m
    requires AllMadeOnce(w.store, w.project, id, m, start) && OnlyReverted(w, events, id, TargetOf(m))
    ensures AllMadeOnce(Play(w, events).store, w.project, id, m, start)
    decreases |events|
  {
    if events != [] {
      NextStatus(w, events[0], id);
      if events[0].Act? && events[0].call.action == id {
        ActsOnce(w, events[0].call, m);
        AttemptMakesOnce(w.store, w.project, id, m, events[0].call.env, start);
      }
      MadeAtMostOnce(Next(w, events[0]), events[1..], id, m, start);
    }
  }
}
