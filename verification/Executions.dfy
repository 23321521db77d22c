/** Which run each Conversation action started and what became of it: the
    read-only projection of `src-tauri/src/conversation_executions.rs`. */
module Executions {
  import opened Durability
  import opened Tasks
  import opened Conversations
  import opened QueueEntry
  import opened Runs
  import S = Startup

  const MAX_EXECUTIONS := 10
  const MAX_RESULT_CHARS := 1000

  datatype State =
    | PendingApproval | Waiting | Running | Unconfirmed | Completed | FailedRun | NeedsRecovery | Ambiguous
    | NoEvidence | TaskUnavailable

  datatype Bounded = Bounded(text: string, truncated: bool, originalChars: nat)

  datatype ResultView =
    | Whole(shown: Bounded)
    | Cut(shown: Bounded)
    | NoAnswer(why: Bounded)
    | NotRecorded
    | NotApplicable

  /** The board's own reason to want a person, left uninterpreted. */
  type Attention = (Task, bool) -> Option<string>

  datatype View = View(
    action: Id, task: Id, state: State, run: Option<u32>, result: ResultView, needsHuman: bool, attention: Option<string>)

  datatype Inputs = Inputs(
    project: Id, actions: seq<Action>, tasks: Board, live: Option<set<Id>>, delivering: set<Id>, needsYou: Attention)

  predicate CanStartWork(a: Action) {
    (a.status.Approved? || a.status.Applied?) && (a.mutation.EnqueueTask? || a.mutation.ExecuteRequest?)
  }

  function Relevant(actions: seq<Action>): (r: seq<Action>)
    ensures |r| <= |actions|
    ensures forall a :: a in r ==> CanStartWork(a)
  {
    if actions == [] then []
    else (if CanStartWork(actions[0]) then [actions[0]] else []) + Relevant(actions[1..])
  }

  /** `project`. */
  function Project(i: Inputs): (views: seq<View>)
    ensures |views| == if |Relevant(i.actions)| <= MAX_EXECUTIONS then |Relevant(i.actions)| else MAX_EXECUTIONS
  {
    var relevant := Relevant(i.actions);
    var start := if |relevant| <= MAX_EXECUTIONS then 0 else |relevant| - MAX_EXECUTIONS;
    seq(|relevant| - start, k requires 0 <= k < |relevant| - start => ViewOf(i, relevant[start + k]))
  }

  // ------------------------------------------------------------ one run

  /** A milestone that settles run `run`. */
  predicate Settles(kind: Milestone, run: u32) {
    match kind
    case RecoveryRequired(Some(r), _) => r == run
    case RunFailed(Some(r), _) => r == run
    case RunCompleted(r) => r == run
    case _ => false
  }

  function Rank(kind: Milestone): nat {
    if kind.RecoveryRequired? then 3 else if kind.RunFailed? then 2 else if kind.RunCompleted? then 1 else 0
  }

  predicate Has(entries: seq<Entry>, run: u32, rank: nat) {
    exists e :: e in entries && Settles(e.kind, run) && Rank(e.kind) == rank
  }

  /** `run_state`: recovery, then failure, then completion. */
  function RunState(entries: seq<Entry>, run: u32, liveLatest: bool): State {
    if Has(entries, run, 3) then NeedsRecovery
    else if Has(entries, run, 2) then FailedRun
    else if Has(entries, run, 1) then Completed
    else if liveLatest then Running
    else Unconfirmed
  }

  function StateRank(s: State): nat {
    match s
    case NeedsRecovery => 3
    case FailedRun => 2
    case Completed => 1
    case _ => 0
  }

  /** At most a thousand characters, the first ones, and whether that is all. */
  function Bound(text: string, stored: Option<u32>): (b: Bounded)
    ensures b.text <= text && |b.text| == if |text| <= 1000 then |text| else 1000
    ensures !b.truncated <==> b.text == text && stored.None?
    ensures b.originalChars == if stored.Some? then stored.value else if |text| <= 0xFFFF_FFFF then |text| else 0xFFFF_FFFF
  {
    var full := |text|;
    Bounded(
      if full <= MAX_RESULT_CHARS then text else text[..MAX_RESULT_CHARS],
      full > MAX_RESULT_CHARS || stored.Some?,
      if stored.Some? then stored.value else if full <= U32_MAX then full else U32_MAX)
  }

  /** `result_for`: the first answer on record for exactly this run. */
  function ResultFor(entries: seq<Entry>, run: u32): Option<ResultView> {
    if entries == [] then None
    else match entries[0].kind
      case RunAnswer(r, result) =>
        if r != run then ResultFor(entries[1..], run)
        else Some(match result
                  case Available(text) => Whole(Bound(text, None))
                  case Truncated(text, originalChars) => Cut(Bound(text, Some(originalChars)))
                  case Unavailable(reason) => NoAnswer(Bound(reason, None)))
      case _ => ResultFor(entries[1..], run)
  }

  predicate OwnMilestone(kind: Milestone, run: u32) {
    match kind
    case RunStarted(r) => r == run
    case RunCompleted(r) => r == run
    case RunAnswer(r, _) => r == run
    case RunFailed(Some(r), _) => r == run
    case RecoveryRequired(Some(r), _) => r == run
    case _ => false
  }

  /** A later record that makes the Task's attention about something else. */
  predicate TakesAttention(kind: Milestone) {
    match kind
    case Moved(_, to) => to.Backlog? || to.Queue?
    case RunFailed(None, _) => true
    case RecoveryRequired(None, _) => true
    case Stopped(_) => true
    case Interrupted(_) => true
    case _ => false
  }

  /** The last position of one of the run's own milestones. */
  function LastOwn(entries: seq<Entry>, run: u32): (k: Option<nat>)
    ensures k.None? <==> forall e :: e in entries ==> !OwnMilestone(e.kind, run)
    ensures k.Some? ==> k.value < |entries| && OwnMilestone(entries[k.value].kind, run)
    ensures k.Some? ==> forall j :: k.value < j < |entries| ==> !OwnMilestone(entries[j].kind, run)
  {
    if entries == [] then None
    else if OwnMilestone(entries[|entries| - 1].kind, run) then Some(|entries| - 1)
    else LastOwn(entries[..|entries| - 1], run)
  }

  /** `attention_belongs_to`. */
  predicate AttentionBelongsTo(entries: seq<Entry>, run: u32) {
    var last := LastOwn(entries, run);
    last.Some? && forall e :: e in entries[last.value..] ==> !TakesAttention(e.kind)
  }

  function LatestStarted(entries: seq<Entry>): u32 {
    if entries == [] then 0
    else
      var rest := LatestStarted(entries[1..]);
      if entries[0].kind.RunStarted? && entries[0].kind.run > rest then entries[0].kind.run else rest
  }

  function LatestExecuted(executed: seq<ExecutedApproval>): u32 {
    if executed == [] then 0
    else
      var rest := LatestExecuted(executed[1..]);
      if executed[0].run > rest then executed[0].run else rest
  }

  function LatestRun(t: Task): u32 {
    var started, executed := LatestStarted(t.activity), LatestExecuted(t.executed);
    if started > executed then started else executed
  }

  // --------------------------------------------------------- one action

  function RunsUnder(executed: seq<ExecutedApproval>, action: Id): (r: seq<ExecutedApproval>)
    ensures forall e :: e in r ==> e in executed && e.approvalId == action
  {
    if executed == [] then []
    else (if executed[0].approvalId == action then [executed[0]] else []) + RunsUnder(executed[1..], action)
  }

  predicate BoundTo(t: Task, action: Id) {
    t.binding.Some? && t.binding.value.approvalId == action
  }

  /** The state and run number the records give to an action. */
  function Attribution(t: Task, a: Action, live: bool): (State, Option<u32>) {
    var executed := RunsUnder(t.executed, a.id);
    if executed == [] then
      (if BoundTo(t, a.id) then
         if t.status.Queue? then Waiting else if t.status.Error? then FailedRun else Ambiguous
       else if a.status.Approved? then PendingApproval
       else NoEvidence,
       None)
    else if |executed| == 1 && !BoundTo(t, a.id) then
      (RunState(t.activity, executed[0].run, live && executed[0].run == LatestRun(t)), Some(executed[0].run))
    else (Ambiguous, None)
  }

  function TargetId(a: Action): Id
    requires CanStartWork(a)
  {
    a.mutation.target
  }

  function ViewOf(i: Inputs, a: Action): View
    requires CanStartWork(a)
  {
    var task := TargetId(a);
    if task !in i.tasks || i.tasks[task].project != i.project then
      View(a.id, task, TaskUnavailable, None, NotApplicable, false, None)
    else
      var t := i.tasks[task];
      var (state, run) := Attribution(t, a, i.live.Some? && task in i.live.value);
      var terminal := state.Completed? || state.FailedRun? || state.NeedsRecovery?;
      var result :=
        if run.Some? && terminal then
          (match ResultFor(t.activity, run.value) case Some(r) => r case None => NotRecorded)
        else NotApplicable;
      var attention :=
        if (state.FailedRun? && run.None?)
           || (run.Some? && run.value == LatestRun(t) && AttentionBelongsTo(t.activity, run.value))
        then i.needsYou(t, task in i.delivering) else None;
      View(a.id, task, state, run, result, attention.Some? || state.NeedsRecovery?, attention)
  }

  // ------------------------------------------------------------- properties

  lemma {:induction false} RelevantConcat(xs: seq<Action>, ys: seq<Action>)
    ensures Relevant(xs + ys) == Relevant(xs) + Relevant(ys)
  {
    if xs == [] {
      assert xs + ys == ys;
    } else {
      assert (xs + ys)[1..] == xs[1..] + ys;
      RelevantConcat(xs[1..], ys);
    }
  }

  lemma RelevantBetween(before: seq<Action>, a: Action, after: seq<Action>)
    requires CanStartWork(a)
    ensures Relevant(before + ([a] + after)) == Relevant(before) + ([a] + Relevant(after))
  {
    RelevantConcat(before, [a] + after);
    RelevantConcat([a], after);
    assert [a][1..] == [] && Relevant([a]) == [a];
  }

  lemma RelevantAround(actions: seq<Action>, k: nat)
    requires k < |actions| && CanStartWork(actions[k])
    ensures Relevant(actions) == Relevant(actions[..k]) + ([actions[k]] + Relevant(actions[k + 1..]))
  {
    var before, a, after := actions[..k], actions[k], actions[k + 1..];
    assert actions == before + ([a] + after);
    RelevantBetween(before, a, after);
  }

  /** Where an action that can start work is shown: one place before the end for
      each later one, and not at all once ten later ones exist. */
  lemma ShownAt(i: Inputs, k: nat)
    requires k < |i.actions| && (i.actions[k].status.Approved? || i.actions[k].status.Applied?)
    requires i.actions[k].mutation.EnqueueTask? || i.actions[k].mutation.ExecuteRequest?
    ensures var later := |Relevant(i.actions[k + 1..])|; var views := Project(i);
      if later < 10
      then later < |views| && views[|views| - 1 - later] == ViewOf(i, i.actions[k])
      else |views| == 10
  {
    RelevantAround(i.actions, k);
    assert Relevant(i.actions)[|Relevant(i.actions[..k])|] == i.actions[k];
  }

  /** Nothing else is shown. */
  lemma {:induction false} RelevantIsFrom(actions: seq<Action>, j: nat) returns (k: nat)
    requires j < |Relevant(actions)|
    ensures k < |actions| && actions[k] == Relevant(actions)[j] && CanStartWork(actions[k])
    ensures |Relevant(actions[k + 1..])| == |Relevant(actions)| - 1 - j
  {
    if CanStartWork(actions[0]) && j == 0 {
      k := 0;
    } else {
      var rest := RelevantIsFrom(actions[1..], if CanStartWork(actions[0]) then j - 1 else j);
      k := rest + 1;
      assert actions[1..][rest + 1..] == actions[k + 1..];
    }
  }

  lemma ShownFrom(i: Inputs, j: nat) returns (k: nat)
    requires j < |Project(i)|
    ensures k < |i.actions| && CanStartWork(i.actions[k]) && Project(i)[j] == ViewOf(i, i.actions[k])
    ensures i.actions[k].status.Approved? || i.actions[k].status.Applied?
    ensures i.actions[k].mutation.EnqueueTask? || i.actions[k].mutation.ExecuteRequest?
    ensures |Relevant(i.actions[k + 1..])| == |Project(i)| - 1 - j < 10
  {
    var relevant := Relevant(i.actions);
    k := RelevantIsFrom(i.actions, |relevant| - |Project(i)| + j);
  }

  lemma {:induction false} RunsUnderHas(executed: seq<ExecutedApproval>, e: ExecutedApproval)
    requires e in executed
    ensures e in RunsUnder(executed, e.approvalId)
  {
    if executed[0] != e {
      RunsUnderHas(executed[1..], e);
    }
  }

  /** A run is shown for an action only when a record on the Task names both;
      another Project's Task looks exactly like a missing one. */
  lemma RunsOnlyByEvidence(i: Inputs, a: Action)
    requires CanStartWork(a)
    ensures var v := ViewOf(i, a);
      && (v.run.Some? ==>
            && v.task in i.tasks && i.tasks[v.task].project == i.project
            && exists e :: e in i.tasks[v.task].executed && e.approvalId == a.id && e.run == v.run.value)
      && (v.state.Running? ==> v.run.Some? && i.live.Some? && v.task in i.live.value && v.run.value == LatestRun(i.tasks[v.task]))
      && (v.state.TaskUnavailable? <==> v.task !in i.tasks || i.tasks[v.task].project != i.project)
      && (v.state.TaskUnavailable? ==> v == View(a.id, v.task, TaskUnavailable, None, NotApplicable, false, None))
  {
    var task := TargetId(a);
    if task in i.tasks {
      var executed := RunsUnder(i.tasks[task].executed, a.id);
      assert executed != [] ==> executed[0] in executed;
    }
  }

  lemma {:induction false} OneRunUnder(executed: seq<ExecutedApproval>, action: Id)
    requires forall i, j :: 0 <= i < j < |executed| ==> executed[i].approvalId != executed[j].approvalId
    ensures |RunsUnder(executed, action)| <= 1
    ensures (forall e :: e in executed ==> e.approvalId != action) <==> RunsUnder(executed, action) == []
  {
    if executed != [] {
      OneRunUnder(executed[1..], action);
      assert forall e :: e in executed <==> e == executed[0] || e in executed[1..];
      if executed[0].approvalId == action {
        forall e | e in executed[1..] ensures e.approvalId != action {
          var k :| 0 <= k < |executed[1..]| && executed[1..][k] == e;
          assert executed[k + 1] == e;
        }
      }
    }
  }

  /** On every Task the writers can produce, the records disagree in one way
      only: the Task is bound, has not run, and is neither waiting nor failed.
      "Bound and already run" and "ran twice" cannot happen. */
  lemma AmbiguousOnlyWhenBound(t: Task, a: Action, live: bool)
    requires RanOnce(t)
    ensures Attribution(t, a, live).0.Ambiguous? <==>
      BoundTo(t, a.id) && RunsUnder(t.executed, a.id) == [] && !t.status.Queue? && !t.status.Error?
    ensures BoundTo(t, a.id) ==> RunsUnder(t.executed, a.id) == []
    ensures |RunsUnder(t.executed, a.id)| <= 1
  {
    OneRunUnder(t.executed, a.id);
  }

  /** And that way does happen: a promoted Task keeps its binding until its run
      starts, so the projection calls it ambiguous meanwhile. */
  lemma PromotedLooksAmbiguous(t: Task, a: Action, live: bool)
    requires RanOnce(t) && t.status.Queue? && BoundTo(t, a.id)
    ensures Attribution(t, a, live) == (Waiting, None)
    ensures Attribution(Next(t, Promote), a, live) == (Ambiguous, None)
  {
    OneRunUnder(t.executed, a.id);
    assert Next(t, Promote).executed == t.executed && Next(t, Promote).binding == t.binding;
  }

  // --------------------------------------------------- other runs do not count

  predicate BearsOn(kind: Milestone, run: u32) {
    Settles(kind, run) || (kind.RunAnswer? && kind.run == run)
  }

  /** The records that bear on what became of run `run`. */
  function OwnEvidence(entries: seq<Entry>, run: u32): seq<Entry> {
    if entries == [] then []
    else (if BearsOn(entries[0].kind, run) then [entries[0]] else []) + OwnEvidence(entries[1..], run)
  }

  lemma {:induction false} EvidenceMembers(entries: seq<Entry>, run: u32, e: Entry)
    ensures e in OwnEvidence(entries, run) <==> e in entries && BearsOn(e.kind, run)
  {
    if entries != [] {
      EvidenceMembers(entries[1..], run, e);
    }
  }

  lemma HasByEvidence(entries: seq<Entry>, run: u32, rank: nat)
    ensures Has(entries, run, rank) <==> Has(OwnEvidence(entries, run), run, rank)
  {
    forall e: Entry ensures e in OwnEvidence(entries, run) <==> e in entries && BearsOn(e.kind, run) {
      EvidenceMembers(entries, run, e);
    }
  }

  lemma {:induction false} ResultByEvidence(entries: seq<Entry>, run: u32)
    ensures ResultFor(entries, run) == ResultFor(OwnEvidence(entries, run), run)
  {
    if entries != [] {
      ResultByEvidence(entries[1..], run);
      if BearsOn(entries[0].kind, run) {
        assert OwnEvidence(entries, run)[0] == entries[0];
        assert OwnEvidence(entries, run)[1..] == OwnEvidence(entries[1..], run);
      } else {
        assert OwnEvidence(entries, run) == OwnEvidence(entries[1..], run);
      }
    }
  }

  /** Two histories that agree on a run's own records give it the same state and
      the same result, whatever else they hold. */
  lemma OtherRunsDoNotCount(xs: seq<Entry>, ys: seq<Entry>, run: u32, liveLatest: bool)
    requires OwnEvidence(xs, run) == OwnEvidence(ys, run)
    ensures RunState(xs, run, liveLatest) == RunState(ys, run, liveLatest)
    ensures ResultFor(xs, run) == ResultFor(ys, run)
  {
    forall rank: nat ensures Has(xs, run, rank) == Has(ys, run, rank) {
      HasByEvidence(xs, run, rank);
      HasByEvidence(ys, run, rank);
    }
    ResultByEvidence(xs, run);
    ResultByEvidence(ys, run);
  }

  lemma {:induction false} EvidenceConcat(xs: seq<Entry>, ys: seq<Entry>, run: u32)
    ensures OwnEvidence(xs + ys, run) == OwnEvidence(xs, run) + OwnEvidence(ys, run)
  {
    if xs == [] {
      assert xs + ys == ys;
    } else {
      var first := if BearsOn(xs[0].kind, run) then [xs[0]] else [];
      assert (xs + ys)[0] == xs[0] && (xs + ys)[1..] == xs[1..] + ys;
      EvidenceConcat(xs[1..], ys, run);
      assert OwnEvidence(xs, run) == first + OwnEvidence(xs[1..], run);
      assert OwnEvidence(xs + ys, run) == first + (OwnEvidence(xs[1..], run) + OwnEvidence(ys, run));
    }
  }

  lemma WithoutEntry(full: seq<Entry>, k: nat, run: u32)
    requires k < |full|
    ensures OwnEvidence(full[..k] + full[k + 1..], run) == OwnEvidence(full, run) <==> !BearsOn(full[k].kind, run)
  {
    assert full == full[..k] + ([full[k]] + full[k + 1..]);
    EvidenceConcat(full[..k], [full[k]] + full[k + 1..], run);
    EvidenceConcat([full[k]], full[k + 1..], run);
    EvidenceConcat(full[..k], full[k + 1..], run);
    assert OwnEvidence([full[k]], run) == if BearsOn(full[k].kind, run) then [full[k]] else [];
    assert BearsOn(full[k].kind, run) ==>
      |OwnEvidence(full[..k] + full[k + 1..], run)| + 1 == |OwnEvidence(full, run)|;
  }

  lemma Appended(entries: seq<Entry>, e: Entry, run: u32)
    requires !BearsOn(e.kind, run)
    ensures OwnEvidence(entries + [e], run) == OwnEvidence(entries, run)
  {
    EvidenceConcat(entries, [e], run);
  }

  lemma TrimOne(full: seq<Entry>)
    requires |full| == MAX_ENTRIES + 1
    ensures var k := Oldest(full, 0); Trim(full) == full[..k] + full[k + 1..]
  {
    var k := Oldest(full, 0);
    assert |full[..k] + full[k + 1..]| == MAX_ENTRIES;
  }

  /** The log is full and no tool call could make room for the new entry. */
  predicate NoRoom(entries: seq<Entry>, kind: Milestone) {
    |entries| == MAX_ENTRIES && !kind.Tool? && forall e :: e in entries ==> !e.kind.Tool?
  }

  /** Recording something about another run costs this run a record in one case
      only: it is not on the log yet, there is no room, and the oldest entry is
      this run's. */
  lemma RecordKeepsEvidence(entries: seq<Entry>, at: Time, kind: Milestone, run: u32)
    requires |entries| <= MAX_ENTRIES && !BearsOn(kind, run)
    ensures OwnEvidence(Record(entries, at, kind), run) == OwnEvidence(entries, run) <==>
      !(!OnTheLog(entries, kind) && NoRoom(entries, kind) && BearsOn(entries[0].kind, run))
  {
    var full := entries + [Entry(at, kind)];
    Appended(entries, Entry(at, kind), run);
    if !OnTheLog(entries, kind) && |entries| == MAX_ENTRIES {
      var k := Oldest(full, 0);
      TrimOne(full);
      WithoutEntry(full, k, run);
      RoomIsATool(entries, at, kind);
      assert full[0] == entries[0];
    }
  }

  lemma RoomIsATool(entries: seq<Entry>, at: Time, kind: Milestone)
    requires |entries| == MAX_ENTRIES
    ensures var full := entries + [Entry(at, kind)]; var k := Oldest(full, 0);
      if NoRoom(entries, kind) then k == 0 else full[k].kind.Tool?
  {
    var full := entries + [Entry(at, kind)];
    OldestMakesRoom(full, 0);
    assert full[|entries|] == Entry(at, kind);
    if NoRoom(entries, kind) {
      forall j | 0 <= j < |full| ensures !full[j].kind.Tool? {
        if j < |entries| { assert full[j] == entries[j]; assert entries[j] in entries; }
      }
    } else if !kind.Tool? {
      var e :| e in entries && e.kind.Tool?;
      var j :| 0 <= j < |entries| && entries[j] == e;
      assert full[j] == e;
    }
  }

  lemma FirstMakesRoom(entries: seq<Entry>, e: Entry)
    requires |entries| == MAX_ENTRIES && NoRoom(entries, e.kind)
    ensures Trim(entries + [e]) == entries[1..] + [e]
  {
    RoomIsATool(entries, e.at, e.kind);
    TrimOne(entries + [e]);
    assert entries + [e] == [entries[0]] + (entries[1..] + [e]);
  }

  lemma HasFirst(entries: seq<Entry>, run: u32, rank: nat)
    requires entries != []
    ensures Has(entries, run, rank) <==>
      Has(entries[1..], run, rank) || (Settles(entries[0].kind, run) && Rank(entries[0].kind) == rank)
  {
    assert forall e :: e in entries <==> e == entries[0] || e in entries[1..];
  }

  lemma HasBefore(entries: seq<Entry>, e: Entry, run: u32, rank: nat)
    requires !Settles(e.kind, run)
    ensures Has(entries + [e], run, rank) <==> Has(entries, run, rank)
  {
    assert forall x :: x in entries + [e] <==> x in entries || x == e;
  }

  /** The oldest entry is the only one that shows the run in the state it is in. */
  predicate StateHangsOnOldest(entries: seq<Entry>, run: u32, liveLatest: bool)
    requires entries != []
  {
    && Settles(entries[0].kind, run)
    && Rank(entries[0].kind) == StateRank(RunState(entries, run, liveLatest))
    && !Has(entries[1..], run, Rank(entries[0].kind))
  }

  /** The oldest entry is the answer the run is shown with, and no later one shows
      the same. */
  predicate ResultHangsOnOldest(entries: seq<Entry>, run: u32)
    requires entries != []
  {
    entries[0].kind.RunAnswer? && entries[0].kind.run == run && ResultFor(entries[1..], run) != ResultFor(entries, run)
  }

  lemma OldestGoes(entries: seq<Entry>, e: Entry, run: u32, liveLatest: bool)
    requires entries != [] && !BearsOn(e.kind, run)
    ensures var next := entries[1..] + [e];
      && (RunState(next, run, liveLatest) == RunState(entries, run, liveLatest) <==> !StateHangsOnOldest(entries, run, liveLatest))
      && (ResultFor(next, run) == ResultFor(entries, run) <==> !ResultHangsOnOldest(entries, run))
  {
    forall rank: nat ensures Has(entries[1..] + [e], run, rank) == Has(entries[1..], run, rank) {
      HasBefore(entries[1..], e, run, rank);
    }
    HasFirst(entries, run, 1);
    HasFirst(entries, run, 2);
    HasFirst(entries, run, 3);
    Appended(entries[1..], e, run);
    ResultByEvidence(entries[1..] + [e], run);
    ResultByEvidence(entries[1..], run);
  }

  /** A record about something else changes what a run is shown as in one case
      only: it is not on the log yet, there is no room, and the state, or the
      result, hangs on the oldest entry. */
  lemma RecordKeepsShown(entries: seq<Entry>, at: Time, kind: Milestone, run: u32, liveLatest: bool)
    requires |entries| <= MAX_ENTRIES && !BearsOn(kind, run)
    ensures var next := Record(entries, at, kind); var pushed := !OnTheLog(entries, kind) && NoRoom(entries, kind);
      && (RunState(next, run, liveLatest) == RunState(entries, run, liveLatest) <==>
            !(pushed && StateHangsOnOldest(entries, run, liveLatest)))
      && (ResultFor(next, run) == ResultFor(entries, run) <==> !(pushed && ResultHangsOnOldest(entries, run)))
  {
    if !OnTheLog(entries, kind) && NoRoom(entries, kind) {
      FirstMakesRoom(entries, Entry(at, kind));
      OldestGoes(entries, Entry(at, kind), run, liveLatest);
    } else {
      RecordKeepsEvidence(entries, at, kind, run);
      OtherRunsDoNotCount(Record(entries, at, kind), entries, run, liveLatest);
    }
  }

  lemma MovesSettleNothing(entries: seq<Entry>, run: u32)
    requires forall e :: e in entries ==> e.kind.Moved?
    ensures RunState(entries, run, false) == Unconfirmed
  {
  }

  /** A finished run, and then a full log of moves. */
  function MovedAbout(run: u32, at: Time): (log: seq<Entry>)
    ensures |log| == MAX_ENTRIES && log[0] == Entry(at, RunCompleted(run))
    ensures forall e :: e in log[1..] ==> e.kind.Moved?
  {
    [Entry(at, RunCompleted(run))] + seq(MAX_ENTRIES - 1, _ => Entry(at, Moved(Backlog, Queue)))
  }

  lemma CompletionShows(log: seq<Entry>, run: u32)
    requires log != [] && log[0].kind == RunCompleted(run) && forall e :: e in log[1..] ==> e.kind.Moved?
    ensures RunState(log, run, false) == Completed
  {
    assert log[0] in log && Settles(log[0].kind, run) && Rank(log[0].kind) == 1;
    assert forall e :: e in log ==> e == log[0] || e in log[1..];
  }

  /** What the loss does: one more move, and the run that was shown as completed
      is shown as unconfirmed. */
  lemma CompletedIsForgotten(run: u32, at: Time)
    ensures var log := MovedAbout(run, at); var next := Record(log, at, Moved(Queue, Backlog));
      |log| == |next| == MAX_ENTRIES && RunState(log, run, false) == Completed && RunState(next, run, false) == Unconfirmed
  {
    var log := MovedAbout(run, at);
    var move := Entry(at, Moved(Queue, Backlog));
    assert forall e :: e in log ==> e == log[0] || e in log[1..];
    FirstMakesRoom(log, move);
    CompletionShows(log, run);
    MovesSettleNothing(log[1..] + [move], run);
  }

  lemma MovesShowNoRun(entries: seq<Entry>)
    requires forall e :: e in entries ==> e.kind.Moved?
    ensures NextRun(entries) == 1
  {
  }

  /** The entry of a Task whose run is the oldest thing on a full log of moves. */
  lemma EntryForgetsRun(t: Task, approval: Approval, at: Time, now: Time)
    requires t.activity == MovedAbout(1, at) && t.status.Backlog?
    ensures var queued := Entered(t, Some(approval), now);
      && (forall e :: e in queued.activity ==> e.kind.Moved?) && |queued.activity| == MAX_ENTRIES
      && queued.executed == t.executed
      && queued.binding == Some(Binding(approval.id, approval.digest, 1, approval.request, approval.checkout))
  {
    var log := MovedAbout(1, at);
    var move := Entry(now, Moved(Backlog, Queue));
    assert forall e :: e in log ==> e == log[0] || e in log[1..];
    FirstMakesRoom(log, move);
    EnteredFacts(t, Some(approval), now);
    MovesShowNoRun(log[1..] + [move]);
  }

  lemma StartOnMoves(entries: seq<Entry>, now: Time)
    requires |entries| == MAX_ENTRIES && forall e :: e in entries ==> e.kind.Moved?
    ensures var log := Record(entries, now, RunStarted(1));
      && RunState(log, 1, true) == Running && LatestStarted(log) == 1
  {
    var start := Entry(now, RunStarted(1));
    FirstMakesRoom(entries, start);
    var log := entries[1..] + [start];
    assert log[|log| - 1] == start;
    assert forall e :: e in log ==> e.kind.Moved? || e == start;
    LatestStartedIsMax(log);
  }

  lemma OneOfTwo(x: ExecutedApproval, y: ExecutedApproval, id: Id)
    requires x.approvalId == id && y.approvalId != id
    ensures RunsUnder([x], id) == [x] && RunsUnder([x, y], id) == [x]
    ensures x.run == y.run ==> LatestExecuted([x, y]) == x.run
  {
    assert [x][1..] == [] && [x, y][1..] == [y] && [y][1..] == [];
    assert RunsUnder([y], id) == [];
    assert LatestExecuted([y]) == y.run;
  }

  lemma AttributedTo(t: Task, a: Action, live: bool, run: u32, d: string)
    requires RunsUnder(t.executed, a.id) == [ExecutedApproval(a.id, run, d)] && !BoundTo(t, a.id)
    ensures Attribution(t, a, live) == (RunState(t.activity, run, live && run == LatestRun(t)), Some(run))
  {
  }

  lemma StartedAgain(h: Digest, t: Task, acquired: Acquired, b: Approval)
    requires CanLaunch(h, t, acquired) && (forall e :: e in t.activity ==> e.kind.Moved?) && |t.activity| == MAX_ENTRIES
    requires t.binding == Some(Binding(b.id, b.digest, 1, b.request, b.checkout))
    ensures var r := StartWrite(h, t, acquired);
      && r.executed == t.executed + [ExecutedApproval(b.id, 1, b.digest)] && r.binding.None?
      && RunState(r.activity, 1, true) == Running && LatestStarted(r.activity) == 1
  {
    MovesShowNoRun(t.activity);
    StartShape(h, t, acquired);
    LaunchedFacts(t, t.binding, acquired);
    StartOnMoves(t.activity, acquired.now);
  }

  /** Two approvals, one run number. A has run as run 1 and finished, and its last
      record is the oldest on a full log of moves; B is queued, which pushes that
      record out, and started, as run 1 again. From then on A is shown with B's
      run: it had completed, and now it is running. */
  lemma RunNumberIsReused(h: Digest, t: Task, a: Action, b: Approval, d: string, at: Time, now: Time, acquired: Acquired)
    requires t.activity == MovedAbout(1, at) && t.status.Backlog? && t.binding.None?
    requires t.executed == [ExecutedApproval(a.id, 1, d)] && a.id != b.id
    requires var queued := Entered(t, Some(b), now); CanLaunch(h, queued, acquired)
    ensures var queued := Entered(t, Some(b), now); var started := StartWrite(h, queued, acquired);
      && started.executed == [ExecutedApproval(a.id, 1, d), ExecutedApproval(b.id, 1, b.digest)]
      && ReusesRun(queued, Start(h, acquired))
      && Attribution(t, a, false) == (Completed, Some(1)) && Attribution(started, a, true) == (Running, Some(1))
  {
    var queued := Entered(t, Some(b), now);
    var first, second := ExecutedApproval(a.id, 1, d), ExecutedApproval(b.id, 1, b.digest);
    EntryForgetsRun(t, b, at, now);
    MovesShowNoRun(queued.activity);
    StartedAgain(h, queued, acquired, b);
    assert [first] + [second] == [first, second] && first in queued.executed;
    OneOfTwo(first, second, a.id);
    CompletionShows(t.activity, 1);
    AttributedTo(t, a, false, 1, d);
    AttributedTo(StartWrite(h, queued, acquired), a, true, 1, d);
  }

  /** While the log only grows, a run's state only rises: running or unconfirmed,
      completed, failed, recovery required. */
  lemma StateOnlyRises(before: seq<Entry>, after: seq<Entry>, run: u32, wasLive: bool, isLive: bool)
    requires forall e :: e in before ==> e in after
    ensures StateRank(RunState(before, run, wasLive)) <= StateRank(RunState(after, run, isLive))
    ensures StateRank(RunState(before, run, wasLive)) == StateRank(RunState(after, run, isLive)) && wasLive == isLive ==>
      RunState(before, run, wasLive) == RunState(after, run, isLive)
  {
    forall rank: nat | Has(before, run, rank) ensures Has(after, run, rank) {
      var e :| e in before && Settles(e.kind, run) && Rank(e.kind) == rank;
      assert e in after;
    }
  }

  /** Nothing from position `k` on takes the attention elsewhere. */
  ghost predicate Undistracted(entries: seq<Entry>, k: nat) {
    forall j :: k <= j < |entries| ==> !TakesAttention(entries[j].kind)
  }

  /** The Task's attention is this run's exactly when some record of the run has
      nothing after it that takes the attention elsewhere. */
  lemma AttentionMeans(entries: seq<Entry>, run: u32)
    ensures AttentionBelongsTo(entries, run) <==>
      exists k :: 0 <= k < |entries| && OwnMilestone(entries[k].kind, run) && Undistracted(entries, k)
  {
    var last := LastOwn(entries, run);
    if AttentionBelongsTo(entries, run) {
      forall j | last.value <= j < |entries| ensures !TakesAttention(entries[j].kind) {
        assert entries[j] in entries[last.value..] by { assert entries[last.value..][j - last.value] == entries[j]; }
      }
    }
    if k :| 0 <= k < |entries| && OwnMilestone(entries[k].kind, run) && Undistracted(entries, k) {
      assert entries[k] in entries;
      assert k <= last.value;
      forall e | e in entries[last.value..] ensures !TakesAttention(e.kind) {
        var j :| 0 <= j < |entries[last.value..]| && entries[last.value..][j] == e;
        assert entries[last.value + j] == e;
      }
    }
  }

  lemma {:induction false} LatestStartedIsMax(entries: seq<Entry>)
    ensures forall e :: e in entries && e.kind.RunStarted? ==> e.kind.run <= LatestStarted(entries)
    ensures LatestStarted(entries) == 0 || exists e :: e in entries && e.kind == RunStarted(LatestStarted(entries))
  {
    if entries != [] {
      LatestStartedIsMax(entries[1..]);
      var rest := LatestStarted(entries[1..]);
      assert entries[0] in entries;
      if LatestStarted(entries) == rest && rest != 0 {
        var e :| e in entries[1..] && e.kind == RunStarted(rest);
        assert e in entries;
      }
    }
  }

  lemma {:induction false} LatestExecutedIsMax(executed: seq<ExecutedApproval>)
    ensures forall e :: e in executed ==> e.run <= LatestExecuted(executed)
    ensures LatestExecuted(executed) == 0 || exists e :: e in executed && e.run == LatestExecuted(executed)
  {
    if executed != [] {
      LatestExecutedIsMax(executed[1..]);
      assert executed[0] in executed;
      assert forall e :: e in executed <==> e == executed[0] || e in executed[1..];
    }
  }

  /** No record names a later run than `latest_run`, and one names that. */
  lemma LatestRunIsMax(t: Task)
    ensures forall e :: e in t.activity && e.kind.RunStarted? ==> e.kind.run <= LatestRun(t)
    ensures forall e :: e in t.executed ==> e.run <= LatestRun(t)
    ensures LatestRun(t) == 0 || (exists e :: e in t.activity && e.kind == RunStarted(LatestRun(t)))
      || (exists e :: e in t.executed && e.run == LatestRun(t))
  {
    LatestStartedIsMax(t.activity);
    LatestExecutedIsMax(t.executed);
  }

  // --------------------------------------------------- what a view says

  /** Some record says that run `run` must be inspected. */
  ghost predicate RecoveryOn(entries: seq<Entry>, run: u32) {
    exists e :: e in entries && e.kind.RecoveryRequired? && e.kind.at == Some(run)
  }

  ghost predicate FailureOn(entries: seq<Entry>, run: u32) {
    exists e :: e in entries && e.kind.RunFailed? && e.kind.of == Some(run)
  }

  ghost predicate CompletionOn(entries: seq<Entry>, run: u32) {
    exists e :: e in entries && e.kind == RunCompleted(run)
  }

  /** What each state of a run means, on the log itself. */
  ghost predicate StateMeaning(entries: seq<Entry>, run: u32, liveLatest: bool, state: State) {
    match state
    case NeedsRecovery => RecoveryOn(entries, run)
    case FailedRun => FailureOn(entries, run) && !RecoveryOn(entries, run)
    case Completed => CompletionOn(entries, run) && !FailureOn(entries, run) && !RecoveryOn(entries, run)
    case Running => liveLatest && !CompletionOn(entries, run) && !FailureOn(entries, run) && !RecoveryOn(entries, run)
    case Unconfirmed => !liveLatest && !CompletionOn(entries, run) && !FailureOn(entries, run) && !RecoveryOn(entries, run)
    case _ => false
  }

  lemma RecoveryHas(entries: seq<Entry>, run: u32)
    ensures Has(entries, run, 3) <==> RecoveryOn(entries, run)
    ensures Has(entries, run, 2) <==> FailureOn(entries, run)
    ensures Has(entries, run, 1) <==> CompletionOn(entries, run)
  {
    if e :| e in entries && e.kind.RecoveryRequired? && e.kind.at == Some(run) {
      assert Settles(e.kind, run) && Rank(e.kind) == 3;
    }
    if e :| e in entries && e.kind.RunFailed? && e.kind.of == Some(run) {
      assert Settles(e.kind, run) && Rank(e.kind) == 2;
    }
    if e :| e in entries && e.kind == RunCompleted(run) {
      assert Settles(e.kind, run) && Rank(e.kind) == 1;
    }
  }

  /** The meanings exclude each other, so this says exactly which state is shown. */
  lemma StateMeans(entries: seq<Entry>, run: u32, liveLatest: bool)
    ensures StateMeaning(entries, run, liveLatest, RunState(entries, run, liveLatest))
  {
    RecoveryHas(entries, run);
  }

  predicate AnswersRun(e: Entry, run: u32) {
    e.kind.RunAnswer? && e.kind.run == run
  }

  /** A bounded text: the first thousand characters, marked when that is not all. */
  predicate ShowsText(text: string, stored: Option<u32>, b: Bounded) {
    && b.text == (if |text| <= 1000 then text else text[..1000])
    && (b.truncated <==> |text| > 1000 || stored.Some?)
    && (stored.Some? ==> b.originalChars == stored.value)
    && (stored.None? && |text| <= 0xFFFF_FFFF ==> b.originalChars == |text|)
  }

  predicate ShowsAnswer(answer: RunResult, result: ResultView) {
    match answer
    case Available(text) => result.Whole? && ShowsText(text, None, result.shown)
    case Truncated(text, originalChars) => result.Cut? && ShowsText(text, Some(originalChars), result.shown)
    case Unavailable(reason) => result.NoAnswer? && ShowsText(reason, None, result.why)
  }

  /** The result is that of the first answer on record for the run, if any. */
  ghost predicate ResultMeaning(entries: seq<Entry>, run: u32, result: ResultView) {
    if forall e :: e in entries ==> !AnswersRun(e, run) then result.NotRecorded?
    else exists k :: (
      && 0 <= k < |entries| && AnswersRun(entries[k], run)
      && (forall j :: 0 <= j < k ==> !AnswersRun(entries[j], run)) && ShowsAnswer(entries[k].kind.result, result))
  }

  lemma {:induction false} ResultMeans(entries: seq<Entry>, run: u32)
    ensures ResultMeaning(entries, run, match ResultFor(entries, run) case Some(r) => r case None => NotRecorded)
    ensures ResultFor(entries, run).Some? ==> !ResultFor(entries, run).value.NotRecorded?
  {
    if entries != [] {
      if AnswersRun(entries[0], run) {
        assert entries[0] in entries;
      } else {
        ResultMeans(entries[1..], run);
        assert forall e :: e in entries <==> e == entries[0] || e in entries[1..];
        if e :| e in entries[1..] && AnswersRun(e, run) {
          var rest := match ResultFor(entries[1..], run) case Some(r) => r case None => NotRecorded;
          var k :| 0 <= k < |entries[1..]| && AnswersRun(entries[1..][k], run)
            && (forall j :: 0 <= j < k ==> !AnswersRun(entries[1..][j], run)) && ShowsAnswer(entries[1..][k].kind.result, rest);
          assert entries[k + 1] == entries[1..][k];
          forall j | 0 <= j < k + 1 ensures !AnswersRun(entries[j], run) {
            assert j > 0 ==> entries[j] == entries[1..][j - 1];
          }
        }
      }
    }
  }

  /** How each further record moves the Task's attention to the run or away from
      it. With an empty log it is on no run. */
  lemma AttentionMoves(entries: seq<Entry>, e: Entry, run: u32)
    ensures !AttentionBelongsTo([], run)
    ensures AttentionBelongsTo(entries + [e], run) <==>
      match e.kind
      case RunStarted(r) => r == run || AttentionBelongsTo(entries, run)
      case RunCompleted(r) => r == run || AttentionBelongsTo(entries, run)
      case RunAnswer(r, _) => r == run || AttentionBelongsTo(entries, run)
      case RunFailed(r, _) => r.Some? && (r.value == run || AttentionBelongsTo(entries, run))
      case RecoveryRequired(r, _) => r.Some? && (r.value == run || AttentionBelongsTo(entries, run))
      case Moved(_, to) => !to.Backlog? && !to.Queue? && AttentionBelongsTo(entries, run)
      case Stopped(_) => false
      case Interrupted(_) => false
      case _ => AttentionBelongsTo(entries, run)
  {
    AttentionStep(entries, e, run);
  }

  lemma AttentionStep(entries: seq<Entry>, e: Entry, run: u32)
    ensures AttentionBelongsTo(entries + [e], run) <==>
      OwnMilestone(e.kind, run) || (AttentionBelongsTo(entries, run) && !TakesAttention(e.kind))
  {
    var all := entries + [e];
    assert all[|entries|] == e && all[..|entries|] == entries;
    if OwnMilestone(e.kind, run) {
      assert all[|entries|..] == [e];
    } else {
      var last := LastOwn(entries, run);
      assert LastOwn(all, run) == last;
      if last.Some? {
        assert all[last.value..] == entries[last.value..] + [e];
      }
    }
  }

  /** Exactly one record was made under the approval, and this is it. */
  ghost predicate Sole(executed: seq<ExecutedApproval>, action: Id, k: int) {
    0 <= k < |executed| && forall j :: 0 <= j < |executed| ==> (executed[j].approvalId == action <==> j == k)
  }

  lemma {:induction false} RunsUnderNone(executed: seq<ExecutedApproval>, action: Id)
    ensures RunsUnder(executed, action) == [] <==> forall e :: e in executed ==> e.approvalId != action
  {
    if executed != [] {
      RunsUnderNone(executed[1..], action);
      assert forall e :: e in executed <==> e == executed[0] || e in executed[1..];
    }
  }

  lemma {:induction false} RunsUnderSole(executed: seq<ExecutedApproval>, action: Id, k: int)
    requires Sole(executed, action, k)
    ensures RunsUnder(executed, action) == [executed[k]]
  {
    if k == 0 {
      forall e | e in executed[1..] ensures e.approvalId != action {
        var j :| 0 <= j < |executed[1..]| && executed[1..][j] == e;
        assert executed[j + 1] == e;
      }
      RunsUnderNone(executed[1..], action);
    } else {
      RunsUnderSole(executed[1..], action, k - 1);
      assert executed[1..][k - 1] == executed[k];
    }
  }

  lemma {:induction false} OneIsSole(executed: seq<ExecutedApproval>, action: Id) returns (k: int)
    requires |RunsUnder(executed, action)| == 1
    ensures Sole(executed, action, k)
  {
    if executed[0].approvalId == action {
      k := 0;
      RunsUnderNone(executed[1..], action);
      forall j | 1 <= j < |executed| ensures executed[j].approvalId != action {
        assert executed[j] == executed[1..][j - 1];
      }
    } else {
      var rest := OneIsSole(executed[1..], action);
      k := rest + 1;
      forall j | 1 <= j < |executed| ensures executed[j].approvalId == action <==> j == k {
        assert executed[j] == executed[1..][j - 1];
      }
    }
  }

  /** What the records of a Task say of an action: its state and its run. */
  ghost predicate AttributionMeaning(t: Task, a: Action, live: bool, state: State, run: Option<u32>) {
    var bound := t.binding.Some? && t.binding.value.approvalId == a.id;
    if forall e :: e in t.executed ==> e.approvalId != a.id then
      && run.None?
      && (if bound && t.status.Queue? then state.Waiting?
          else if bound && t.status.Error? then state.FailedRun?
          else if bound then state.Ambiguous?
          else if a.status.Approved? then state.PendingApproval? else state.NoEvidence?)
    else if bound || !(exists k :: Sole(t.executed, a.id, k)) then state.Ambiguous? && run.None?
    else
      && (exists k :: Sole(t.executed, a.id, k) && run == Some(t.executed[k].run))
      && StateMeaning(t.activity, run.value, live && run.value == LatestRun(t), state)
  }

  lemma AttributionMeans(t: Task, a: Action, live: bool)
    ensures AttributionMeaning(t, a, live, Attribution(t, a, live).0, Attribution(t, a, live).1)
  {
    var executed := RunsUnder(t.executed, a.id);
    RunsUnderNone(t.executed, a.id);
    if |executed| == 1 {
      var k := OneIsSole(t.executed, a.id);
      RunsUnderSole(t.executed, a.id, k);
      StateMeans(t.activity, executed[0].run, live && executed[0].run == LatestRun(t));
    } else if k :| Sole(t.executed, a.id, k) {
      RunsUnderSole(t.executed, a.id, k);
    }
  }

  /** The result of a run that ended, and of no other. */
  ghost predicate ShownResult(t: Task, v: View) {
    if v.run.Some? && (v.state.Completed? || v.state.FailedRun? || v.state.NeedsRecovery?)
    then ResultMeaning(t.activity, v.run.value, v.result)
    else v.result.NotApplicable?
  }

  lemma ResultIsShown(i: Inputs, a: Action)
    requires CanStartWork(a) && a.mutation.target in i.tasks && i.tasks[a.mutation.target].project == i.project
    ensures ShownResult(i.tasks[a.mutation.target], ViewOf(i, a))
  {
    var v := ViewOf(i, a);
    if v.run.Some? {
      ResultMeans(i.tasks[a.mutation.target].activity, v.run.value);
    }
  }

  /** What a shown execution says: its state, run and result in the terms of the
      Task's own records, and when it asks for a person. */
  lemma ViewMeans(i: Inputs, a: Action)
    requires CanStartWork(a)
    ensures var v := ViewOf(i, a);
      && v.action == a.id && v.task == a.mutation.target
      && if v.task !in i.tasks || i.tasks[v.task].project != i.project then
           v.state.TaskUnavailable? && v.run.None? && v.result.NotApplicable? && !v.needsHuman && v.attention.None?
         else
           var t := i.tasks[v.task];
           && AttributionMeaning(t, a, i.live.Some? && v.task in i.live.value, v.state, v.run)
           && ShownResult(t, v)
           && v.attention == (if (if v.run.None? then v.state.FailedRun?
                                  else v.run.value == LatestRun(t) && AttentionBelongsTo(t.activity, v.run.value))
                              then i.needsYou(t, v.task in i.delivering) else None)
           && (v.needsHuman <==> v.attention.Some? || v.state.NeedsRecovery?)
  {
    var v := ViewOf(i, a);
    if v.task in i.tasks && i.tasks[v.task].project == i.project {
      AttributionMeans(i.tasks[v.task], a, i.live.Some? && v.task in i.live.value);
      ResultIsShown(i, a);
    }
  }

  // ------------------------------------------------ what a start makes shown

  lemma RecoveryIsRecorded(entries: seq<Entry>, now: Time, run: u32, reason: Said)
    requires |entries| <= MAX_ENTRIES
    ensures RecoveryOn(Record(entries, now, RecoveryRequired(Some(run), reason)), run)
  {
    var kind := RecoveryRequired(Some(run), reason);
    RecordedOnce(entries, now, kind, now, kind);
    var e :| e in Record(entries, now, kind) && IdentityOf(e.kind) == IdentityOf(kind);
  }

  /** A run whose Worker was lost is shown as needing recovery, and asks for a
      person, as soon as the next start has looked at its Task. */
  lemma LostWorkerIsShown(h: S.Host, owner: Option<Id>, t: Task, now: Time, run: u32, reason: Said, i: Inputs, a: Action)
    requires S.LostWorker(t, Some(run), reason) && |t.activity| <= MAX_ENTRIES
    requires CanStartWork(a) && !BoundTo(t, a.id) && exists k :: Sole(t.executed, a.id, k) && t.executed[k].run == run
    requires a.mutation.target in i.tasks && i.tasks[a.mutation.target] == S.StartupTask(h, owner, t, now)
    requires t.project == i.project
    ensures var v := ViewOf(i, a); v.state.NeedsRecovery? && v.run == Some(run) && v.needsHuman
  {
    S.LostIsHeld(h, owner, t, now, Some(run), reason);
    S.TaskKeepsIdentity(h, owner, t, now);
    RecoveryIsRecorded(t.activity, now, run, reason);
    ViewMeans(i, a);
    RecoveryShows(S.StartupTask(h, owner, t, now), a, run);
  }

  lemma RecoveryShows(t: Task, a: Action, run: u32)
    requires RecoveryOn(t.activity, run) && !BoundTo(t, a.id) && exists k :: Sole(t.executed, a.id, k) && t.executed[k].run == run
    ensures forall live, state, shown :: AttributionMeaning(t, a, live, state, shown) ==> state.NeedsRecovery? && shown == Some(run)
  {
    var k :| Sole(t.executed, a.id, k) && t.executed[k].run == run;
    assert t.executed[k] in t.executed;
  }
}
