/** The Coordinator's reads of its own Project: one order for every listing,
    pages that join up, answers that depend on that Project alone, and a turn
    with a fixed number of reads (`src-tauri/src/coordinator_reads.rs`). */
module Reads {
  import opened Durability
  import opened Orders
  import opened Tasks
  import opened Boards
  import opened Columns
  import P = PrStatuses

  const READS_PER_TURN := 3
  const LIST_DEFAULT_LIMIT := 10
  const LIST_MAX_LIMIT := 20
  const TITLE_CHARS := 200
  const DESCRIPTION_CHARS := 4000
  const ERROR_CHARS := 1000
  const DEPENDENCIES_SHOWN := 20
  const ACTIVITY_DEFAULT_LIMIT := 15
  const ACTIVITY_MAX_LIMIT := 30
  const RESULTS_SHOWN := 3
  const PULL_REQUESTS_SHOWN := 5
  const USIZE_MAX := 0xFFFF_FFFF_FFFF_FFFF

  function Clip(text: string, limit: nat): string {
    if |text| <= limit then text else text[..limit]
  }

  function Take<T>(s: seq<T>, n: nat): seq<T> {
    if |s| <= n then s else s[..n]
  }

  // ------------------------------------------------------------- the listing

  /** Backlog position, then id. */
  predicate Before(b: Board, x: Id, y: Id) {
    PositionIn(b, x) < PositionIn(b, y) || (PositionIn(b, x) == PositionIn(b, y) && x <= y)
  }

  function InProject(b: Board, keys: seq<Id>, project: Id): (r: seq<Id>)
    ensures forall id :: id in r <==> id in keys && id in b && b[id].project == project
    ensures NoDup(keys) ==> NoDup(r)
  {
    if keys == [] then []
    else
      var rest := InProject(b, keys[1..], project);
      if keys[0] in b && b[keys[0]].project == project then [keys[0]] + rest else rest
  }

  /** `project_tasks`, over whatever order the map is iterated in. */
  function ProjectTasks(b: Board, keys: seq<Id>, project: Id): seq<Id> {
    SortBy((x, y) => Before(b, x, y), InProject(b, keys, project))
  }

  lemma BeforeOrders(b: Board)
    ensures Preorder((x, y) => Before(b, x, y))
  {
  }

  lemma ProjectTasksFacts(b: Board, keys: seq<Id>, project: Id)
    requires Enumerates(keys, b)
    ensures var r := ProjectTasks(b, keys, project);
      && NoDup(r) && Ordered((x, y) => Before(b, x, y), r)
      && forall id :: id in r <==> id in b && b[id].project == project
  {
    BeforeOrders(b);
    SortOrders((x, y) => Before(b, x, y), InProject(b, keys, project));
    SortKeepsNoDup((x, y) => Before(b, x, y), InProject(b, keys, project));
  }

  lemma OrderedLike(a: Board, b: Board, s: seq<Id>)
    requires Ordered((x, y) => Before(b, x, y), s)
    requires forall id :: id in s ==> PositionIn(a, id) == PositionIn(b, id)
    ensures Ordered((x, y) => Before(a, x, y), s)
  {
    forall i, j | 0 <= i < j < |s| ensures Before(a, s[i], s[j]) {
      assert ((x, y) => Before(b, x, y))(s[i], s[j]);
    }
  }

  /** Two stores that agree on this Project's Tasks list them alike, whatever
      else they hold and however they iterate. */
  lemma ListingDependsOnProject(a: Board, aKeys: seq<Id>, b: Board, bKeys: seq<Id>, project: Id)
    requires Enumerates(aKeys, a) && Enumerates(bKeys, b) && Stage(a, project) == Stage(b, project)
    ensures ProjectTasks(a, aKeys, project) == ProjectTasks(b, bKeys, project)
  {
    var x, y := ProjectTasks(a, aKeys, project), ProjectTasks(b, bKeys, project);
    ProjectTasksFacts(a, aKeys, project);
    ProjectTasksFacts(b, bKeys, project);
    forall id ensures id in x <==> id in y {
      assert id in Stage(a, project) <==> id in Stage(b, project);
    }
    forall id | id in y ensures PositionIn(a, id) == PositionIn(b, id) {
      assert id in Stage(a, project) && Stage(a, project)[id] == Stage(b, project)[id];
    }
    OrderedLike(a, b, y);
    assert Members(x) == Members(y);
    BeforeOrders(a);
    OrderIsUnique((u, v) => Before(a, u, v), x, y);
  }

  // ------------------------------------------------------------------- pages

  datatype Row = Row(id: Id, title: string, status: Status, priority: Priority, category: Category)

  function RowOf(b: Board, id: Id): Row
    requires id in b
  {
    var t := b[id];
    Row(t.id, Clip(t.title, TITLE_CHARS), t.status, t.priority, t.category)
  }

  datatype Page = Page(totalMatching: nat, offset: nat, returned: nat, truncated: bool, nextOffset: Option<nat>, rows: seq<Row>)

  function Matching(b: Board, ids: seq<Id>, status: Option<Status>): (r: seq<Id>)
    ensures forall id :: id in r <==> id in ids && id in b && (status.None? || b[id].status == status.value)
    ensures |r| <= |ids|
  {
    if ids == [] then []
    else
      var rest := Matching(b, ids[1..], status);
      if ids[0] in b && (status.None? || b[ids[0]].status == status.value) then [ids[0]] + rest else rest
  }

  function Limit(limit: Option<nat>, usual: nat, most: nat): (n: nat)
    requires 1 <= usual <= most
    ensures 1 <= n <= most
  {
    if limit.None? then usual else if limit.value < 1 then 1 else if limit.value > most then most else limit.value
  }

  function Rows(b: Board, ids: seq<Id>): (r: seq<Row>)
    requires forall id :: id in ids ==> id in b
    ensures |r| == |ids|
  {
    if ids == [] then [] else assert ids[0] in ids; [RowOf(b, ids[0])] + Rows(b, ids[1..])
  }

  /** Each row is its Task's. */
  lemma {:induction false} RowAt(b: Board, ids: seq<Id>, i: nat)
    requires (forall id :: id in ids ==> id in b) && i < |ids|
    ensures ids[i] in ids && Rows(b, ids)[i] == RowOf(b, ids[i])
  {
    if i > 0 {
      RowAt(b, ids[1..], i - 1);
    }
  }

  /** Every row the filter admits, in the one order. */
  function AllRows(b: Board, keys: seq<Id>, project: Id, status: Option<Status>): seq<Row> {
    Rows(b, Matching(b, ProjectTasks(b, keys, project), status))
  }

  /** One page of the matching rows: skip to the offset, take the limit. */
  function PageOf(all: seq<Row>, size: nat, from: nat): Page {
    var page := Take(if from >= |all| then [] else all[from..], size);
    var end := if from + |page| <= USIZE_MAX then from + |page| else USIZE_MAX;
    Page(|all|, from, |page|, end < |all|, if end < |all| then Some(end) else None, page)
  }

  /** `list_tasks`. */
  function ListTasks(b: Board, keys: seq<Id>, project: Id, status: Option<Status>, limit: Option<nat>, offset: Option<nat>): Page {
    PageOf(
      AllRows(b, keys, project, status), Limit(limit, LIST_DEFAULT_LIMIT, LIST_MAX_LIMIT),
      if offset.Some? then offset.value else 0)
  }

  /** `task_index`, with titles clipped as pages clip them. */
  function TaskIndex(b: Board, keys: seq<Id>, project: Id): seq<Row>
    requires Enumerates(keys, b)
  {
    ProjectTasksFacts(b, keys, project);
    Rows(b, ProjectTasks(b, keys, project))
  }

  /** Follow `next_offset` from `offset`, with pages of the given sizes. */
  function Follow(all: seq<Row>, sizes: nat -> nat, n: nat, offset: nat): seq<Row>
    requires |all| <= USIZE_MAX && forall k :: sizes(k) >= 1
    decreases |all| - offset
  {
    var page := PageOf(all, sizes(n), offset);
    page.rows + (if page.nextOffset.None? then [] else Follow(all, sizes, n + 1, page.nextOffset.value))
  }

  lemma PageIsASlice(all: seq<Row>, size: nat, offset: nat)
    requires offset <= |all| <= USIZE_MAX && size >= 1
    ensures var page := PageOf(all, size, offset); var end := offset + |page.rows|;
      && end <= |all| && page.rows == all[offset..end]
      && page.nextOffset == (if end < |all| then Some(end) else None)
      && (offset < |all| ==> end > offset)
  {
  }

  lemma {:induction false} FollowedPagesJoinUp(all: seq<Row>, sizes: nat -> nat, n: nat, offset: nat)
    requires offset <= |all| <= USIZE_MAX && forall k :: sizes(k) >= 1
    ensures Follow(all, sizes, n, offset) == all[offset..]
    decreases |all| - offset
  {
    PageIsASlice(all, sizes(n), offset);
    var page := PageOf(all, sizes(n), offset);
    if page.nextOffset.Some? {
      FollowedPagesJoinUp(all, sizes, n + 1, page.nextOffset.value);
      assert all[offset..] == all[offset..page.nextOffset.value] + all[page.nextOffset.value..];
    }
  }

  /** A reader that keeps asking for `next_offset`, with whatever limits. */
  method ReadAllPages(b: Board, keys: seq<Id>, project: Id, status: Option<Status>, limits: nat -> Option<nat>)
    returns (rows: seq<Row>)
    requires |AllRows(b, keys, project, status)| <= USIZE_MAX
    ensures rows == AllRows(b, keys, project, status)
  {
    var all := AllRows(b, keys, project, status);
    var offset, n, more := 0, 0, true;
    rows := [];
    while more
      invariant offset <= |all| && rows == all[..offset]
      invariant !more ==> offset == |all|
      decreases |all| - offset, more
    {
      var page := ListTasks(b, keys, project, status, limits(n), Some(offset));
      PageIsASlice(all, Limit(limits(n), LIST_DEFAULT_LIMIT, LIST_MAX_LIMIT), offset);
      rows := rows + page.rows;
      offset, n, more := offset + page.returned, n + 1, page.nextOffset.Some?;
    }
  }

  function Sizes(limits: nat -> Option<nat>): (sizes: nat -> nat)
    ensures forall k :: 1 <= sizes(k) <= LIST_MAX_LIMIT
  {
    var sizes := (n: nat) => Limit(limits(n), LIST_DEFAULT_LIMIT, LIST_MAX_LIMIT);
    assert forall k: nat :: sizes(k) == Limit(limits(k), LIST_DEFAULT_LIMIT, LIST_MAX_LIMIT);
    sizes
  }

  /** Following the pages from the start terminates, and gives each matching Task
      once, in order, whatever limits are asked for. */
  lemma PagesJoinUp(b: Board, keys: seq<Id>, project: Id, status: Option<Status>, limits: nat -> Option<nat>)
    requires |AllRows(b, keys, project, status)| <= USIZE_MAX
    ensures Follow(AllRows(b, keys, project, status), Sizes(limits), 0, 0) == AllRows(b, keys, project, status)
  {
    var all := AllRows(b, keys, project, status);
    FollowedPagesJoinUp(all, Sizes(limits), 0, 0);
    assert all[0..] == all;
  }

  lemma {:induction false} MatchingAll(b: Board, ids: seq<Id>)
    requires forall id :: id in ids ==> id in b
    ensures Matching(b, ids, None) == ids
  {
    if ids != [] {
      assert ids[0] in ids;
      MatchingAll(b, ids[1..]);
    }
  }

  /** With no filter, the pages are the Task index. */
  lemma UnfilteredIsTheIndex(b: Board, keys: seq<Id>, project: Id)
    requires Enumerates(keys, b)
    ensures AllRows(b, keys, project, None) == TaskIndex(b, keys, project)
  {
    ProjectTasksFacts(b, keys, project);
    MatchingAll(b, ProjectTasks(b, keys, project));
  }

  lemma {:induction false} MatchingKeepsNoDup(b: Board, ids: seq<Id>, status: Option<Status>)
    requires NoDup(ids)
    ensures NoDup(Matching(b, ids, status))
  {
    if ids != [] {
      MatchingKeepsNoDup(b, ids[1..], status);
    }
  }

  /** Each matching Task has exactly one row. */
  lemma EachMatchOnce(b: Board, keys: seq<Id>, project: Id, status: Option<Status>)
    requires Enumerates(keys, b)
    ensures var ids := Matching(b, ProjectTasks(b, keys, project), status);
      && NoDup(ids) && |AllRows(b, keys, project, status)| == |ids|
      && forall id :: id in ids <==> id in b && b[id].project == project && (status.None? || b[id].status == status.value)
  {
    ProjectTasksFacts(b, keys, project);
    MatchingKeepsNoDup(b, ProjectTasks(b, keys, project), status);
  }

  // ------------------------------------------------------------- other reads

  /** What a read takes from a Task or the status cache besides the record
      modelled here: its creation time, its linked pull requests, and the text a
      message has. */
  datatype Context = Context(
    created: Task -> Time, links: Task -> seq<P.PrKey>, statuses: P.Cache, wording: Note -> string)

  function Own(b: Board, project: Id, id: Id): Option<Task> {
    if id in b && b[id].project == project then Some(b[id]) else None
  }

  datatype Dependency = Dependency(id: Id, title: string, status: Status)

  /** The dependencies in this Project, up to the number shown. */
  function Dependencies(b: Board, project: Id, ids: seq<Id>): seq<Dependency> {
    if ids == [] then []
    else match Own(b, project, ids[0])
      case None => Dependencies(b, project, ids[1..])
      case Some(t) => [Dependency(t.id, Clip(t.title, TITLE_CHARS), t.status)] + Dependencies(b, project, ids[1..])
  }

  datatype Event = Event(at: Time, kind: Option<Milestone>, textShown: bool)
  datatype Link = Link(key: P.PrKey, live: Option<P.Reading>, lastRefreshFailed: bool)

  datatype Value =
    | NotFound
    | FoundTask(
        id: Id, title: string, description: string, truncated: bool, status: Status, priority: Priority,
        category: Category, progress: nat, error: Option<string>, hasCheckout: bool, branch: Option<string>,
        dependencies: seq<Dependency>)
    | Listed(page: Page)
    | FoundActivity(task: Id, status: Status, omitted: nat, events: seq<Event>)
    | FoundLinks(task: Id, total: nat, links: seq<Link>)
    | FoundProject(counts: map<Status, nat>, total: nat)

  function InspectTask(b: Board, project: Id, id: Id, c: Context): Value {
    match Own(b, project, id)
    case None => NotFound
    case Some(t) =>
      var description := if t.description.Some? then t.description.value else "";
      FoundTask(
        t.id, Clip(t.title, TITLE_CHARS), Clip(description, DESCRIPTION_CHARS), |description| > DESCRIPTION_CHARS,
        t.status, t.priority, t.category, t.progress,
        if t.error.Some? then Some(Clip(c.wording(t.error.value), ERROR_CHARS)) else None, t.worktree.Some?, t.branch,
        Take(Dependencies(b, project, t.dependencies), DEPENDENCIES_SHOWN))
  }

  /** `None` is the Task's creation. */
  datatype Item = Item(at: Time, kind: Option<Milestone>)

  function Items(entries: seq<Entry>): seq<Item> {
    if entries == [] then [] else [Item(entries[0].at, Some(entries[0].kind))] + Items(entries[1..])
  }

  /** The timeline, oldest first; the sort is stable, so creation comes first
      and entries keep their order at one instant. */
  function Timeline(created: Time, entries: seq<Entry>): seq<Item> {
    SortBy((x: Item, y: Item) => x.at <= y.at, [Item(created, None)] + Items(entries))
  }

  function Milestones(items: seq<Item>): seq<Item> {
    if items == [] then []
    else (if items[0].kind.Some? && items[0].kind.value.Tool? then [] else [items[0]]) + Milestones(items[1..])
  }

  predicate IsResult(i: Item) {
    i.kind.Some? && i.kind.value.RunAnswer?
  }

  function Results(items: seq<Item>): (n: nat)
    ensures n <= |items|
  {
    if items == [] then 0 else (if IsResult(items[|items| - 1]) then 1 else 0) + Results(items[..|items| - 1])
  }

  /** An event carries its text when it is a result and fewer than three results
      come after it. */
  function EventsOf(window: seq<Item>): (events: seq<Event>)
    ensures |events| == |window|
  {
    seq(|window|, i requires 0 <= i < |window| =>
      Event(window[i].at, window[i].kind,
            IsResult(window[i]) && Results(window) - Results(window[..i + 1]) < RESULTS_SHOWN))
  }

  function Window(items: seq<Item>, limit: nat): (w: seq<Item>)
    ensures |w| <= limit
  {
    if |items| <= limit then items else items[|items| - limit..]
  }

  function InspectTaskActivity(b: Board, project: Id, id: Id, limit: Option<nat>, c: Context): Value {
    match Own(b, project, id)
    case None => NotFound
    case Some(t) =>
      var milestones := Milestones(Timeline(c.created(t), t.activity));
      var window := Window(milestones, Limit(limit, ACTIVITY_DEFAULT_LIMIT, ACTIVITY_MAX_LIMIT));
      FoundActivity(t.id, t.status, |milestones| - |window|, EventsOf(window))
  }

  function LinkOf(c: Context, key: P.PrKey): Link {
    if key in c.statuses.entries
    then Link(key, c.statuses.entries[key].status, c.statuses.entries[key].error.Some?)
    else Link(key, None, false)
  }

  function InspectTaskPullRequest(b: Board, project: Id, id: Id, c: Context): Value {
    match Own(b, project, id)
    case None => NotFound
    case Some(t) =>
      var shown := Take(c.links(t), PULL_REQUESTS_SHOWN);
      FoundLinks(t.id, |c.links(t)|, seq(|shown|, i requires 0 <= i < |shown| => LinkOf(c, shown[i])))
  }

  /** The Tasks of a Project in one status. */
  function InStatus(b: Board, project: Id, status: Status): set<Id> {
    set id | id in b && b[id].project == project && b[id].status == status
  }

  const STATUSES: set<Status> := {Backlog, Queue, InProgress, AiReview, HumanReview, Done, PrCreated, Status.Error}

  function StatusCounts(b: Board, project: Id): map<Status, nat> {
    map s | s in STATUSES && InStatus(b, project, s) != {} :: |InStatus(b, project, s)|
  }

  function InspectProject(b: Board, project: Id): Value {
    FoundProject(StatusCounts(b, project), |Stage(b, project)|)
  }

  datatype Output =
    | InspectTaskOf(target: Id)
    | ListTasksOf(status: Option<Status>, limit: Option<nat>, offset: Option<nat>)
    | ActivityOf(target: Id, limit: Option<nat>)
    | PullRequestOf(target: Id)
    | InspectProjectOf
    | NotARead(text: string)

  /** `read`. */
  function Read(o: Output, project: Id, b: Board, keys: seq<Id>, c: Context): Option<Value> {
    match o
    case InspectTaskOf(target) => Some(InspectTask(b, project, target, c))
    case ListTasksOf(status, limit, offset) =>
      var from := if offset.Some? && offset.value > USIZE_MAX then Some(USIZE_MAX) else offset;
      Some(Listed(ListTasks(b, keys, project, status, limit, from)))
    case ActivityOf(target, limit) => Some(InspectTaskActivity(b, project, target, limit, c))
    case PullRequestOf(target) => Some(InspectTaskPullRequest(b, project, target, c))
    case InspectProjectOf => Some(InspectProject(b, project))
    case NotARead(_) => None
  }

  // --------------------------------------------------------- non-interference

  lemma OwnDependsOnProject(a: Board, b: Board, project: Id, id: Id)
    requires Stage(a, project) == Stage(b, project)
    ensures Own(a, project, id) == Own(b, project, id)
  {
    assert id in Stage(a, project) <==> id in Stage(b, project);
    if id in Stage(a, project) { assert Stage(a, project)[id] == Stage(b, project)[id]; }
  }

  lemma {:induction false} DependenciesDependOnProject(a: Board, b: Board, project: Id, ids: seq<Id>)
    requires Stage(a, project) == Stage(b, project)
    ensures Dependencies(a, project, ids) == Dependencies(b, project, ids)
  {
    if ids != [] {
      OwnDependsOnProject(a, b, project, ids[0]);
      DependenciesDependOnProject(a, b, project, ids[1..]);
    }
  }

  lemma {:induction false} RowsLike(a: Board, b: Board, project: Id, ids: seq<Id>, status: Option<Status>)
    requires Stage(a, project) == Stage(b, project)
    requires forall id :: id in ids ==> id in Stage(a, project)
    ensures Matching(a, ids, status) == Matching(b, ids, status)
    ensures Rows(a, Matching(a, ids, status)) == Rows(b, Matching(b, ids, status))
  {
    if ids != [] {
      assert ids[0] in ids;
      assert Stage(a, project)[ids[0]] == Stage(b, project)[ids[0]];
      RowsLike(a, b, project, ids[1..], status);
      assert Matching(a, ids, status) != Matching(a, ids[1..], status) ==>
        Matching(a, ids, status)[1..] == Matching(a, ids[1..], status);
    }
  }

  lemma ProjectLike(a: Board, b: Board, project: Id)
    requires Stage(a, project) == Stage(b, project)
    ensures InspectProject(a, project) == InspectProject(b, project)
  {
    forall s: Status ensures InStatus(a, project, s) == InStatus(b, project, s) {
      forall id ensures id in InStatus(a, project, s) <==> id in InStatus(b, project, s) {
        OwnDependsOnProject(a, b, project, id);
      }
    }
  }

  /** Every answer depends on this Project's Tasks alone: two stores that agree on
      them are indistinguishable through any read. */
  lemma ReadsDoNotInterfere(o: Output, project: Id, a: Board, aKeys: seq<Id>, b: Board, bKeys: seq<Id>, c: Context)
    requires Enumerates(aKeys, a) && Enumerates(bKeys, b) && Stage(a, project) == Stage(b, project)
    ensures Read(o, project, a, aKeys, c) == Read(o, project, b, bKeys, c)
  {
    match o
    case InspectTaskOf(target) =>
      OwnDependsOnProject(a, b, project, target);
      if Own(a, project, target).Some? {
        DependenciesDependOnProject(a, b, project, Own(a, project, target).value.dependencies);
      }
    case ListTasksOf(status, _, _) =>
      ListingDependsOnProject(a, aKeys, b, bKeys, project);
      ProjectTasksFacts(a, aKeys, project);
      RowsLike(a, b, project, ProjectTasks(a, aKeys, project), status);
    case ActivityOf(target, _) => OwnDependsOnProject(a, b, project, target);
    case PullRequestOf(target) => OwnDependsOnProject(a, b, project, target);
    case InspectProjectOf => ProjectLike(a, b, project);
    case NotARead(_) =>
  }

  /** So a Task of another Project answers exactly like one that does not exist. */
  lemma ForeignLooksMissing(o: Output, project: Id, b: Board, keys: seq<Id>, fewer: seq<Id>, id: Id, c: Context)
    requires Enumerates(keys, b) && id in b && b[id].project != project && Enumerates(fewer, b - {id})
    ensures Read(o, project, b, keys, c) == Read(o, project, b - {id}, fewer, c)
    ensures InspectTask(b, project, id, c) == NotFound
  {
    assert Stage(b, project) == Stage(b - {id}, project);
    ReadsDoNotInterfere(o, project, b, keys, b - {id}, fewer, c);
  }

  // ----------------------------------------------------- what an answer says

  /** The first `n` characters, or the whole text. */
  predicate Shortened(text: string, n: nat, shown: string) {
    shown <= text && |shown| == if |text| <= n then |text| else n
  }

  /** Where two Tasks stand in a listing: by their place in the Backlog, then by id. */
  lemma ListedInOrder(b: Board, keys: seq<Id>, project: Id, i: nat, j: nat)
    requires Enumerates(keys, b) && i < j < |ProjectTasks(b, keys, project)|
    ensures var x, y := ProjectTasks(b, keys, project)[i], ProjectTasks(b, keys, project)[j];
      && x in b && y in b && b[x].project == b[y].project == project
      && (b[x].position < b[y].position || (b[x].position == b[y].position && x < y))
  {
    var ids := ProjectTasks(b, keys, project);
    ProjectTasksFacts(b, keys, project);
    NoDupIndices(ids, i, j);
    assert ids[i] in ids && ids[j] in ids;
    assert ((x, y) => Before(b, x, y))(ids[i], ids[j]);
  }

  /** A filter leaves out what does not match, and leaves the order alone. */
  lemma {:induction false} MatchingSays(b: Board, xs: seq<Id>, ys: seq<Id>, status: Option<Status>, id: Id)
    ensures Matching(b, xs + ys, status) == Matching(b, xs, status) + Matching(b, ys, status)
    ensures Matching(b, [id], status) == if id in b && (status.None? || b[id].status == status.value) then [id] else []
  {
    assert [id][1..] == [];
    if xs == [] {
      assert xs + ys == ys;
    } else {
      assert (xs + ys)[0] == xs[0] && (xs + ys)[1..] == xs[1..] + ys;
      MatchingSays(b, xs[1..], ys, status, id);
    }
  }

  /** What a row says of its Task. */
  lemma RowSays(b: Board, keys: seq<Id>, project: Id, status: Option<Status>, i: nat)
    requires Enumerates(keys, b) && i < |AllRows(b, keys, project, status)|
    ensures var ids := Matching(b, ProjectTasks(b, keys, project), status); var row := AllRows(b, keys, project, status)[i];
      && i < |ids| && ids[i] in b
      && row.id == b[ids[i]].id && Shortened(b[ids[i]].title, 200, row.title) && row.status == b[ids[i]].status
      && row.priority == b[ids[i]].priority && row.category == b[ids[i]].category
  {
    EachMatchOnce(b, keys, project, status);
    var ids := Matching(b, ProjectTasks(b, keys, project), status);
    RowAt(b, ids, i);
  }

  /** The rows of a page, and what it says of the others. */
  predicate IsPage(all: seq<Row>, size: nat, from: nat, p: Page) {
    && p.totalMatching == |all| && p.offset == from && p.returned == |p.rows|
    && p.rows == (if from >= |all| then [] else if from + size <= |all| then all[from..from + size] else all[from..])
    && (p.truncated <==> from + |p.rows| < |all|)
    && p.nextOffset == if p.truncated then Some(from + |p.rows|) else None
  }

  lemma PageIs(all: seq<Row>, size: nat, from: nat)
    requires |all| <= 0xFFFF_FFFF_FFFF_FFFF && from <= 0xFFFF_FFFF_FFFF_FFFF
    ensures IsPage(all, size, from, PageOf(all, size, from))
  {
    if from < |all| {
      var rest := all[from..];
      if from + size <= |all| {
        assert rest[..size] == all[from..from + size];
      }
    }
  }

  lemma LimitIs(limit: Option<nat>)
    ensures Limit(limit, LIST_DEFAULT_LIMIT, LIST_MAX_LIMIT)
         == match limit case None => 10 case Some(n) => if n == 0 then 1 else if n > 20 then 20 else n
    ensures Limit(limit, ACTIVITY_DEFAULT_LIMIT, ACTIVITY_MAX_LIMIT)
         == match limit case None => 15 case Some(n) => if n == 0 then 1 else if n > 30 then 30 else n
  {
  }

  /** A page holds the rows from its offset on, ten of them unless the reader asked
      for fewer or more, never none and never more than twenty while there are rows;
      and it says how many there are in all and where the next page begins. */
  lemma PageSays(b: Board, keys: seq<Id>, project: Id, status: Option<Status>, limit: Option<nat>, offset: Option<nat>)
    requires |AllRows(b, keys, project, status)| <= 0xFFFF_FFFF_FFFF_FFFF
    requires offset.Some? ==> offset.value <= 0xFFFF_FFFF_FFFF_FFFF
    ensures var size := match limit case None => 10 case Some(n) => if n == 0 then 1 else if n > 20 then 20 else n;
      IsPage(AllRows(b, keys, project, status), size, if offset.Some? then offset.value else 0,
             ListTasks(b, keys, project, status, limit, offset))
  {
    LimitIs(limit);
    PageIs(
      AllRows(b, keys, project, status), Limit(limit, LIST_DEFAULT_LIMIT, LIST_MAX_LIMIT),
      if offset.Some? then offset.value else 0);
  }

  /** What a read of one Task shows, and that any other id answers nothing. */
  lemma TaskSays(b: Board, project: Id, id: Id, c: Context)
    ensures var v := InspectTask(b, project, id, c);
      if !(id in b && b[id].project == project) then v.NotFound?
      else
        var t := b[id]; var text := if t.description.Some? then t.description.value else "";
        && v.FoundTask? && v.id == t.id && Shortened(t.title, 200, v.title)
        && Shortened(text, 4000, v.description) && (v.truncated <==> |text| > 4000)
        && v.status == t.status && v.priority == t.priority && v.category == t.category && v.progress == t.progress
        && (if t.error.None? then v.error.None? else v.error.Some? && Shortened(c.wording(t.error.value), 1000, v.error.value))
        && (v.hasCheckout <==> t.worktree.Some?) && v.branch == t.branch
        && v.dependencies <= Dependencies(b, project, t.dependencies)
        && |v.dependencies| == if |Dependencies(b, project, t.dependencies)| <= 20 then |Dependencies(b, project, t.dependencies)| else 20
  {
  }

  /** Of what a Task depends on, the Tasks of the same Project are shown, in order,
      and nothing else. */
  lemma {:induction false} DependenciesSay(b: Board, project: Id, xs: seq<Id>, ys: seq<Id>, id: Id)
    ensures Dependencies(b, project, xs + ys) == Dependencies(b, project, xs) + Dependencies(b, project, ys)
    ensures var one := Dependencies(b, project, [id]);
      if id in b && b[id].project == project then
        |one| == 1 && one[0].id == b[id].id && Shortened(b[id].title, 200, one[0].title) && one[0].status == b[id].status
      else one == []
  {
    assert [id][1..] == [];
    if xs == [] {
      assert xs + ys == ys;
    } else {
      assert (xs + ys)[0] == xs[0] && (xs + ys)[1..] == xs[1..] + ys;
      DependenciesSay(b, project, xs[1..], ys, id);
    }
  }

  /** The timeline holds the Task's creation and its log, by time, and at one instant
      in the order of the log, with the creation first. */
  lemma TimelineSays(created: Time, entries: seq<Entry>, at: Time)
    ensures var line := Timeline(created, entries);
      && Ordered((x: Item, y: Item) => x.at <= y.at, line)
      && AtTime(line, at) == (if created == at then [Item(created, None)] else []) + AtTime(Items(entries), at)
  {
    var le := (x: Item, y: Item) => x.at <= y.at;
    var all := [Item(created, None)] + Items(entries);
    SortOrders(le, all);
    SortedAtTime(all, at);
    assert all[1..] == Items(entries);
  }

  function AtTime(items: seq<Item>, at: Time): seq<Item> {
    if items == [] then [] else (if items[0].at == at then [items[0]] else []) + AtTime(items[1..], at)
  }

  lemma {:induction false} InsertedAtTime(x: Item, s: seq<Item>, at: Time)
    requires Ordered((x: Item, y: Item) => x.at <= y.at, s)
    ensures AtTime(Insert((x: Item, y: Item) => x.at <= y.at, x, s), at) == (if x.at == at then [x] else []) + AtTime(s, at)
  {
    var le := (x: Item, y: Item) => x.at <= y.at;
    if s == [] || le(x, s[0]) {
      assert ([x] + s)[1..] == s;
    } else {
      assert forall i, j :: 0 <= i < j < |s[1..]| ==> le(s[1..][i], s[1..][j]);
      InsertedAtTime(x, s[1..], at);
      var r := Insert(le, x, s);
      assert r[0] == s[0] && r[1..] == Insert(le, x, s[1..]);
      if x.at == at {
        assert AtTime([s[0]], at) == [];
      }
    }
  }

  lemma {:induction false} SortedAtTime(s: seq<Item>, at: Time)
    ensures AtTime(SortBy((x: Item, y: Item) => x.at <= y.at, s), at) == AtTime(s, at)
  {
    if s != [] {
      var le := (x: Item, y: Item) => x.at <= y.at;
      SortOrders(le, s[1..]);
      SortedAtTime(s[1..], at);
      InsertedAtTime(s[0], SortBy(le, s[1..]), at);
    }
  }

  /** Tool calls are left out of what is shown, and nothing else is. */
  lemma {:induction false} MilestonesSay(xs: seq<Item>, ys: seq<Item>, i: Item)
    ensures Milestones(xs + ys) == Milestones(xs) + Milestones(ys)
    ensures Milestones([i]) == if i.kind.Some? && i.kind.value.Tool? then [] else [i]
  {
    assert [i][1..] == [];
    if xs == [] {
      assert xs + ys == ys;
    } else {
      assert (xs + ys)[0] == xs[0] && (xs + ys)[1..] == xs[1..] + ys;
      MilestonesSay(xs[1..], ys, i);
    }
  }

  /** The last items, at most so many, and how many come before them. */
  predicate ShowsLast(all: seq<Item>, most: nat, omitted: nat, events: seq<Event>) {
    && omitted + |events| == |all| && |events| == (if |all| <= most then |all| else most)
    && forall k :: 0 <= k < |events| ==> events[k].at == all[omitted + k].at && events[k].kind == all[omitted + k].kind
  }

  lemma WindowShowsLast(all: seq<Item>, most: nat)
    ensures ShowsLast(all, most, |all| - |Window(all, most)|, EventsOf(Window(all, most)))
  {
  }

  /** A Task's activity is shown by its last milestones, fifteen unless asked for
      otherwise and at most thirty, with the number of earlier ones. */
  lemma ActivitySays(b: Board, project: Id, id: Id, limit: Option<nat>, c: Context)
    ensures var v := InspectTaskActivity(b, project, id, limit, c);
      if !(id in b && b[id].project == project) then v.NotFound?
      else
        var most := match limit case None => 15 case Some(n) => if n == 0 then 1 else if n > 30 then 30 else n;
        && v.FoundActivity? && v.task == b[id].id && v.status == b[id].status
        && ShowsLast(Milestones(Timeline(c.created(b[id]), b[id].activity)), most, v.omitted, v.events)
  {
    LimitIs(limit);
    if id in b {
      WindowShowsLast(
        Milestones(Timeline(c.created(b[id]), b[id].activity)), Limit(limit, ACTIVITY_DEFAULT_LIMIT, ACTIVITY_MAX_LIMIT));
    }
  }

  /** A Task's pull requests are shown from what the cache holds: the first five, each
      with what was last read of it and whether the latest attempt failed. */
  lemma LinksSay(b: Board, project: Id, id: Id, c: Context)
    ensures var v := InspectTaskPullRequest(b, project, id, c);
      if !(id in b && b[id].project == project) then v.NotFound?
      else
        var links := c.links(b[id]);
        && v.FoundLinks? && v.task == b[id].id && v.total == |links|
        && |v.links| == (if |links| <= 5 then |links| else 5)
        && forall k :: 0 <= k < |v.links| ==>
             && v.links[k].key == links[k]
             && (if links[k] in c.statuses.entries then
                   && v.links[k].live == c.statuses.entries[links[k]].status
                   && (v.links[k].lastRefreshFailed <==> c.statuses.entries[links[k]].error.Some?)
                 else v.links[k].live.None? && !v.links[k].lastRefreshFailed)
  {
  }

  /** A Project's overview counts its Tasks, in all and in each status that has any. */
  lemma ProjectSays(b: Board, project: Id, s: Status)
    ensures var v := InspectProject(b, project); var own := set id | id in b && b[id].project == project;
      var inStatus := set id | id in b && b[id].project == project && b[id].status == s;
      && v.FoundProject? && v.total == |own|
      && (s in v.counts <==> inStatus != {}) && (s in v.counts ==> v.counts[s] == |inStatus|)
  {
    StatusListed(s);
    assert InStatus(b, project, s) == set id | id in b && b[id].project == project && b[id].status == s;
    assert Stage(b, project).Keys == set id | id in b && b[id].project == project;
    assert |Stage(b, project)| == |Stage(b, project).Keys|;
  }

  /** Which read answers which request; text that asks for none is no read. */
  lemma ReadSays(
    target: Id, status: Option<Status>, limit: Option<nat>, offset: Option<nat>, text: string, project: Id, b: Board,
    keys: seq<Id>, c: Context)
    ensures Read(InspectTaskOf(target), project, b, keys, c) == Some(InspectTask(b, project, target, c))
    ensures Read(ActivityOf(target, limit), project, b, keys, c) == Some(InspectTaskActivity(b, project, target, limit, c))
    ensures Read(PullRequestOf(target), project, b, keys, c) == Some(InspectTaskPullRequest(b, project, target, c))
    ensures Read(InspectProjectOf, project, b, keys, c) == Some(InspectProject(b, project))
    ensures Read(NotARead(text), project, b, keys, c) == None
    ensures offset.None? || offset.value <= 0xFFFF_FFFF_FFFF_FFFF ==>
      Read(ListTasksOf(status, limit, offset), project, b, keys, c) == Some(Listed(ListTasks(b, keys, project, status, limit, offset)))
  {
  }

  // ------------------------------------------------------------- the results

  /** The loop over the window, counting the results it has passed. */
  method ShowEvents(window: seq<Item>) returns (events: seq<Event>)
    ensures events == EventsOf(window)
  {
    var inWindow := Results(window);
    var seen := 0;
    events := [];
    for i := 0 to |window|
      invariant |events| == i && seen == Results(window[..i]) && events == EventsOf(window)[..i]
    {
      assert window[..i + 1][..i] == window[..i];
      var shows := false;
      if IsResult(window[i]) {
        shows := seen + RESULTS_SHOWN >= inWindow;
        seen := seen + 1;
      }
      events := events + [Event(window[i].at, window[i].kind, shows)];
      assert EventsOf(window)[..i + 1] == EventsOf(window)[..i] + [EventsOf(window)[i]];
    }
    assert EventsOf(window)[..|window|] == EventsOf(window);
  }

  function TextsShown(events: seq<Event>): nat {
    if events == [] then 0 else (if events[|events| - 1].textShown then 1 else 0) + TextsShown(events[..|events| - 1])
  }

  lemma {:induction false} ShownUpTo(window: seq<Item>, k: nat)
    requires k <= |window|
    ensures Results(window[..k]) <= Results(window)
    ensures TextsShown(EventsOf(window)[..k]) ==
      var hidden := if Results(window) <= RESULTS_SHOWN then 0 else Results(window) - RESULTS_SHOWN;
      if Results(window[..k]) <= hidden then 0 else Results(window[..k]) - hidden
    decreases k
  {
    ResultsGrow(window, k);
    if k > 0 {
      ShownUpTo(window, k - 1);
      var events := EventsOf(window);
      assert events[..k][..k - 1] == events[..k - 1] && events[..k][k - 1] == events[k - 1];
      assert window[..k][..k - 1] == window[..k - 1];
    }
  }

  lemma {:induction false} ResultsGrow(window: seq<Item>, k: nat)
    requires k <= |window|
    ensures Results(window[..k]) <= Results(window)
    decreases |window|
  {
    if k < |window| {
      ResultsGrow(window[..|window| - 1], k);
      assert window[..|window| - 1][..k] == window[..k];
    } else {
      assert window[..k] == window;
    }
  }

  /** However many runs a Task has, one read shows the text of its newest three
      results in the window, or of all of them when there are fewer. */
  lemma NewestResultsAreShown(window: seq<Item>)
    ensures TextsShown(EventsOf(window)) == if Results(window) <= 3 then Results(window) else 3
  {
    ShownUpTo(window, |window|);
    assert window[..|window|] == window && EventsOf(window)[..|window|] == EventsOf(window);
  }

  /** The results from position `from` on. */
  function ResultsFrom(window: seq<Item>, from: nat): set<nat> {
    set k: nat | from <= k < |window| && IsResult(window[k])
  }

  lemma {:induction false} ResultsAreCounted(window: seq<Item>, n: nat)
    requires n <= |window|
    ensures Results(window[..n]) == |ResultsFrom(window[..n], 0)|
    decreases n
  {
    if n > 0 {
      ResultsAreCounted(window, n - 1);
      assert window[..n][..n - 1] == window[..n - 1];
      var before := ResultsFrom(window[..n - 1], 0);
      assert ResultsFrom(window[..n], 0) == if IsResult(window[n - 1]) then before + {n - 1} else before;
    }
  }

  lemma SizesAdd(all: set<nat>, some: set<nat>, others: set<nat>)
    requires all == some + others && some !! others
    ensures |all| == |some| + |others|
  {
  }

  lemma ResultsApart(window: seq<Item>, n: nat)
    requires n <= |window|
    ensures ResultsFrom(window, 0) == ResultsFrom(window[..n], 0) + ResultsFrom(window, n)
    ensures ResultsFrom(window[..n], 0) !! ResultsFrom(window, n)
  {
  }

  lemma ResultsAfter(window: seq<Item>, n: nat)
    requires n <= |window|
    ensures Results(window) - Results(window[..n]) == |ResultsFrom(window, n)|
  {
    ResultsAreCounted(window, |window|);
    ResultsAreCounted(window, n);
    assert window[..|window|] == window;
    ResultsApart(window, n);
    SizesAdd(ResultsFrom(window, 0), ResultsFrom(window[..n], 0), ResultsFrom(window, n));
  }

  /** A result shows its text exactly when fewer than three results come after it. */
  lemma ResultShownIff(window: seq<Item>, i: nat)
    requires i < |window|
    ensures EventsOf(window)[i].textShown <==> IsResult(window[i]) && |ResultsFrom(window, i + 1)| < 3
  {
    ResultsAfter(window, i + 1);
  }

  // ------------------------------------------------------------- the counts

  /** How many of `ids` are in `chosen`. */
  function CountIn(ids: seq<Id>, chosen: set<Id>): nat {
    if ids == [] then 0
    else CountIn(ids[..|ids| - 1], chosen) + if ids[|ids| - 1] in chosen then 1 else 0
  }

  lemma {:induction false} CountInIsSize(ids: seq<Id>, n: nat, chosen: set<Id>)
    requires NoDup(ids) && n <= |ids|
    ensures CountIn(ids[..n], chosen) == |Members(ids[..n]) * chosen|
    decreases n
  {
    if n > 0 {
      NoDupPrefix(ids, n - 1);
      CountInIsSize(ids, n - 1, chosen);
      assert ids[..n][..n - 1] == ids[..n - 1];
      assert ids[..n] == ids[..n - 1] + [ids[n - 1]];
      MembersNext(ids[..n - 1], ids[n - 1], chosen);
    }
  }

  lemma MembersNext(ids: seq<Id>, id: Id, chosen: set<Id>)
    requires id !in ids
    ensures |Members(ids + [id]) * chosen| == |Members(ids) * chosen| + if id in chosen then 1 else 0
  {
    var before := Members(ids) * chosen;
    if id in chosen {
      assert Members(ids + [id]) * chosen == before + {id};
    } else {
      assert Members(ids + [id]) * chosen == before;
    }
  }

  lemma CountAll(ids: seq<Id>, chosen: set<Id>)
    requires NoDup(ids) && forall id :: id in chosen ==> id in ids
    ensures CountIn(ids, chosen) == |chosen|
  {
    CountInIsSize(ids, |ids|, chosen);
    assert ids[..|ids|] == ids && Members(ids) * chosen == chosen;
  }

  function Tally(counts: map<Status, nat>, s: Status): nat {
    if s in counts then counts[s] else 0
  }

  ghost predicate TalliedRight(b: Board, project: Id, ids: seq<Id>, counts: map<Status, nat>) {
    forall s :: Tally(counts, s) == CountIn(ids, InStatus(b, project, s)) && (s in counts ==> counts[s] > 0)
  }

  lemma StatusListed(s: Status)
    ensures s in STATUSES
  {
    match s { case Backlog => case Queue => case InProgress => case AiReview => case HumanReview => case Done => case PrCreated => case Error => }
  }

  lemma TalliesAreSizes(b: Board, keys: seq<Id>, project: Id, counts: map<Status, nat>, s: Status)
    requires Enumerates(keys, b) && TalliedRight(b, project, keys, counts)
    ensures Tally(counts, s) == |InStatus(b, project, s)| && (s in counts <==> InStatus(b, project, s) != {})
  {
    assert Tally(counts, s) == CountIn(keys, InStatus(b, project, s)) && (s in counts ==> counts[s] > 0);
    CountAll(keys, InStatus(b, project, s));
  }

  lemma TallyIsTheAnswer(b: Board, keys: seq<Id>, project: Id, counts: map<Status, nat>)
    requires Enumerates(keys, b) && TalliedRight(b, project, keys, counts)
    ensures counts == StatusCounts(b, project)
  {
    var answer := StatusCounts(b, project);
    forall s ensures (s in counts <==> s in answer) && (s in counts ==> counts[s] == answer[s]) {
      StatusListed(s);
      TalliesAreSizes(b, keys, project, counts, s);
    }
  }

  /** The loop that counts a Project's Tasks by status: the counts are exact, and
      add up to all of them. */
  method CountTasks(b: Board, keys: seq<Id>, project: Id) returns (counts: map<Status, nat>, total: nat)
    requires Enumerates(keys, b)
    ensures FoundProject(counts, total) == InspectProject(b, project)
  {
    counts, total := map[], 0;
    ghost var own := Stage(b, project).Keys;
    for i := 0 to |keys|
      invariant TalliedRight(b, project, keys[..i], counts)
      invariant total == CountIn(keys[..i], own)
    {
      var id := keys[i];
      assert keys[..i + 1][..i] == keys[..i] && keys[..i + 1][i] == id;
      if b[id].project == project {
        var s := b[id].status;
        counts := counts[s := Tally(counts, s) + 1];
        total := total + 1;
      }
    }
    assert keys[..|keys|] == keys;
    CountAll(keys, own);
    TallyIsTheAnswer(b, keys, project, counts);
    assert |own| == |Stage(b, project)|;
  }

  // ------------------------------------------------------------------ a turn

  /** What one Coordinator run gives: its output, read or not, or a failure. */
  datatype RunResult = Failure(why: string) | Asks(value: Value) | Answers(output: string)

  /** What one run is told: how many results it is given, and whether its last
      request was refused; and whose guard it is handed. */
  datatype Prompt = Prompt(given: nat, remaining: nat, refused: bool, guard: Option<nat>)

  /** The first run that does not ask for a read. */
  function FirstOther(runs: nat -> RunResult, from: nat, budget: nat): (k: nat)
    ensures from <= k <= from + budget
    ensures forall j :: from <= j < k ==> runs(j).Asks?
    ensures k < from + budget ==> !runs(k).Asks?
    decreases budget
  {
    if budget == 0 || !runs(from).Asks? then from else FirstOther(runs, from + 1, budget - 1)
  }

  /** `drive`. Run `i` is told of the first three results at most, and of a
      refusal only after all three are spent; the turn ends with the first run
      that asks for no read, and after five runs at the latest. */
  method Drive(runs: nat -> RunResult)
    returns (answer: Result<string, string>, prompts: seq<Prompt>, evidence: seq<Value>, guard: nat)
    ensures var k := FirstOther(runs, 0, 5);
      && |prompts| == (if k < 5 then k + 1 else 5)
      && |prompts| <= 5
      && (answer.Ok? <==> k < 5 && runs(k).Answers?)
      && (answer.Ok? ==> answer.value == runs(k).output && guard == k)
      && |evidence| == (if k < 3 then k else 3)
    ensures forall i :: 0 <= i < |evidence| ==> runs(i) == Asks(evidence[i])
    ensures forall i :: 0 <= i < |prompts| ==>
      prompts[i] == Prompt(
        if i < 3 then i else 3, if i < 3 then 3 - i else 0,
        i > 3, if i == 0 then None else Some(i - 1))
  {
    var refused := false;
    var n := 0;
    prompts, evidence, guard := [], [], 0;
    var held: Option<nat> := None;
    while true
      invariant n == |prompts| <= READS_PER_TURN + 1 && forall j :: 0 <= j < n ==> runs(j).Asks?
      invariant |evidence| == (if n < READS_PER_TURN then n else READS_PER_TURN) && (refused <==> n > READS_PER_TURN)
      invariant held == if n == 0 then None else Some(n - 1)
      invariant forall i :: 0 <= i < |evidence| ==> runs(i) == Asks(evidence[i])
      invariant forall i :: 0 <= i < n ==>
        prompts[i] == Prompt(
          if i < READS_PER_TURN then i else READS_PER_TURN, if i < READS_PER_TURN then READS_PER_TURN - i else 0,
          i > READS_PER_TURN, if i == 0 then None else Some(i - 1))
      decreases READS_PER_TURN + 2 - n
    {
      var remaining: nat := READS_PER_TURN - |evidence|;
      prompts := prompts + [Prompt(|evidence|, remaining, refused, held)];
      guard := n;
      match runs(n) {
        case Failure(why) => return Err(why), prompts, evidence, guard;
        case Answers(output) => return Ok(output), prompts, evidence, guard;
        case Asks(value) =>
          if |evidence| == READS_PER_TURN {
            if refused {
              return Err("kept asking for reads"), prompts, evidence, guard;
            }
            refused := true;
          } else {
            evidence := evidence + [value];
          }
          held := Some(n);
          n := n + 1;
      }
    }
  }
}
