/** What GitHub last said about the linked pull requests: reading its checks, the
    cache every answer lands in, and the waits a rate limit earns
    (`src-tauri/src/pr_status.rs`). Times are nanoseconds. */
module PrStatuses {
  import opened Durability
  import opened Orders

  type Instant = int
  const SECOND: int := 1_000_000_000
  const POLL_INTERVAL: int := 300 * SECOND
  const BACKOFF_CAP: int := 3600 * SECOND
  const FAILING_NAMES_KEPT := 3
  const MAX_COUNT := 0xFFFF_FFFF

  // ------------------------------------------------------------------ checks

  /** One member of a JSON object. `name` and `context` are read trimmed. */
  datatype Member = Absent | Text(text: string) | NotText

  datatype Check = Check(
    typename: Member, state: Member, status: Member, conclusion: Member, name: Member, context: Member)

  datatype CheckOutcome = Passed | Broken | Running | Unrecognized
  datatype ChecksState = Passing | Failing | Pending | NoChecks | Unreadable

  predicate Says(m: Member, words: set<string>) {
    m.Text? && m.text in words
  }

  /** `classify_check`. */
  function ClassifyCheck(c: Check): CheckOutcome {
    if c.typename.Text? && c.typename.text != "StatusContext" && c.typename.text != "CheckRun" then Unrecognized
    else if (if c.typename.Text? then c.typename.text == "StatusContext" else !c.state.Absent? && c.status.Absent?) then
      if Says(c.state, {"SUCCESS"}) then Passed
      else if Says(c.state, {"FAILURE", "ERROR"}) then Broken
      else if Says(c.state, {"PENDING", "EXPECTED"}) then Running
      else Unrecognized
    else if Says(c.status, {"COMPLETED"}) then
      if Says(c.conclusion, {"SUCCESS", "NEUTRAL", "SKIPPED"}) then Passed
      else if Says(c.conclusion, {"FAILURE", "CANCELLED", "TIMED_OUT", "ACTION_REQUIRED", "STARTUP_FAILURE"}) then Broken
      else Unrecognized
    else if Says(c.status, {"QUEUED", "IN_PROGRESS", "WAITING", "PENDING", "REQUESTED"}) then Running
    else Unrecognized
  }

  // What GitHub writes, as words a person would use.

  datatype StateWord = Successful | FailedState | Errored | Awaited | Expected
  datatype StatusWord = Queued | InProgress | Waiting | NotStarted | Requested
  datatype ConclusionWord =
    | Succeeded | Neutral | Skipped | FailedRun | CancelledRun | TimedOut | ActionRequired | StartupFailure

  function StateText(w: StateWord): string {
    match w
    case Successful => "SUCCESS"
    case FailedState => "FAILURE"
    case Errored => "ERROR"
    case Awaited => "PENDING"
    case Expected => "EXPECTED"
  }

  function StatusText(w: StatusWord): string {
    match w
    case Queued => "QUEUED"
    case InProgress => "IN_PROGRESS"
    case Waiting => "WAITING"
    case NotStarted => "PENDING"
    case Requested => "REQUESTED"
  }

  function ConclusionText(w: ConclusionWord): string {
    match w
    case Succeeded => "SUCCESS"
    case Neutral => "NEUTRAL"
    case Skipped => "SKIPPED"
    case FailedRun => "FAILURE"
    case CancelledRun => "CANCELLED"
    case TimedOut => "TIMED_OUT"
    case ActionRequired => "ACTION_REQUIRED"
    case StartupFailure => "STARTUP_FAILURE"
  }

  /** A legacy commit status: it says so, or names no type and has a state but no
      status. */
  predicate IsStatusContext(c: Check) {
    c.typename == Text("StatusContext") || (!c.typename.Text? && !c.state.Absent? && c.status.Absent?)
  }

  predicate IsCheckRun(c: Check) {
    c.typename == Text("CheckRun") || (!c.typename.Text? && !(!c.state.Absent? && c.status.Absent?))
  }

  predicate InState(c: Check, w: StateWord) {
    IsStatusContext(c) && c.state == Text(StateText(w))
  }

  predicate InProgressAs(c: Check, w: StatusWord) {
    IsCheckRun(c) && c.status == Text(StatusText(w))
  }

  predicate CompletedAs(c: Check, w: ConclusionWord) {
    IsCheckRun(c) && c.status == Text("COMPLETED") && c.conclusion == Text(ConclusionText(w))
  }

  predicate IsPassing(c: Check) {
    InState(c, Successful) || CompletedAs(c, Succeeded) || CompletedAs(c, Neutral) || CompletedAs(c, Skipped)
  }

  predicate IsFailing(c: Check) {
    || InState(c, FailedState) || InState(c, Errored)
    || CompletedAs(c, FailedRun) || CompletedAs(c, CancelledRun) || CompletedAs(c, TimedOut)
    || CompletedAs(c, ActionRequired) || CompletedAs(c, StartupFailure)
  }

  predicate IsRunning(c: Check) {
    || InState(c, Awaited) || InState(c, Expected)
    || InProgressAs(c, Queued) || InProgressAs(c, InProgress) || InProgressAs(c, Waiting)
    || InProgressAs(c, NotStarted) || InProgressAs(c, Requested)
  }

  lemma WordsDiffer()
    ensures "StatusContext" != "CheckRun"
    ensures "SUCCESS" != "FAILURE" && "SUCCESS" != "ERROR" && "SUCCESS" != "PENDING" && "SUCCESS" != "EXPECTED"
    ensures "FAILURE" != "PENDING" && "FAILURE" != "EXPECTED" && "ERROR" != "PENDING" && "ERROR" != "EXPECTED"
    ensures "COMPLETED" != "QUEUED" && "COMPLETED" != "IN_PROGRESS" && "COMPLETED" != "WAITING"
      && "COMPLETED" != "PENDING" && "COMPLETED" != "REQUESTED"
  {
    assert "SUCCESS"[0] == 'S' && "FAILURE"[0] == 'F' && "PENDING"[0] == 'P' && "COMPLETED"[0] == 'C' && "REQUESTED"[0] == 'R';
  }

  lemma ConclusionsDiffer(w: ConclusionWord)
    ensures (w.Succeeded? || w.Neutral? || w.Skipped?) <==>
      ConclusionText(w) in {"SUCCESS", "NEUTRAL", "SKIPPED"}
  {
    assert "SUCCESS"[0] == 'S' && "NEUTRAL"[0] == 'N' && "SKIPPED"[0] == 'S' && "FAILURE"[0] == 'F';
  }

  lemma ContextReads(c: Check)
    requires IsStatusContext(c)
    ensures ClassifyCheck(c) ==
      if InState(c, Successful) then Passed
      else if InState(c, FailedState) || InState(c, Errored) then Broken
      else if InState(c, Awaited) || InState(c, Expected) then Running else Unrecognized
  {
    WordsDiffer();
  }

  lemma CompletedReads(c: Check)
    requires IsCheckRun(c) && c.status == Text("COMPLETED")
    ensures ClassifyCheck(c) ==
      if CompletedAs(c, Succeeded) || CompletedAs(c, Neutral) || CompletedAs(c, Skipped) then Passed
      else if CompletedAs(c, FailedRun) || CompletedAs(c, CancelledRun) || CompletedAs(c, TimedOut)
        || CompletedAs(c, ActionRequired) || CompletedAs(c, StartupFailure) then Broken else Unrecognized
  {
    WordsDiffer();
  }

  lemma UncompletedReads(c: Check)
    requires IsCheckRun(c) && c.status != Text("COMPLETED")
    ensures ClassifyCheck(c) ==
      if InProgressAs(c, Queued) || InProgressAs(c, InProgress) || InProgressAs(c, Waiting)
        || InProgressAs(c, NotStarted) || InProgressAs(c, Requested) then Running else Unrecognized
  {
    WordsDiffer();
  }

  /** Which words make an entry passing, failing or running, whatever its type and
      even without one; any other word, and any other type, leaves it unreadable. */
  lemma ChecksMean(c: Check)
    ensures ClassifyCheck(c).Passed? <==> IsPassing(c)
    ensures ClassifyCheck(c).Broken? <==> IsFailing(c)
    ensures ClassifyCheck(c).Running? <==> IsRunning(c)
  {
    WordsDiffer();
    forall w: ConclusionWord ensures (w.Succeeded? || w.Neutral? || w.Skipped?) <==> ConclusionText(w) in {"SUCCESS", "NEUTRAL", "SKIPPED"} {
      ConclusionsDiffer(w);
    }
    if IsStatusContext(c) {
      ContextReads(c);
    } else if IsCheckRun(c) {
      if c.status == Text("COMPLETED") { CompletedReads(c); } else { UncompletedReads(c); }
    }
  }

  function CheckName(c: Check): Option<string> {
    var text := if c.name.Text? then c.name else c.context;
    if text.Text? && text.text != "" then Some(text.text) else None
  }

  /** The name a person knows the check by: its own, else its context's; a blank
      one is none. */
  lemma NameMeans(c: Check, name: string)
    ensures CheckName(c) == Some(name) <==> name != "" && (c.name == Text(name) || (!c.name.Text? && c.context == Text(name)))
  {
  }

  predicate FailsAs(c: Check, name: string) {
    ClassifyCheck(c).Broken? && CheckName(c) == Some(name)
  }

  /** The names of the failing checks, each once, in the order first listed. */
  function FailingNames(checks: seq<Check>): (names: seq<string>)
    ensures forall n :: n in names <==> exists c :: c in checks && ClassifyCheck(c).Broken? && CheckName(c) == Some(n)
    ensures NoDup(names)
  {
    if checks == [] then []
    else
      var before := FailingNames(checks[..|checks| - 1]);
      var last := checks[|checks| - 1];
      assert checks == checks[..|checks| - 1] + [last];
      if ClassifyCheck(last).Broken? && CheckName(last).Some? && CheckName(last).value !in before
      then AppendKeepsNoDup(before, CheckName(last).value); before + [CheckName(last).value]
      else before
  }

  lemma UnlistedNeverFails(checks: seq<Check>, name: string)
    requires name !in FailingNames(checks)
    ensures forall m :: 0 <= m < |checks| ==> !FailsAs(checks[m], name)
  {
    forall m | 0 <= m < |checks| ensures !FailsAs(checks[m], name) {
      assert checks[m] in checks;
    }
  }

  lemma ListedFails(checks: seq<Check>, i: nat) returns (k: nat)
    requires i < |FailingNames(checks)|
    ensures k < |checks| && FailsAs(checks[k], FailingNames(checks)[i])
  {
    var name := FailingNames(checks)[i];
    assert name in FailingNames(checks);
    var c :| c in checks && ClassifyCheck(c).Broken? && CheckName(c) == Some(name);
    k :| 0 <= k < |checks| && checks[k] == c;
  }

  /** One more check lists at most one more name, a new one, after the others. */
  lemma NamesGrow(checks: seq<Check>)
    requires checks != []
    ensures var names, before := FailingNames(checks), FailingNames(checks[..|checks| - 1]);
      || names == before
      || (|names| == |before| + 1 && names[..|before|] == before && names[|before|] !in before)
  {
  }

  /** The check at `k` fails under `first`, and none before it under `later`. */
  ghost predicate AppearsFirst(checks: seq<Check>, first: string, later: string, k: nat) {
    && k < |checks| && FailsAs(checks[k], first)
    && forall m :: 0 <= m <= k ==> !FailsAs(checks[m], later)
  }

  lemma AppearsInMore(checks: seq<Check>, first: string, later: string, k: nat)
    requires checks != [] && AppearsFirst(checks[..|checks| - 1], first, later, k)
    ensures AppearsFirst(checks, first, later, k)
  {
    var front := checks[..|checks| - 1];
    assert forall m :: 0 <= m <= k ==> checks[m] == front[m];
  }

  lemma {:induction false} NamesAppear(checks: seq<Check>, i: nat, j: nat) returns (k: nat)
    requires i < j < |FailingNames(checks)|
    ensures AppearsFirst(checks, FailingNames(checks)[i], FailingNames(checks)[j], k)
  {
    var front := checks[..|checks| - 1];
    var names, before := FailingNames(checks), FailingNames(front);
    NamesGrow(checks);
    assert before[i] == names[i];
    if j < |before| {
      k := NamesAppear(front, i, j);
    } else {
      k := ListedFails(front, i);
      UnlistedNeverFails(front, names[j]);
    }
    AppearsInMore(checks, names[i], names[j], k);
  }

  /** A name listed earlier was seen on an earlier check: some check fails under it
      before any fails under the later name. */
  lemma NamesInOrder(checks: seq<Check>, i: nat, j: nat) returns (k: nat)
    requires i < j < |FailingNames(checks)|
    ensures k < |checks| && IsFailing(checks[k]) && CheckName(checks[k]) == Some(FailingNames(checks)[i])
    ensures forall m :: 0 <= m <= k ==> !(IsFailing(checks[m]) && CheckName(checks[m]) == Some(FailingNames(checks)[j]))
  {
    k := NamesAppear(checks, i, j);
    forall m | 0 <= m <= k ensures IsFailing(checks[m]) <==> ClassifyCheck(checks[m]).Broken? {
      ChecksMean(checks[m]);
    }
  }

  lemma AppendKeepsNoDup<T>(s: seq<T>, x: T)
    requires NoDup(s) && x !in s
    ensures NoDup(s + [x])
  {
    assert s + [] == s;
    NoDupSplice(s, x, []);
    assert s + [x] + [] == s + [x];
  }

  function UnnamedFailures(checks: seq<Check>): nat {
    if checks == [] then 0
    else
      var last := checks[|checks| - 1];
      UnnamedFailures(checks[..|checks| - 1]) + if ClassifyCheck(last).Broken? && CheckName(last).None? then 1 else 0
  }

  ghost function UnnamedAmong(checks: seq<Check>): set<nat> {
    set k: nat | k < |checks| && IsFailing(checks[k]) && CheckName(checks[k]).None?
  }

  lemma UnnamedNext(front: seq<Check>, last: Check)
    ensures UnnamedAmong(front + [last]) ==
      if IsFailing(last) && CheckName(last).None? then UnnamedAmong(front) + {|front|} else UnnamedAmong(front)
  {
    var all := front + [last];
    assert all[|front|] == last;
    assert forall k :: 0 <= k < |front| ==> all[k] == front[k];
  }

  /** How many failing checks have no name. */
  lemma {:induction false} UnnamedAreCounted(checks: seq<Check>)
    ensures UnnamedFailures(checks) == |UnnamedAmong(checks)|
  {
    if checks != [] {
      var front, last := checks[..|checks| - 1], checks[|checks| - 1];
      UnnamedAreCounted(front);
      ChecksMean(last);
      assert checks == front + [last];
      UnnamedNext(front, last);
    }
  }

  predicate Any(checks: seq<Check>, outcome: CheckOutcome) {
    exists c :: c in checks && ClassifyCheck(c) == outcome
  }

  lemma {:induction false} FailuresAreCounted(checks: seq<Check>)
    ensures |FailingNames(checks)| + UnnamedFailures(checks) > 0 <==> Any(checks, Broken)
  {
    if checks != [] {
      var last := checks[|checks| - 1];
      assert checks == checks[..|checks| - 1] + [last];
      FailuresAreCounted(checks[..|checks| - 1]);
      assert Any(checks[..|checks| - 1], Broken) ==> Any(checks, Broken);
      if ClassifyCheck(last).Broken? { assert last in checks; }
    }
  }

  function Kept(names: seq<string>): seq<string> {
    if |names| <= FAILING_NAMES_KEPT then names else names[..FAILING_NAMES_KEPT]
  }

  lemma AnyMeans(checks: seq<Check>)
    ensures Any(checks, Broken) <==> exists c :: c in checks && IsFailing(c)
    ensures Any(checks, Running) <==> exists c :: c in checks && IsRunning(c)
    ensures Any(checks, Unrecognized) <==> exists c :: c in checks && !IsPassing(c) && !IsFailing(c) && !IsRunning(c)
  {
    forall c: Check
      ensures (ClassifyCheck(c) == Broken <==> IsFailing(c)) && (ClassifyCheck(c) == Running <==> IsRunning(c))
      ensures ClassifyCheck(c) == Unrecognized <==> !IsPassing(c) && !IsFailing(c) && !IsRunning(c)
    {
      ChecksMean(c);
    }
  }

  /** `summarize_checks`: a failure outranks everything, an entry that cannot be
      read outranks a running one, and passing needs every entry to say one of the
      words that mean it passed. */
  method SummarizeChecks(rollup: Option<seq<Check>>) returns (state: ChecksState, names: seq<string>, count: nat)
    ensures rollup.None? ==> state == Unreadable && names == [] && count == 0
    ensures rollup == Some([]) ==> state == NoChecks && names == [] && count == 0
    ensures rollup.Some? ==>
      && count == |FailingNames(rollup.value)| + |UnnamedAmong(rollup.value)|
      && names <= FailingNames(rollup.value) && (|names| == 3 || (|names| < 3 && names == FailingNames(rollup.value)))
    ensures rollup.Some? && rollup.value != [] ==>
      && (state == Failing <==> exists c :: c in rollup.value && IsFailing(c))
      && (state == Passing <==> forall c :: c in rollup.value ==> IsPassing(c))
      && (state == Pending <==>
            (exists c :: c in rollup.value && IsRunning(c)) && (forall c :: c in rollup.value ==> IsPassing(c) || IsRunning(c)))
      && (state == Unreadable <==>
            && (forall c :: c in rollup.value ==> !IsFailing(c))
            && exists c :: c in rollup.value && !IsPassing(c) && !IsRunning(c))
  {
    if rollup.None? {
      return Unreadable, [], 0;
    }
    var checks := rollup.value;
    UnnamedAreCounted(checks);
    if checks == [] {
      return NoChecks, [], 0;
    }
    var failing, unnamed, running, unrecognized := TallyChecks(checks);
    FailuresAreCounted(checks);
    EachIsOne(checks);
    AnyMeans(checks);
    count := |failing| + unnamed;
    state := if count > 0 then Failing else if unrecognized then Unreadable else if running then Pending else Passing;
    names := Kept(failing);
  }

  /** The loop over the checks. */
  method TallyChecks(checks: seq<Check>) returns (failing: seq<string>, unnamed: nat, running: bool, unrecognized: bool)
    ensures failing == FailingNames(checks) && unnamed == UnnamedFailures(checks)
    ensures (running <==> Any(checks, Running)) && (unrecognized <==> Any(checks, Unrecognized))
  {
    failing, unnamed, running, unrecognized := [], 0, false, false;
    for i := 0 to |checks|
      invariant failing == FailingNames(checks[..i]) && unnamed == UnnamedFailures(checks[..i])
      invariant running <==> Any(checks[..i], Running)
      invariant unrecognized <==> Any(checks[..i], Unrecognized)
    {
      assert checks[..i + 1][..i] == checks[..i];
      AnyNext(checks, i, Running);
      AnyNext(checks, i, Unrecognized);
      match ClassifyCheck(checks[i]) {
        case Passed =>
        case Broken =>
          match CheckName(checks[i]) {
            case Some(name) => if name !in failing { failing := failing + [name]; }
            case None => unnamed := unnamed + 1;
          }
        case Running => running := true;
        case Unrecognized => unrecognized := true;
      }
    }
    assert checks[..|checks|] == checks;
  }

  lemma AnyNext(checks: seq<Check>, i: nat, outcome: CheckOutcome)
    requires i < |checks|
    ensures Any(checks[..i + 1], outcome) <==> Any(checks[..i], outcome) || ClassifyCheck(checks[i]) == outcome
  {
    assert checks[..i + 1] == checks[..i] + [checks[i]];
    if ClassifyCheck(checks[i]) == outcome { assert checks[i] in checks[..i + 1]; }
  }

  /** An entry is exactly one of passing, failing, running and unreadable. */
  lemma EachIsOne(checks: seq<Check>)
    ensures (forall c :: c in checks ==> IsPassing(c)) <==>
      !Any(checks, Broken) && !Any(checks, Unrecognized) && !Any(checks, Running)
    ensures (forall c :: c in checks ==> IsPassing(c) || IsRunning(c)) <==> !Any(checks, Broken) && !Any(checks, Unrecognized)
  {
    forall c: Check
      ensures (ClassifyCheck(c) == Passed <==> IsPassing(c)) && (ClassifyCheck(c) == Running <==> IsRunning(c))
    {
      ChecksMean(c);
    }
  }

  // ------------------------------------------------------------------- waits

  function Pow2(n: nat): (p: nat)
    ensures p >= 1
  {
    if n == 0 then 1 else 2 * Pow2(n - 1)
  }

  function Min(a: int, b: int): int {
    if a <= b then a else b
  }

  /** `rate_limit_backoff`, with its subtraction that stops at zero and its clamp
      on the shift. */
  function RateLimitBackoff(failures: nat): int {
    var doublings := if failures == 0 then 0 else if failures - 1 <= 16 then failures - 1 else 16;
    Min(POLL_INTERVAL * Pow2(doublings), BACKOFF_CAP)
  }

  lemma {:induction false} Pow2Grows(a: nat, b: nat)
    requires a <= b
    ensures Pow2(a) <= Pow2(b)
  {
    if a < b {
      Pow2Grows(a, b - 1);
    }
  }

  /** The clamp never shows: the wait is five minutes doubled for each answer
      after the first, or an hour, whatever the count. */
  lemma WaitEarned(failures: nat)
    requires failures >= 1
    ensures RateLimitBackoff(failures) == Min(POLL_INTERVAL * Pow2(failures - 1), BACKOFF_CAP)
    ensures POLL_INTERVAL == 300_000_000_000 && BACKOFF_CAP == 3_600_000_000_000 && RateLimitBackoff(0) == 300_000_000_000
  {
    assert Pow2(4) == 16;
    if failures - 1 > 16 {
      Pow2Grows(4, 16);
      Pow2Grows(4, failures - 1);
      assert POLL_INTERVAL * Pow2(failures - 1) >= POLL_INTERVAL * 16;
    }
  }

  // ------------------------------------------------------------------- cache

  datatype PrKey = PrKey(repo: string, number: nat)

  datatype ErrorKind = Timeout | Auth | RateLimited | NotInstalled | Other
  /** What an error says; `Words` are GitHub's own. */
  datatype ErrorText = Words(text: string) | NewerCameFirst | NotAvailableYet

  datatype FetchError = FetchError(kind: ErrorKind, said: ErrorText)

  /** What was read, and the state it showed. */
  datatype Reading = Reading(state: string, checks: ChecksState)

  type Answer = Result<Reading, FetchError>

  datatype Entry = Entry(
    key: PrKey, status: Option<Reading>, fetchedAt: Option<Instant>, attemptedAt: Instant, error: Option<FetchError>)

  datatype Streak = Streak(failures: nat, notBefore: Instant)

  datatype Cache = Cache(entries: map<PrKey, Entry>, backoff: map<PrKey, Streak>)

  /** One attempt's answer, as `record` is given it. */
  datatype Attempt = Attempt(started: Instant, finished: Instant, result: Answer)

  predicate IsRateLimit(a: Answer) {
    a.Err? && a.error.kind.RateLimited?
  }

  /** `note_backoff`. */
  function Noted(backoff: map<PrKey, Streak>, key: PrKey, finished: Instant, result: Answer): map<PrKey, Streak> {
    if IsRateLimit(result) then
      var before := if key in backoff then backoff[key].failures else 0;
      var failures := if before >= MAX_COUNT then MAX_COUNT else before + 1;
      backoff[key := Streak(failures, finished + RateLimitBackoff(failures))]
    else backoff - {key}
  }

  predicate IsStale(c: Cache, key: PrKey, started: Instant) {
    key in c.entries && started < c.entries[key].attemptedAt
  }

  /** `record`. An attempt older than the one on record changes nothing. */
  function Recorded(c: Cache, key: PrKey, a: Attempt): Cache {
    if IsStale(c, key, a.started) then c
    else
      var found := if key in c.entries then c.entries[key] else Entry(key, None, None, a.started, None);
      var entry := match a.result
        case Ok(reading) => found.(attemptedAt := a.started, status := Some(reading), fetchedAt := Some(a.finished), error := None)
        case Err(e) => found.(attemptedAt := a.started, error := Some(e));
      Cache(c.entries[key := entry], Noted(c.backoff, key, a.finished, a.result))
  }

  /** A newer reading was on record first. */
  function Superseded(): Answer {
    Err(FetchError(Other, NewerCameFirst))
  }

  /** `settle`: what the caller of the attempt is told. */
  function Settled(c: Cache, key: PrKey, a: Attempt): Answer {
    if IsStale(c, key, a.started) then Superseded()
    else a.result
  }

  /** `held_until`. */
  function HeldUntil(c: Cache, key: PrKey, now: Instant): Option<Instant> {
    if key in c.backoff && now < c.backoff[key].notBefore then Some(c.backoff[key].notBefore) else None
  }

  /** `poll_due`. */
  predicate PollDue(c: Cache, key: PrKey, now: Instant, inFlight: bool) {
    !inFlight && HeldUntil(c, key, now).None? && (key in c.entries ==> now - c.entries[key].attemptedAt >= POLL_INTERVAL)
  }

  /** `answer`: the cache's latest attempt, to a caller that did not make it. */
  function Cached(c: Cache, key: PrKey): Answer {
    if key in c.entries && c.entries[key].error.Some? then Err(c.entries[key].error.value)
    else if key in c.entries && c.entries[key].status.Some? then Ok(c.entries[key].status.value)
    else Err(FetchError(Other, NotAvailableYet))
  }

  function RecordAll(c: Cache, key: PrKey, attempts: seq<Attempt>): Cache {
    if attempts == [] then c
    else Recorded(RecordAll(c, key, attempts[..|attempts| - 1]), key, attempts[|attempts| - 1])
  }

  /** Whatever answers arrive in whatever order, the recorded attempt time of a
      pull request never goes back, a last good status is never lost, and no
      other pull request is touched. */
  lemma {:induction false} CacheOnlyAdvances(c: Cache, key: PrKey, attempts: seq<Attempt>, other: PrKey)
    requires other in c.entries
    ensures var r := RecordAll(c, key, attempts);
      && other in r.entries && c.entries[other].attemptedAt <= r.entries[other].attemptedAt
      && (c.entries[other].status.Some? ==> r.entries[other].status.Some?)
      && (other != key ==> r.entries[other] == c.entries[other])
      && (other != key && other in c.backoff ==> other in r.backoff && r.backoff[other] == c.backoff[other])
  {
    if attempts != [] {
      CacheOnlyAdvances(c, key, attempts[..|attempts| - 1], other);
    }
  }

  /** The last good status is the latest success on record, and failures since
      leave it and its time as they were. */
  lemma {:induction false} FailuresKeepTheStatus(c: Cache, key: PrKey, attempts: seq<Attempt>)
    requires key in c.entries && forall a :: a in attempts ==> a.result.Err?
    ensures var r := RecordAll(c, key, attempts);
      && key in r.entries && r.entries[key].status == c.entries[key].status
      && r.entries[key].fetchedAt == c.entries[key].fetchedAt
  {
    if attempts != [] {
      var before := attempts[..|attempts| - 1];
      assert forall a :: a in before ==> a in attempts;
      assert attempts[|attempts| - 1] in attempts;
      FailuresKeepTheStatus(c, key, before);
    }
  }

  /** A caller is told `Ok` only of an answer that is on record, as the latest. */
  lemma OkIsOnRecord(c: Cache, key: PrKey, a: Attempt)
    requires Settled(c, key, a).Ok?
    ensures var r := Recorded(c, key, a);
      && key in r.entries && r.entries[key].status == Some(Settled(c, key, a).value)
      && r.entries[key].attemptedAt == a.started && r.entries[key].error.None?
      && Cached(r, key) == Settled(c, key, a) && HeldUntil(r, key, a.finished).None?
  {
  }

  /** Attempts recorded in the order they started. */
  ghost predicate InOrder(c: Cache, key: PrKey, attempts: seq<Attempt>) {
    && (key in c.entries && attempts != [] ==> c.entries[key].attemptedAt <= attempts[0].started)
    && forall i, j :: 0 <= i < j < |attempts| ==> attempts[i].started <= attempts[j].started
  }

  lemma {:induction false} LatestAttempt(c: Cache, key: PrKey, attempts: seq<Attempt>)
    requires InOrder(c, key, attempts) && attempts != []
    ensures var r := RecordAll(c, key, attempts);
      key in r.entries && r.entries[key].attemptedAt == attempts[|attempts| - 1].started
    ensures !IsStale(RecordAll(c, key, attempts[..|attempts| - 1]), key, attempts[|attempts| - 1].started)
  {
    var before := attempts[..|attempts| - 1];
    if before != [] {
      assert InOrder(c, key, before);
      LatestAttempt(c, key, before);
    }
  }

  /** After any number k of rate-limited answers in a row, the pull request waits
      five minutes doubled k - 1 times, or an hour, from the last of them: the
      clamp and the saturating counter never shorten or lengthen it. */
  lemma {:induction false} RateLimitedWait(c: Cache, key: PrKey, attempts: seq<Attempt>)
    requires InOrder(c, key, attempts) && attempts != [] && key !in c.backoff
    requires forall a :: a in attempts ==> IsRateLimit(a.result)
    ensures var r := RecordAll(c, key, attempts); var k := |attempts|;
      && key in r.backoff
      && r.backoff[key].failures == (if k <= MAX_COUNT then k else MAX_COUNT)
      && r.backoff[key].notBefore == attempts[k - 1].finished + Min(POLL_INTERVAL * Pow2(k - 1), BACKOFF_CAP)
  {
    var k := |attempts|;
    var before := attempts[..k - 1];
    LatestAttempt(c, key, attempts);
    assert attempts[k - 1] in attempts;
    if before != [] {
      assert InOrder(c, key, before) && forall a :: a in before ==> a in attempts;
      RateLimitedWait(c, key, before);
    }
    WaitEarned(k);
    if k > MAX_COUNT {
      LongStreak(k);
    }
    WaitEarned(if k <= MAX_COUNT then k else MAX_COUNT);
  }

  lemma LongStreak(k: nat)
    requires k > MAX_COUNT
    ensures Min(POLL_INTERVAL * Pow2(k - 1), BACKOFF_CAP) == Min(POLL_INTERVAL * Pow2(MAX_COUNT - 1), BACKOFF_CAP)
  {
    assert Pow2(4) == 16;
    Pow2Grows(4, k - 1);
    Pow2Grows(4, MAX_COUNT - 1);
  }

  /** Any other answer ends the streak at once. */
  lemma OtherAnswersEndTheStreak(c: Cache, key: PrKey, a: Attempt, now: Instant)
    requires !IsStale(c, key, a.started) && !IsRateLimit(a.result)
    ensures HeldUntil(Recorded(c, key, a), key, now).None? && key !in Recorded(c, key, a).backoff
  {
  }

  /** How many rate limits in a row the answer makes, saturating as a `u32` does. */
  predicate Counted(before: map<PrKey, Streak>, key: PrKey, failures: nat) {
    if key !in before then failures == 1
    else if before[key].failures < 0xFFFF_FFFF then failures == before[key].failures + 1
    else failures == 0xFFFF_FFFF
  }

  /** The entry holds this answer as the latest; a failure keeps what was read
      before it. */
  predicate Holds(c: Cache, key: PrKey, a: Attempt, e: Entry) {
    && e.attemptedAt == a.started
    && match a.result
       case Ok(reading) => e.status == Some(reading) && e.fetchedAt == Some(a.finished) && e.error.None?
       case Err(error) =>
         && e.error == Some(error)
         && if key in c.entries then e.status == c.entries[key].status && e.fetchedAt == c.entries[key].fetchedAt
            else e.status.None? && e.fetchedAt.None?
  }

  /** What one answer makes of the cache. One older than that on record changes
      nothing and its caller is told so; any other is the latest. Only a rate limit
      makes a hold, from the moment it came in, twice as long as the one before up
      to an hour; and no other pull request is touched. */
  lemma RecordedMeans(c: Cache, key: PrKey, a: Attempt)
    ensures var r := Recorded(c, key, a);
      if key in c.entries && a.started < c.entries[key].attemptedAt then
        r == c && Settled(c, key, a) == Err(FetchError(Other, NewerCameFirst))
      else
        && Settled(c, key, a) == a.result
        && key in r.entries && Holds(c, key, a, r.entries[key])
        && r.entries - {key} == c.entries - {key} && r.backoff - {key} == c.backoff - {key}
        && if a.result.Err? && a.result.error.kind.RateLimited? then
             && key in r.backoff && Counted(c.backoff, key, r.backoff[key].failures)
             && r.backoff[key].notBefore == a.finished + Min(300_000_000_000 * Pow2(r.backoff[key].failures - 1), 3_600_000_000_000)
           else key !in r.backoff
  {
    if IsRateLimit(a.result) && !IsStale(c, key, a.started) {
      WaitEarned(Recorded(c, key, a).backoff[key].failures);
    }
  }

  /** Who is let through to GitHub: not before a hold has run out; and in the
      background only while nobody is asking, five minutes after the last attempt. */
  lemma PollDueMeans(c: Cache, key: PrKey, now: Instant, inFlight: bool)
    ensures HeldUntil(c, key, now) ==
      if key in c.backoff && c.backoff[key].notBefore > now then Some(c.backoff[key].notBefore) else None
    ensures PollDue(c, key, now, inFlight) <==>
      && !inFlight
      && (key in c.backoff ==> c.backoff[key].notBefore <= now)
      && (key in c.entries ==> c.entries[key].attemptedAt + 300_000_000_000 <= now)
  {
  }

  /** What the cache answers for itself: the latest error, else what was last read. */
  lemma CachedMeans(c: Cache, key: PrKey)
    ensures match Cached(c, key)
      case Ok(reading) => key in c.entries && c.entries[key].status == Some(reading) && c.entries[key].error.None?
      case Err(e) =>
        || (key in c.entries && c.entries[key].error == Some(e))
        || (e == FetchError(Other, NotAvailableYet) && (key in c.entries ==> c.entries[key].error.None? && c.entries[key].status.None?))
  {
  }

  // ---------------------------------------------------------------- the code

  /** The order of text: by the first character that differs. */
  predicate TextLe(a: string, b: string)
    decreases |a|
  {
    a == [] || (b != [] && (a[0] < b[0] || (a[0] == b[0] && TextLe(a[1..], b[1..]))))
  }

  lemma {:induction false} TextTotal(a: string, b: string)
    ensures TextLe(a, b) || TextLe(b, a)
    ensures TextLe(a, b) && TextLe(b, a) ==> a == b
    decreases |a|
  {
    if a != [] && b != [] && a[0] == b[0] {
      TextTotal(a[1..], b[1..]);
      assert a == [a[0]] + a[1..] && b == [b[0]] + b[1..];
    }
  }

  lemma {:induction false} TextTransitive(a: string, b: string, c: string)
    requires TextLe(a, b) && TextLe(b, c)
    ensures TextLe(a, c)
    decreases |a|
  {
    if a != [] && a[0] == b[0] && b[0] == c[0] {
      TextTransitive(a[1..], b[1..], c[1..]);
    }
  }

  predicate KeyLe(a: PrKey, b: PrKey) {
    if a.repo == b.repo then a.number <= b.number else TextLe(a.repo, b.repo)
  }

  lemma KeysAreOrdered()
    ensures Preorder(KeyLe)
    ensures forall a, b :: KeyLe(a, b) && KeyLe(b, a) ==> a == b
  {
    forall a, b ensures (KeyLe(a, b) || KeyLe(b, a)) && (KeyLe(a, b) && KeyLe(b, a) ==> a == b) {
      TextTotal(a.repo, b.repo);
    }
    forall a, b, c | KeyLe(a, b) && KeyLe(b, c) ensures KeyLe(a, c) {
      TextTotal(a.repo, b.repo);
      TextTotal(b.repo, c.repo);
      TextTransitive(a.repo, b.repo, c.repo);
    }
  }

  function Present(entries: map<PrKey, Entry>, keys: seq<PrKey>): (r: seq<PrKey>)
    ensures forall k :: k in r <==> k in keys && k in entries
  {
    if keys == [] then []
    else (if keys[0] in entries then [keys[0]] else []) + Present(entries, keys[1..])
  }

  /** `dedup_by`: of equal neighbours the first stays. */
  function Dedup(keys: seq<PrKey>): (r: seq<PrKey>)
    ensures forall k :: k in r <==> k in keys
    ensures keys != [] ==> r != [] && r[0] == keys[0]
  {
    if |keys| <= 1 then keys
    else if keys[0] == keys[1] then Dedup(keys[1..])
    else [keys[0]] + Dedup(keys[1..])
  }

  lemma {:induction false} DedupSorted(keys: seq<PrKey>)
    requires Ordered(KeyLe, keys)
    ensures Ordered(KeyLe, Dedup(keys)) && NoDup(Dedup(keys))
  {
    if |keys| > 1 {
      forall i, j | 0 <= i < j < |keys[1..]| ensures KeyLe(keys[1..][i], keys[1..][j]) {
        assert keys[1..][i] == keys[i + 1] && keys[1..][j] == keys[j + 1];
      }
      DedupSorted(keys[1..]);
      if keys[0] != keys[1] {
        var rest := Dedup(keys[1..]);
        KeysAreOrdered();
        forall k | k in rest ensures KeyLe(keys[0], k) && k != keys[0] {
          var j :| 0 <= j < |keys[1..]| && keys[1..][j] == k;
          assert keys[j + 1] == k;
          assert KeyLe(keys[1], k);
        }
        ConsOrders(KeyLe, keys[0], rest);
      }
    }
  }

  /** The distinct linked pull requests with an entry, in order. */
  function Shown(entries: map<PrKey, Entry>, keys: seq<PrKey>): seq<PrKey> {
    Dedup(SortBy(KeyLe, Present(entries, keys)))
  }

  /** What the board reads depends only on which pull requests are linked, not on
      how often or in what order they are listed. */
  lemma ShownIgnoresListing(entries: map<PrKey, Entry>, xs: seq<PrKey>, ys: seq<PrKey>)
    requires forall k :: k in entries ==> (k in xs <==> k in ys)
    ensures Shown(entries, xs) == Shown(entries, ys)
    ensures NoDup(Shown(entries, xs)) && Ordered(KeyLe, Shown(entries, xs))
    ensures forall k :: k in Shown(entries, xs) <==> k in xs && k in entries
  {
    KeysAreOrdered();
    SortOrders(KeyLe, Present(entries, xs));
    SortOrders(KeyLe, Present(entries, ys));
    var a, b := Shown(entries, xs), Shown(entries, ys);
    DedupSorted(SortBy(KeyLe, Present(entries, xs)));
    DedupSorted(SortBy(KeyLe, Present(entries, ys)));
    assert Members(a) == Members(b);
    OrderIsUnique(KeyLe, a, b);
  }

  /** The owner of the cache. `entries`, `backoff` and `inFlight` are its maps. */
  class StatusOwner {
    var entries: map<PrKey, Entry>
    var backoff: map<PrKey, Streak>
    var inFlight: set<PrKey>

    ghost function State(): Cache
      reads this
    {
      Cache(entries, backoff)
    }

    method NoteBackoff(key: PrKey, finished: Instant, result: Answer)
      modifies this`backoff
      ensures backoff == Noted(old(backoff), key, finished, result)
    {
      match result {
        case Err(e) =>
          if e.kind.RateLimited? {
            var failures := 1;
            if key in backoff && backoff[key].failures >= MAX_COUNT {
              failures := MAX_COUNT;
            } else if key in backoff {
              failures := backoff[key].failures + 1;
            }
            backoff := backoff[key := Streak(failures, finished + RateLimitBackoff(failures))];
          } else {
            backoff := backoff - {key};
          }
        case Ok(_) => backoff := backoff - {key};
      }
    }

    method Record(key: PrKey, started: Instant, finished: Instant, result: Answer) returns (recorded: bool)
      modifies this`entries, this`backoff
      ensures State() == Recorded(old(State()), key, Attempt(started, finished, result))
      ensures recorded <==> !IsStale(old(State()), key, started)
    {
      var entry := if key in entries then entries[key] else Entry(key, None, None, started, None);
      if started < entry.attemptedAt {
        return false;
      }
      entry := entry.(attemptedAt := started);
      match result {
        case Ok(reading) => entry := entry.(status := Some(reading), fetchedAt := Some(finished), error := None);
        case Err(e) => entry := entry.(error := Some(e));
      }
      entries := entries[key := entry];
      NoteBackoff(key, finished, result);
      recorded := true;
    }

    method Settle(key: PrKey, started: Instant, finished: Instant, result: Answer) returns (answer: Answer)
      modifies this`entries, this`backoff
      ensures State() == Recorded(old(State()), key, Attempt(started, finished, result))
      ensures answer == Settled(old(State()), key, Attempt(started, finished, result))
    {
      var recorded := Record(key, started, finished, result);
      answer := if recorded then result else Superseded();
    }

    /** Forget the streak of every pull request no Task links any more. */
    method RetainBackoff(linked: set<PrKey>)
      modifies this`backoff
      ensures backoff == map k | k in old(backoff) && k in linked :: old(backoff)[k]
      ensures forall k, now :: k in linked ==> HeldUntil(State(), k, now) == HeldUntil(old(State()), k, now)
    {
      var rest := backoff.Keys;
      ghost var was := backoff;
      while rest != {}
        invariant rest <= was.Keys && backoff.Keys <= was.Keys
        invariant forall k :: k in was ==> (k in backoff <==> k in rest || k in linked)
        invariant forall k :: k in backoff ==> backoff[k] == was[k]
        decreases rest
      {
        var k :| k in rest;
        if k !in linked {
          backoff := backoff - {k};
        }
        rest := rest - {k};
      }
    }

    /** The entries of `shown`, in its order. */
    method ReadEach(shown: seq<PrKey>) returns (found: seq<Entry>)
      requires forall k :: k in shown ==> k in entries
      ensures |found| == |shown|
      ensures forall i :: 0 <= i < |found| ==> found[i] == entries[shown[i]]
    {
      found := [];
      for i := 0 to |shown|
        invariant |found| == i
        invariant forall j :: 0 <= j < i ==> found[j] == entries[shown[j]]
      {
        assert shown[i] in shown;
        found := found + [entries[shown[i]]];
      }
    }

    /** The cached entries among `keys`, sorted, each once. */
    method EntriesFor(keys: seq<PrKey>) returns (found: seq<Entry>)
      ensures |found| == |Shown(entries, keys)|
      ensures forall i :: 0 <= i < |found| ==> Shown(entries, keys)[i] in entries && found[i] == entries[Shown(entries, keys)[i]]
    {
      ShownIgnoresListing(entries, keys, keys);
      found := ReadEach(Shown(entries, keys));
      assert forall i :: 0 <= i < |found| ==> Shown(entries, keys)[i] in Shown(entries, keys);
    }
  }
}
