/** Any number of refreshes, background polls and cancellations of one pull
    request, interleaved at every point where `refresh` gives up the processor
    (`refresh`, `claim`, `InFlight` in `src-tauri/src/pr_status.rs`, and the
    background pass of `queue/executor.rs`). */
module PrRequests {
  import opened Durability
  import opened PrStatuses

  /** What became of one attempt, as the callers that joined it see it. */
  datatype Fate = Underway | RecordedIt | Dropped

  datatype Caller =
    | Asked
    | FirstChecked
    | Joined(attempt: nat)
    | Claimed(attempt: nat)
    | SecondChecked(attempt: nat, checked: Instant)
    | Fetching(attempt: nat, started: Instant)
    | Recording(attempt: nat, answer: Answer)
    | Told(answer: Answer)
    | Refused(until: Instant)
    | Cancelled

  /** The claim on the pull request's attempt in flight. */
  datatype Flight = Flight(attempt: nat, owner: nat)

  /** `fates` has one entry per attempt ever claimed. `poll` is the background
      poll under way and the time its pass was decided; `pollStarts` are the
      start times of the background polls on record, latest last. */
  datatype World = World(
    key: PrKey, now: Instant, cache: Cache, inFlight: Option<Flight>, fates: seq<Fate>, callers: map<nat, Caller>,
    poll: Option<(nat, Instant)>, pollStarts: seq<Instant>)

  datatype Event =
    | Tick(to: Instant)
    | Call(who: nat)
    | Poll(who: nat)
    | First(who: nat)
    | Claim(who: nat)
    | Second(who: nat)
    | Start(who: nat)
    | Finish(who: nat, result: Answer)
    | Release(who: nat)
    | Wake(who: nat)
    | Cancel(who: nat)
    | Unlink

  predicate At(w: World, who: nat) {
    who in w.callers
  }

  function Set(w: World, who: nat, c: Caller): World {
    w.(callers := w.callers[who := c])
  }

  /** The claim is given up; whoever joined it wakes to `fate`. */
  function Freed(w: World, attempt: nat, fate: Fate): World {
    w.(inFlight := None, fates := if attempt < |w.fates| then w.fates[attempt := fate] else w.fates)
  }

  predicate Over(c: Caller) {
    c.Told? || c.Refused? || c.Cancelled?
  }

  predicate PollRunning(w: World) {
    w.poll.Some? && w.poll.value.0 in w.callers && !Over(w.callers[w.poll.value.0])
  }

  predicate IsPoll(w: World, who: nat) {
    w.poll.Some? && w.poll.value.0 == who
  }

  /** One atomic step; a step that is not enabled changes nothing. The clock may
      be set back. */
  function Next(w: World, e: Event): World {
    match e
    case Tick(to) => w.(now := to)
    case Call(who) => if At(w, who) then w else Set(w, who, Asked)
    case Poll(who) =>
      if At(w, who) || PollRunning(w) || !PollDue(w.cache, w.key, w.now, w.inFlight.Some?) then w
      else Set(w, who, Asked).(poll := Some((who, w.now)))
    case First(who) =>
      if !(At(w, who) && w.callers[who].Asked?) then w
      else if HeldUntil(w.cache, w.key, w.now).Some? then Set(w, who, Refused(HeldUntil(w.cache, w.key, w.now).value))
      else Set(w, who, FirstChecked)
    case Claim(who) =>
      if !(At(w, who) && w.callers[who].FirstChecked?) then w
      else if w.inFlight.Some? then Set(w, who, Joined(w.inFlight.value.attempt))
      else Set(w, who, Claimed(|w.fates|)).(inFlight := Some(Flight(|w.fates|, who)), fates := w.fates + [Underway])
    case Second(who) =>
      if !(At(w, who) && w.callers[who].Claimed?) then w
      else
        var attempt := w.callers[who].attempt;
        var held := HeldUntil(w.cache, w.key, w.now);
        if held.Some? then Freed(Set(w, who, Refused(held.value)), attempt, Dropped) else Set(w, who, SecondChecked(attempt, w.now))
    case Start(who) =>
      if At(w, who) && w.callers[who].SecondChecked? then Set(w, who, Fetching(w.callers[who].attempt, w.now)) else w
    case Finish(who, result) =>
      if !(At(w, who) && w.callers[who].Fetching?) then w
      else
        var c := w.callers[who];
        var a := Attempt(c.started, w.now, result);
        var onRecord := !IsStale(w.cache, w.key, c.started);
        Set(w, who, Recording(c.attempt, Settled(w.cache, w.key, a))).(
          cache := Recorded(w.cache, w.key, a),
          pollStarts := if IsPoll(w, who) && onRecord then w.pollStarts + [c.started] else w.pollStarts)
    case Release(who) =>
      if At(w, who) && w.callers[who].Recording?
      then Freed(Set(w, who, Told(w.callers[who].answer)), w.callers[who].attempt, RecordedIt) else w
    case Wake(who) =>
      if !(At(w, who) && w.callers[who].Joined? && w.callers[who].attempt < |w.fates|) then w
      else (match w.fates[w.callers[who].attempt]
            case Underway => w
            case RecordedIt => Set(w, who, Told(Cached(w.cache, w.key)))
            case Dropped => Set(w, who, Asked))
    case Cancel(who) =>
      if At(w, who) && w.callers[who].Joined? then Set(w, who, Cancelled)
      else if At(w, who) && w.callers[who].Fetching? then Freed(Set(w, who, Cancelled), w.callers[who].attempt, Dropped)
      else w
    case Unlink => w.(cache := w.cache.(backoff := w.cache.backoff - {w.key}))
  }

  function Play(w: World, events: seq<Event>): World
    decreases |events|
  {
    if events == [] then w else Play(Next(w, events[0]), events[1..])
  }

  // --------------------------------------------------------------- invariant

  predicate Owns(c: Caller) {
    c.Claimed? || c.SecondChecked? || c.Fetching? || c.Recording?
  }

  /** Whoever is between claiming and releasing owns the attempt in flight, and
      the attempt in flight has such an owner. */
  ghost predicate OneOwner(w: World) {
    && (forall who :: who in w.callers && Owns(w.callers[who]) ==> w.inFlight == Some(Flight(w.callers[who].attempt, who)))
    && (w.inFlight.Some? ==> w.inFlight.value.owner in w.callers && Owns(w.callers[w.inFlight.value.owner]))
  }

  /** Exactly the attempt in flight is still under way. */
  ghost predicate FatesKnown(w: World) {
    && (w.inFlight.Some? ==> w.inFlight.value.attempt < |w.fates|)
    && (forall a :: 0 <= a < |w.fates| ==> (w.fates[a].Underway? <==> w.inFlight.Some? && w.inFlight.value.attempt == a))
    && (forall who :: who in w.callers && w.callers[who].Joined? ==> w.callers[who].attempt < |w.fates|)
  }

  /** Times on record are in the past; a caller past its second check is not
      held; a fetch began no earlier than the latest attempt on record. */
  ghost predicate InTime(w: World) {
    && (w.key in w.cache.entries ==> w.cache.entries[w.key].attemptedAt <= w.now)
    && (forall who :: who in w.callers && w.callers[who].SecondChecked? ==> HeldUntil(w.cache, w.key, w.now).None?)
    && (forall who :: who in w.callers && w.callers[who].Fetching? ==>
          && w.callers[who].started <= w.now
          && !IsStale(w.cache, w.key, w.callers[who].started))
  }

  /** The background polls on record are five minutes apart, and so is the one
      under way from the last of them. */
  ghost predicate Spaced(w: World) {
    && (w.poll.Some? ==> w.poll.value.0 in w.callers && w.poll.value.1 <= w.now)
    && (forall i :: 0 <= i < |w.pollStarts| - 1 ==> w.pollStarts[i + 1] - w.pollStarts[i] >= POLL_INTERVAL)
    && (w.pollStarts != [] ==>
          w.key in w.cache.entries && w.pollStarts[|w.pollStarts| - 1] <= w.cache.entries[w.key].attemptedAt)
    && (PollRunning(w) ==>
          && (w.callers[w.poll.value.0].Fetching? ==> w.poll.value.1 <= w.callers[w.poll.value.0].started)
          && (w.pollStarts != [] && !w.callers[w.poll.value.0].Recording? ==>
                w.poll.value.1 - w.pollStarts[|w.pollStarts| - 1] >= POLL_INTERVAL))
  }

  /** What a settled attempt is about to tell is what the cache holds. */
  ghost predicate ToldOfRecord(w: World) {
    forall who :: who in w.callers && w.callers[who].Recording? ==> w.callers[who].answer == Cached(w.cache, w.key)
  }

  /** A clock set back can make an attempt look older than one on record; then
      its caller is told so instead. */
  ghost predicate ToldOrSuperseded(w: World) {
    forall who :: who in w.callers && w.callers[who].Recording? ==>
      w.callers[who].answer == Cached(w.cache, w.key) || w.callers[who].answer == Superseded()
  }

  /** A caller past its second check was not held when it checked, and no answer
      has held the pull request since. */
  ghost predicate CheckedFree(w: World) {
    forall who :: who in w.callers && w.callers[who].SecondChecked? ==>
      HeldUntil(w.cache, w.key, w.callers[who].checked).None?
  }

  /** What holds whatever the clock does. */
  ghost predicate Claims(w: World) {
    OneOwner(w) && FatesKnown(w) && ToldOrSuperseded(w) && CheckedFree(w)
  }

  ghost predicate Inv(w: World) {
    Claims(w) && InTime(w) && Spaced(w) && ToldOfRecord(w)
  }

  /** The clock is not set back. */
  predicate Forward(w: World, e: Event) {
    e.Tick? ==> e.to >= w.now
  }

  /** Steps that neither claim nor give up an attempt. */
  predicate Quiet(e: Event) {
    !(e.Claim? || e.Second? || e.Release? || e.Cancel?)
  }

  lemma OwnerStays(w: World, e: Event)
    requires OneOwner(w) && FatesKnown(w)
    ensures OneOwner(Next(w, e))
  {
    if Quiet(e) { QuietOwner(w, e); }
  }

  lemma QuietOwner(w: World, e: Event)
    requires OneOwner(w) && Quiet(e)
    ensures OneOwner(Next(w, e))
  {
  }

  lemma FatesStay(w: World, e: Event)
    requires OneOwner(w) && FatesKnown(w)
    ensures FatesKnown(Next(w, e))
  {
    if Quiet(e) { QuietFates(w, e); }
  }

  lemma QuietFates(w: World, e: Event)
    requires FatesKnown(w) && Quiet(e)
    ensures FatesKnown(Next(w, e))
  {
  }

  lemma FinishInTime(w: World, e: Event)
    requires OneOwner(w) && InTime(w) && e.Finish?
    ensures InTime(Next(w, e))
  {
  }

  lemma InTimeStays(w: World, e: Event)
    requires OneOwner(w) && InTime(w) && Forward(w, e)
    ensures InTime(Next(w, e))
  {
    if e.Finish? { FinishInTime(w, e); }
    else if e.Poll? || e.Start? || e.Tick? { PollInTime(w, e); }
    else { OthersInTime(w, e); }
  }

  lemma PollInTime(w: World, e: Event)
    requires InTime(w) && (e.Poll? || e.Start? || e.Tick?) && Forward(w, e)
    ensures InTime(Next(w, e))
  {
  }

  lemma OthersInTime(w: World, e: Event)
    requires InTime(w) && !(e.Finish? || e.Poll? || e.Start? || e.Tick?)
    ensures InTime(Next(w, e))
  {
  }

  lemma FinishSpaced(w: World, e: Event)
    requires Inv(w) && e.Finish?
    ensures Spaced(Next(w, e))
  {
  }

  lemma PollSpaced(w: World, e: Event)
    requires Inv(w) && (e.Poll? || e.Start? || e.Tick?) && Forward(w, e)
    ensures Spaced(Next(w, e))
  {
  }

  /** A step that records nothing and starts no fetch. */
  lemma SpacedFrame(w: World, next: World)
    requires Spaced(w) && next.pollStarts == w.pollStarts && next.poll == w.poll && next.key == w.key
    requires next.cache.entries == w.cache.entries && next.now == w.now
    requires w.poll.Some? ==>
      var p := w.poll.value.0;
      && p in next.callers
      && (next.callers[p] == w.callers[p] || Over(next.callers[p])
          || !(Over(w.callers[p]) || w.callers[p].Recording? || next.callers[p].Fetching? || next.callers[p].Recording?))
    ensures Spaced(next)
  {
  }

  lemma AskingSpaced(w: World, e: Event)
    requires Inv(w) && (e.Call? || e.First? || e.Claim? || e.Unlink?)
    ensures Spaced(Next(w, e))
  {
    SpacedFrame(w, Next(w, e));
  }

  lemma SecondSpaced(w: World, e: Event)
    requires Inv(w) && e.Second?
    ensures Spaced(Next(w, e))
  {
    SpacedFrame(w, Next(w, e));
  }

  lemma OthersSpaced(w: World, e: Event)
    requires Inv(w) && (e.Release? || e.Wake? || e.Cancel?)
    ensures Spaced(Next(w, e))
  {
    SpacedFrame(w, Next(w, e));
  }

  lemma ToldStays(w: World, e: Event)
    requires OneOwner(w) && InTime(w) && ToldOfRecord(w)
    ensures ToldOfRecord(Next(w, e))
  {
  }

  lemma ToldOrSupersededStays(w: World, e: Event)
    requires OneOwner(w) && ToldOrSuperseded(w)
    ensures ToldOrSuperseded(Next(w, e))
  {
  }

  lemma CheckedStaysFree(w: World, e: Event)
    requires OneOwner(w) && CheckedFree(w)
    ensures CheckedFree(Next(w, e))
  {
  }

  lemma ClaimsStay(w: World, e: Event)
    requires Claims(w)
    ensures Claims(Next(w, e))
  {
    OwnerStays(w, e);
    ToldOrSupersededStays(w, e);
    CheckedStaysFree(w, e);
    FatesStay(w, e);
  }

  lemma NextIsSound(w: World, e: Event)
    requires Inv(w) && Forward(w, e)
    ensures Inv(Next(w, e))
  {
    ClaimsStay(w, e);
    ToldStays(w, e);
    InTimeStays(w, e);
    if e.Finish? { FinishSpaced(w, e); }
    else if e.Poll? || e.Start? || e.Tick? { PollSpaced(w, e); }
    else if e.Second? { SecondSpaced(w, e); }
    else if e.Release? || e.Wake? || e.Cancel? { OthersSpaced(w, e); }
    else { AskingSpaced(w, e); }
  }

  // ------------------------------------------------------------- whole runs

  /** Nobody is asking yet, and the latest attempt is in the past. */
  ghost predicate Quiescent(w: World) {
    && w.callers == map[] && w.inFlight.None? && w.fates == [] && w.poll.None? && w.pollStarts == []
    && (w.key in w.cache.entries ==> w.cache.entries[w.key].attemptedAt <= w.now)
  }

  lemma {:induction false} RunKeepsClaims(w: World, events: seq<Event>)
    requires Claims(w)
    ensures Claims(Play(w, events))
    decreases |events|
  {
    if events != [] {
      ClaimsStay(w, events[0]);
      RunKeepsClaims(Next(w, events[0]), events[1..]);
    }
  }

  predicate Monotone(w: World, events: seq<Event>)
    decreases |events|
  {
    events == [] || (Forward(w, events[0]) && Monotone(Next(w, events[0]), events[1..]))
  }

  lemma {:induction false} RunIsSound(w: World, events: seq<Event>)
    requires Inv(w) && Monotone(w, events)
    ensures Inv(Play(w, events))
    decreases |events|
  {
    if events != [] {
      NextIsSound(w, events[0]);
      RunIsSound(Next(w, events[0]), events[1..]);
    }
  }

  /** However calls, polls and cancellations interleave, and whatever the clock
      does: at most one fetch is running, and it belongs to the attempt in flight.
      While the clock is not set back, the background polls on record started five
      minutes apart. */
  lemma OneFetchAtATime(w: World, events: seq<Event>)
    requires Quiescent(w)
    ensures var end := Play(w, events);
      && (forall x, y :: x in end.callers && y in end.callers && end.callers[x].Fetching? && end.callers[y].Fetching? ==> x == y)
      && (forall x :: x in end.callers && end.callers[x].Fetching? ==> end.inFlight == Some(Flight(end.callers[x].attempt, x)))
      && (Monotone(w, events) ==>
            forall i :: 0 <= i < |end.pollStarts| - 1 ==> end.pollStarts[i + 1] - end.pollStarts[i] >= POLL_INTERVAL)
  {
    RunKeepsClaims(w, events);
    if Monotone(w, events) {
      RunIsSound(w, events);
    }
  }

  /** A pull request held by a rate limit is never asked about: the fetch that
      begins found it free at its last check, however long ago, and no hold has
      been set since; so it is free now, unless the clock was set back. */
  lemma HeldIsNeverFetched(w: World, events: seq<Event>, who: nat)
    requires Quiescent(w)
    requires var end := Play(w, events); who in end.callers && Next(end, Start(who)) != end
    ensures var end := Play(w, events);
      && end.callers[who].SecondChecked?
      && HeldUntil(end.cache, end.key, end.callers[who].checked).None?
      && (Monotone(w, events) ==> HeldUntil(end.cache, end.key, end.now).None?)
      && Next(end, Start(who)).callers[who] == Fetching(end.callers[who].attempt, end.now)
  {
    RunKeepsClaims(w, events);
    if Monotone(w, events) {
      RunIsSound(w, events);
    }
  }

  /** With a clock that only moves on, no answer arrives too late to count: each
      is recorded, and its caller is told just what was recorded. */
  lemma EveryAnswerCounts(w: World, who: nat, result: Answer)
    requires Inv(w) && who in w.callers && w.callers[who].Fetching?
    ensures var next := Next(w, Finish(who, result));
      && next.callers[who] == Recording(w.callers[who].attempt, result)
      && next.cache == Recorded(w.cache, w.key, Attempt(w.callers[who].started, w.now, result))
      && Cached(next.cache, w.key) == result
      && (w.key in w.cache.entries ==> w.cache.entries[w.key].attemptedAt <= next.cache.entries[w.key].attemptedAt)
  {
  }

  /** A caller that joined returns only once that attempt has put its answer on
      record; told so, it answers with what the cache then holds. */
  lemma JoinedReturnsAfterRecord(w: World, who: nat)
    requires Claims(w) && who in w.callers && w.callers[who].Joined?
    ensures var next := Next(w, Wake(who)); var a := w.callers[who].attempt;
      && (next.callers[who].Told? <==> w.fates[a].RecordedIt?)
      && (next.callers[who].Told? ==> next.callers[who].answer == Cached(w.cache, w.key) && w.inFlight != Some(Flight(a, who)))
      && (next.callers[who].Asked? <==> w.fates[a].Dropped?)
      && (next == w ==> w.inFlight.Some? && w.inFlight.value.attempt == a && Owns(w.callers[w.inFlight.value.owner]))
  {
  }

  /** An attempt counts as recorded only by the release of a caller whose answer
      is on record, or was superseded by a clock set back; every other way out
      drops it. */
  lemma RecordedOnlyByRelease(w: World, e: Event, a: nat)
    requires Claims(w) && a < |w.fates| && w.fates[a].Underway? && a < |Next(w, e).fates| && Next(w, e).fates[a].RecordedIt?
    ensures e.Release? && w.inFlight == Some(Flight(a, e.who))
    ensures w.callers[e.who] == Recording(a, Cached(w.cache, w.key)) || w.callers[e.who] == Recording(a, Superseded())
    ensures Inv(w) ==> w.callers[e.who] == Recording(a, Cached(w.cache, w.key))
    ensures Next(w, e).inFlight.None?
  {
  }

  /** Cancelling the caller whose fetch is running frees the pull request, and
      whoever joined it asks again itself, for a new attempt unless held. */
  lemma CancelledFreesTheClaim(w: World, who: nat, joiner: nat)
    requires Claims(w) && who in w.callers && w.callers[who].Fetching?
    requires joiner in w.callers && w.callers[joiner] == Joined(w.callers[who].attempt)
    ensures var freed := Next(w, Cancel(who));
      var again := Next(Next(freed, Wake(joiner)), First(joiner));
      && freed.inFlight.None? && freed.cache == w.cache
      && Next(freed, Wake(joiner)).callers[joiner] == Asked
      && (if HeldUntil(w.cache, w.key, w.now).Some? then again.callers[joiner].Refused?
          else Next(again, Claim(joiner)).inFlight == Some(Flight(|w.fates|, joiner)))
  {
    assert joiner != who;
  }

  // ------------------------------------------------------------ one call alone

  /** What a call does when nobody else asks, up to its fetch. */
  function UpToFetch(w: World, who: nat): World {
    Next(Next(Next(Next(Next(w, Call(who)), First(who)), Claim(who)), Second(who)), Start(who))
  }

  lemma CallWaits(w: World, who: nat, c: Caller, d: Caller)
    ensures w.callers[who := c][who := d] == w.callers[who := d]
  {
  }

  /** A call that is not held and finds no attempt in flight fetches under a new
      one; one that is held is refused until the hold runs out; and one that finds an
      attempt in flight joins it. */
  lemma CallFetches(w: World, who: nat)
    requires who !in w.callers
    ensures var asked := Next(w, Call(who)); var held := HeldUntil(w.cache, w.key, w.now);
      && asked == w.(callers := w.callers[who := Asked])
      && (held.Some? ==> Next(asked, First(who)) == w.(callers := w.callers[who := Refused(held.value)]))
      && (held.None? && w.inFlight.Some? ==>
            Next(Next(asked, First(who)), Claim(who)) == w.(callers := w.callers[who := Joined(w.inFlight.value.attempt)]))
      && (held.None? && w.inFlight.None? ==>
            UpToFetch(w, who) ==
              w.(callers := w.callers[who := Fetching(|w.fates|, w.now)], inFlight := Some(Flight(|w.fates|, who)),
                 fates := w.fates + [Underway]))
  {
    var held := HeldUntil(w.cache, w.key, w.now);
    if held.Some? {
      CallWaits(w, who, Asked, Refused(held.value));
    } else {
      CallWaits(w, who, Asked, FirstChecked);
      if w.inFlight.Some? {
        CallWaits(w, who, FirstChecked, Joined(w.inFlight.value.attempt));
      } else {
        FetchClaims(w, who);
      }
    }
  }

  lemma FetchClaims(w: World, who: nat)
    requires who !in w.callers && HeldUntil(w.cache, w.key, w.now).None? && w.inFlight.None?
    ensures UpToFetch(w, who) ==
      w.(callers := w.callers[who := Fetching(|w.fates|, w.now)], inFlight := Some(Flight(|w.fates|, who)),
         fates := w.fates + [Underway])
  {
    var n := |w.fates|;
    CallWaits(w, who, Asked, FirstChecked);
    CallWaits(w, who, FirstChecked, Claimed(n));
    var claimed := w.(callers := w.callers[who := Claimed(n)], inFlight := Some(Flight(n, who)), fates := w.fates + [Underway]);
    assert Next(Next(Next(w, Call(who)), First(who)), Claim(who)) == claimed;
    CallWaits(w, who, Claimed(n), SecondChecked(n, w.now));
    CallWaits(w, who, SecondChecked(n, w.now), Fetching(n, w.now));
  }

  /** Its answer goes on record and the claim with it, and it is told that answer,
      unless a clock set back made another look newer. */
  lemma FetchIsAnswered(w: World, who: nat, result: Answer)
    requires who in w.callers && w.callers[who].Fetching? && w.callers[who].attempt < |w.fates|
    ensures var end := Next(Next(w, Finish(who, result)), Release(who));
      var c := w.callers[who]; var a := Attempt(c.started, w.now, result);
      && end.cache == Recorded(w.cache, w.key, a)
      && end.callers == w.callers[who := Told(Settled(w.cache, w.key, a))]
      && end.inFlight.None? && end.fates == w.fates[c.attempt := RecordedIt]
      && end.poll == w.poll && end.now == w.now && end.key == w.key
      && end.pollStarts == (if w.poll.Some? && w.poll.value.0 == who
                               && !(w.key in w.cache.entries && c.started < w.cache.entries[w.key].attemptedAt)
                            then w.pollStarts + [c.started] else w.pollStarts)
  {
    var c := w.callers[who];
    var a := Attempt(c.started, w.now, result);
    CallWaits(w, who, Recording(c.attempt, Settled(w.cache, w.key, a)), Told(Settled(w.cache, w.key, a)));
  }

  /** A background poll is such a call, made when one is due and none is running;
      forgetting a pull request lifts its hold; and the clock goes where it goes. */
  lemma OtherSteps(w: World, who: nat, to: Instant)
    ensures Next(w, Poll(who)) ==
      if who !in w.callers && !PollRunning(w) && PollDue(w.cache, w.key, w.now, w.inFlight.Some?)
      then Next(w, Call(who)).(poll := Some((who, w.now))) else w
    ensures var r := Next(w, Unlink);
      r == w.(cache := r.cache) && r.cache.entries == w.cache.entries
      && w.key !in r.cache.backoff && r.cache.backoff == w.cache.backoff - {w.key}
    ensures Next(w, Tick(to)) == w.(now := to)
    ensures who in w.callers && w.callers[who].Joined? ==> Next(w, Cancel(who)) == w.(callers := w.callers[who := Cancelled])
    ensures who in w.callers && w.callers[who].Fetching? && w.callers[who].attempt < |w.fates| ==>
      Next(w, Cancel(who)) ==
        w.(callers := w.callers[who := Cancelled], inFlight := None, fates := w.fates[w.callers[who].attempt := Dropped])
  {
  }

  /** A run goes on from where its first part left off. */
  lemma {:induction false} RunsGoOn(w: World, first: seq<Event>, rest: seq<Event>, e: Event)
    ensures Play(w, first + rest) == Play(Play(w, first), rest)
    ensures Play(w, [e]) == Next(w, e)
    decreases |first|
  {
    assert [e][1..] == [];
    if first == [] {
      assert first + rest == rest;
    } else {
      assert (first + rest)[1..] == first[1..] + rest;
      RunsGoOn(Next(w, first[0]), first[1..], rest, e);
    }
  }
}
