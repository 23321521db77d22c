/** Any number of queue requests for one Task, interleaved at every point where
    the code releases the board's lock (`TaskLifecycleLocks`,
    `enqueue_current` and `enqueue_current_held` in `lifecycle.rs`). */
module QueueRequests {
  import opened Durability
  import opened Tasks
  import opened Columns
  import opened QueueEntry

  /** Where one request is. The lease is held from `Holding` to `Ready`. */
  datatype Request =
    | Waiting
    | Holding
    | Ending
    | Ready(seenIn: Status)
    | Answered(verdict: Verdict)
    | Failed(save: Save)
    | TimedOut

  predicate HoldsLease(r: Request) {
    r.Holding? || r.Ending? || r.Ready?
  }

  predicate Finished(r: Request) {
    r.Answered? || r.Failed? || r.TimedOut?
  }

  /** `winner` is history only: the request whose write published the move. */
  datatype World = World(task: Task, lease: Option<nat>, requests: map<nat, Request>, winner: Option<nat>)

  datatype Event =
    | Arrive(who: nat)
    | GiveUp(who: nat)
    | Acquire(who: nat)
    | FirstRead(who: nat)
    | OwnerEnded(who: nat)
    | Write(who: nat, h: Digest, now: Time, save: Save)
    | Edit(title: string, description: Option<string>, position: int)

  function With(w: World, who: nat, r: Request): World {
    w.(requests := w.requests[who := r], lease := if HoldsLease(r) then w.lease else if w.lease == Some(who) then None else w.lease)
  }

  /** One atomic step; a step that is not enabled changes nothing. A Backlog
      Task has no owner, so ending its owner leaves it as it is. */
  function Next(w: World, e: Event): World {
    match e
    case Arrive(who) => if who in w.requests then w else w.(requests := w.requests[who := Waiting])
    case GiveUp(who) => if At(w, who, Waiting) then With(w, who, TimedOut) else w
    case Acquire(who) =>
      if At(w, who, Waiting) && w.lease.None? then w.(lease := Some(who), requests := w.requests[who := Holding]) else w
    case FirstRead(who) =>
      if !At(w, who, Holding) then w
      else if w.task.status.Queue? then With(w, who, Ready(w.task.status))
      else (match QueueEntryRefusal(w.task)
            case Some(why) => With(w, who, Answered(Blocked(why)))
            case None => With(w, who, Ending))
    case OwnerEnded(who) => if At(w, who, Ending) then With(w, who, Ready(w.task.status)) else w
    case Write(who, h, now, save) =>
      if !(who in w.requests && w.requests[who].Ready?) then w
      else (match QueueEntryCheck(h, w.task, w.task.project, w.requests[who].seenIn, None)
            case Some(refusal) => With(w, who, Answered(refusal))
            case None =>
              var published := if Published(save)
                then w.(task := Entered(w.task, None, now).(position := 0), winner := Some(who)) else w;
              With(published, who, if save.Confirmed? then Answered(Queued(w.task.title)) else Request.Failed(save)))
    case Edit(title, description, position) =>
      w.(task := w.task.(title := title, description := description, position := position))
  }

  predicate At(w: World, who: nat, r: Request) {
    who in w.requests && w.requests[who] == r
  }

  function Play(w: World, events: seq<Event>): World
    decreases |events|
  {
    if events == [] then w else Play(Next(w, events[0]), events[1..])
  }

  /** The Task as the first request found it. */
  ghost predicate Start(w: World) {
    w.lease.None? && w.requests == map[] && w.winner.None?
    && w.task.status.Backlog? && QueueEntryRefusal(w.task).None?
  }

  ghost predicate OneMove(w: World, before: seq<Entry>) {
    exists now :: w.task.activity == Record(before, now, Moved(Backlog, Queue))
  }

  ghost predicate Safe(w: World, before: seq<Entry>) {
    && (forall who :: who in w.requests ==> (HoldsLease(w.requests[who]) <==> w.lease == Some(who)))
    && (w.lease.Some? ==> w.lease.value in w.requests)
    && (w.winner.None? ==> w.task.status.Backlog? && QueueEntryRefusal(w.task).None? && w.task.activity == before)
    && (w.winner.Some? ==>
          && w.task.status.Queue? && OneMove(w, before) && w.winner.value in w.requests
          && (w.requests[w.winner.value].Answered? || w.requests[w.winner.value] == Request.Failed(PublishedNotDurable)))
    && forall who :: who in w.requests ==> RequestSafe(w, who, w.requests[who])
  }

  ghost predicate RequestSafe(w: World, who: nat, r: Request) {
    match r
    case Ready(seenIn) => seenIn == w.task.status
    case Ending => w.winner.None?
    case Answered(Queued(_)) => w.winner == Some(who)
    case Answered(AlreadyQueued(_)) => w.winner.Some? && w.winner != Some(who)
    case Answered(_) => false
    case Failed(save) => (save.NotPublished? && w.winner != Some(who)) || (save.PublishedNotDurable? && w.winner == Some(who))
    case _ => true
  }

  lemma NextIsSafe(w: World, e: Event, before: seq<Entry>)
    requires Safe(w, before)
    ensures Safe(Next(w, e), before)
  {
    match e
    case Edit(title, description, position) =>
      assert QueueEntryRefusal(Next(w, e).task) == QueueEntryRefusal(w.task);
    case Write(who, h, now, save) =>
      if who in w.requests && w.requests[who].Ready? {
        WriteIsSafe(w, who, h, now, save, before);
      }
    case FirstRead(_) => ReadingIsSafe(w, e, before);
    case OwnerEnded(_) => ReadingIsSafe(w, e, before);
    case _ => WaitingIsSafe(w, e, before);
  }

  lemma WaitingIsSafe(w: World, e: Event, before: seq<Entry>)
    requires Safe(w, before) && (e.Arrive? || e.GiveUp? || e.Acquire?)
    ensures Safe(Next(w, e), before)
  {
  }

  lemma ReadingIsSafe(w: World, e: Event, before: seq<Entry>)
    requires Safe(w, before) && (e.FirstRead? || e.OwnerEnded?)
    ensures Safe(Next(w, e), before)
  {
  }

  lemma WriteIsSafe(w: World, who: nat, h: Digest, now: Time, save: Save, before: seq<Entry>)
    requires Safe(w, before) && who in w.requests && w.requests[who].Ready?
    ensures Safe(Next(w, Write(who, h, now, save)), before)
  {
    assert RequestSafe(w, who, w.requests[who]);
    var after := Next(w, Write(who, h, now, save));
    if w.winner.None? && Published(save) {
      EnteredFacts(w.task, None, now);
      assert after.task.activity == Record(before, now, Moved(Backlog, Queue));
    }
    if w.winner.Some? {
      assert w.winner.value != who;
    }
  }

  /** Every request ended, and it came to more than time-outs and writes that
      published nothing: exactly one write moved the Task, one move is on the
      record, and every other answer is `AlreadyQueued` or such a failure. */
  lemma {:induction false} OneRequestWins(w: World, events: seq<Event>)
    requires Start(w)
    ensures var end := Play(w, events);
      && (forall who :: who in end.requests && end.requests[who].Answered? ==> end.winner.Some?)
      && (forall who :: who in end.requests && Finished(end.requests[who]) ==>
            match end.requests[who]
            case Answered(Queued(_)) => end.winner == Some(who)
            case Answered(verdict) => verdict.AlreadyQueued? && end.winner != Some(who)
            case Failed(save) => save.PublishedNotDurable? <==> end.winner == Some(who)
            case _ => true)
      && (if end.winner.Some? then end.task.status.Queue? && OneMove(end, w.task.activity)
          else end.task.status.Backlog? && end.task.activity == w.task.activity)
  {
    PlayIsSafe(w, events, w.task.activity);
    var end := Play(w, events);
    forall who | who in end.requests && Finished(end.requests[who])
      ensures RequestSafe(end, who, end.requests[who])
    {
    }
  }

  lemma {:induction false} PlayIsSafe(w: World, events: seq<Event>, before: seq<Entry>)
    requires Safe(w, before)
    ensures Safe(Play(w, events), before)
    decreases |events|
  {
    if events != [] {
      NextIsSafe(w, events[0], before);
      PlayIsSafe(Next(w, events[0]), events[1..], before);
    }
  }

  /** With every save confirmed, one request that is answered at all means that
      exactly one is answered `Queued`. */
  lemma ExactlyOneQueued(w: World, events: seq<Event>, who: nat)
    requires Start(w) && (forall e :: e in events && e.Write? ==> e.save.Confirmed?)
    requires who in Play(w, events).requests && Play(w, events).requests[who].Answered?
    ensures var end := Play(w, events).requests;
      exists one :: one in end && end[one].Answered? && end[one].verdict.Queued?
        && forall other :: other in end && other != one && Finished(end[other]) ==>
             end[other].TimedOut? || (end[other].Answered? && end[other].verdict.AlreadyQueued?)
  {
    PlayIsSafe(w, events, w.task.activity);
    NoFailures(w, events);
    var end := Play(w, events);
    assert RequestSafe(end, who, end.requests[who]);
    var one := end.winner.value;
    assert RequestSafe(end, one, end.requests[one]);
    forall other | other in end.requests && other != one && Finished(end.requests[other])
      ensures end.requests[other].TimedOut? || (end.requests[other].Answered? && end.requests[other].verdict.AlreadyQueued?)
    {
      assert RequestSafe(end, other, end.requests[other]);
    }
  }

  lemma {:induction false} NoFailures(w: World, events: seq<Event>)
    requires forall e :: e in events && e.Write? ==> e.save.Confirmed?
    requires forall who :: who in w.requests ==> !w.requests[who].Failed?
    ensures forall who :: who in Play(w, events).requests ==> !Play(w, events).requests[who].Failed?
    decreases |events|
  {
    if events != [] {
      assert events[0] in events;
      NoFailures(Next(w, events[0]), events[1..]);
    }
  }

  /** The Task carries a reason that already refuses it the Queue. */
  ghost predicate Refusing(w: World, found: Task, why: Block) {
    && w.winner.None?
    && w.task == found.(title := w.task.title, description := w.task.description, position := w.task.position)
    && QueueEntryRefusal(found) == Some(why) && !found.status.Queue?
    && forall who :: who in w.requests ==>
         var r := w.requests[who];
         r.Waiting? || r.Holding? || r.TimedOut? || r == Answered(Blocked(why))
  }

  lemma NextStillRefuses(w: World, e: Event, found: Task, why: Block)
    requires Refusing(w, found, why)
    ensures Refusing(Next(w, e), found, why)
  {
    assert QueueEntryRefusal(w.task) == Some(why);
  }

  /** While a reason refuses the Task the Queue, no request gets as far as
      ending its owner or writing: each is told that reason or times out. */
  lemma {:induction false} RefusedEndsNoOwner(w: World, events: seq<Event>, found: Task, why: Block)
    requires Refusing(w, found, why)
    ensures Refusing(Play(w, events), found, why)
    decreases |events|
  {
    if events != [] {
      NextStillRefuses(w, events[0], found, why);
      RefusedEndsNoOwner(Next(w, events[0]), events[1..], found, why);
    }
  }

  // --------------------------------------------------------- one request alone

  /** What one request does when no other is there: it waits, holds the lease,
      finds nothing against it, ends the Task's owner, and writes. */
  function Alone(who: nat, h: Digest, now: Time, save: Save): seq<Event> {
    [Arrive(who), Acquire(who), FirstRead(who)] + [OwnerEnded(who), Write(who, h, now, save)]
  }

  lemma {:induction false} PlayConcat(w: World, first: seq<Event>, rest: seq<Event>)
    ensures Play(w, first + rest) == Play(Play(w, first), rest)
    decreases |first|
  {
    if first == [] {
      assert first + rest == rest;
    } else {
      assert (first + rest)[1..] == first[1..] + rest;
      PlayConcat(Next(w, first[0]), first[1..], rest);
    }
  }

  lemma PlayTwo(w: World, a: Event, b: Event)
    ensures Play(w, [a, b]) == Next(Next(w, a), b)
  {
    assert [a, b][1..] == [b] && [b][1..] == [];
    assert Play(Next(w, a), [b]) == Next(Next(w, a), b);
  }

  lemma PlayThree(w: World, a: Event, b: Event, c: Event)
    ensures Play(w, [a, b, c]) == Next(Next(Next(w, a), b), c)
  {
    assert [a, b, c][1..] == [b, c];
    PlayTwo(Next(w, a), b, c);
  }

  lemma SetTwice(requests: map<nat, Request>, who: nat, a: Request, b: Request)
    ensures requests[who := a][who := b] == requests[who := b]
  {
  }

  /** A request that finds nobody before it holds the lease. */
  lemma TakesTheLease(w: World, who: nat)
    requires w.lease.None? && who !in w.requests
    ensures Next(Next(w, Arrive(who)), Acquire(who)) == w.(lease := Some(who), requests := w.requests[who := Holding])
  {
    SetTwice(w.requests, who, Waiting, Holding);
  }

  /** It then reads the Task: a queued one goes on to the queue's own check, any
      other is refused or has its owner ended first. */
  lemma ReachesTheTask(w: World, who: nat)
    requires w.lease.None? && who !in w.requests
    ensures Play(w, [Arrive(who), Acquire(who), FirstRead(who)]) ==
      if w.task.status.Queue? then w.(lease := Some(who), requests := w.requests[who := Ready(Queue)])
      else if QueueEntryRefusal(w.task).Some?
      then w.(requests := w.requests[who := Answered(Blocked(QueueEntryRefusal(w.task).value))])
      else w.(lease := Some(who), requests := w.requests[who := Ending])
  {
    PlayThree(w, Arrive(who), Acquire(who), FirstRead(who));
    TakesTheLease(w, who);
    SetTwice(w.requests, who, Holding, Ready(Queue));
    SetTwice(w.requests, who, Holding, Ending);
    if QueueEntryRefusal(w.task).Some? {
      SetTwice(w.requests, who, Holding, Answered(Blocked(QueueEntryRefusal(w.task).value)));
    }
  }

  lemma WritesTheTask(w: World, who: nat, h: Digest, now: Time, save: Save)
    requires w.lease == Some(who) && At(w, who, Ending) && w.task.status.Backlog? && QueueEntryRefusal(w.task).None?
    ensures var end := Play(w, [OwnerEnded(who), Write(who, h, now, save)]);
      && end.lease.None?
      && end.requests == w.requests[who := if save.Confirmed? then Answered(Queued(w.task.title)) else Request.Failed(save)]
      && (if save.NotPublished? then end.task == w.task && end.winner == w.winner
          else QueuedAs(w.task, None, now, end.task) && end.task.position == 0 && end.winner == Some(who))
  {
    PlayTwo(w, OwnerEnded(who), Write(who, h, now, save));
    var ready := w.(requests := w.requests[who := Ready(Backlog)]);
    assert Next(w, OwnerEnded(who)) == ready;
    EnteredIsQueued(w.task, None, now, 0);
    SetTwice(w.requests, who, Ready(Backlog), if save.Confirmed? then Answered(Queued(w.task.title)) else Request.Failed(save));
  }

  /** A request alone, on a Backlog Task nothing refuses, is answered as its save
      is: `Queued` when that is confirmed, the failure otherwise; and a published
      write leaves the Task queued with nothing left of an earlier run. */
  lemma AloneIsQueued(w: World, who: nat, h: Digest, now: Time, save: Save)
    requires w.lease.None? && who !in w.requests && w.task.status.Backlog? && QueueEntryRefusal(w.task).None?
    ensures var end := Play(w, Alone(who, h, now, save));
      && end.lease.None?
      && end.requests == w.requests[who := if save.Confirmed? then Answered(Queued(w.task.title)) else Request.Failed(save)]
      && (if save.NotPublished? then end.task == w.task else QueuedAs(w.task, None, now, end.task) && end.task.position == 0)
  {
    PlayConcat(w, [Arrive(who), Acquire(who), FirstRead(who)], [OwnerEnded(who), Write(who, h, now, save)]);
    ReachesTheTask(w, who);
    WritesTheTask(w.(lease := Some(who), requests := w.requests[who := Ending]), who, h, now, save);
    SetTwice(w.requests, who, Ending, if save.Confirmed? then Answered(Queued(w.task.title)) else Request.Failed(save));
  }

  /** One that finds the Task queued already is told so, with its title. */
  lemma LateIsTold(w: World, who: nat, h: Digest, now: Time, save: Save)
    requires w.lease.None? && who !in w.requests && w.task.status.Queue?
    ensures Next(Play(w, [Arrive(who), Acquire(who), FirstRead(who)]), Write(who, h, now, save)) ==
      w.(requests := w.requests[who := Answered(AlreadyQueued(w.task.title))])
  {
    ReachesTheTask(w, who);
    SetTwice(w.requests, who, Ready(Queue), Answered(AlreadyQueued(w.task.title)));
  }

  /** Giving up is for a request that still waits; an edit of the card goes on
      beside every request. */
  lemma StepsBeside(w: World, who: nat, title: string, description: Option<string>, position: int)
    requires w.lease != Some(who)
    ensures Next(w, GiveUp(who)) == if At(w, who, Waiting) then w.(requests := w.requests[who := TimedOut]) else w
    ensures var r := Next(w, Edit(title, description, position));
      r == w.(task := r.task) && r.task == w.task.(title := title, description := description, position := position)
  {
  }
}
