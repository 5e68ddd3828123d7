/** The request rate limiter: attempts per identifier, a lockout when there are too
    many, and a cleanup that forgets idle identifiers. */
module RateLimit {
  import opened Common

  /** Nanoseconds. */
  type Time = int
  type Duration = int
  type Identifier = string

  /** Idle identifiers are forgotten after ten minutes. */
  const CLEANUP_AGE: Duration := 600_000_000_000

  datatype Visitor = Visitor(lastSeen: Time, attempts: nat, lockedUntil: Option<Time>)

  type Visitors = map<Identifier, Visitor>

  datatype Limit = Limit(rate: int, window: Duration)

  datatype Answer = Answer(allowed: bool, retryAfter: Duration)

  function Seen(m: Visitors, id: Identifier): Option<Visitor> {
    if id in m then Some(m[id]) else None
  }

  predicate Locked(v: Visitor, now: Time) {
    v.lockedUntil.Some? && now < v.lockedUntil.value
  }

  // ----- One attempt -----

  function Fresh(now: Time): Visitor {
    Visitor(now, 0, None)
  }

  /** The visitor an attempt works on: a new one the first time. */
  function Known(v: Option<Visitor>, now: Time): Visitor {
    if v.Some? then v.value else Fresh(now)
  }

  function Attempted(limit: Limit, v: Visitor, now: Time, lockout: Duration): Visitor {
    if Locked(v, now) then v
    else
      var attempts := (if now - v.lastSeen > limit.window then 0 else v.attempts) + 1;
      Visitor(now, attempts, if attempts > limit.rate then Some(now + lockout) else v.lockedUntil)
  }

  function Answered(limit: Limit, v: Visitor, now: Time, lockout: Duration): Answer {
    if Locked(v, now) then Answer(false, v.lockedUntil.value - now)
    else if Attempted(limit, v, now, lockout).attempts > limit.rate then Answer(false, lockout)
    else Answer(true, 0)
  }

  predicate Idle(v: Visitor, now: Time) {
    now - v.lastSeen > CLEANUP_AGE && (v.lockedUntil.Some? ==> v.lockedUntil.value < now)
  }

  // ----- Traces -----

  datatype Event = Attempt(id: Identifier, at: Time, lockout: Duration) | Cleanup(at: Time)

  function Step(limit: Limit, m: Visitors, e: Event): Visitors {
    match e
    case Attempt(id, at, lockout) => m[id := Attempted(limit, Known(Seen(m, id), at), at, lockout)]
    case Cleanup(at) => map id | id in m && !Idle(m[id], at) :: m[id]
  }

  /** The answers to the attempts of a trace, in order. */
  function Answers(limit: Limit, m: Visitors, events: seq<Event>): seq<Answer>
    decreases |events|
  {
    if events == [] then []
    else
      var rest := Answers(limit, Step(limit, m, events[0]), events[1..]);
      if events[0].Attempt?
      then [Answered(limit, Known(Seen(m, events[0].id), events[0].at), events[0].at, events[0].lockout)] + rest
      else rest
  }

  /** The clock does not run backwards. */
  predicate Ordered(events: seq<Event>) {
    forall i, j :: 0 <= i < j < |events| ==> events[i].at <= events[j].at
  }

  predicate NoCleanup(events: seq<Event>) {
    forall i :: 0 <= i < |events| ==> events[i].Attempt?
  }

  /** How often id is allowed between from and from + window. */
  function AllowedWithin(limit: Limit, m: Visitors, events: seq<Event>, id: Identifier, from: Time): nat
    decreases |events|
  {
    if events == [] then 0
    else
      var e := events[0];
      var counts := e.Attempt? && e.id == id && from <= e.at <= from + limit.window
                    && Answered(limit, Known(Seen(m, id), e.at), e.at, e.lockout).allowed;
      (if counts then 1 else 0) + AllowedWithin(limit, Step(limit, m, e), events[1..], id, from)
  }

  // ----- The bound -----

  function Max(a: int, b: int): int {
    if a < b then b else a
  }

  /** How often id can still be allowed in the interval: once it has attempted in
      it, its attempts count against the rate to the end of the interval. */
  function Room(limit: Limit, v: Option<Visitor>, from: Time): nat {
    if v.Some? && from <= v.value.lastSeen then Max(0, limit.rate - v.value.attempts) else Max(0, limit.rate)
  }

  /** Every recorded visitor was last seen no later than now. */
  predicate SeenBefore(m: Visitors, now: Time) {
    forall id :: id in m ==> m[id].lastSeen <= now
  }

  lemma AttemptTakesRoom(limit: Limit, v: Option<Visitor>, at: Time, lockout: Duration, from: Time)
    requires v.Some? ==> v.value.lastSeen <= at
    requires from <= at <= from + limit.window
    ensures var known := Known(v, at);
      (if Answered(limit, known, at, lockout).allowed then 1 else 0) + Room(limit, Some(Attempted(limit, known, at, lockout)), from)
      <= Room(limit, v, from)
  {}

  lemma {:induction false} AllowedFits(limit: Limit, m: Visitors, events: seq<Event>, id: Identifier, from: Time)
    requires Ordered(events) && NoCleanup(events)
    requires events != [] ==> SeenBefore(m, events[0].at)
    ensures AllowedWithin(limit, m, events, id, from) <= Room(limit, Seen(m, id), from)
    decreases |events|
  {
    if events != [] {
      var e := events[0];
      var m1 := Step(limit, m, e);
      assert |events| > 1 ==> events[1..][0] == events[1] && events[0].at <= events[1].at;
      AllowedFits(limit, m1, events[1..], id, from);
      if e.id == id {
        if from <= e.at <= from + limit.window {
          AttemptTakesRoom(limit, Seen(m, id), e.at, e.lockout, from);
        } else if e.at > from + limit.window {
          NothingLater(limit, m1, events[1..], id, from);
        }
      }
    }
  }

  /** Past the interval nothing counts. */
  lemma {:induction false} NothingLater(limit: Limit, m: Visitors, events: seq<Event>, id: Identifier, from: Time)
    requires forall i :: 0 <= i < |events| ==> events[i].at > from + limit.window
    ensures AllowedWithin(limit, m, events, id, from) == 0
    decreases |events|
  {
    if events != [] {
      NothingLater(limit, Step(limit, m, events[0]), events[1..], id, from);
    }
  }

  /** No identifier is allowed more than rate times in any interval of the length of
      the window, however its attempts fall. */
  lemma {:induction false} SlidingBound(limit: Limit, events: seq<Event>, id: Identifier, from: Time)
    requires Ordered(events) && NoCleanup(events)
    ensures AllowedWithin(limit, map[], events, id, from) <= Max(0, limit.rate)
  {
    AllowedFits(limit, map[], events, id, from);
  }

  // ----- Lockouts -----

  /** How often id is allowed in the whole trace. */
  function AllowedCount(limit: Limit, m: Visitors, events: seq<Event>, id: Identifier): nat
    decreases |events|
  {
    if events == [] then 0
    else
      var e := events[0];
      (if e.Attempt? && e.id == id && Answered(limit, Known(Seen(m, id), e.at), e.at, e.lockout).allowed then 1 else 0)
      + AllowedCount(limit, Step(limit, m, e), events[1..], id)
  }

  /** A locked identifier is allowed nothing before its lock ends, whatever it tries
      and however often the cleanup runs. */
  lemma {:induction false} LockHolds(limit: Limit, m: Visitors, events: seq<Event>, id: Identifier)
    requires id in m && m[id].lockedUntil.Some?
    requires forall i :: 0 <= i < |events| ==> events[i].at < m[id].lockedUntil.value
    ensures AllowedCount(limit, m, events, id) == 0
    decreases |events|
  {
    if events != [] {
      var m1 := Step(limit, m, events[0]);
      assert id in m1 && m1[id] == m[id];
      LockHolds(limit, m1, events[1..], id);
    }
  }

  /** An attempt is allowed exactly when its identifier is not locked and has made fewer
      than rate attempts since its last pause longer than the window. */
  lemma AllowedIff(limit: Limit, m: Visitors, id: Identifier, at: Time, lockout: Duration)
    ensures Answered(limit, Known(Seen(m, id), at), at, lockout).allowed <==>
      if id !in m then 1 <= limit.rate
      else
        && (m[id].lockedUntil.Some? ==> m[id].lockedUntil.value <= at)
        && (if at - m[id].lastSeen > limit.window then 1 <= limit.rate else m[id].attempts < limit.rate)
  {}

  /** One attempt too many locks the identifier: the answer names the lockout, and for
      that long nothing is allowed. */
  lemma {:induction false} RefusalLocks(limit: Limit, m: Visitors, e: Event, events: seq<Event>)
    requires e.Attempt? && (e.id in m && m[e.id].lockedUntil.Some? ==> m[e.id].lockedUntil.value <= e.at)
    requires !Answered(limit, Known(Seen(m, e.id), e.at), e.at, e.lockout).allowed
    requires forall i :: 0 <= i < |events| ==> events[i].at < e.at + e.lockout
    ensures Answered(limit, Known(Seen(m, e.id), e.at), e.at, e.lockout).retryAfter == e.lockout
    ensures AllowedCount(limit, Step(limit, m, e), events, e.id) == 0
  {
    LockHolds(limit, Step(limit, m, e), events, e.id);
  }

  function AttemptCount(events: seq<Event>, id: Identifier): nat {
    if events == [] then 0
    else (if events[0].Attempt? && events[0].id == id then 1 else 0) + AttemptCount(events[1..], id)
  }

  /** The record holds at most spent attempts against any of the events, and no lock. */
  ghost predicate Spends(limit: Limit, v: Option<Visitor>, events: seq<Event>, spent: nat) {
    v.Some? ==>
      && (v.value.lockedUntil.Some? ==> forall i :: 0 <= i < |events| ==> v.value.lockedUntil.value <= events[i].at)
      && (v.value.attempts <= spent || forall i :: 0 <= i < |events| ==> events[i].at - v.value.lastSeen > limit.window)
  }

  lemma {:induction false} RoomIsUsable(limit: Limit, m: Visitors, events: seq<Event>, id: Identifier, spent: nat)
    requires Spends(limit, Seen(m, id), events, spent)
    requires spent + AttemptCount(events, id) <= limit.rate
    ensures AllowedCount(limit, m, events, id) == AttemptCount(events, id)
    decreases |events|
  {
    if events != [] {
      var e, rest := events[0], events[1..];
      var m1 := Step(limit, m, e);
      assert forall i :: 0 <= i < |rest| ==> rest[i] == events[i + 1];
      if e.Attempt? && e.id == id {
        RoomIsUsable(limit, m1, rest, id, spent + 1);
      } else {
        RoomIsUsable(limit, m1, rest, id, spent);
      }
    }
  }

  /** An identifier that is new, or unlocked and back after a pause longer than the
      window, is allowed its next rate attempts, however they fall and whenever the
      cleanup runs. */
  lemma RateIsAllowed(limit: Limit, m: Visitors, events: seq<Event>, id: Identifier)
    requires id in m ==> forall i :: 0 <= i < |events| ==>
      && events[i].at - m[id].lastSeen > limit.window
      && (m[id].lockedUntil.Some? ==> m[id].lockedUntil.value <= events[i].at)
    requires AttemptCount(events, id) <= limit.rate
    ensures AllowedCount(limit, m, events, id) == AttemptCount(events, id)
  {
    RoomIsUsable(limit, m, events, id, 0);
  }

  /** Attempts are counted since the last pause, not within the last window: of three
      attempts eight apart, with two allowed in a window of ten, the third is refused. */
  lemma SteadyAttemptsRefused(id: Identifier)
    ensures Answers(Limit(2, 10), map[], [Attempt(id, 0, 60), Attempt(id, 8, 60), Attempt(id, 16, 60)])
         == [Answer(true, 0), Answer(true, 0), Answer(false, 60)]
  {
    var limit, a, b, c := Limit(2, 10), Attempt(id, 0, 60), Attempt(id, 8, 60), Attempt(id, 16, 60);
    assert [a, b, c][1..] == [b, c] && [b, c][1..] == [c] && [c][1..] == [];
    var m1 := Step(limit, map[], a);
    var m2 := Step(limit, m1, b);
    assert Answers(limit, m2, [c]) == [Answer(false, 60)] + Answers(limit, Step(limit, m2, c), []);
    assert Answers(limit, m1, [b, c]) == [Answer(true, 0)] + Answers(limit, m2, [c]);
  }

  // ----- Cleanup cannot be observed -----

  function Attempts(events: seq<Event>): seq<Event> {
    if events == [] then []
    else if events[0].Attempt? then [events[0]] + Attempts(events[1..])
    else Attempts(events[1..])
  }

  /** From now on the cleaned record a and the never-cleaned record b answer alike. */
  predicate Alike(limit: Limit, a: Option<Visitor>, b: Option<Visitor>, now: Time) {
    if a.Some? then
      && b.Some? && a.value.lastSeen == b.value.lastSeen
      && (a.value.attempts == b.value.attempts || limit.rate <= 0)
      && (a.value.lockedUntil == b.value.lockedUntil || (!Locked(a.value, now) && !Locked(b.value, now)))
    else
      b.Some? ==> (now - b.value.lastSeen > limit.window || limit.rate <= 0) && !Locked(b.value, now)
  }

  ghost predicate AllAlike(limit: Limit, m: Visitors, f: Visitors, now: Time) {
    forall id: Identifier :: Alike(limit, Seen(m, id), Seen(f, id), now)
  }

  lemma AlikeLater(limit: Limit, a: Option<Visitor>, b: Option<Visitor>, now: Time, later: Time)
    requires Alike(limit, a, b, now) && now <= later
    ensures Alike(limit, a, b, later)
  {}

  lemma AlikeAttempt(limit: Limit, a: Option<Visitor>, b: Option<Visitor>, at: Time, lockout: Duration)
    requires Alike(limit, a, b, at)
    ensures Answered(limit, Known(a, at), at, lockout) == Answered(limit, Known(b, at), at, lockout)
    ensures Alike(limit, Some(Attempted(limit, Known(a, at), at, lockout)), Some(Attempted(limit, Known(b, at), at, lockout)), at)
  {}

  lemma AlikeCleanup(limit: Limit, m: Visitors, f: Visitors, at: Time)
    requires limit.window <= CLEANUP_AGE || limit.rate <= 0
    requires AllAlike(limit, m, f, at)
    ensures AllAlike(limit, Step(limit, m, Cleanup(at)), f, at)
  {
    forall id: Identifier ensures Alike(limit, Seen(Step(limit, m, Cleanup(at)), id), Seen(f, id), at) {
      assert Alike(limit, Seen(m, id), Seen(f, id), at);
    }
  }

  lemma AlikeStep(limit: Limit, m: Visitors, f: Visitors, e: Event)
    requires e.Attempt? && AllAlike(limit, m, f, e.at)
    ensures AllAlike(limit, Step(limit, m, e), Step(limit, f, e), e.at)
  {
    var m1, f1 := Step(limit, m, e), Step(limit, f, e);
    forall id: Identifier ensures Alike(limit, Seen(m1, id), Seen(f1, id), e.at) {
      assert Alike(limit, Seen(m, id), Seen(f, id), e.at);
      if id == e.id {
        AlikeAttempt(limit, Seen(m, id), Seen(f, id), e.at, e.lockout);
      }
    }
  }

  lemma {:induction false} CleanupFromAlike(limit: Limit, m: Visitors, f: Visitors, events: seq<Event>, now: Time, id: Identifier, from: Time)
    requires limit.window <= CLEANUP_AGE || limit.rate <= 0
    requires Ordered(events) && (events != [] ==> now <= events[0].at) && AllAlike(limit, m, f, now)
    ensures Answers(limit, m, events) == Answers(limit, f, Attempts(events))
    ensures AllowedWithin(limit, m, events, id, from) == AllowedWithin(limit, f, Attempts(events), id, from)
    decreases |events|
  {
    if events != [] {
      var e, rest := events[0], events[1..];
      forall x: Identifier ensures Alike(limit, Seen(m, x), Seen(f, x), e.at) {
        assert Alike(limit, Seen(m, x), Seen(f, x), now);
        AlikeLater(limit, Seen(m, x), Seen(f, x), now, e.at);
      }
      assert Ordered(rest) && (rest != [] ==> e.at <= rest[0].at);
      if e.Attempt? {
        AlikeAttempt(limit, Seen(m, e.id), Seen(f, e.id), e.at, e.lockout);
        AlikeStep(limit, m, f, e);
        CleanupFromAlike(limit, Step(limit, m, e), Step(limit, f, e), rest, e.at, id, from);
        assert Attempts(events)[1..] == Attempts(rest);
      } else {
        AlikeCleanup(limit, m, f, e.at);
        CleanupFromAlike(limit, Step(limit, m, e), f, rest, e.at, id, from);
      }
    }
  }

  lemma {:induction false} AttemptsAreEvents(events: seq<Event>)
    ensures forall e :: e in Attempts(events) ==> e in events
    ensures NoCleanup(Attempts(events))
  {
    if events != [] {
      AttemptsAreEvents(events[1..]);
    }
  }

  lemma OrderedCons(e: Event, rest: seq<Event>)
    requires Ordered(rest) && forall x :: x in rest ==> e.at <= x.at
    ensures Ordered([e] + rest)
  {}

  lemma {:induction false} AttemptsOrdered(events: seq<Event>)
    requires Ordered(events)
    ensures Ordered(Attempts(events)) && NoCleanup(Attempts(events))
    ensures forall i :: 0 <= i < |Attempts(events)| ==> Attempts(events)[i] in events
  {
    AttemptsAreEvents(events);
    if events != [] {
      AttemptsOrdered(events[1..]);
      AttemptsAreEvents(events[1..]);
      forall x | x in Attempts(events[1..]) ensures events[0].at <= x.at {
        var j :| 0 <= j < |events[1..]| && events[1..][j] == x;
        assert events[j + 1] == x;
      }
      OrderedCons(events[0], Attempts(events[1..]));
    }
  }

  // ----- and exactly then -----

  /** As many attempts as the rate still allows, then one after a little over ten
      minutes of silence. */
  function Revealing(limit: Limit, done: nat, id: Identifier): seq<Event>
    requires done <= limit.rate
    decreases limit.rate - done
  {
    if done == limit.rate then [Cleanup(CLEANUP_AGE + 1), Attempt(id, CLEANUP_AGE + 1, 0)]
    else [Attempt(id, 0, 0)] + Revealing(limit, done + 1, id)
  }

  lemma {:induction false} RevealingOrdered(limit: Limit, done: nat, id: Identifier)
    requires done <= limit.rate
    ensures Ordered(Revealing(limit, done, id)) && forall i :: 0 <= i < |Revealing(limit, done, id)| ==> Revealing(limit, done, id)[i].at >= 0
    decreases limit.rate - done
  {
    if done < limit.rate {
      RevealingOrdered(limit, done + 1, id);
    }
  }

  lemma {:induction false} AnswersDiffer(limit: Limit, m: Visitors, e: Event, a: seq<Event>, b: seq<Event>)
    requires e.Attempt? && Answers(limit, Step(limit, m, e), a) != Answers(limit, Step(limit, m, e), b)
    ensures Answers(limit, m, [e] + a) != Answers(limit, m, [e] + b)
  {
    var answer := Answered(limit, Known(Seen(m, e.id), e.at), e.at, e.lockout);
    var x, y := Answers(limit, Step(limit, m, e), a), Answers(limit, Step(limit, m, e), b);
    assert ([e] + a)[1..] == a && ([e] + b)[1..] == b;
    assert ([answer] + x)[1..] == x && ([answer] + y)[1..] == y;
  }

  lemma {:induction false} RevealingDiffers(limit: Limit, m: Visitors, done: nat, id: Identifier)
    requires 1 <= limit.rate && done <= limit.rate && limit.window > CLEANUP_AGE
    requires if done == 0 then id !in m else id in m && m[id] == Visitor(0, done, None)
    ensures Answers(limit, m, Revealing(limit, done, id)) != Answers(limit, m, Attempts(Revealing(limit, done, id)))
    decreases limit.rate - done
  {
    if done < limit.rate {
      var e, rest := Attempt(id, 0, 0), Revealing(limit, done + 1, id);
      RevealingDiffers(limit, Step(limit, m, e), done + 1, id);
      AnswersDiffer(limit, m, e, rest, Attempts(rest));
      assert ([e] + rest)[1..] == rest;
    } else {
      RevealingLast(limit, m, id);
    }
  }

  lemma RevealingLast(limit: Limit, m: Visitors, id: Identifier)
    requires 1 <= limit.rate && limit.window > CLEANUP_AGE
    requires id in m && m[id] == Visitor(0, limit.rate, None)
    ensures Answers(limit, m, Revealing(limit, limit.rate, id)) != Answers(limit, m, Attempts(Revealing(limit, limit.rate, id)))
  {
    var sweep, try := Cleanup(CLEANUP_AGE + 1), Attempt(id, CLEANUP_AGE + 1, 0);
    var m1 := Step(limit, m, sweep);
    assert Revealing(limit, limit.rate, id) == [sweep, try];
    assert [sweep, try][1..] == [try] && [try][1..] == [];
    assert Attempts([sweep, try]) == [try] + Attempts([]);
    assert id !in m1;
    assert Answers(limit, m, [sweep, try]) == Answers(limit, m1, [try]) == [Answer(true, 0)] + [];
    assert Answers(limit, m, [try]) == [Answer(false, 0)] + [];
    assert ([Answer(true, 0)] + [])[0].allowed && !([Answer(false, 0)] + [])[0].allowed;
  }

  /** Answers never show that a cleanup ran, for any trace, exactly when the window is
      at most ten minutes (or nothing is ever allowed). */
  lemma CleanupUnobservableIff(limit: Limit, id: Identifier)
    ensures (forall events: seq<Event> :: Ordered(events) ==> Answers(limit, map[], events) == Answers(limit, map[], Attempts(events)))
       <==> limit.window <= CLEANUP_AGE || limit.rate <= 0
  {
    if limit.window <= CLEANUP_AGE || limit.rate <= 0 {
      forall events: seq<Event> | Ordered(events) ensures Answers(limit, map[], events) == Answers(limit, map[], Attempts(events)) {
        if events != [] {
          CleanupFromAlike(limit, map[], map[], events, events[0].at, id, 0);
        }
      }
    } else {
      RevealingOrdered(limit, 0, id);
      RevealingDiffers(limit, map[], 0, id);
    }
  }

  lemma {:induction false} RevealingAllows(limit: Limit, m: Visitors, done: nat, id: Identifier)
    requires 1 <= limit.rate && done <= limit.rate && limit.window > CLEANUP_AGE
    requires if done == 0 then id !in m else id in m && m[id] == Visitor(0, done, None)
    ensures AllowedWithin(limit, m, Revealing(limit, done, id), id, 0) == limit.rate - done + 1
    decreases limit.rate - done
  {
    if done < limit.rate {
      var e, rest := Attempt(id, 0, 0), Revealing(limit, done + 1, id);
      RevealingAllows(limit, Step(limit, m, e), done + 1, id);
      assert ([e] + rest)[1..] == rest;
    } else {
      var sweep, last := Cleanup(CLEANUP_AGE + 1), Attempt(id, CLEANUP_AGE + 1, 0);
      var m1 := Step(limit, m, sweep);
      assert [sweep, last][1..] == [last] && [last][1..] == [];
      assert id !in m1;
      assert AllowedWithin(limit, m1, [last], id, 0) == 1;
    }
  }

  /** With the cleanup running, the sliding bound holds of every trace exactly when
      the window is at most ten minutes (or nothing is ever allowed). */
  lemma BoundWithCleanupIff(limit: Limit, id: Identifier)
    ensures (forall events: seq<Event>, from: Time :: Ordered(events) ==> AllowedWithin(limit, map[], events, id, from) <= Max(0, limit.rate))
       <==> limit.window <= CLEANUP_AGE || limit.rate <= 0
  {
    if limit.window <= CLEANUP_AGE || limit.rate <= 0 {
      forall events: seq<Event>, from: Time | Ordered(events) ensures AllowedWithin(limit, map[], events, id, from) <= Max(0, limit.rate) {
        if events != [] {
          CleanupFromAlike(limit, map[], map[], events, events[0].at, id, from);
          AttemptsOrdered(events);
          SlidingBound(limit, Attempts(events), id, from);
        }
      }
    } else {
      RevealingOrdered(limit, 0, id);
      RevealingAllows(limit, map[], 0, id);
    }
  }

  // ----- The limiter -----

  class RateLimiter {
    var visitors: Visitors
    const limit: Limit

    constructor (rate: int, window: Duration)
      ensures visitors == map[] && limit == Limit(rate, window)
    {
      visitors, limit := map[], Limit(rate, window);
    }

    method Allow(id: Identifier, now: Time, lockout: Duration) returns (allowed: bool, retryAfter: Duration)
      modifies this
      ensures visitors == Step(limit, old(visitors), Attempt(id, now, lockout))
      ensures Answer(allowed, retryAfter) == Answered(limit, Known(Seen(old(visitors), id), now), now, lockout)
      ensures var before := if id in old(visitors) then old(visitors)[id] else Visitor(now, 0, None);
        var attempts := if now - before.lastSeen > limit.window then 1 else before.attempts + 1;
        if before.lockedUntil.Some? && now < before.lockedUntil.value then
          !allowed && retryAfter == before.lockedUntil.value - now && visitors == old(visitors)[id := before]
        else if attempts > limit.rate then
          !allowed && retryAfter == lockout && visitors == old(visitors)[id := Visitor(now, attempts, Some(now + lockout))]
        else
          allowed && retryAfter == 0 && visitors == old(visitors)[id := Visitor(now, attempts, before.lockedUntil)]
    {
      if id !in visitors {
        visitors := visitors[id := Visitor(now, 0, None)];
      }
      var visitor := visitors[id];
      if visitor.lockedUntil.Some? && now < visitor.lockedUntil.value {
        return false, visitor.lockedUntil.value - now;
      }
      if now - visitor.lastSeen > limit.window {
        visitor := visitor.(attempts := 0);
      }
      visitor := visitor.(attempts := visitor.attempts + 1, lastSeen := now);
      allowed, retryAfter := true, 0;
      if visitor.attempts > limit.rate {
        visitor := visitor.(lockedUntil := Some(now + lockout));
        allowed, retryAfter := false, lockout;
      }
      visitors := visitors[id := visitor];
    }

    /** Forgets the idle and unlocked, one entry at a time. */
    method CleanupVisitors(now: Time)
      modifies this
      ensures visitors == Step(limit, old(visitors), Cleanup(now))
      ensures forall id :: id in visitors <==>
        && id in old(visitors)
        && (now - old(visitors)[id].lastSeen <= 600_000_000_000
            || (old(visitors)[id].lockedUntil.Some? && now <= old(visitors)[id].lockedUntil.value))
      ensures forall id :: id in visitors ==> visitors[id] == old(visitors)[id]
    {
      var keys := visitors.Keys;
      var before := visitors;
      while keys != {}
        invariant keys <= before.Keys && visitors.Keys <= before.Keys
        invariant forall id :: id in keys ==> id in visitors
        invariant forall id :: id in before && id !in keys ==> (id in visitors <==> !Idle(before[id], now))
        invariant forall id :: id in visitors ==> visitors[id] == before[id]
        decreases keys
      {
        var id :| id in keys;
        var visitor := visitors[id];
        if now - visitor.lastSeen > CLEANUP_AGE && (visitor.lockedUntil.None? || visitor.lockedUntil.value < now) {
          visitors := visitors - {id};
        }
        keys := keys - {id};
      }
    }

    /** Clears the attempts and the lock; the identifier's next window starts anew. */
    method Reset(id: Identifier)
      modifies this
      ensures visitors ==
        if id in old(visitors) then old(visitors)[id := old(visitors)[id].(attempts := 0, lockedUntil := None)] else old(visitors)
    {
      if id in visitors {
        visitors := visitors[id := visitors[id].(attempts := 0, lockedUntil := None)];
      }
    }
  }
}
