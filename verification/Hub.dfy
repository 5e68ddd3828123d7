/** The chat hub: every message published on a thread is offered to the streams open
    on it, each behind a small buffer that drops rather than blocks. */
module Hub {
  import opened Common

  type ThreadId = nat
  type StreamId = nat
  type Message = nat

  const SUBSCRIBER_BUFFER: nat := 16

  /** Who is subscribed to each thread, and what waits in each stream's channel. */
  datatype State = State(subs: map<ThreadId, set<StreamId>>, waiting: map<StreamId, seq<Message>>)

  datatype Event =
    | Subscribe(thread: ThreadId, stream: StreamId)
    | Unsubscribe(thread: ThreadId, stream: StreamId)
    | Publish(thread: ThreadId, msg: Message)
    | Read(stream: StreamId)

  function Streams(s: State, thread: ThreadId): set<StreamId> {
    if thread in s.subs then s.subs[thread] else {}
  }

  function Waiting(s: State, stream: StreamId): seq<Message> {
    if stream in s.waiting then s.waiting[stream] else []
  }

  /** The non-blocking send: a full channel keeps what it has. */
  function Offer(waiting: seq<Message>, msg: Message): seq<Message> {
    if |waiting| < SUBSCRIBER_BUFFER then waiting + [msg] else waiting
  }

  function Step(s: State, e: Event): State {
    match e
    case Subscribe(t, id) =>
      if id in s.waiting then s else State(s.subs[t := Streams(s, t) + {id}], s.waiting[id := []])
    case Unsubscribe(t, id) =>
      if Streams(s, t) - {id} == {} then s.(subs := s.subs - {t}) else s.(subs := s.subs[t := Streams(s, t) - {id}])
    case Publish(t, msg) =>
      s.(waiting := map id | id in s.waiting :: if id in Streams(s, t) then Offer(s.waiting[id], msg) else s.waiting[id])
    case Read(id) =>
      if Waiting(s, id) == [] then s else s.(waiting := s.waiting[id := s.waiting[id][1..]])
  }

  function After(events: seq<Event>): State {
    if events == [] then State(map[], map[])
    else Step(After(events[..|events| - 1]), events[|events| - 1])
  }

  // ----- Who is subscribed, told from the events alone -----

  /** The stream has been opened, on this or on any thread. */
  ghost predicate Opened(events: seq<Event>, id: StreamId) {
    exists i :: 0 <= i < |events| && events[i].Subscribe? && events[i].stream == id
  }

  /** The stream was opened on the thread and has not been closed there since. (A stream
      is opened once: a further Subscribe of the same stream is none.) */
  ghost predicate SubscribedIn(events: seq<Event>, id: StreamId, thread: ThreadId) {
    exists i :: 0 <= i < |events| && OpensAt(events, i, id, thread) && forall j :: i < j < |events| ==> events[j] != Unsubscribe(thread, id)
  }

  ghost predicate OpensAt(events: seq<Event>, i: nat, id: StreamId, thread: ThreadId)
    requires i < |events|
  {
    events[i] == Subscribe(thread, id) && !Opened(events[..i], id)
  }

  lemma OpenedMore(events: seq<Event>, id: StreamId)
    requires events != []
    ensures var last := |events| - 1;
      Opened(events, id) <==> Opened(events[..last], id) || (events[last].Subscribe? && events[last].stream == id)
  {
    var last := |events| - 1;
    if Opened(events, id) {
      var i :| 0 <= i < |events| && events[i].Subscribe? && events[i].stream == id;
      assert i < last ==> events[..last][i] == events[i];
    }
    if Opened(events[..last], id) {
      var i :| 0 <= i < last && events[..last][i].Subscribe? && events[..last][i].stream == id;
      assert events[i] == events[..last][i];
    }
  }

  lemma SubscribedMore(events: seq<Event>, id: StreamId, thread: ThreadId)
    requires events != []
    ensures var last := |events| - 1;
      SubscribedIn(events, id, thread) <==>
        || (events[last] == Subscribe(thread, id) && !Opened(events[..last], id))
        || (SubscribedIn(events[..last], id, thread) && events[last] != Unsubscribe(thread, id))
  {
    var last := |events| - 1;
    var front := events[..last];
    if SubscribedIn(events, id, thread) {
      var i :| 0 <= i < |events| && OpensAt(events, i, id, thread) && forall j :: i < j < |events| ==> events[j] != Unsubscribe(thread, id);
      if i < last {
        assert front[..i] == events[..i] && front[i] == events[i];
        assert OpensAt(front, i, id, thread) && forall j :: i < j < last ==> front[j] == events[j];
      }
    }
    if SubscribedIn(front, id, thread) && events[last] != Unsubscribe(thread, id) {
      var i :| 0 <= i < last && OpensAt(front, i, id, thread) && forall j :: i < j < last ==> front[j] != Unsubscribe(thread, id);
      assert front[..i] == events[..i] && front[i] == events[i];
      assert OpensAt(events, i, id, thread);
      forall j | i < j < |events| ensures events[j] != Unsubscribe(thread, id) {
        assert j < last ==> events[j] == front[j];
      }
    }
    if events[last] == Subscribe(thread, id) && !Opened(front, id) {
      assert OpensAt(events, last, id, thread);
    }
  }

  /** The hub's table of subscribers says exactly that. */
  lemma {:induction false} SubscribersAreRight(events: seq<Event>, id: StreamId, thread: ThreadId)
    ensures id in After(events).waiting <==> Opened(events, id)
    ensures id in Streams(After(events), thread) <==> SubscribedIn(events, id, thread)
  {
    if events != [] {
      SubscribersAreRight(events[..|events| - 1], id, thread);
      OpenedMore(events, id);
      SubscribedMore(events, id, thread);
    }
  }

  // ----- What a stream was offered and what it read -----

  /** The messages published on a thread while the stream was subscribed to it. */
  ghost function OfferedTo(events: seq<Event>, id: StreamId): seq<Message> {
    if events == [] then []
    else
      var last := |events| - 1;
      var e := events[last];
      if e.Publish? && SubscribedIn(events[..last], id, e.thread) then OfferedTo(events[..last], id) + [e.msg] else OfferedTo(events[..last], id)
  }

  ghost function ReadBy(events: seq<Event>, id: StreamId): seq<Message> {
    if events == [] then []
    else
      var last := |events| - 1;
      var e, before := events[last], After(events[..last]);
      if e == Read(id) && Waiting(before, id) != [] then ReadBy(events[..last], id) + [Waiting(before, id)[0]]
      else ReadBy(events[..last], id)
  }

  /** The places, among the messages offered, of those that found room. */
  ghost function FoundRoom(events: seq<Event>, id: StreamId): seq<nat> {
    if events == [] then []
    else
      var last := |events| - 1;
      var e, before := events[last], After(events[..last]);
      if e.Publish? && SubscribedIn(events[..last], id, e.thread) && |Waiting(before, id)| < SUBSCRIBER_BUFFER
      then FoundRoom(events[..last], id) + [|OfferedTo(events[..last], id)|]
      else FoundRoom(events[..last], id)
  }

  /** How many were offered while sixteen were already waiting. */
  ghost function FoundFull(events: seq<Event>, id: StreamId): nat {
    if events == [] then 0
    else
      var last := |events| - 1;
      var e, before := events[last], After(events[..last]);
      FoundFull(events[..last], id)
      + if e.Publish? && SubscribedIn(events[..last], id, e.thread) && |Waiting(before, id)| == SUBSCRIBER_BUFFER then 1 else 0
  }

  // ----- Subsequences -----

  predicate Increasing(picks: seq<nat>) {
    forall i, j :: 0 <= i < j < |picks| ==> picks[i] < picks[j]
  }

  /** part is made of the messages of whole at the given places, in order. */
  predicate PicksOut(part: seq<Message>, whole: seq<Message>, picks: seq<nat>) {
    && |part| == |picks| && Increasing(picks)
    && forall i :: 0 <= i < |picks| ==> picks[i] < |whole| && part[i] == whole[picks[i]]
  }

  ghost predicate Good(s: State) {
    && (forall t :: t in s.subs ==> s.subs[t] != {})
    && (forall t :: t in s.subs ==> s.subs[t] <= s.waiting.Keys)
    && (forall id :: id in s.waiting ==> |s.waiting[id]| <= SUBSCRIBER_BUFFER)
  }

  lemma StepGood(s: State, e: Event)
    requires Good(s)
    ensures Good(Step(s, e))
  {}

  /** In every interleaving no channel holds more than its buffer, and no thread keeps
      an empty set of subscribers. */
  lemma {:induction false} EveryRunIsGood(events: seq<Event>)
    ensures Good(After(events))
  {
    if events != [] {
      EveryRunIsGood(events[..|events| - 1]);
      StepGood(After(events[..|events| - 1]), events[|events| - 1]);
    }
  }

  lemma PicksOutMore(part: seq<Message>, whole: seq<Message>, picks: seq<nat>, msg: Message)
    requires PicksOut(part, whole, picks)
    ensures PicksOut(part, whole + [msg], picks)
    ensures PicksOut(part + [msg], whole + [msg], picks + [|whole|])
  {}

  lemma StepWaiting(s: State, e: Event, id: StreamId)
    requires Good(s)
    ensures Waiting(Step(s, e), id) ==
      if e.Publish? && id in Streams(s, e.thread) then Offer(Waiting(s, id), e.msg)
      else if e == Read(id) && Waiting(s, id) != [] then Waiting(s, id)[1..]
      else Waiting(s, id)
  {}

  /** Delivery: what a stream has read, followed by what waits for it, is the messages
      offered to it that found room, in order and each once; only those that found
      sixteen waiting are missing. */
  lemma {:induction false} DeliveredInOrder(events: seq<Event>, id: StreamId)
    ensures PicksOut(ReadBy(events, id) + Waiting(After(events), id), OfferedTo(events, id), FoundRoom(events, id))
    ensures |FoundRoom(events, id)| + FoundFull(events, id) == |OfferedTo(events, id)|
  {
    if events != [] {
      var last := |events| - 1;
      var e, before := events[last], After(events[..last]);
      DeliveredInOrder(events[..last], id);
      EveryRunIsGood(events[..last]);
      StepWaiting(before, e, id);
      if e.Publish? {
        SubscribersAreRight(events[..last], id, e.thread);
      }
      if e.Publish? && SubscribedIn(events[..last], id, e.thread) {
        PublishDelivers(events, id);
      } else {
        OtherDelivers(events, id);
      }
    }
  }

  /** The last event offers the stream a message. */
  lemma {:induction false} PublishDelivers(events: seq<Event>, id: StreamId)
    requires events != []
    requires var last := |events| - 1;
      && PicksOut(ReadBy(events[..last], id) + Waiting(After(events[..last]), id), OfferedTo(events[..last], id), FoundRoom(events[..last], id))
      && events[last].Publish? && SubscribedIn(events[..last], id, events[last].thread)
      && |Waiting(After(events[..last]), id)| <= SUBSCRIBER_BUFFER
      && Waiting(After(events), id) == Offer(Waiting(After(events[..last]), id), events[last].msg)
    ensures PicksOut(ReadBy(events, id) + Waiting(After(events), id), OfferedTo(events, id), FoundRoom(events, id))
  {
    var last := |events| - 1;
    var msg, got, waiting := events[last].msg, ReadBy(events[..last], id), Waiting(After(events[..last]), id);
    assert ReadBy(events, id) == got;
    PicksOutMore(got + waiting, OfferedTo(events[..last], id), FoundRoom(events[..last], id), msg);
    if |waiting| < SUBSCRIBER_BUFFER {
      assert got + (waiting + [msg]) == (got + waiting) + [msg];
    } else {
      assert FoundRoom(events, id) == FoundRoom(events[..last], id);
    }
  }

  /** The last event offers the stream nothing; it may be a read. */
  lemma {:induction false} OtherDelivers(events: seq<Event>, id: StreamId)
    requires events != []
    requires var last := |events| - 1;
      var before := After(events[..last]);
      && PicksOut(ReadBy(events[..last], id) + Waiting(before, id), OfferedTo(events[..last], id), FoundRoom(events[..last], id))
      && !(events[last].Publish? && SubscribedIn(events[..last], id, events[last].thread))
      && Waiting(After(events), id) ==
         if events[last] == Read(id) && Waiting(before, id) != [] then Waiting(before, id)[1..] else Waiting(before, id)
    ensures PicksOut(ReadBy(events, id) + Waiting(After(events), id), OfferedTo(events, id), FoundRoom(events, id))
  {
    var last := |events| - 1;
    var got, waiting := ReadBy(events[..last], id), Waiting(After(events[..last]), id);
    assert OfferedTo(events, id) == OfferedTo(events[..last], id) && FoundRoom(events, id) == FoundRoom(events[..last], id);
    if events[last] == Read(id) && waiting != [] {
      assert (got + [waiting[0]]) + waiting[1..] == got + waiting;
    } else {
      assert ReadBy(events, id) == got;
    }
  }

  /** A message published between the opening of a stream on its thread and the closing,
      with room in the channel, is read or waits, in its place among those offered. */
  lemma {:induction false} PublishedArrives(events: seq<Event>, k: nat, id: StreamId)
    requires k < |events| && events[k].Publish? && SubscribedIn(events[..k], id, events[k].thread)
    requires |Waiting(After(events[..k]), id)| < 16
    ensures var got, place := ReadBy(events, id) + Waiting(After(events), id), |FoundRoom(events[..k], id)|;
      place < |got| && got[place] == events[k].msg
  {
    hide OfferedTo, ReadBy, FoundRoom, FoundFull, After, SubscribedIn;
    DeliveredInOrder(events, id);
    RoomFound(events, k, id);
    RoomStays(events, k + 1, id);
    var offered, picks, place := OfferedTo(events, id), FoundRoom(events, id), |FoundRoom(events[..k], id)|;
    assert picks[place] == FoundRoom(events[..k + 1], id)[place];
    assert offered[picks[place]] == OfferedTo(events[..k + 1], id)[picks[place]];
  }

  lemma RoomFound(events: seq<Event>, k: nat, id: StreamId)
    requires k < |events| && events[k].Publish? && SubscribedIn(events[..k], id, events[k].thread)
    requires |Waiting(After(events[..k]), id)| < 16
    ensures OfferedTo(events[..k + 1], id) == OfferedTo(events[..k], id) + [events[k].msg]
    ensures FoundRoom(events[..k + 1], id) == FoundRoom(events[..k], id) + [|OfferedTo(events[..k], id)|]
  {
    hide After, SubscribedIn;
    assert events[..k + 1][..k] == events[..k];
  }

  /** Nothing that happens later changes what was offered and what found room. */
  lemma {:induction false} RoomStays(events: seq<Event>, k: nat, id: StreamId)
    requires k <= |events|
    ensures OfferedTo(events[..k], id) <= OfferedTo(events, id)
    ensures FoundRoom(events[..k], id) <= FoundRoom(events, id)
    decreases |events|
  {
    if k == |events| {
      assert events[..k] == events;
    } else {
      var last := |events| - 1;
      assert events[..last][..k] == events[..k];
      RoomStays(events[..last], k, id);
    }
  }

  /** Once a stream is closed on its thread nothing is offered to it any more. */
  lemma {:induction false} ClosedIsSilent(events: seq<Event>, i: nat, u: nat, id: StreamId, thread: ThreadId)
    requires i < u < |events| && OpensAt(events, i, id, thread) && events[u] == Unsubscribe(thread, id)
    ensures OfferedTo(events, id) == OfferedTo(events[..u], id)
    ensures forall t: ThreadId :: !SubscribedIn(events, id, t)
    decreases |events|
  {
    var last := |events| - 1;
    assert events[..last][..i] == events[..i];
    forall t: ThreadId ensures !SubscribedIn(events, id, t) {
      if SubscribedIn(events, id, t) {
        var k :| 0 <= k < |events| && OpensAt(events, k, id, t) && forall j :: k < j < |events| ==> events[j] != Unsubscribe(t, id);
        OpensOnce(events, i, k, id, thread, t);
      }
    }
    if u < last {
      assert events[..last][..u] == events[..u];
      ClosedIsSilent(events[..last], i, u, id, thread);
    } else {
      assert !events[last].Publish?;
    }
  }

  lemma OpensOnce(events: seq<Event>, i: nat, k: nat, id: StreamId, a: ThreadId, b: ThreadId)
    requires i < |events| && k < |events| && OpensAt(events, i, id, a) && OpensAt(events, k, id, b)
    ensures i == k && a == b
  {
    assert forall j :: 0 <= j < k ==> events[..k][j] == events[j];
    assert forall j :: 0 <= j < i ==> events[..i][j] == events[j];
  }

  /** A stream that never has sixteen waiting when a message is published misses none. */
  lemma {:induction false} NothingLostWithRoom(events: seq<Event>, id: StreamId)
    requires FoundFull(events, id) == 0
    ensures ReadBy(events, id) + Waiting(After(events), id) == OfferedTo(events, id)
  {
    DeliveredInOrder(events, id);
    AllPicked(ReadBy(events, id) + Waiting(After(events), id), OfferedTo(events, id), FoundRoom(events, id));
  }

  lemma {:induction false} PicksGrow(picks: seq<nat>, n: nat, i: nat)
    requires Increasing(picks) && i < |picks| == n && forall k :: 0 <= k < n ==> picks[k] < n
    ensures picks[i] == i
    decreases i
  {
    LowerBound(picks, i);
    UpperBound(picks, n, i);
  }

  lemma {:induction false} LowerBound(picks: seq<nat>, i: nat)
    requires Increasing(picks) && i < |picks|
    ensures picks[i] >= i
  {
    if i > 0 {
      LowerBound(picks, i - 1);
    }
  }

  lemma {:induction false} UpperBound(picks: seq<nat>, n: nat, i: nat)
    requires Increasing(picks) && i < |picks| == n && forall k :: 0 <= k < n ==> picks[k] < n
    ensures picks[i] <= i
    decreases n - i
  {
    if i + 1 < n {
      UpperBound(picks, n, i + 1);
    }
  }

  lemma AllPicked(part: seq<Message>, whole: seq<Message>, picks: seq<nat>)
    requires PicksOut(part, whole, picks) && |picks| == |whole|
    ensures part == whole
  {
    forall i | 0 <= i < |part| ensures part[i] == whole[i] {
      PicksGrow(picks, |whole|, i);
    }
  }

  // ----- The hub -----

  class ChatHub {
    var subs: map<ThreadId, set<StreamId>>
    var waiting: map<StreamId, seq<Message>>

    ghost function Current(): State
      reads this
    {
      State(subs, waiting)
    }

    constructor ()
      ensures Current() == After([])
    {
      subs, waiting := map[], map[];
    }

    method SubscribeStream(thread: ThreadId, stream: StreamId)
      requires stream !in waiting
      modifies this
      ensures Current() == Step(old(Current()), Subscribe(thread, stream))
      ensures waiting == old(waiting)[stream := []]
      ensures subs == old(subs)[thread := (if thread in old(subs) then old(subs)[thread] else {}) + {stream}]
    {
      waiting := waiting[stream := []];
      if thread !in subs {
        subs := subs[thread := {}];
      }
      subs := subs[thread := subs[thread] + {stream}];
    }

    /** Removes the stream and answers how many remain on the thread. */
    method UnsubscribeStream(thread: ThreadId, stream: StreamId) returns (remaining: nat)
      modifies this`subs
      ensures Current() == Step(old(Current()), Unsubscribe(thread, stream))
      ensures var left := (if thread in old(subs) then old(subs)[thread] else {}) - {stream};
        remaining == |left| && subs == if left == {} then old(subs) - {thread} else old(subs)[thread := left]
    {
      if thread in subs {
        subs := subs[thread := subs[thread] - {stream}];
        remaining := |subs[thread]|;
      } else {
        remaining := 0;
      }
      if remaining == 0 {
        subs := subs - {thread};
      }
    }

    /** Offers the message to every stream on the thread; a full channel drops it.
        There is nothing to wait for, whatever the channels hold. */
    method PublishMessage(thread: ThreadId, msg: Message)
      requires Good(Current())
      modifies this`waiting
      ensures Current() == Step(old(Current()), Publish(thread, msg))
      ensures waiting.Keys == old(waiting).Keys
      ensures forall id :: id in waiting ==>
        if thread in subs && id in subs[thread] && |old(waiting)[id]| < 16 then waiting[id] == old(waiting)[id] + [msg]
        else waiting[id] == old(waiting)[id]
    {
      var todo := if thread in subs then subs[thread] else {};
      ghost var all := todo;
      while todo != {}
        invariant todo <= all && waiting.Keys == old(waiting).Keys
        invariant forall id :: id in old(waiting) ==>
          waiting[id] == if id in all && id !in todo then Offer(old(waiting)[id], msg) else old(waiting)[id]
        decreases todo
      {
        var id :| id in todo;
        if |waiting[id]| < SUBSCRIBER_BUFFER {
          waiting := waiting[id := waiting[id] + [msg]];
        }
        todo := todo - {id};
      }
    }

    method Receive(stream: StreamId) returns (msg: Option<Message>)
      modifies this`waiting
      ensures Current() == Step(old(Current()), Read(stream))
      ensures if stream in old(waiting) && old(waiting)[stream] != []
              then msg == Some(old(waiting)[stream][0]) && waiting == old(waiting)[stream := old(waiting)[stream][1..]]
              else msg == None && waiting == old(waiting)
    {
      msg := None;
      if stream in waiting && waiting[stream] != [] {
        msg := Some(waiting[stream][0]);
        waiting := waiting[stream := waiting[stream][1..]];
      }
    }
  }
}
