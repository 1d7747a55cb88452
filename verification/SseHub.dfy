/** The server-sent-event hub: per-subscriber queues that coalesce updates in place,
    retained snapshots for late joiners, and the baton that wakes a consumer. Every
    step is one region the hub mutex covers; timestamps are left out. */
module SseHub {
  import opened Common

  datatype Kind = Snapshot | Update | Keepalive | Shutdown

  datatype Event = Event(kind: Kind, topic: string, entity: string, data: Option<string>, sequence: nat)

  const SEPARATOR := '\U{1F}'
  const COMPLETE := "stream.snapshot.complete"

  // ---------------------------------------------------------------- selectors and keys

  /** A selector names one type, or every type under a prefix when it ends in ".*". */
  predicate Selects(selector: string, topic: string) {
    || selector == topic
    || (|selector| >= 2 && selector[|selector| - 2..] == ".*" && selector[..|selector| - 1] <= topic)
  }

  predicate Matches(types: seq<string>, topic: string) {
    types == [] || exists i :: 0 <= i < |types| && Selects(types[i], topic)
  }

  /** What selectors mean: one that ends in ".*" selects the types that begin with what stands before the
      star, and any other selects the one type it names. */
  lemma SelectorLaw(prefix: string, name: string, topic: string)
    ensures Selects(prefix + ".*", topic) <==> topic == prefix + ".*" || prefix + "." <= topic
    ensures !(|name| >= 2 && name[|name| - 2] == '.' && name[|name| - 1] == '*') ==>
      (Selects(name, topic) <==> name == topic)
  {
    var selector := prefix + ".*";
    assert selector[|selector| - 2..] == ".*";
    assert selector[..|selector| - 1] == prefix + ".";
    if |name| >= 2 && name[|name| - 2..] == ".*" {
      assert name[|name| - 2] == ".*"[0] && name[|name| - 1] == ".*"[1];
    }
  }

  method MatchesType(types: seq<string>, topic: string) returns (matched: bool)
    ensures matched == Matches(types, topic)
  {
    if types == [] {
      return true;
    }
    for i := 0 to |types|
      invariant forall k :: 0 <= k < i ==> !Selects(types[k], topic)
    {
      var selector := types[i];
      if selector == topic {
        return true;
      }
      if |selector| >= 2 && selector[|selector| - 2..] == ".*" && selector[..|selector| - 1] <= topic {
        return true;
      }
    }
    return false;
  }

  function SnapshotKey(topic: string, entity: string): string {
    topic + [SEPARATOR] + entity
  }

  function IndexOf(s: string, c: char): (i: nat)
    ensures i <= |s|
    ensures i < |s| ==> s[i] == c
    ensures forall k :: 0 <= k < i ==> s[k] != c
  {
    if s == [] || s[0] == c then 0 else 1 + IndexOf(s[1..], c)
  }

  /** How a subscription reads a stored key back: up to the first separator, and after it. */
  function SplitKey(key: string): (string, string) {
    var at := IndexOf(key, SEPARATOR);
    if at == |key| then (key, "") else (key[..at], key[at + 1..])
  }

  /** Reading a stored key gives back the type and entity it was stored under exactly when
      the type holds no separator; otherwise the entry comes back under another type. */
  lemma KeyRoundTrip(topic: string, entity: string)
    ensures SplitKey(SnapshotKey(topic, entity)) == (topic, entity) <==> SEPARATOR !in topic
  {
    var key := SnapshotKey(topic, entity);
    var at := IndexOf(key, SEPARATOR);
    assert key[|topic|] == SEPARATOR;
    if SEPARATOR !in topic {
      assert forall k :: 0 <= k < |topic| ==> key[k] == topic[k];
      assert at == |topic|;
      assert key[..at] == topic && key[at + 1..] == entity;
    } else {
      var k :| 0 <= k < |topic| && topic[k] == SEPARATOR;
      assert key[k] == SEPARATOR;
      assert at <= k;
      assert |SplitKey(key).0| < |topic|;
    }
  }

  lemma KeyOfParts(key: string)
    requires SEPARATOR in key
    ensures key == SnapshotKey(SplitKey(key).0, SplitKey(key).1)
  {
    var at := IndexOf(key, SEPARATOR);
    assert key == key[..at] + [SEPARATOR] + key[at + 1..];
  }

  lemma SplitKeyInjective(key: string, other: string)
    requires SEPARATOR in key && SEPARATOR in other
    requires SplitKey(key) == SplitKey(other)
    ensures key == other
  {
    KeyOfParts(key);
    KeyOfParts(other);
  }

  // ---------------------------------------------------------------- what a client makes of events

  type View = map<(string, string), Option<string>>

  predicate Tells(e: Event) {
    e.kind == Snapshot || e.kind == Update
  }

  predicate About(e: Event, topic: string, entity: string) {
    Tells(e) && e.topic == topic && e.entity == entity
  }

  function Absorb(view: View, e: Event): View {
    if Tells(e) then view[(e.topic, e.entity) := e.data] else view
  }

  /** The state a client holds after receiving these events in order. */
  function Fold(events: seq<Event>): View {
    if events == [] then map[] else Absorb(Fold(events[..|events| - 1]), events[|events| - 1])
  }

  lemma FoldSnoc(events: seq<Event>, e: Event)
    ensures Fold(events + [e]) == Absorb(Fold(events), e)
  {
    assert (events + [e])[..|events|] == events;
  }

  lemma FoldMiddleSnoc(before: seq<Event>, e: Event, rest: seq<Event>, last: Event)
    ensures Fold(before + [e] + (rest + [last])) == Absorb(Fold(before + [e] + rest), last)
  {
    assert before + [e] + (rest + [last]) == (before + [e] + rest) + [last];
    FoldSnoc(before + [e] + rest, last);
  }

  lemma AbsorbCommutes(view: View, now: Event, last: Event)
    requires Tells(now) && !About(last, now.topic, now.entity)
    ensures Absorb(Absorb(view, now), last) == Absorb(Absorb(view, last), now)
  {
    if Tells(last) {
      assert (last.topic, last.entity) != (now.topic, now.entity);
    }
  }

  /** Replacing an event in place is as good as sending the new one last, when nothing
      behind it speaks about the same type and entity. */
  lemma {:induction false} FoldReplace(before: seq<Event>, was: Event, now: Event, after: seq<Event>)
    requires Tells(now) && About(was, now.topic, now.entity)
    requires forall i :: 0 <= i < |after| ==> !About(after[i], now.topic, now.entity)
    ensures Fold(before + [now] + after) == Absorb(Fold(before + [was] + after), now)
  {
    if after == [] {
      assert before + [now] + after == before + [now];
      assert before + [was] + after == before + [was];
      FoldSnoc(before, now);
      FoldSnoc(before, was);
    } else {
      var rest, last := after[..|after| - 1], after[|after| - 1];
      FoldReplace(before, was, now, rest);
      FoldMiddleSnoc(before, now, rest, last);
      FoldMiddleSnoc(before, was, rest, last);
      AbsorbCommutes(Fold(before + [was] + rest), now, last);
      assert after == rest + [last];
    }
  }

  // ---------------------------------------------------------------- one subscriber

  datatype Subscriber = Subscriber(types: seq<string>, pending: seq<Event>, closed: bool, posted: bool)

  predicate Coalesces(e: Event, topic: string, entity: string) {
    e.kind == Update && e.entity == entity && e.topic == topic
  }

  /** The first pending update for this type and entity, or the length when there is none. */
  function FindPending(pending: seq<Event>, topic: string, entity: string): (i: nat)
    ensures i <= |pending|
    ensures i < |pending| ==> Coalesces(pending[i], topic, entity)
    ensures forall k :: 0 <= k < i ==> !Coalesces(pending[k], topic, entity)
  {
    if pending == [] || Coalesces(pending[0], topic, entity) then 0
    else 1 + FindPending(pending[1..], topic, entity)
  }

  function Coalesce(pending: seq<Event>, e: Event): seq<Event> {
    var i := FindPending(pending, e.topic, e.entity);
    if i < |pending| then pending[i := e] else pending + [e]
  }

  /** What publish and remove do to one subscriber. */
  function Offer(s: Subscriber, e: Event): Subscriber {
    if s.closed || !Matches(s.types, e.topic) then s
    else s.(pending := Coalesce(s.pending, e), posted := true)
  }

  function Beat(s: Subscriber, sequence: nat): Subscriber {
    if s.closed || s.pending != [] then s
    else s.(pending := [Event(Keepalive, "", "", None, sequence)], posted := true)
  }

  function Finish(s: Subscriber, sequence: nat): Subscriber {
    if s.closed then s
    else s.(pending := s.pending + [Event(Shutdown, "", "", None, sequence)], closed := true, posted := true)
  }

  // ---------------------------------------------------------------- streams and the hub

  /** A subscriber with its consumer: parked means it awaits the baton; detached means its
      own handle closed it; delivered is what next() has returned so far. */
  datatype Stream = Stream(sub: Subscriber, parked: bool, detached: bool, delivered: seq<Event>)

  datatype Hub = Hub(streams: seq<Stream>, snapshots: map<string, string>, sequence: nat, shutdown: bool)

  datatype Initial = Initial(topic: string, entity: string, data: string)

  datatype Step =
    | Subscribe(types: seq<string>, initial: seq<Initial>, stored: bool, order: seq<string>)
    | Publish(topic: string, entity: string, snapshot: string, retain: bool)
    | Remove(topic: string, entity: string, removal: Option<string>)
    | Heartbeat
    | ShutDown
    | Next(i: nat)
    | Close(i: nat)

  const Empty := Hub([], map[], 0, false)

  function StoredEvents(order: seq<string>, snapshots: map<string, string>, types: seq<string>,
    sequence: nat): seq<Event>
    requires forall k :: k in order ==> k in snapshots
  {
    if order == [] then []
    else
      var n := |order| - 1;
      var (topic, entity) := SplitKey(order[n]);
      StoredEvents(order[..n], snapshots, types, sequence) +
      (if Matches(types, topic) then [Event(Snapshot, topic, entity, Some(snapshots[order[n]]), sequence)] else [])
  }

  function InitialEvents(initial: seq<Initial>, sequence: nat): seq<Event> {
    seq(|initial|, i requires 0 <= i < |initial| =>
      Event(Snapshot, initial[i].topic, initial[i].entity, Some(initial[i].data), sequence))
  }

  /** The order is one in which the snapshot table may be walked. */
  predicate Walks(order: seq<string>, snapshots: map<string, string>) {
    && (forall k | k in order :: k in snapshots)
    && (forall k | k in snapshots :: k in order)
    && forall i, j :: 0 <= i < j < |order| ==> order[i] != order[j]
  }

  function Greeting(h: Hub, s: Step): seq<Event>
    requires s.Subscribe? && Walks(s.order, h.snapshots)
  {
    (if s.stored then StoredEvents(s.order, h.snapshots, s.types, h.sequence) else []) +
    InitialEvents(s.initial, h.sequence) +
    (if s.stored then [Event(Snapshot, COMPLETE, "", Some("{}"), h.sequence)] else [])
  }

  function Join(h: Hub, s: Step): Stream
    requires s.Subscribe? && Walks(s.order, h.snapshots)
  {
    if h.shutdown then
      Stream(Subscriber(s.types, [Event(Shutdown, "", "", None, h.sequence)], true, true), false, false, [])
    else
      Stream(Subscriber(s.types, Greeting(h, s), false, false), false, false, [])
  }

  /** The region of next() under the mutex: deliver, end, or reset the baton and park. A
      parked consumer runs again only once the baton is posted. */
  function Take(s: Stream): Stream {
    if s.detached || (s.parked && !s.sub.posted) then s
    else if s.sub.pending != [] then
      s.(sub := s.sub.(pending := s.sub.pending[1..]), delivered := s.delivered + [s.sub.pending[0]], parked := false)
    else if s.sub.closed then s.(parked := false)
    else s.(sub := s.sub.(posted := false), parked := true)
  }

  /** The consumer's own close. */
  function Detach(s: Stream): Stream {
    if s.detached then s else s.(sub := s.sub.(closed := true, posted := true), detached := true)
  }

  /** What an open, matching subscriber is owed of an update. */
  function Owed(s: Subscriber, e: Event): seq<Event> {
    if s.closed || !Matches(s.types, e.topic) then [] else [e]
  }

  function OfferStream(s: Stream, e: Event): Stream {
    s.(sub := Offer(s.sub, e))
  }

  function BeatStream(s: Stream, sequence: nat): Stream {
    s.(sub := Beat(s.sub, sequence))
  }

  function FinishStream(s: Stream, sequence: nat): Stream {
    s.(sub := Finish(s.sub, sequence))
  }

  function Map(streams: seq<Stream>, f: Stream -> Stream): seq<Stream> {
    seq(|streams|, i requires 0 <= i < |streams| => f(streams[i]))
  }

  function Broadcast(h: Hub, e: Event): Hub {
    h.(streams := Map(h.streams, s => OfferStream(s, e)), sequence := e.sequence)
  }

  function Apply(h: Hub, step: Step): Hub {
    match step
    case Subscribe(_, _, _, order) =>
      if Walks(order, h.snapshots) then h.(streams := h.streams + [Join(h, step)]) else h
    case Publish(topic, entity, snapshot, retain) =>
      var key := SnapshotKey(topic, entity);
      var h' := h.(snapshots := if retain then h.snapshots[key := snapshot] else h.snapshots - {key});
      Broadcast(h', Event(Update, topic, entity, Some(snapshot), h.sequence + 1))
    case Remove(topic, entity, removal) =>
      var h' := h.(snapshots := h.snapshots - {SnapshotKey(topic, entity)});
      Broadcast(h', Event(Update, topic, entity, removal, h.sequence + 1))
    case Heartbeat =>
      h.(streams := Map(h.streams, s => BeatStream(s, h.sequence + 1)), sequence := h.sequence + 1)
    case ShutDown =>
      if h.shutdown then h
      else h.(streams := Map(h.streams, s => FinishStream(s, h.sequence + 1)),
              sequence := h.sequence + 1, shutdown := true)
    case Next(i) => if i < |h.streams| then h.(streams := h.streams[i := Take(h.streams[i])]) else h
    case Close(i) => if i < |h.streams| then h.(streams := h.streams[i := Detach(h.streams[i])]) else h
  }

  function Run(steps: seq<Step>): Hub {
    if steps == [] then Empty else Apply(Run(steps[..|steps| - 1]), steps[|steps| - 1])
  }

  // ---------------------------------------------------------------- the invariant of a stream

  /** Delivered events, then the ones still queued. */
  function Told(s: Stream): seq<Event> {
    s.delivered + s.sub.pending
  }

  /** Behind a pending update nothing speaks about the same type and entity. */
  predicate Settled(pending: seq<Event>) {
    forall i, j :: 0 <= i < j < |pending| && pending[i].kind == Update ==>
      !About(pending[j], pending[i].topic, pending[i].entity)
  }

  /** Updates for one type and entity carry strictly increasing sequence numbers. */
  predicate Increasing(events: seq<Event>) {
    forall i, j | 0 <= i < j < |events| && events[i].kind == Update ::
      Coalesces(events[j], events[i].topic, events[i].entity) ==> events[i].sequence < events[j].sequence
  }

  predicate UpTo(events: seq<Event>, sequence: nat) {
    forall i :: 0 <= i < |events| ==> events[i].sequence <= sequence
  }

  predicate Ended(events: seq<Event>) {
    events != [] && events[|events| - 1].kind == Shutdown
  }

  predicate QuietBefore(events: seq<Event>, n: int) {
    forall i :: 0 <= i < n && i < |events| ==> events[i].kind != Shutdown
  }

  /** What has been told, against the log of a queue that never coalesces. */
  ghost predicate Faithful(told: seq<Event>, log: seq<Event>, sequence: nat) {
    && Fold(told) == Fold(log)
    && Increasing(told)
    && UpTo(told, sequence)
    && QuietBefore(told, |told| - 1)
  }

  /** How closing, detaching, shutdown and the baton go together. */
  predicate Flags(s: Stream, shutdown: bool) {
    && (Ended(Told(s)) ==> s.sub.closed)
    && (s.sub.closed ==> Ended(Told(s)) || s.detached)
    && (s.detached ==> s.sub.closed)
    && (shutdown ==> s.sub.closed)
    && (s.parked && !s.sub.posted ==> s.sub.pending == [] && !s.sub.closed)
  }

  ghost predicate Sound(s: Stream, log: seq<Event>, sequence: nat, shutdown: bool) {
    Faithful(Told(s), log, sequence) && Settled(s.sub.pending) && Flags(s, shutdown)
  }

  lemma CoalesceFold(told: seq<Event>, q: seq<Event>, e: Event)
    requires Settled(q) && e.kind == Update
    ensures Fold(told + Coalesce(q, e)) == Absorb(Fold(told + q), e)
  {
    var i := FindPending(q, e.topic, e.entity);
    if i < |q| {
      var before, after := told + q[..i], q[i + 1..];
      assert told + q == before + [q[i]] + after;
      assert told + q[i := e] == before + [e] + after;
      FoldReplace(before, q[i], e, after);
    } else {
      assert told + (q + [e]) == (told + q) + [e];
      FoldSnoc(told + q, e);
    }
  }

  lemma CoalesceSettled(q: seq<Event>, e: Event)
    requires Settled(q) && e.kind == Update
    ensures Settled(Coalesce(q, e))
  {
  }

  lemma CoalesceIncreasing(told: seq<Event>, q: seq<Event>, e: Event, sequence: nat)
    requires Settled(q) && e.kind == Update && e.sequence == sequence + 1
    requires Increasing(told + q) && UpTo(told + q, sequence)
    ensures Increasing(told + Coalesce(q, e)) && UpTo(told + Coalesce(q, e), sequence + 1)
  {
    var i := FindPending(q, e.topic, e.entity);
    if i < |q| {
      var at := |told| + i;
      var t := told + q;
      assert told + q[i := e] == t[at := e];
      forall k | at < k < |t|
        ensures !Coalesces(t[k], e.topic, e.entity)
      {
        assert t[k] == q[k - |told|];
      }
      assert t[at] == q[i];
    } else {
      assert told + (q + [e]) == (told + q) + [e];
    }
  }

  lemma CoalesceQuiet(told: seq<Event>, q: seq<Event>, e: Event)
    requires QuietBefore(told + q, |told + q|) && e.kind == Update
    ensures QuietBefore(told + Coalesce(q, e), |told + Coalesce(q, e)|)
  {
    forall k | 0 <= k < |told + Coalesce(q, e)|
      ensures (told + Coalesce(q, e))[k].kind != Shutdown
    {
      assert k < |told + q| ==> (told + q)[k].kind != Shutdown;
    }
  }

  lemma CoalesceFaithful(told: seq<Event>, q: seq<Event>, log: seq<Event>, e: Event, sequence: nat)
    requires Faithful(told + q, log, sequence) && Settled(q) && !Ended(told + q)
    requires e.kind == Update && e.sequence == sequence + 1
    ensures Faithful(told + Coalesce(q, e), log + [e], sequence + 1) && !Ended(told + Coalesce(q, e))
  {
    CoalesceFold(told, q, e);
    FoldSnoc(log, e);
    CoalesceIncreasing(told, q, e, sequence);
    CoalesceQuiet(told, q, e);
  }

  lemma OfferSound(s: Stream, log: seq<Event>, e: Event, sequence: nat, shutdown: bool)
    requires Sound(s, log, sequence, shutdown)
    requires e.kind == Update && e.sequence == sequence + 1
    ensures Sound(OfferStream(s, e), log + Owed(s.sub, e), sequence + 1, shutdown)
  {
    if !s.sub.closed && Matches(s.sub.types, e.topic) {
      CoalesceFaithful(s.delivered, s.sub.pending, log, e, sequence);
      CoalesceSettled(s.sub.pending, e);
    } else {
      assert log + [] == log;
    }
  }

  lemma AppendFaithful(told: seq<Event>, log: seq<Event>, e: Event, sequence: nat)
    requires Faithful(told, log, sequence) && !Ended(told)
    requires !Tells(e) && e.sequence == sequence + 1
    ensures Faithful(told + [e], log, sequence + 1)
  {
    FoldSnoc(told, e);
  }

  lemma BeatSound(s: Stream, log: seq<Event>, sequence: nat, shutdown: bool)
    requires Sound(s, log, sequence, shutdown)
    ensures Sound(BeatStream(s, sequence + 1), log, sequence + 1, shutdown)
  {
    if !s.sub.closed && s.sub.pending == [] {
      var beat := Event(Keepalive, "", "", None, sequence + 1);
      AppendFaithful(Told(s), log, beat, sequence);
      assert Told(BeatStream(s, sequence + 1)) == Told(s) + [beat];
    }
  }

  lemma FinishSound(s: Stream, log: seq<Event>, sequence: nat, shutdown: bool)
    requires Sound(s, log, sequence, shutdown)
    ensures Sound(FinishStream(s, sequence + 1), log, sequence + 1, true)
  {
    if !s.sub.closed {
      var goodbye := Event(Shutdown, "", "", None, sequence + 1);
      AppendFaithful(Told(s), log, goodbye, sequence);
      assert Told(FinishStream(s, sequence + 1)) == Told(s) + [goodbye];
    }
  }

  lemma TakeSound(s: Stream, log: seq<Event>, sequence: nat, shutdown: bool)
    requires Sound(s, log, sequence, shutdown)
    ensures Sound(Take(s), log, sequence, shutdown)
  {
    assert Told(Take(s)) == Told(s);
  }

  lemma DetachSound(s: Stream, log: seq<Event>, sequence: nat, shutdown: bool)
    requires Sound(s, log, sequence, shutdown)
    ensures Sound(Detach(s), log, sequence, shutdown)
  {
    assert Told(Detach(s)) == Told(s);
  }

  lemma StoredEventsAreSnapshots(order: seq<string>, snapshots: map<string, string>, types: seq<string>, sequence: nat)
    requires forall k :: k in order ==> k in snapshots
    ensures forall e :: e in StoredEvents(order, snapshots, types, sequence) ==>
      e.kind == Snapshot && e.sequence == sequence
  {
  }

  lemma GreetingIsSnapshots(h: Hub, s: Step)
    requires s.Subscribe? && Walks(s.order, h.snapshots)
    ensures forall i :: 0 <= i < |Greeting(h, s)| ==>
      Greeting(h, s)[i].kind == Snapshot && Greeting(h, s)[i].sequence == h.sequence
  {
    if s.stored {
      StoredEventsAreSnapshots(s.order, h.snapshots, s.types, h.sequence);
      var stored := StoredEvents(s.order, h.snapshots, s.types, h.sequence);
      assert forall i :: 0 <= i < |stored| ==> stored[i] in stored;
    }
  }

  lemma SnapshotsFaithful(events: seq<Event>, sequence: nat)
    requires forall i :: 0 <= i < |events| ==> events[i].kind == Snapshot && events[i].sequence == sequence
    ensures Faithful(events, events, sequence) && Settled(events) && !Ended(events)
  {
  }

  lemma JoinSound(h: Hub, s: Step)
    requires s.Subscribe? && Walks(s.order, h.snapshots)
    ensures Sound(Join(h, s), Join(h, s).sub.pending, h.sequence, h.shutdown)
  {
    var stream := Join(h, s);
    assert Told(stream) == stream.sub.pending;
    if !h.shutdown {
      GreetingIsSnapshots(h, s);
      SnapshotsFaithful(Greeting(h, s), h.sequence);
    }
  }

  /** What one step of the hub makes of its i-th stream. */
  function After(h: Hub, step: Step, i: nat): Stream
    requires i < |h.streams|
  {
    var s := h.streams[i];
    match step
    case Subscribe(_, _, _, _) => s
    case Publish(topic, entity, snapshot, _) =>
      OfferStream(s, Event(Update, topic, entity, Some(snapshot), h.sequence + 1))
    case Remove(topic, entity, removal) => OfferStream(s, Event(Update, topic, entity, removal, h.sequence + 1))
    case Heartbeat => BeatStream(s, h.sequence + 1)
    case ShutDown => if h.shutdown then s else FinishStream(s, h.sequence + 1)
    case Next(k) => if k == i then Take(s) else s
    case Close(k) => if k == i then Detach(s) else s
  }

  function Clock(h: Hub, step: Step): nat {
    if step.Subscribe? || step.Next? || step.Close? || (step.ShutDown? && h.shutdown)
    then h.sequence else h.sequence + 1
  }

  lemma ApplyStream(h: Hub, step: Step, i: nat)
    requires i < |h.streams|
    ensures i < |Apply(h, step).streams| && Apply(h, step).streams[i] == After(h, step, i)
    ensures Apply(h, step).sequence == Clock(h, step)
    ensures Apply(h, step).shutdown == (h.shutdown || step.ShutDown?)
  {
  }

  /** The update a step broadcasts, if any. */
  function Broadcasts(h: Hub, step: Step): Option<Event> {
    match step
    case Publish(topic, entity, snapshot, _) => Some(Event(Update, topic, entity, Some(snapshot), h.sequence + 1))
    case Remove(topic, entity, removal) => Some(Event(Update, topic, entity, removal, h.sequence + 1))
    case _ => None
  }

  function OwedBy(h: Hub, step: Step, i: nat): seq<Event>
    requires i < |h.streams|
  {
    var e := Broadcasts(h, step);
    if e.Some? then Owed(h.streams[i].sub, e.value) else []
  }

  /** What a queue that never coalesces would have carried to the i-th stream since it
      subscribed: its greeting, then every matching update published while it was open. */
  function Log(steps: seq<Step>, i: nat): seq<Event>
    requires i < |Run(steps).streams|
  {
    var h, step := Run(steps[..|steps| - 1]), steps[|steps| - 1];
    if i < |h.streams| then
      Log(steps[..|steps| - 1], i) + OwedBy(h, step, i)
    else Run(steps).streams[i].sub.pending
  }

  lemma EverybodyStepSound(h: Hub, step: Step, i: nat, log: seq<Event>)
    requires i < |h.streams| && (step.Heartbeat? || (step.ShutDown? && !h.shutdown))
    requires Sound(h.streams[i], log, h.sequence, h.shutdown)
    ensures Sound(After(h, step, i), log, h.sequence + 1, h.shutdown || step.ShutDown?)
  {
    if step.Heartbeat? {
      BeatSound(h.streams[i], log, h.sequence, h.shutdown);
    } else {
      FinishSound(h.streams[i], log, h.sequence, h.shutdown);
    }
  }

  lemma QuietStepSound(h: Hub, step: Step, i: nat, log: seq<Event>)
    requires i < |h.streams| && Broadcasts(h, step).None?
    requires Sound(h.streams[i], log, h.sequence, h.shutdown)
    ensures Sound(After(h, step, i), log, Clock(h, step), h.shutdown || step.ShutDown?)
  {
    if step.Heartbeat? || (step.ShutDown? && !h.shutdown) {
      EverybodyStepSound(h, step, i, log);
    } else {
      ConsumerStepSound(h, step, i, log);
    }
  }

  lemma ConsumerStepSound(h: Hub, step: Step, i: nat, log: seq<Event>)
    requires i < |h.streams|
    requires step.Subscribe? || step.Next? || step.Close? || (step.ShutDown? && h.shutdown)
    requires Sound(h.streams[i], log, h.sequence, h.shutdown)
    ensures Sound(After(h, step, i), log, h.sequence, h.shutdown)
  {
    var s := h.streams[i];
    TakeSound(s, log, h.sequence, h.shutdown);
    DetachSound(s, log, h.sequence, h.shutdown);
    assert After(h, step, i) in {s, Take(s), Detach(s)};
  }

  lemma StepSound(h: Hub, step: Step, i: nat, log: seq<Event>)
    requires i < |h.streams|
    requires Sound(h.streams[i], log, h.sequence, h.shutdown)
    ensures Sound(After(h, step, i), log + OwedBy(h, step, i), Clock(h, step), h.shutdown || step.ShutDown?)
  {
    var e := Broadcasts(h, step);
    if e.Some? {
      OfferSound(h.streams[i], log, e.value, h.sequence, h.shutdown);
    } else {
      QuietStepSound(h, step, i, log);
      assert log + [] == log;
    }
  }

  /** Every step of the hub, in any order, keeps every stream sound. */
  lemma {:induction false} RunSound(steps: seq<Step>, i: nat)
    requires i < |Run(steps).streams|
    ensures Sound(Run(steps).streams[i], Log(steps, i), Run(steps).sequence, Run(steps).shutdown)
  {
    var h, step := Run(steps[..|steps| - 1]), steps[|steps| - 1];
    if i < |h.streams| {
      RunSound(steps[..|steps| - 1], i);
      StepSound(h, step, i, Log(steps[..|steps| - 1], i));
      ApplyStream(h, step, i);
    } else {
      JoinSound(h, step);
    }
  }

  // ---------------------------------------------------------------- what subscribers can rely on

  /** Coalescing loses nothing: what a client makes of the delivered events and the ones
      still queued is what it would make of the whole uncoalesced log. */
  lemma ReplayAgrees(steps: seq<Step>, i: nat)
    requires i < |Run(steps).streams|
    ensures var s := Run(steps).streams[i];
      Fold(s.delivered + s.sub.pending) == Fold(Log(steps, i))
  {
    RunSound(steps, i);
  }

  /** At most one update per type and entity is ever queued. */
  lemma OnePendingUpdate(steps: seq<Step>, i: nat, j: nat, k: nat)
    requires i < |Run(steps).streams|
    requires j < |Run(steps).streams[i].sub.pending| && k < |Run(steps).streams[i].sub.pending|
    requires Run(steps).streams[i].sub.pending[j].kind == Update
    requires var e := Run(steps).streams[i].sub.pending[j];
      Coalesces(Run(steps).streams[i].sub.pending[k], e.topic, e.entity)
    ensures j == k
  {
    RunSound(steps, i);
  }

  /** The updates a client receives for one type and entity carry increasing numbers. */
  lemma DeliveredInOrder(steps: seq<Step>, i: nat)
    requires i < |Run(steps).streams|
    ensures Increasing(Run(steps).streams[i].delivered)
  {
    RunSound(steps, i);
    var s := Run(steps).streams[i];
    assert forall k :: 0 <= k < |s.delivered| ==> Told(s)[k] == s.delivered[k];
  }

  /** A consumer parked on an unposted baton has nothing to read and is not closed. */
  lemma {:induction false} ParkedHasNothing(steps: seq<Step>, i: nat)
    requires i < |Run(steps).streams|
    requires Run(steps).streams[i].parked && !Run(steps).streams[i].sub.posted
    ensures Run(steps).streams[i].sub.pending == [] && !Run(steps).streams[i].sub.closed
  {
    RunSound(steps, i);
  }

  /** After shutdown every stream its consumer did not close itself ends in exactly one
      shutdown event, also when it was opened later; no other stream ever carries one. */
  lemma ShutdownIsLast(steps: seq<Step>, i: nat)
    requires i < |Run(steps).streams|
    ensures var s := Run(steps).streams[i];
      var told := s.delivered + s.sub.pending;
      && (Run(steps).shutdown && !s.detached ==> told != [] && told[|told| - 1].kind == Shutdown)
      && (forall k :: 0 <= k < |told| && told[k].kind == Shutdown ==> k == |told| - 1 && s.sub.closed)
  {
    RunSound(steps, i);
  }

  // ---------------------------------------------------------------- what consumers get

  lemma RunThen(steps: seq<Step>, step: Step)
    ensures Run(steps + [step]) == Apply(Run(steps), step)
  {
    assert (steps + [step])[..|steps|] == steps;
  }

  function NextTimes(i: nat, n: nat): seq<Step> {
    if n == 0 then [] else NextTimes(i, n - 1) + [Next(i)]
  }

  /** n calls of next() on a stream nobody else touches meanwhile. */
  predicate TakenSoFar(h: Hub, h': Hub, i: nat, n: nat) {
    && i < |h.streams| && n <= |h.streams[i].sub.pending|
    && var s := h.streams[i];
    h' == h.(streams := h.streams[i := s.(
      sub := s.sub.(pending := s.sub.pending[n..]),
      delivered := s.delivered + s.sub.pending[..n],
      parked := s.parked && n == 0)])
  }

  lemma NothingTaken(h: Hub, i: nat)
    requires i < |h.streams|
    ensures TakenSoFar(h, h, i, 0)
  {
    var s := h.streams[i];
    assert s.delivered + s.sub.pending[..0] == s.delivered;
    assert h.streams[i := s] == h.streams;
  }

  lemma OneMoreTaken(h: Hub, h': Hub, i: nat, n: nat)
    requires TakenSoFar(h, h', i, n) && n < |h.streams[i].sub.pending|
    requires h.streams[i].parked ==> h.streams[i].sub.posted
    requires !h.streams[i].detached
    ensures TakenSoFar(h, Apply(h', Next(i)), i, n + 1)
  {
    var s := h.streams[i];
    var q := s.sub.pending;
    assert q[n..][0] == q[n] && q[n..][1..] == q[n + 1..];
    assert (s.delivered + q[..n]) + [q[n]] == s.delivered + q[..n + 1];
  }

  /** As many calls of next() as there are events queued hand out exactly these, in order, and leave
      the queue empty; nobody else notices. One more call ends the stream when it is closed, and
      parks the consumer on a reset baton when it is not. */
  lemma NextDelivers(steps: seq<Step>, i: nat)
    requires i < |Run(steps).streams| && !Run(steps).streams[i].detached
    ensures var h := Run(steps);
      var s, n := h.streams[i], |h.streams[i].sub.pending|;
      var h' := Run(steps + NextTimes(i, n));
      && |h'.streams| == |h.streams| && h'.snapshots == h.snapshots && h'.sequence == h.sequence
      && (forall j :: 0 <= j < |h.streams| && j != i ==> h'.streams[j] == h.streams[j])
      && h'.streams[i].delivered == s.delivered + s.sub.pending
      && h'.streams[i].sub == s.sub.(pending := [])
      && var last := Run(steps + NextTimes(i, n) + [Next(i)]).streams[i];
      && last.delivered == s.delivered + s.sub.pending && last.sub.pending == []
      && last.parked == !s.sub.closed && (last.parked ==> !last.sub.posted)
  {
    var h := Run(steps);
    var s := h.streams[i];
    var n := |s.sub.pending|;
    if s.parked && !s.sub.posted {
      ParkedHasNothing(steps, i);
    }
    NextTakes(steps, i, n);
    assert s.sub.pending[n..] == [] && s.sub.pending[..n] == s.sub.pending;
    RunThen(steps + NextTimes(i, n), Next(i));
  }

  lemma NextTakes(steps: seq<Step>, i: nat, n: nat)
    requires i < |Run(steps).streams| && !Run(steps).streams[i].detached
    requires n <= |Run(steps).streams[i].sub.pending|
    requires Run(steps).streams[i].parked && n > 0 ==> Run(steps).streams[i].sub.posted
    ensures TakenSoFar(Run(steps), Run(steps + NextTimes(i, n)), i, n)
  {
    NextRuns(steps, i, n);
    TakenAfter(Run(steps), i, n);
  }

  function AfterNext(h: Hub, i: nat, n: nat): Hub {
    if n == 0 then h else Apply(AfterNext(h, i, n - 1), Next(i))
  }

  lemma {:induction false} NextRuns(steps: seq<Step>, i: nat, n: nat)
    ensures Run(steps + NextTimes(i, n)) == AfterNext(Run(steps), i, n)
  {
    if n == 0 {
      assert steps + NextTimes(i, 0) == steps;
    } else {
      NextRuns(steps, i, n - 1);
      NextSnoc(steps, i, n);
      RunThen(steps + NextTimes(i, n - 1), Next(i));
    }
  }

  lemma NextSnoc(steps: seq<Step>, i: nat, n: nat)
    requires n > 0
    ensures steps + NextTimes(i, n) == (steps + NextTimes(i, n - 1)) + [Next(i)]
  {
  }

  lemma {:induction false} TakenAfter(h: Hub, i: nat, n: nat)
    requires i < |h.streams| && !h.streams[i].detached && n <= |h.streams[i].sub.pending|
    requires h.streams[i].parked && n > 0 ==> h.streams[i].sub.posted
    ensures TakenSoFar(h, AfterNext(h, i, n), i, n)
  {
    if n == 0 {
      NothingTaken(h, i);
    } else {
      TakenAfter(h, i, n - 1);
      OneMoreTaken(h, AfterNext(h, i, n - 1), i, n - 1);
    }
  }

  /** A heartbeat gives an open stream with nothing queued one keepalive and changes no other, so
      after it every open consumer has something to read and none sleeps. */
  lemma HeartbeatReaches(steps: seq<Step>, i: nat)
    requires i < |Run(steps).streams|
    ensures var h, h' := Run(steps), Run(steps + [Heartbeat]);
      && i < |h'.streams| && var s, s' := h.streams[i], h'.streams[i];
      && (s.sub.closed || s.sub.pending != [] ==> s' == s)
      && (!s.sub.closed ==> s'.sub.pending != [] && (s'.parked ==> s'.sub.posted))
      && (!s.sub.closed && s.sub.pending == [] ==>
            s'.sub.pending == [Event(Keepalive, "", "", None, h.sequence + 1)] && s'.delivered == s.delivered)
  {
    RunThen(steps, Heartbeat);
    ApplyStream(Run(steps), Heartbeat, i);
    RunSound(steps + [Heartbeat], i);
  }

  /** Closing a subscription wakes its consumer, and nothing is ever queued for it or delivered to it
      again. */
  lemma {:induction false} ClosedIsLeftAlone(steps: seq<Step>, i: nat, more: seq<Step>)
    requires i < |Run(steps).streams| && !Run(steps).streams[i].detached
    ensures var h, h' := Run(steps), Run(steps + [Close(i)] + more);
      && |h.streams| <= |h'.streams| && var s, s' := h.streams[i], h'.streams[i];
      s' == s.(sub := s.sub.(closed := true, posted := true), detached := true)
  {
    RunThen(steps, Close(i));
    if more == [] {
      assert steps + [Close(i)] + more == steps + [Close(i)];
    } else {
      var n := |more| - 1;
      ClosedIsLeftAlone(steps, i, more[..n]);
      assert steps + [Close(i)] + more == (steps + [Close(i)] + more[..n]) + [more[n]];
      RunThen(steps + [Close(i)] + more[..n], more[n]);
      DetachedStays(Run(steps + [Close(i)] + more[..n]), more[n], i);
    }
  }

  lemma DetachedStays(h: Hub, step: Step, i: nat)
    requires i < |h.streams| && h.streams[i].detached && h.streams[i].sub.closed
    ensures |h.streams| <= |Apply(h, step).streams| && Apply(h, step).streams[i] == h.streams[i]
  {
    ApplyStream(h, step, i);
    MoreStreams(h, step);
  }

  lemma MoreStreams(h: Hub, step: Step)
    ensures |h.streams| <= |Apply(h, step).streams|
  {
  }

  /** The step is a publication or removal under this key. */
  predicate Names(step: Step, key: string) {
    (step.Publish? || step.Remove?) && SnapshotKey(step.topic, step.entity) == key
  }

  /** The hub retains a snapshot under a key exactly when the last publication or removal under the
      key was a retained publication, and then it retains that snapshot. */
  lemma {:induction false} RetainsTheLast(steps: seq<Step>, key: string)
    ensures key in Run(steps).snapshots <==> exists n :: 0 <= n < |steps| && LastRetained(steps, n, key)
    ensures forall n :: 0 <= n < |steps| && LastRetained(steps, n, key) ==>
      key in Run(steps).snapshots && Run(steps).snapshots[key] == steps[n].snapshot
  {
    if steps != [] {
      var m := |steps| - 1;
      RetainsTheLast(steps[..m], key);
      if Names(steps[m], key) {
        assert key in Run(steps).snapshots <==> LastRetained(steps, m, key);
      } else {
        SnapshotStands(Run(steps[..m]), steps[m], key);
        forall n | 0 <= n < m
          ensures LastRetained(steps, n, key) <==> LastRetained(steps[..m], n, key)
        {
        }
      }
    }
  }

  predicate LastRetained(steps: seq<Step>, n: nat, key: string)
    requires n < |steps|
  {
    && steps[n].Publish? && steps[n].retain && Names(steps[n], key)
    && forall k :: n < k < |steps| ==> !Names(steps[k], key)
  }

  lemma SnapshotStands(h: Hub, step: Step, key: string)
    requires !Names(step, key)
    ensures key in Apply(h, step).snapshots <==> key in h.snapshots
    ensures key in h.snapshots ==> Apply(h, step).snapshots[key] == h.snapshots[key]
  {
  }

  /** These events tell the retained snapshots a selection matches, each as it is retained, and
      nothing else. */
  ghost predicate TellsRetained(events: seq<Event>, types: seq<string>, snapshots: map<string, string>) {
    && (forall e | e in events :: e.kind == Snapshot && exists k | k in snapshots ::
          Matches(types, e.topic) && SplitKey(k) == (e.topic, e.entity) && e.data == Some(snapshots[k]))
    && forall k | k in snapshots :: Matches(types, SplitKey(k).0) ==> exists e | e in events ::
         (e.topic, e.entity) == SplitKey(k) && e.data == Some(snapshots[k])
  }

  /** One of the keys is the event's, selected, and retained with the event's data. */
  ghost predicate ComesFrom(e: Event, keys: seq<string>, types: seq<string>, snapshots: map<string, string>) {
    && e.kind == Snapshot && Matches(types, e.topic)
    && exists k :: k in keys && k in snapshots && SplitKey(k) == (e.topic, e.entity) && e.data == Some(snapshots[k])
  }

  lemma {:induction false} StoredComeFrom(order: seq<string>, snapshots: map<string, string>, types: seq<string>,
    sequence: nat)
    requires forall k | k in order :: k in snapshots
    ensures forall e | e in StoredEvents(order, snapshots, types, sequence) :: ComesFrom(e, order, types, snapshots)
  {
    if order != [] {
      var n := |order| - 1;
      StoredComeFrom(order[..n], snapshots, types, sequence);
      assert order[n] in order && forall k | k in order[..n] :: k in order;
    }
  }

  lemma {:induction false} StoredHas(order: seq<string>, snapshots: map<string, string>, types: seq<string>,
    sequence: nat, k: string)
    requires forall k | k in order :: k in snapshots
    requires k in order && Matches(types, SplitKey(k).0)
    ensures Event(Snapshot, SplitKey(k).0, SplitKey(k).1, Some(snapshots[k]), sequence)
      in StoredEvents(order, snapshots, types, sequence)
  {
    var n := |order| - 1;
    if k != order[n] {
      assert order == order[..n] + [order[n]];
      StoredHas(order[..n], snapshots, types, sequence, k);
    }
  }

  lemma StoredTell(order: seq<string>, snapshots: map<string, string>, types: seq<string>, sequence: nat)
    requires Walks(order, snapshots)
    ensures TellsRetained(StoredEvents(order, snapshots, types, sequence), types, snapshots)
  {
    StoredComeFrom(order, snapshots, types, sequence);
    forall k | k in snapshots && Matches(types, SplitKey(k).0)
      ensures exists e | e in StoredEvents(order, snapshots, types, sequence) ::
          (e.topic, e.entity) == SplitKey(k) && e.data == Some(snapshots[k])
    {
      StoredHas(order, snapshots, types, sequence, k);
    }
  }

  /** Whoever subscribes joins the hub, with the retained snapshots it selects if it asked for them,
      its own initial events and the marker, in this order; after shutdown it joins with a
      shutdown event alone and is closed. */
  lemma SubscribeJoins(steps: seq<Step>, step: Step)
    requires step.Subscribe? && Walks(step.order, Run(steps).snapshots)
    ensures var h, h' := Run(steps), Run(steps + [step]);
      && |h'.streams| == |h.streams| + 1
      && (forall j :: 0 <= j < |h.streams| ==> h'.streams[j] == h.streams[j])
      && var s := h'.streams[|h.streams|];
      && s.sub.types == step.types && s.delivered == [] && !s.parked && !s.detached
      && s.sub.closed == h.shutdown
      && (h.shutdown ==> |s.sub.pending| == 1 && s.sub.pending[0].kind == Shutdown)
      && (!h.shutdown ==> Greeted(step, h, s.sub.pending))
  {
    RunThen(steps, step);
    if !Run(steps).shutdown {
      GreetingGreets(Run(steps), step);
    }
  }

  ghost predicate Greeted(step: Step, h: Hub, pending: seq<Event>)
    requires step.Subscribe?
  {
    exists stored: seq<Event> :: Greets(stored, step, h, pending)
  }

  lemma GreetingGreets(h: Hub, step: Step)
    requires step.Subscribe? && Walks(step.order, h.snapshots)
    ensures Greeted(step, h, Greeting(h, step))
  {
    var stored := if step.stored then StoredEvents(step.order, h.snapshots, step.types, h.sequence) else [];
    if step.stored {
      StoredTell(step.order, h.snapshots, step.types, h.sequence);
    }
    LaysOut(stored, step, h);
    assert Greets(stored, step, h, Greeting(h, step));
  }

  lemma LaysOut(stored: seq<Event>, step: Step, h: Hub)
    requires step.Subscribe?
    ensures LaidOut(stored, step, stored + InitialEvents(step.initial, h.sequence) +
      (if step.stored then [Event(Snapshot, COMPLETE, "", Some("{}"), h.sequence)] else []))
  {
  }

  ghost predicate Greets(stored: seq<Event>, step: Step, h: Hub, pending: seq<Event>)
    requires step.Subscribe?
  {
    StoredPart(stored, step, h) && LaidOut(stored, step, pending)
  }

  ghost predicate StoredPart(stored: seq<Event>, step: Step, h: Hub)
    requires step.Subscribe?
  {
    if step.stored then TellsRetained(stored, step.types, h.snapshots) else stored == []
  }

  /** These events, then the subscriber's own and the marker. */
  ghost predicate LaidOut(stored: seq<Event>, step: Step, pending: seq<Event>)
    requires step.Subscribe?
  {
    var n := |stored|;
    && |pending| == n + |step.initial| + (if step.stored then 1 else 0) && pending[..n] == stored
    && (forall j | 0 <= j < |step.initial| ::
          && pending[n + j].kind == Snapshot && pending[n + j].topic == step.initial[j].topic
          && pending[n + j].entity == step.initial[j].entity && pending[n + j].data == Some(step.initial[j].data))
    && (step.stored ==> pending[|pending| - 1].kind == Snapshot && pending[|pending| - 1].topic == COMPLETE)
  }

  // ---------------------------------------------------------------- late joiners

  /** The event says nothing else about a retained, selected key than what is retained. */
  predicate Harmless(e: Event, types: seq<string>, snapshots: map<string, string>) {
    Tells(e) ==> forall k | k in snapshots ::
      Matches(types, SplitKey(k).0) && SplitKey(k) == (e.topic, e.entity) ==> e.data == Some(snapshots[k])
  }

  /** The i-th stream joined with the stored snapshots, and with no initial event of its own that
      contradicts one of them. */
  predicate Synced(steps: seq<Step>, i: nat)
    requires i < |Run(steps).streams|
  {
    var n := |steps| - 1;
    var h := Run(steps[..n]);
    if i < |h.streams| then Synced(steps[..n], i)
    else steps[n].stored && Compatible(h, steps[n])
  }

  predicate Compatible(h: Hub, step: Step)
    requires step.Subscribe?
  {
    var events := InitialEvents(step.initial, h.sequence);
    forall j :: 0 <= j < |events| ==> Harmless(events[j], step.types, h.snapshots)
  }

  /** A retained publication whose key reads back, and which is not the greeting's marker. */
  predicate Clean(step: Step) {
    step.Publish? && step.retain ==> SEPARATOR !in step.topic && (step.topic, step.entity) != (COMPLETE, "")
  }

  predicate WellKeyed(snapshots: map<string, string>) {
    forall k | k in snapshots :: SEPARATOR in k && SplitKey(k) != (COMPLETE, "")
  }

  /** The view holds the retained snapshot of every matching key. */
  predicate Agrees(view: View, types: seq<string>, snapshots: map<string, string>) {
    forall k | k in snapshots :: Matches(types, SplitKey(k).0) ==>
      SplitKey(k) in view && view[SplitKey(k)] == Some(snapshots[k])
  }

  lemma {:induction false} StoredAgree(order: seq<string>, snapshots: map<string, string>, types: seq<string>,
    sequence: nat)
    requires WellKeyed(snapshots)
    requires forall k | k in order :: k in snapshots
    requires forall i, j :: 0 <= i < j < |order| ==> order[i] != order[j]
    ensures var view := Fold(StoredEvents(order, snapshots, types, sequence));
      forall k | k in order :: Matches(types, SplitKey(k).0) ==>
        SplitKey(k) in view && view[SplitKey(k)] == Some(snapshots[k])
  {
    if order != [] {
      var n := |order| - 1;
      var rest, last := order[..n], order[n];
      StoredAgree(rest, snapshots, types, sequence);
      var (topic, entity) := SplitKey(last);
      var before := StoredEvents(rest, snapshots, types, sequence);
      forall k | k in rest
        ensures SplitKey(k) != SplitKey(last)
      {
        if SplitKey(k) == SplitKey(last) {
          SplitKeyInjective(k, last);
        }
      }
      if Matches(types, topic) {
        FoldSnoc(before, Event(Snapshot, topic, entity, Some(snapshots[last]), sequence));
      } else {
        assert StoredEvents(order, snapshots, types, sequence) == before;
      }
    }
  }

  /** Events that contradict nothing retained leave the agreement. */
  lemma {:induction false} HarmlessKeeps(told: seq<Event>, more: seq<Event>,
    types: seq<string>, snapshots: map<string, string>)
    requires Agrees(Fold(told), types, snapshots)
    requires forall j :: 0 <= j < |more| ==> Harmless(more[j], types, snapshots)
    ensures Agrees(Fold(told + more), types, snapshots)
  {
    if more == [] {
      assert told + more == told;
    } else {
      var n := |more| - 1;
      HarmlessKeeps(told, more[..n], types, snapshots);
      assert told + more == (told + more[..n]) + [more[n]];
      FoldSnoc(told + more[..n], more[n]);
      HarmlessOne(Fold(told + more[..n]), more[n], types, snapshots);
    }
  }

  lemma HarmlessOne(view: View, e: Event, types: seq<string>, snapshots: map<string, string>)
    requires Agrees(view, types, snapshots) && Harmless(e, types, snapshots)
    ensures Agrees(Absorb(view, e), types, snapshots)
  {
  }

  lemma GreetingAgrees(h: Hub, s: Step)
    requires s.Subscribe? && Walks(s.order, h.snapshots) && s.stored && Compatible(h, s)
    requires WellKeyed(h.snapshots)
    ensures Agrees(Fold(Greeting(h, s)), s.types, h.snapshots)
  {
    var stored := StoredEvents(s.order, h.snapshots, s.types, h.sequence);
    var own, marker := InitialEvents(s.initial, h.sequence), Event(Snapshot, COMPLETE, "", Some("{}"), h.sequence);
    StoredAgree(s.order, h.snapshots, s.types, h.sequence);
    HarmlessKeeps(stored, own, s.types, h.snapshots);
    HarmlessKeeps(stored + own, [marker], s.types, h.snapshots);
    assert Greeting(h, s) == stored + own + [marker];
  }

  /** An update about one key leaves what the view says of the other stored keys. */
  lemma OtherKeysStand(topic: string, entity: string, k: string)
    requires SEPARATOR in k && k != SnapshotKey(topic, entity)
    ensures SplitKey(k) != (topic, entity)
  {
    if SEPARATOR in topic {
      assert SEPARATOR !in SplitKey(k).0;
    } else {
      KeyRoundTrip(topic, entity);
      var key := SnapshotKey(topic, entity);
      assert key[|topic|] == SEPARATOR;
      if SplitKey(k) == SplitKey(key) {
        SplitKeyInjective(k, key);
      }
    }
  }

  lemma BroadcastAgrees(h: Hub, step: Step, s: Stream, e: Event)
    requires WellKeyed(h.snapshots) && Clean(step) && Broadcasts(h, step) == Some(e)
    requires Settled(s.sub.pending) && !s.sub.closed
    requires Agrees(Fold(Told(s)), s.sub.types, h.snapshots)
    ensures Agrees(Fold(Told(OfferStream(s, e))), s.sub.types, Apply(h, step).snapshots)
  {
    var key := SnapshotKey(e.topic, e.entity);
    var snapshots := Apply(h, step).snapshots;
    var view, view' := Fold(Told(s)), Fold(Told(OfferStream(s, e)));
    if Matches(s.sub.types, e.topic) {
      CoalesceFold(s.delivered, s.sub.pending, e);
    }
    forall k | k in snapshots && Matches(s.sub.types, SplitKey(k).0)
      ensures SplitKey(k) in view' && view'[SplitKey(k)] == Some(snapshots[k])
    {
      if k == key {
        KeyRoundTrip(e.topic, e.entity);
      } else {
        OtherKeysStand(e.topic, e.entity, k);
      }
    }
  }

  lemma ApplyWellKeyed(h: Hub, step: Step)
    requires WellKeyed(h.snapshots) && Clean(step)
    ensures WellKeyed(Apply(h, step).snapshots)
  {
    if step.Publish? && step.retain {
      KeyRoundTrip(step.topic, step.entity);
      assert SnapshotKey(step.topic, step.entity)[|step.topic|] == SEPARATOR;
    }
  }

  lemma {:induction false} RunWellKeyed(steps: seq<Step>)
    requires forall k :: 0 <= k < |steps| ==> Clean(steps[k])
    ensures WellKeyed(Run(steps).snapshots)
  {
    if steps != [] {
      RunWellKeyed(steps[..|steps| - 1]);
      ApplyWellKeyed(Run(steps[..|steps| - 1]), steps[|steps| - 1]);
    }
  }

  /** However late it joined, an open stream that asked for the stored snapshots, and brought no
      initial event that contradicts them, shows for every retained key it selects exactly the
      snapshot the hub retains. */
  lemma {:induction false} LateJoinersAgree(steps: seq<Step>, i: nat)
    requires i < |Run(steps).streams| && Synced(steps, i)
    requires forall k :: 0 <= k < |steps| ==> Clean(steps[k])
    requires !Run(steps).streams[i].sub.closed
    ensures var s := Run(steps).streams[i];
      Agrees(Fold(s.delivered + s.sub.pending), s.sub.types, Run(steps).snapshots)
  {
    var n := |steps| - 1;
    var h, step := Run(steps[..n]), steps[n];
    RunWellKeyed(steps[..n]);
    if i < |h.streams| {
      var s := h.streams[i];
      ApplyStream(h, step, i);
      RunSound(steps[..n], i);
      assert !s.sub.closed;
      LateJoinersAgree(steps[..n], i);
      var e := Broadcasts(h, step);
      if e.Some? {
        BroadcastAgrees(h, step, s, e.value);
      } else {
        QuietStepKeepsView(h, step, i);
      }
    } else {
      JoinAgrees(h, step, i);
    }
  }

  lemma JoinAgrees(h: Hub, step: Step, i: nat)
    requires |h.streams| <= i < |Apply(h, step).streams| && WellKeyed(h.snapshots)
    requires step.Subscribe? && Walks(step.order, h.snapshots) && step.stored && Compatible(h, step)
    requires !Apply(h, step).streams[i].sub.closed
    ensures var s := Apply(h, step).streams[i];
      Agrees(Fold(s.delivered + s.sub.pending), s.sub.types, Apply(h, step).snapshots)
  {
    GreetingAgrees(h, step);
    assert [] + Greeting(h, step) == Greeting(h, step);
  }

  lemma AppendKeepsView(told: seq<Event>, e: Event)
    requires !Tells(e)
    ensures Fold(told + [e]) == Fold(told)
  {
    FoldSnoc(told, e);
  }

  lemma BeatKeepsView(s: Stream, sequence: nat)
    ensures Fold(Told(BeatStream(s, sequence))) == Fold(Told(s))
  {
    if BeatStream(s, sequence).sub.pending != s.sub.pending {
      var beat := Event(Keepalive, "", "", None, sequence);
      assert Told(BeatStream(s, sequence)) == Told(s) + [beat];
      AppendKeepsView(Told(s), beat);
    }
  }

  lemma FinishKeepsView(s: Stream, sequence: nat)
    ensures Fold(Told(FinishStream(s, sequence))) == Fold(Told(s))
  {
    if !s.sub.closed {
      var goodbye := Event(Shutdown, "", "", None, sequence);
      assert Told(FinishStream(s, sequence)) == Told(s) + [goodbye];
      AppendKeepsView(Told(s), goodbye);
    }
  }

  lemma TakeKeepsTold(s: Stream)
    ensures Told(Take(s)) == Told(s) && Told(Detach(s)) == Told(s)
  {
  }

  lemma QuietStepKeepsView(h: Hub, step: Step, i: nat)
    requires i < |h.streams| && Broadcasts(h, step).None?
    ensures Fold(Told(After(h, step, i))) == Fold(Told(h.streams[i]))
    ensures After(h, step, i).sub.types == h.streams[i].sub.types
    ensures Apply(h, step).snapshots == h.snapshots
  {
    var s := h.streams[i];
    var s' := After(h, step, i);
    if step.Heartbeat? {
      BeatKeepsView(s, h.sequence + 1);
      assert s' == BeatStream(s, h.sequence + 1);
    } else if step.ShutDown? && !h.shutdown {
      FinishKeepsView(s, h.sequence + 1);
      assert s' == FinishStream(s, h.sequence + 1);
    } else {
      TakeKeepsTold(s);
      assert Told(s') == Told(s);
    }
    QuietStepKeepsRest(h, step, i);
  }

  lemma QuietStepKeepsRest(h: Hub, step: Step, i: nat)
    requires i < |h.streams| && Broadcasts(h, step).None?
    ensures After(h, step, i).sub.types == h.streams[i].sub.types
    ensures Apply(h, step).snapshots == h.snapshots
  {
  }

  // ---------------------------------------------------------------- the hub as it runs

  /** The queue, flags and baton a publication touches under the hub's mutex. */
  class SharedSubscriber {
    var types: seq<string>
    var pending: seq<Event>
    var closed: bool
    var posted: bool

    ghost function Value(): Subscriber
      reads this
    {
      Subscriber(types, pending, closed, posted)
    }

    constructor (types: seq<string>)
      ensures Value() == Subscriber(types, [], false, false)
    {
      this.types, pending, closed, posted := types, [], false, false;
    }

    /** The search publish and remove share, then replace or append. */
    method Push(e: Event)
      modifies this
      ensures Value() == old(Value()).(pending := Coalesce(old(pending), e), posted := true)
    {
      var i := 0;
      while i < |pending| && !Coalesces(pending[i], e.topic, e.entity)
        invariant 0 <= i <= |pending|
        invariant forall k :: 0 <= k < i ==> !Coalesces(pending[k], e.topic, e.entity)
      {
        i := i + 1;
      }
      ghost var found := FindPending(pending, e.topic, e.entity);
      assert found == i;
      if i < |pending| {
        pending := pending[i := e];
      } else {
        pending := pending + [e];
      }
      posted := true;
    }

    /** The locked region of next(): an event, or whether the consumer now parks. */
    method TakeNext() returns (event: Option<Event>, parks: bool)
      modifies this
      ensures Value() == Take(Stream(old(Value()), false, false, [])).sub
      ensures parks == Take(Stream(old(Value()), false, false, [])).parked
      ensures types == old(types) && closed == old(closed)
      ensures old(pending) != [] ==>
        event == Some(old(pending)[0]) && pending == old(pending)[1..] && posted == old(posted) && !parks
      ensures old(pending) == [] ==>
        event == None && pending == [] && parks == !closed && (if closed then posted == old(posted) else !posted)
    {
      event, parks := None, false;
      if pending != [] {
        event := Some(pending[0]);
        pending := pending[1..];
        return;
      }
      if closed {
        return;
      }
      posted := false;
      parks := true;
    }
  }

  class EventHub {
    var subscribers: seq<SharedSubscriber>
    var snapshots: map<string, string>
    var sequence: nat
    var shutdown: bool

    ghost predicate Valid()
      reads this
    {
      forall i, j :: 0 <= i < j < |subscribers| ==> subscribers[i] != subscribers[j]
    }

    /** The hub's own fields, without its streams. */
    ghost function Value(): Hub
      reads this
    {
      Hub([], snapshots, sequence, shutdown)
    }

    constructor ()
      ensures Valid() && subscribers == [] && Value() == Empty
    {
      subscribers, snapshots, sequence, shutdown := [], map[], 0, false;
    }

    /** The loop over the subscribers that publish and remove share. */
    method OfferAll(e: Event)
      requires Valid()
      modifies subscribers
      ensures forall i :: 0 <= i < |subscribers| ==> subscribers[i].Value() == Offer(old(subscribers[i].Value()), e)
    {
      for n := 0 to |subscribers|
        invariant forall i :: 0 <= i < n ==> subscribers[i].Value() == Offer(old(subscribers[i].Value()), e)
        invariant forall i :: n <= i < |subscribers| ==> subscribers[i].Value() == old(subscribers[i].Value())
      {
        var s := subscribers[n];
        if s.closed { continue; }
        var matched := MatchesType(s.types, e.topic);
        if !matched { continue; }
        s.Push(e);
      }
    }

    method PublishSnapshot(topic: string, entity: string, snapshot: string, retain: bool)
      requires Valid()
      modifies this, subscribers
      ensures Valid() && subscribers == old(subscribers)
      ensures Value() == Apply(old(Value()), Publish(topic, entity, snapshot, retain))
      ensures forall i | 0 <= i < |subscribers| ::
        subscribers[i].Value() == Offer(old(subscribers[i].Value()),
              Event(Update, topic, entity, Some(snapshot), sequence))
    {
      var key := SnapshotKey(topic, entity);
      if retain {
        snapshots := snapshots[key := snapshot];
      } else {
        snapshots := snapshots - {key};
      }
      sequence := sequence + 1;
      OfferAll(Event(Update, topic, entity, Some(snapshot), sequence));
    }

    method RemoveSnapshot(topic: string, entity: string, removal: Option<string>)
      requires Valid()
      modifies this, subscribers
      ensures Valid() && subscribers == old(subscribers)
      ensures Value() == Apply(old(Value()), Remove(topic, entity, removal))
      ensures forall i | 0 <= i < |subscribers| ::
        subscribers[i].Value() == Offer(old(subscribers[i].Value()), Event(Update, topic, entity, removal, sequence))
    {
      snapshots := snapshots - {SnapshotKey(topic, entity)};
      sequence := sequence + 1;
      OfferAll(Event(Update, topic, entity, removal, sequence));
    }

    method BeatAll()
      requires Valid()
      modifies this, subscribers
      ensures Valid() && subscribers == old(subscribers)
      ensures Value() == Apply(old(Value()), Heartbeat)
      ensures forall i :: 0 <= i < |subscribers| ==>
        subscribers[i].Value() == Beat(old(subscribers[i].Value()), sequence)
    {
      sequence := sequence + 1;
      for n := 0 to |subscribers|
        invariant unchanged(this`subscribers) && unchanged(this`snapshots) && unchanged(this`shutdown)
        invariant sequence == old(sequence) + 1
        invariant forall i :: 0 <= i < n ==> subscribers[i].Value() == Beat(old(subscribers[i].Value()), sequence)
        invariant forall i :: n <= i < |subscribers| ==> subscribers[i].Value() == old(subscribers[i].Value())
      {
        var s := subscribers[n];
        if s.closed || s.pending != [] { continue; }
        s.pending := s.pending + [Event(Keepalive, "", "", None, sequence)];
        s.posted := true;
      }
    }

    method ShutDownAll()
      requires Valid()
      modifies this, subscribers
      ensures Valid() && subscribers == old(subscribers)
      ensures Value() == Apply(old(Value()), ShutDown)
      ensures !old(shutdown) ==>
        forall i :: 0 <= i < |subscribers| ==> subscribers[i].Value() == Finish(old(subscribers[i].Value()), sequence)
      ensures old(shutdown) ==> forall i :: 0 <= i < |subscribers| ==>
        subscribers[i].Value() == old(subscribers[i].Value())
    {
      if shutdown { return; }
      shutdown := true;
      sequence := sequence + 1;
      for n := 0 to |subscribers|
        invariant unchanged(this`subscribers) && unchanged(this`snapshots)
        invariant sequence == old(sequence) + 1 && shutdown
        invariant forall i :: 0 <= i < n ==> subscribers[i].Value() == Finish(old(subscribers[i].Value()), sequence)
        invariant forall i :: n <= i < |subscribers| ==> subscribers[i].Value() == old(subscribers[i].Value())
      {
        var s := subscribers[n];
        if s.closed { continue; }
        s.pending := s.pending + [Event(Shutdown, "", "", None, sequence)];
        s.closed := true;
        s.posted := true;
      }
    }

    method SubscribeEvents(types: seq<string>, initial: seq<Initial>, stored: bool, order: seq<string>)
      returns (s: SharedSubscriber)
      requires Valid() && Walks(order, snapshots)
      modifies this`subscribers
      ensures Valid() && fresh(s)
      ensures s.Value() == Join(Value(), Subscribe(types, initial, stored, order)).sub
      ensures subscribers == if shutdown then old(subscribers) else old(subscribers) + [s]
    {
      s := new SharedSubscriber(types);
      if shutdown {
        s.pending := [Event(Shutdown, "", "", None, sequence)];
        s.closed := true;
        s.posted := true;
        return;
      }
      if stored {
        s.pending := GreetStored(types, order);
      }
      ghost var before := s.pending;
      for n := 0 to |initial|
        invariant unchanged(this`subscribers) && s !in subscribers
        invariant s.Value() == Subscriber(types, before + InitialEvents(initial[..n], sequence), false, false)
      {
        var item := initial[n];
        s.pending := s.pending + [Event(Snapshot, item.topic, item.entity, Some(item.data), sequence)];
        assert initial[..n + 1] == initial[..n] + [item];
      }
      assert initial[..|initial|] == initial;
      if stored {
        s.pending := s.pending + [Event(Snapshot, COMPLETE, "", Some("{}"), sequence)];
      }
      subscribers := subscribers + [s];
    }

    method GreetStored(types: seq<string>, order: seq<string>) returns (events: seq<Event>)
      requires Walks(order, snapshots)
      ensures events == StoredEvents(order, snapshots, types, sequence)
    {
      events := [];
      for n := 0 to |order|
        invariant events == StoredEvents(order[..n], snapshots, types, sequence)
      {
        assert order[..n + 1][..n] == order[..n];
        var (topic, entity) := SplitKey(order[n]);
        var matched := MatchesType(types, topic);
        if !matched { continue; }
        events := events + [Event(Snapshot, topic, entity, Some(snapshots[order[n]]), sequence)];
      }
      assert order[..|order|] == order;
    }

    /** SSESubscription::close on a subscription that is still attached. */
    method CloseSubscription(s: SharedSubscriber)
      requires Valid()
      modifies this`subscribers, s
      ensures Valid()
      ensures s.Value() == Detach(Stream(old(s.Value()), false, false, [])).sub
      ensures forall other :: other in subscribers <==> other in old(subscribers) && other != s
    {
      s.closed := true;
      s.posted := true;
      var kept := [];
      for n := 0 to |subscribers|
        invariant forall other :: other in kept <==> other in subscribers[..n] && other != s
        invariant forall i, j :: 0 <= i < j < |kept| ==> kept[i] != kept[j]
      {
        if subscribers[n] != s {
          assert subscribers[n] !in subscribers[..n];
          kept := kept + [subscribers[n]];
        }
      }
      assert subscribers[..|subscribers|] == subscribers;
      subscribers := kept;
    }
  }
}
