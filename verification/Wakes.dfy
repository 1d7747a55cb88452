/** A connection together with the watch that schedules its pump. enqueue() queues an operation
    and then requests a pump; only an activity inside the pump sends and reads. */
module Wakes {
  import R = Reactor
  import P = Pipeline
  import O = Operations

  datatype Joint = Joint(watch: R.Watch, connection: P.Connection)

  datatype Event =
    | Scheduling(e: R.Event)             // a step of DBReactor::request or of the worker loop
    | Pump(t: nat, act: P.Act)           // activity t, inside the pump
    | Outside(act: P.Act)                // enqueue(), and what awaiting consumers do

  predicate PumpAct(act: P.Act) {
    act.Dispatch? || act.BeginReading? || act.Read?
  }

  function Apply(j: Joint, e: Event, server: P.Server): Joint {
    match e
    case Scheduling(se) => j.(watch := R.Apply(j.watch, se))
    case Pump(t, act) =>
      if R.Stands(j.watch, t, R.Pumping) && PumpAct(act) then j.(connection := P.Step(j.connection, act, server)) else j
    case Outside(act) => if PumpAct(act) then j else j.(connection := P.Step(j.connection, act, server))
  }

  function Run(pipeline: bool, es: seq<Event>, server: P.Server): Joint {
    if es == [] then Joint(R.Idle, P.Opened(pipeline))
    else Apply(Run(pipeline, es[..|es| - 1], server), es[|es| - 1], server)
  }

  // ---------------------------------------------------------------- until the next wake

  /** Nobody is in the pump, and nothing under way leads there. */
  ghost predicate Asleep(w: R.Watch) {
    !w.pending && forall t :: t in w.lines ==> w.lines[t] in {R.Recheck86, R.Release88, R.Recheck90}
  }

  lemma AsleepStep(w: R.Watch, e: R.Event)
    requires Asleep(w) && !e.Request?
    ensures Asleep(R.Apply(w, e))
  {
  }

  /** o is queued and has not been sent. */
  predicate Unsent(c: P.Connection, o: nat) {
    o in c.queued && o !in c.sentLog
  }

  lemma OutsideKeepsUnsent(c: P.Connection, act: P.Act, server: P.Server, o: nat)
    requires !PumpAct(act) && Unsent(c, o)
    ensures Unsent(P.Step(c, act, server), o)
  {
    if act.Enqueue? && act.o in c.door.entering {
      var i :| 0 <= i < |c.queued| && c.queued[i] == o;
      assert (c.queued + [act.o])[i] == o;
    }
  }

  ghost predicate Stuck(j: Joint, o: nat) {
    Asleep(j.watch) && Unsent(j.connection, o)
  }

  lemma StuckStep(j: Joint, e: Event, server: P.Server, o: nat)
    requires Stuck(j, o) && !(e.Scheduling? && e.e.Request?)
    ensures Stuck(Apply(j, e, server), o)
  {
    match e
    case Scheduling(se) => AsleepStep(j.watch, se);
    case Pump(_, _) =>
    case Outside(act) => if !PumpAct(act) { OutsideKeepsUnsent(j.connection, act, server, o); }
  }

  /** What a lost wake-up means: an operation queued while nothing under way leads to a pump stays
      queued and unsent until somebody requests again, whatever else happens. */
  lemma {:induction false} UnsentUntilNextWake(pipeline: bool, es: seq<Event>, n: nat, server: P.Server, o: nat)
    requires n <= |es| && Stuck(Run(pipeline, es[..n], server), o)
    requires forall i :: n <= i < |es| ==> !(es[i].Scheduling? && es[i].e.Request?)
    ensures Stuck(Run(pipeline, es, server), o)
  {
    if n == |es| {
      assert es[..n] == es;
    } else {
      var m := |es| - 1;
      assert es[..m][..n] == es[..n];
      UnsentUntilNextWake(pipeline, es[..m], n, server, o);
      StuckStep(Run(pipeline, es[..m], server), es[m], server, o);
    }
  }

  /** And the next wake sends it: four steps of a new request from rest reach the pump, which sends
      the head of the queue. */
  lemma NextWakeSends(j: Joint, t: nat, server: P.Server)
    requires j.watch.lines == map[] && !j.watch.scheduled
    requires var c := j.connection;
      && c.queued != [] && (c.pipeline || c.inflight == [])
      && c.queued[0] in c.ops && c.ops[c.queued[0]].phase == O.Queued
    ensures var up :=
        R.Apply(R.Apply(R.Apply(R.Apply(j.watch, R.Request(t)), R.Advance(t)), R.Advance(t)), R.Advance(t));
      Apply(j.(watch := up), Pump(t, P.Dispatch), server).connection.sentLog
        == j.connection.sentLog + [j.connection.queued[0]]
  {
    var w1 := R.Apply(j.watch, R.Request(t));
    var w2 := R.Apply(w1, R.Advance(t));
    assert R.Stands(w2, t, R.Clear83);
    var w3 := R.Apply(w2, R.Advance(t));
    assert R.Stands(w3, t, R.Call84);
    assert R.Stands(R.Apply(w3, R.Advance(t)), t, R.Pumping);
  }

  // ---------------------------------------------------------------- it happens

  lemma Extend(pipeline: bool, es: seq<Event>, e: Event, server: P.Server) returns (es': seq<Event>)
    ensures es' == es + [e] && Run(pipeline, es', server) == Apply(Run(pipeline, es, server), e, server)
  {
    es' := es + [e];
    assert es'[..|es|] == es;
  }

  /** A run of the reactor on a connection nobody uses. */
  lemma {:induction false} Lift(pipeline: bool, res: seq<R.Event>, server: P.Server) returns (es: seq<Event>)
    ensures Run(pipeline, es, server) == Joint(R.Run(res), P.Opened(pipeline))
  {
    es := [];
    if res != [] {
      es := Lift(pipeline, res[..|res| - 1], server);
      es := Extend(pipeline, es, Scheduling(res[|res| - 1]), server);
    }
  }

  /** A run after which every activity has finished and operation 0, though it was enqueued and a
      pump requested for it, is queued and unsent: it came just after the pump of activity 1 had
      found the queue empty, and activity 0 consumed its request. */
  lemma OperationLeftBehind(pipeline: bool, server: P.Server) returns (es: seq<Event>)
    ensures Run(pipeline, es, server).watch.lines == map[] && Stuck(Run(pipeline, es, server), 0)
  {
    var res := R.SecondPumping();
    es := Lift(pipeline, res, server);
    es := Extend(pipeline, es, Pump(1, P.Dispatch), server);
    assert Run(pipeline, es, server).connection == P.Opened(pipeline);
    es := Extend(pipeline, es, Outside(P.Begin(0)), server);
    es := Extend(pipeline, es, Outside(P.Enqueue(0)), server);
    var c := Run(pipeline, es, server).connection;
    assert c.queued == [0] && c.sentLog == [];
    es := RequestTakenAway(pipeline, es, server, c);
  }

  lemma RequestTakenAway(pipeline: bool, before: seq<Event>, server: P.Server, c: P.Connection)
    returns (es: seq<Event>)
    requires Run(pipeline, before, server) == Joint(R.Watch(false, true, map[0 := R.Recheck90, 1 := R.Pumping]), c)
    ensures Run(pipeline, es, server) == Joint(R.Watch(false, false, map[]), c)
  {
    es := Schedule(pipeline, before, server, R.Request(2));
    es := Schedule(pipeline, es, server, R.Advance(2));
    assert Run(pipeline, es, server) == Joint(R.Watch(true, true, map[0 := R.Recheck90, 1 := R.Pumping]), c);
    es := RequestSwallowed(pipeline, es, server, c);
    es := LastLeaves(pipeline, es, server, c);
  }

  lemma RequestSwallowed(pipeline: bool, before: seq<Event>, server: P.Server, c: P.Connection)
    returns (es: seq<Event>)
    requires Run(pipeline, before, server) == Joint(R.Watch(true, true, map[0 := R.Recheck90, 1 := R.Pumping]), c)
    ensures Run(pipeline, es, server) == Joint(R.Watch(false, true, map[1 := R.Pumping]), c)
  {
    es := Schedule(pipeline, before, server, R.Advance(0));
    es := Schedule(pipeline, es, server, R.Advance(0));
  }

  lemma LastLeaves(pipeline: bool, before: seq<Event>, server: P.Server, c: P.Connection) returns (es: seq<Event>)
    requires Run(pipeline, before, server) == Joint(R.Watch(false, true, map[1 := R.Pumping]), c)
    ensures Run(pipeline, es, server) == Joint(R.Watch(false, false, map[]), c)
  {
    es := Schedule(pipeline, before, server, R.Advance(1));
    es := Schedule(pipeline, es, server, R.Advance(1));
    assert Run(pipeline, es, server) == Joint(R.Watch(false, true, map[1 := R.Release88]), c);
    es := Schedule(pipeline, es, server, R.Advance(1));
    es := Schedule(pipeline, es, server, R.Advance(1));
  }

  lemma Schedule(pipeline: bool, es: seq<Event>, server: P.Server, e: R.Event) returns (es': seq<Event>)
    ensures var j, j' := Run(pipeline, es, server), Run(pipeline, es', server);
      j'.watch == R.Apply(j.watch, e) && j'.connection == j.connection
  {
    es' := Extend(pipeline, es, Scheduling(e), server);
  }
}
