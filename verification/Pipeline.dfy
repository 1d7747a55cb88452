/** One database connection: operations wait in a queue, are sent to the server in order
    and stand in a ledger until their results have been read. The server answers each sent
    query in order with one result, a delimiter and, in pipeline mode, a synchronisation
    point. The check of an operation's phase and its sending are one step. */
module Pipeline {
  import opened Common
  import opened Operations

  datatype Reply = Data(rows: Payload) | Error(message: Payload)

  /** What the client library hands out, one call at a time. */
  datatype Item = Result(reply: Reply) | Delimiter | Sync

  type Server = nat -> Reply

  /** Operations started and on their way into enqueue(), and those enqueue() threw for. */
  datatype Door = Door(entering: map<nat, Operation>, refused: map<nat, Operation>)

  datatype Connection = Connection(
    pipeline: bool,
    door: Door,
    queued: seq<nat>,
    inflight: seq<nat>,
    sent: nat,
    ops: map<nat, Operation>,
    unread: seq<Item>,
    advanced: bool,          // one delimiter was stepped over since the last result
    thrown: bool,            // the pump threw
    sentLog: seq<nat>,
    doneLog: seq<nat>)

  datatype Act =
    | Begin(o: nat)          // DBOperation::start up to its starter
    | Enqueue(o: nat)
    | Dispatch
    | BeginReading
    | Read
    | Consumer(o: nat, e: Event)

  predicate ConsumerEvent(e: Event) {
    e.Abandons? || e.Registers? || e.Unregisters?
  }

  function Items(o: nat, pipeline: bool, server: Server): seq<Item> {
    if pipeline then [Result(server(o)), Delimiter, Sync] else [Result(server(o)), Delimiter]
  }

  // ---------------------------------------------------------------- steps

  /** Stores what a step made of operation o, or records that it threw. */
  function Note(c: Connection, o: nat, outcome: Outcome): Connection {
    if outcome.Threw? then c.(thrown := true) else c.(ops := c.ops[o := outcome.op])
  }

  function Retire(c: Connection): Connection
    requires c.inflight != [] && c.inflight[0] in c.ops
  {
    var h := c.inflight[0];
    var outcome := Complete(c.ops[h]);
    if outcome.Threw? then c.(thrown := true)
    else c.(ops := c.ops[h := outcome.op], inflight := c.inflight[1..],
            sent := if c.sent == 0 then 0 else c.sent - 1, doneLog := c.doneLog + [h])
  }

  function DispatchOne(c: Connection, server: Server): Connection {
    if c.queued == [] || (!c.pipeline && c.inflight != []) || c.queued[0] !in c.ops then c
    else
      var o := c.queued[0];
      var popped := c.(queued := c.queued[1..]);
      if c.ops[o].phase == Completed then popped
      else
        var outcome := Send(c.ops[o]);
        if outcome.Threw? then popped.(thrown := true)
        else popped.(ops := c.ops[o := outcome.op], unread := c.unread + Items(o, c.pipeline, server),
                     inflight := c.inflight + [o], sent := c.sent + 1, sentLog := c.sentLog + [o])
  }

  /** What the library hands out next; null, which also delimits, when it has nothing. */
  function NextItem(c: Connection): Item {
    if c.unread == [] then Delimiter else c.unread[0]
  }

  function Taken(c: Connection): Connection {
    if c.unread == [] then c else c.(unread := c.unread[1..])
  }

  function ReadOne(c: Connection): Connection {
    var item, taken := NextItem(c), Taken(c);
    if c.inflight == [] || c.inflight[0] !in c.ops then
      if item.Delimiter? then taken else taken.(thrown := true)
    else
      var h := c.inflight[0];
      match item
      case Delimiter =>
        if c.pipeline then
          if c.ops[h].phase == Synchronizing && !c.advanced then taken.(advanced := true) else taken
        else Retire(taken)
      case Sync => Retire(taken.(advanced := false))
      case Result(Data(rows)) => Note(taken.(advanced := false), h, AcceptResult(c.ops[h], rows))
      case Result(Error(message)) => Note(taken.(advanced := false), h, AcceptFailure(c.ops[h], message))
  }

  /** enqueue(): markQueued(), which throws for an operation abandoned meanwhile, and the push. */
  function EnqueueOne(c: Connection, o: nat): Connection
    requires o in c.door.entering
  {
    var op, entering := c.door.entering[o], c.door.entering - {o};
    var outcome := MarkQueued(op);
    if outcome.Threw? then c.(door := Door(entering, c.door.refused[o := op]))
    else Push(c, o, outcome.op).(door := Door(entering, c.door.refused))
  }

  function Push(c: Connection, o: nat, op: Operation): Connection {
    c.(ops := c.ops[o := op], queued := c.queued + [o])
  }

  function Step(c: Connection, act: Act, server: Server): Connection {
    match act
    case Begin(o) =>
      if o in c.ops || o in c.door.entering || o in c.door.refused then c
      else c.(door := c.door.(entering := c.door.entering[o := Start(Fresh).op]))
    case Enqueue(o) => if o in c.door.entering && o !in c.ops then EnqueueOne(c, o) else c
    case Dispatch => DispatchOne(c, server)
    case BeginReading => c.(advanced := false)
    case Read => ReadOne(c)
    case Consumer(o, e) =>
      if !ConsumerEvent(e) then c
      else if o in c.ops then c.(ops := c.ops[o := Operations.Apply(c.ops[o], e)])
      else if o in c.door.entering then
        c.(door := c.door.(entering := c.door.entering[o := Operations.Apply(c.door.entering[o], e)]))
      else c
  }

  function Opened(pipeline: bool): Connection {
    Connection(pipeline, Door(map[], map[]), [], [], 0, map[], [], false, false, [], [])
  }

  function RunFrom(c: Connection, acts: seq<Act>, server: Server): Connection {
    if acts == [] then c else Step(RunFrom(c, acts[..|acts| - 1], server), acts[|acts| - 1], server)
  }

  // ---------------------------------------------------------------- the invariant

  /** The items still due for a list of operations none of which has been read from. */
  function Due(os: seq<nat>, pipeline: bool, server: Server): seq<Item> {
    if os == [] then [] else Items(os[0], pipeline, server) + Due(os[1..], pipeline, server)
  }

  lemma {:induction false} DueSnoc(os: seq<nat>, o: nat, pipeline: bool, server: Server)
    ensures Due(os + [o], pipeline, server) == Due(os, pipeline, server) + Items(o, pipeline, server)
  {
    if os != [] {
      assert (os + [o])[1..] == os[1..] + [o];
      DueSnoc(os[1..], o, pipeline, server);
    } else {
      assert [o][1..] == [];
    }
  }

  /** The operation carries exactly what the server answered to its own query. */
  predicate Answered(op: Operation, reply: Reply) {
    match reply
    case Data(rows) => op.result == Some(rows) && op.error.None?
    case Error(message) => op.result.None? && op.error == Some(Failure(message))
  }

  predicate Unanswered(op: Operation) {
    op.result.None? && op.error.None?
  }

  /** p of the items of the oldest operation in flight have been read. */
  predicate AlignedAt(c: Connection, server: Server, p: nat)
    requires c.inflight != []
  {
    var h := c.inflight[0];
    && h in c.ops
    && p < |Items(h, c.pipeline, server)|
    && c.unread == Items(h, c.pipeline, server)[p..] + Due(c.inflight[1..], c.pipeline, server)
    && (if p == 0 then c.ops[h].phase == Sent && Unanswered(c.ops[h])
        else c.ops[h].phase == Synchronizing && Answered(c.ops[h], server(h)))
  }

  /** The unread stream lines up with the ledger. */
  ghost predicate Aligned(c: Connection, server: Server) {
    if c.inflight == [] then c.unread == [] else exists p: nat :: AlignedAt(c, server, p)
  }

  predicate Places(c: Connection) {
    && c.sent == |c.inflight|
    && c.sentLog == c.doneLog + c.inflight
    && Distinct(c.sentLog + c.queued)
    && (forall i :: 0 <= i < |c.sentLog| ==> c.sentLog[i] in c.ops)
    && (forall i :: 0 <= i < |c.queued| ==> c.queued[i] in c.ops)
    && (!c.pipeline ==> |c.inflight| <= 1)
  }

  predicate Phases(c: Connection, server: Server) {
    && (forall i :: 0 <= i < |c.queued| && c.queued[i] in c.ops ==>
          c.ops[c.queued[i]].phase == Completed ||
          (c.ops[c.queued[i]].phase == Queued && Unanswered(c.ops[c.queued[i]])))
    && (forall i :: 1 <= i < |c.inflight| && c.inflight[i] in c.ops ==>
          c.ops[c.inflight[i]].phase == Sent && Unanswered(c.ops[c.inflight[i]]))
    && (forall i :: 0 <= i < |c.doneLog| && c.doneLog[i] in c.ops ==>
          c.ops[c.doneLog[i]].phase == Completed && Answered(c.ops[c.doneLog[i]], server(c.doneLog[i])))
  }

  ghost predicate Core(c: Connection, server: Server) {
    !c.thrown && Places(c) && Phases(c, server) && Aligned(c, server)
  }

  /** An operation on its way in is queued and unanswered, unless its consumer gave it up. */
  predicate Fine(op: Operation) {
    if op.phase == Completed then op.error == Some(Cancelled) else op.phase == Queued && Unanswered(op)
  }

  predicate AtDoor(ops: map<nat, Operation>, door: Door) {
    && (forall o :: o in door.entering ==> o !in ops && o !in door.refused && Fine(door.entering[o]))
    && (forall o :: o in door.refused ==> o !in ops && door.refused[o].phase == Completed && Fine(door.refused[o]))
  }

  predicate Entering(c: Connection) {
    AtDoor(c.ops, c.door)
  }

  ghost predicate Inv(c: Connection, server: Server) {
    Core(c, server) && Entering(c)
  }

  // ---------------------------------------------------------------- every step keeps it

  lemma PushKeeps(c: Connection, o: nat, op: Operation, server: Server)
    requires Core(c, server) && o !in c.ops && op.phase == Queued && Unanswered(op)
    ensures Core(Push(c, o, op), server)
  {
    PushPlaces(c, o, op);
    PushPhases(c, o, op, server);
    PushAligned(c, o, op, server);
  }

  lemma PushPlaces(c: Connection, o: nat, op: Operation)
    requires Places(c) && o !in c.ops
    ensures Places(Push(c, o, op))
  {
    assert c.sentLog + (c.queued + [o]) == (c.sentLog + c.queued) + [o];
    assert forall i :: 0 <= i < |c.sentLog + c.queued| ==> (c.sentLog + c.queued)[i] in c.ops;
  }

  lemma PushPhases(c: Connection, o: nat, op: Operation, server: Server)
    requires Places(c) && Phases(c, server) && o !in c.ops && op.phase == Queued && Unanswered(op)
    ensures Phases(Push(c, o, op), server)
  {
    assert forall i :: 0 <= i < |c.inflight| ==> c.inflight[i] == c.sentLog[|c.doneLog| + i];
    assert forall i :: 0 <= i < |c.doneLog| ==> c.doneLog[i] == c.sentLog[i];
  }

  lemma PushAligned(c: Connection, o: nat, op: Operation, server: Server)
    requires Aligned(c, server) && o !in c.ops
    ensures Aligned(Push(c, o, op), server)
  {
    if c.inflight != [] {
      var p: nat :| AlignedAt(c, server, p);
      assert AlignedAt(Push(c, o, op), server, p);
    }
  }

  /** The core does not look at operations on their way in. */
  lemma CoreIgnoresEntering(c: Connection, c': Connection, server: Server)
    requires Core(c, server) && c' == c.(door := c'.door)
    ensures Core(c', server)
  {
    if c.inflight != [] {
      var p: nat :| AlignedAt(c, server, p);
      assert AlignedAt(c', server, p);
    }
  }

  lemma DispatchKeeps(c: Connection, server: Server)
    requires Core(c, server)
    ensures Core(DispatchOne(c, server), server)
  {
    var c' := DispatchOne(c, server);
    if c.queued == [] || (!c.pipeline && c.inflight != []) {
      return;
    }
    NextIsNew(c);
    if c.ops[c.queued[0]].phase == Completed {
      SkipKeeps(c, c');
      if c.inflight != [] {
        var p: nat :| AlignedAt(c, server, p);
        assert AlignedAt(c', server, p);
      }
    } else {
      SendKeepsPlaces(c, server);
      SendKeepsPhases(c, server);
      DispatchAligned(c, server);
    }
  }

  predicate Dispatchable(c: Connection) {
    && c.queued != [] && (c.pipeline || c.inflight == [])
    && c.queued[0] in c.ops && c.ops[c.queued[0]].phase == Queued
  }

  lemma NextIsNew(c: Connection)
    requires Places(c) && c.queued != []
    ensures c.queued[0] in c.ops
    ensures forall i :: 1 <= i < |c.queued| ==> c.queued[i] != c.queued[0]
    ensures forall i :: 0 <= i < |c.inflight| ==> c.inflight[i] != c.queued[0]
    ensures forall i :: 0 <= i < |c.doneLog| ==> c.doneLog[i] != c.queued[0]
  {
    var all := c.sentLog + c.queued;
    assert forall i :: 0 <= i < |c.inflight| ==> c.inflight[i] == all[|c.doneLog| + i];
    assert forall i :: 0 <= i < |c.doneLog| ==> c.doneLog[i] == all[i];
    assert forall i :: 0 <= i < |c.queued| ==> c.queued[i] == all[|c.sentLog| + i];
  }

  lemma SendKeepsPlaces(c: Connection, server: Server)
    requires Places(c) && Dispatchable(c)
    ensures Places(DispatchOne(c, server))
  {
    var c' := DispatchOne(c, server);
    assert c'.sentLog + c'.queued == c.sentLog + c.queued;
    assert c'.sentLog == c'.doneLog + c'.inflight;
  }

  lemma SendKeepsPhases(c: Connection, server: Server)
    requires Places(c) && Phases(c, server) && Dispatchable(c)
    ensures Phases(DispatchOne(c, server), server)
  {
    NextIsNew(c);
    var c' := DispatchOne(c, server);
    assert forall i :: 0 <= i < |c'.queued| ==> c'.queued[i] == c.queued[i + 1];
  }

  lemma SkipKeeps(c: Connection, c': Connection)
    requires Places(c) && c.queued != [] && c' == c.(queued := c.queued[1..])
    ensures Places(c')
  {
    var all, all' := c.sentLog + c.queued, c.sentLog + c.queued[1..];
    assert forall i :: 0 <= i < |all'| ==> all'[i] == all[if i < |c.sentLog| then i else i + 1];
  }

  lemma DispatchAligned(c: Connection, server: Server)
    requires Aligned(c, server) && Dispatchable(c) && Unanswered(c.ops[c.queued[0]])
    requires forall i :: 0 <= i < |c.inflight| ==> c.inflight[i] != c.queued[0]
    ensures Aligned(DispatchOne(c, server), server)
  {
    if c.inflight == [] {
      DispatchFirst(c, server);
    } else {
      var p: nat :| AlignedAt(c, server, p);
      DispatchBehind(c, server, p);
    }
  }

  lemma DispatchFirst(c: Connection, server: Server)
    requires Aligned(c, server) && Dispatchable(c) && Unanswered(c.ops[c.queued[0]]) && c.inflight == []
    ensures Aligned(DispatchOne(c, server), server)
  {
    var c', o := DispatchOne(c, server), c.queued[0];
    assert c'.inflight[1..] == [];
    assert c'.unread == Items(o, c.pipeline, server)[0..] + Due([], c.pipeline, server);
    assert AlignedAt(c', server, 0);
  }

  lemma DispatchBehind(c: Connection, server: Server, p: nat)
    requires Dispatchable(c) && c.inflight != [] && AlignedAt(c, server, p)
    requires forall i :: 0 <= i < |c.inflight| ==> c.inflight[i] != c.queued[0]
    ensures Aligned(DispatchOne(c, server), server)
  {
    var c', o := DispatchOne(c, server), c.queued[0];
    var h, rest := c.inflight[0], c.inflight[1..];
    DueSnoc(rest, o, c.pipeline, server);
    assert c'.inflight[0] == h && c'.inflight[1..] == rest + [o];
    assert AlignedAt(c', server, p);
  }

  lemma ReadMiddleKeeps(c: Connection, server: Server, p: nat)
    requires Core(c, server) && c.inflight != [] && 0 < p && AlignedAt(c, server, p)
    requires p + 1 < |Items(c.inflight[0], c.pipeline, server)|
    ensures Core(ReadOne(c), server)
  {
    var items := Items(c.inflight[0], c.pipeline, server);
    assert items[p..][1..] == items[p + 1..];
    assert AlignedAt(ReadOne(c), server, p + 1);
  }

  /** Reading the result: it belongs to the oldest operation in flight. */
  lemma ReadKeeps(c: Connection, server: Server)
    requires Core(c, server)
    ensures Core(ReadOne(c), server)
  {
    if c.inflight == [] {
      assert ReadOne(c) == c;
    } else {
      var p: nat :| AlignedAt(c, server, p);
      var h := c.inflight[0];
      if p == 0 {
        ReadResultKeeps(c, server);
      } else if p + 1 < |Items(h, c.pipeline, server)| {
        ReadMiddleKeeps(c, server, p);
      } else {
        ReadLastKeeps(c, server, p);
      }
    }
  }

  lemma OthersStand(c: Connection)
    requires Places(c) && c.inflight != []
    ensures forall i :: 0 <= i < |c.queued| ==> c.queued[i] != c.inflight[0]
    ensures forall i :: 1 <= i < |c.inflight| ==> c.inflight[i] != c.inflight[0]
    ensures forall i :: 0 <= i < |c.doneLog| ==> c.doneLog[i] != c.inflight[0]
  {
    var all := c.sentLog + c.queued;
    assert forall i :: 0 <= i < |c.inflight| ==> c.inflight[i] == all[|c.doneLog| + i];
    assert forall i :: 0 <= i < |c.doneLog| ==> c.doneLog[i] == all[i];
    assert forall i :: 0 <= i < |c.queued| ==> c.queued[i] == all[|c.sentLog| + i];
  }

  /** The oldest operation takes the result in; all others stand as they were. */
  lemma ReadResultKeeps(c: Connection, server: Server)
    requires Core(c, server) && c.inflight != [] && AlignedAt(c, server, 0)
    ensures Core(ReadOne(c), server)
  {
    OthersStand(c);
    var h, items := c.inflight[0], Items(c.inflight[0], c.pipeline, server);
    assert items[0..][1..] == items[1..];
    assert c.unread[0] == Result(server(h));
    ResultAccepted(c, server);
    ResultPhases(c, ReadOne(c), server);
    assert AlignedAt(ReadOne(c), server, 1);
  }

  lemma ResultPhases(c: Connection, c': Connection, server: Server)
    requires Phases(c, server) && c.inflight != [] && c.inflight[0] in c.ops && c.inflight[0] in c'.ops
    requires forall i :: 1 <= i < |c.inflight| ==> c.inflight[i] != c.inflight[0]
    requires forall i :: 0 <= i < |c.queued| ==> c.queued[i] != c.inflight[0]
    requires forall i :: 0 <= i < |c.doneLog| ==> c.doneLog[i] != c.inflight[0]
    requires c'.ops == c.ops[c.inflight[0] := c'.ops[c.inflight[0]]]
    requires c'.queued == c.queued && c'.inflight == c.inflight && c'.doneLog == c.doneLog
    ensures Phases(c', server)
  {
  }

  lemma ResultAccepted(c: Connection, server: Server)
    requires Places(c) && c.inflight != [] && c.inflight[0] in c.ops && c.unread != []
    requires c.unread[0] == Result(server(c.inflight[0]))
    requires c.ops[c.inflight[0]].phase == Sent && Unanswered(c.ops[c.inflight[0]])
    ensures var h, c' := c.inflight[0], ReadOne(c);
      && c' == c.(unread := c.unread[1..], advanced := false, ops := c.ops[h := c'.ops[h]])
      && c'.ops[h].phase == Synchronizing && Answered(c'.ops[h], server(h))
  {
  }

  lemma ReadLastKeeps(c: Connection, server: Server, p: nat)
    requires Core(c, server) && c.inflight != [] && 0 < p && AlignedAt(c, server, p)
    requires p + 1 == |Items(c.inflight[0], c.pipeline, server)|
    ensures Core(ReadOne(c), server)
  {
    OthersStand(c);
    var items, rest := Items(c.inflight[0], c.pipeline, server), c.inflight[1..];
    assert items[p..] == [items[p]];
    assert c.unread[0] == items[p] && c.unread[1..] == Due(rest, c.pipeline, server);
    HeadRetired(c);
    RetiredPlaces(c, ReadOne(c));
    if rest != [] {
      var items' := Items(rest[0], c.pipeline, server);
      assert items'[0..] == items';
      assert rest[0] == c.inflight[1] == c.sentLog[|c.doneLog| + 1];
      assert AlignedAt(ReadOne(c), server, 0);
    }
  }

  lemma HeadRetired(c: Connection)
    requires Places(c) && c.inflight != [] && c.inflight[0] in c.ops && c.unread != []
    requires c.unread[0] == if c.pipeline then Sync else Delimiter
    requires c.ops[c.inflight[0]].phase == Synchronizing
    ensures var h, c' := c.inflight[0], ReadOne(c);
      && c' == c.(unread := c.unread[1..], advanced := c'.advanced, inflight := c.inflight[1..], sent := c.sent - 1,
                  doneLog := c.doneLog + [h], ops := c.ops[h := Complete(c.ops[h]).op])
  {
  }

  lemma RetiredPlaces(c: Connection, c': Connection)
    requires Places(c) && c.inflight != [] && c'.ops.Keys >= c.ops.Keys && c'.pipeline == c.pipeline
    requires c'.inflight == c.inflight[1..] && c'.doneLog == c.doneLog + [c.inflight[0]]
    requires c'.sentLog == c.sentLog && c'.queued == c.queued && c'.sent == c.sent - 1
    ensures Places(c')
  {
    assert c'.doneLog + c'.inflight == c.sentLog;
  }

  /** op' is op after something its consumer did: the pump sees no difference in kind. */
  predicate SameForPump(op: Operation, op': Operation, reply: Reply) {
    && (op.phase == Completed ==> op'.phase == Completed)
    && (OnWire(op) ==> op'.phase == op.phase)
    && (op.phase == Completed || OnWire(op) ==> (Answered(op, reply) ==> Answered(op', reply)))
    && (OnWire(op) && Unanswered(op) ==> Unanswered(op'))
    && (op.phase == Queued && Unanswered(op) ==>
          op'.phase == Completed || (op'.phase == Queued && Unanswered(op')))
  }

  lemma ConsumerKeepsAnswer(op: Operation, e: Event, reply: Reply)
    requires ConsumerEvent(e)
    ensures SameForPump(op, Operations.Apply(op, e), reply)
  {
  }

  lemma SamePhases(c: Connection, o: nat, op: Operation, server: Server)
    requires Phases(c, server) && o in c.ops && SameForPump(c.ops[o], op, server(o))
    ensures Phases(c.(ops := c.ops[o := op]), server)
  {
  }

  lemma SameAligned(c: Connection, o: nat, op: Operation, server: Server)
    requires Aligned(c, server) && o in c.ops && SameForPump(c.ops[o], op, server(o))
    ensures Aligned(c.(ops := c.ops[o := op]), server)
  {
    if c.inflight != [] {
      var p: nat :| AlignedAt(c, server, p);
      assert AlignedAt(c.(ops := c.ops[o := op]), server, p);
    }
  }

  lemma ConsumerKeeps(c: Connection, o: nat, e: Event, server: Server)
    requires Core(c, server) && o in c.ops && ConsumerEvent(e)
    ensures Core(Step(c, Consumer(o, e), server), server)
  {
    var op := Operations.Apply(c.ops[o], e);
    ConsumerKeepsAnswer(c.ops[o], e, server(o));
    SamePhases(c, o, op, server);
    SameAligned(c, o, op, server);
  }

  lemma ConsumerStepKeeps(c: Connection, o: nat, e: Event, server: Server)
    requires Inv(c, server)
    ensures Core(Step(c, Consumer(o, e), server), server)
  {
    if ConsumerEvent(e) && o in c.ops {
      ConsumerKeeps(c, o, e, server);
    } else {
      CoreIgnoresEntering(c, Step(c, Consumer(o, e), server), server);
    }
  }

  lemma EnqueueKeeps(c: Connection, o: nat, server: Server)
    requires Inv(c, server) && o in c.door.entering
    ensures Core(EnqueueOne(c, o), server)
  {
    var outcome := MarkQueued(c.door.entering[o]);
    if outcome.Threw? {
      CoreIgnoresEntering(c, EnqueueOne(c, o), server);
    } else {
      PushKeeps(c, o, outcome.op, server);
      CoreIgnoresEntering(Push(c, o, outcome.op), EnqueueOne(c, o), server);
    }
  }

  lemma CoreStep(c: Connection, act: Act, server: Server)
    requires Inv(c, server)
    ensures Core(Step(c, act, server), server)
  {
    match act
    case Begin(o) => CoreIgnoresEntering(c, Step(c, act, server), server);
    case Enqueue(o) => if o in c.door.entering { EnqueueKeeps(c, o, server); }
    case Dispatch => DispatchKeeps(c, server);
    case BeginReading =>
      if c.inflight != [] {
        var p: nat :| AlignedAt(c, server, p);
        assert AlignedAt(c.(advanced := false), server, p);
      }
    case Read => ReadKeeps(c, server);
    case Consumer(o, e) => ConsumerStepKeeps(c, o, e, server);
  }

  /** The pump adds no operation, leaves those on their way in alone, and sends only from the head of
      the queue. */
  predicate PumpFrame(c: Connection, c': Connection) {
    && c'.door == c.door && c'.ops.Keys == c.ops.Keys
    && (c'.queued == c.queued || (c.queued != [] && c'.queued == c.queued[1..]))
    && (c'.sentLog == c.sentLog || (c.queued != [] && c'.sentLog == c.sentLog + [c.queued[0]]))
  }

  lemma RetireFrame(c: Connection)
    requires c.inflight != [] && c.inflight[0] in c.ops
    ensures PumpFrame(c, Retire(c)) && Retire(c).queued == c.queued && Retire(c).sentLog == c.sentLog
  {
  }

  lemma NoteFrame(c: Connection, o: nat, outcome: Outcome)
    requires o in c.ops
    ensures PumpFrame(c, Note(c, o, outcome))
    ensures Note(c, o, outcome).queued == c.queued && Note(c, o, outcome).sentLog == c.sentLog
  {
  }

  lemma ReadFrame(c: Connection)
    ensures PumpFrame(c, ReadOne(c)) && ReadOne(c).queued == c.queued && ReadOne(c).sentLog == c.sentLog
  {
    var item, taken := NextItem(c), Taken(c);
    var cleared := taken.(advanced := false);
    assert taken == c.(unread := taken.unread);
    if c.inflight != [] && c.inflight[0] in c.ops {
      var h := c.inflight[0];
      match item
      case Delimiter => RetireFrame(taken);
      case Sync => RetireFrame(cleared);
      case Result(Data(rows)) => NoteFrame(cleared, h, AcceptResult(c.ops[h], rows));
      case Result(Error(message)) => NoteFrame(cleared, h, AcceptFailure(c.ops[h], message));
    }
  }

  lemma DispatchFrame(c: Connection, server: Server)
    ensures PumpFrame(c, DispatchOne(c, server))
  {
  }

  lemma PumpLeavesDoor(c: Connection, act: Act, server: Server)
    requires act.Dispatch? || act.BeginReading? || act.Read?
    ensures PumpFrame(c, Step(c, act, server))
  {
    if act.Read? {
      ReadFrame(c);
    } else if act.Dispatch? {
      DispatchFrame(c, server);
    }
  }

  lemma EnteringStep(c: Connection, act: Act, server: Server)
    requires Entering(c)
    ensures Entering(Step(c, act, server))
  {
    match act
    case Begin(o) => DoorOpens(c.ops, c.door, o);
    case Enqueue(o) => if o in c.door.entering { DoorCloses(c, o); }
    case Consumer(o, e) => if o in c.door.entering && ConsumerEvent(e) { DoorConsumer(c.ops, c.door, o, e); }
    case _ => PumpLeavesDoor(c, act, server);
  }

  lemma DoorOpens(ops: map<nat, Operation>, door: Door, o: nat)
    requires AtDoor(ops, door)
    ensures o !in ops && o !in door.refused ==>
      AtDoor(ops, door.(entering := door.entering[o := Start(Fresh).op]))
  {
  }

  lemma DoorCloses(c: Connection, o: nat)
    requires Entering(c) && o in c.door.entering
    ensures Entering(EnqueueOne(c, o))
  {
  }

  lemma DoorConsumer(ops: map<nat, Operation>, door: Door, o: nat, e: Event)
    requires AtDoor(ops, door) && o in door.entering && ConsumerEvent(e)
    ensures AtDoor(ops, door.(entering := door.entering[o := Operations.Apply(door.entering[o], e)]))
  {
  }

  lemma StepKeeps(c: Connection, act: Act, server: Server)
    requires Inv(c, server)
    ensures Inv(Step(c, act, server), server)
  {
    CoreStep(c, act, server);
    EnteringStep(c, act, server);
  }

  lemma {:induction false} RunKeeps(c: Connection, acts: seq<Act>, server: Server)
    requires Inv(c, server)
    ensures Inv(RunFrom(c, acts, server), server)
  {
    if acts != [] {
      RunKeeps(c, acts[..|acts| - 1], server);
      StepKeeps(RunFrom(c, acts[..|acts| - 1], server), acts[|acts| - 1], server);
    }
  }

  // ---------------------------------------------------------------- what callers can rely on

  lemma OpenedInv(pipeline: bool, server: Server)
    ensures Inv(Opened(pipeline), server)
  {
  }

  /** No interleaving of starting, enqueuing, pumping, abandoning and awaiting makes the pump throw:
      no result without a ledger entry, no second result, no completion out of phase. */
  lemma NeverThrows(pipeline: bool, acts: seq<Act>, server: Server)
    ensures !RunFrom(Opened(pipeline), acts, server).thrown
  {
    OpenedInv(pipeline, server);
    RunKeeps(Opened(pipeline), acts, server);
  }

  /** enqueue() throws for an operation exactly when its consumer abandoned it after start(): in every
      run those it refused were cancelled and never came to the connection, and the others on
      their way in will be taken. */
  lemma RefusedExactly(pipeline: bool, acts: seq<Act>, server: Server, o: nat)
    ensures var c := RunFrom(Opened(pipeline), acts, server);
      && (o in c.door.refused ==> c.door.refused[o].error == Some(Cancelled) && o !in c.ops)
      && (o in c.door.entering ==>
            var c' := Step(c, Enqueue(o), server);
            if c.door.entering[o].error == Some(Cancelled) then o in c'.door.refused && c'.queued == c.queued
            else o !in c'.door.refused && c'.queued == c.queued + [o] && o in c'.ops && c'.ops[o].phase == Queued)
  {
    OpenedInv(pipeline, server);
    RunKeeps(Opened(pipeline), acts, server);
  }

  function Given(reply: Reply): Answer {
    match reply
    case Data(rows) => Rows(rows)
    case Error(message) => Raises(Failure(message))
  }

  /** Operations complete once each, in the order they were sent, and every completed one
      carries the server's answer to its own query, whoever was abandoned meanwhile. Its consumer
      gets that answer, or sees that it has given up. */
  lemma OwnAnswerInOrder(pipeline: bool, acts: seq<Act>, server: Server)
    ensures var c := RunFrom(Opened(pipeline), acts, server);
      && c.sentLog == c.doneLog + c.inflight && Distinct(c.sentLog)
      && c.sent == |c.inflight|
      && forall i :: 0 <= i < |c.doneLog| ==>
           c.doneLog[i] in c.ops && c.ops[c.doneLog[i]].phase == Completed
           && Answered(c.ops[c.doneLog[i]], server(c.doneLog[i]))
           && Take(c.ops[c.doneLog[i]]) ==
                if c.ops[c.doneLog[i]].cancelled then Raises(Cancelled) else Given(server(c.doneLog[i]))
  {
    OpenedInv(pipeline, server);
    RunKeeps(Opened(pipeline), acts, server);
    var c := RunFrom(Opened(pipeline), acts, server);
    assert forall i :: 0 <= i < |c.sentLog| ==> (c.sentLog + c.queued)[i] == c.sentLog[i];
    assert forall i :: 0 <= i < |c.doneLog| ==> c.sentLog[i] == c.doneLog[i];
  }

  /** When everything has been read, everything sent has completed, and the other way round. */
  lemma LedgerEmptyWithStream(pipeline: bool, acts: seq<Act>, server: Server)
    ensures var c := RunFrom(Opened(pipeline), acts, server);
      c.unread == [] <==> c.inflight == []
  {
    OpenedInv(pipeline, server);
    RunKeeps(Opened(pipeline), acts, server);
    StreamNotEmpty(RunFrom(Opened(pipeline), acts, server), server);
  }

  predicate StaysCancelled(c: Connection, c': Connection, o: nat) {
    o in c.ops && c.ops[o].phase == Completed ==> o in c'.ops && c'.ops[o].phase == Completed && c'.sentLog == c.sentLog
  }

  lemma RetireKeepsCancelled(c: Connection, o: nat)
    requires c.inflight != [] && c.inflight[0] in c.ops
    ensures StaysCancelled(c, Retire(c), o)
  {
  }

  lemma NoteKeepsCancelled(c: Connection, h: nat, outcome: Outcome, o: nat)
    requires h in c.ops && (c.ops[h].phase == Completed ==> outcome.Threw?)
    ensures StaysCancelled(c, Note(c, h, outcome), o)
  {
  }

  lemma ReadKeepsCancelled(c: Connection, o: nat)
    ensures StaysCancelled(c, ReadOne(c), o)
  {
    var item, taken := NextItem(c), Taken(c);
    assert taken.ops == c.ops && taken.inflight == c.inflight && taken.sentLog == c.sentLog;
    if c.inflight != [] && c.inflight[0] in c.ops {
      RetireKeepsCancelled(taken, o);
      RetireKeepsCancelled(taken.(advanced := false), o);
      match item
      case Delimiter =>
      case Sync => assert ReadOne(c) == Retire(taken.(advanced := false));
      case Result(Data(rows)) =>
        NoteKeepsCancelled(taken.(advanced := false), c.inflight[0], AcceptResult(c.ops[c.inflight[0]], rows), o);
      case Result(Error(message)) =>
        NoteKeepsCancelled(taken.(advanced := false), c.inflight[0], AcceptFailure(c.ops[c.inflight[0]], message), o);
    }
  }

  lemma DispatchKeepsCancelled(c: Connection, server: Server, o: nat)
    requires o in c.ops && c.ops[o].phase == Completed && o !in c.sentLog
    ensures var c' := DispatchOne(c, server);
      o in c'.ops && c'.ops[o].phase == Completed && o !in c'.sentLog
  {
  }

  lemma ConsumerKeepsCancelled(op: Operation, e: Event)
    requires op.phase == Completed && ConsumerEvent(e)
    ensures Operations.Apply(op, e).phase == Completed
  {
  }

  lemma StepKeepsCancelled(c: Connection, act: Act, server: Server, o: nat)
    requires o in c.ops && c.ops[o].phase == Completed && o !in c.sentLog
    ensures var c' := Step(c, act, server);
      o in c'.ops && c'.ops[o].phase == Completed && o !in c'.sentLog
  {
    match act
    case Read => ReadKeepsCancelled(c, o);
    case Dispatch => DispatchKeepsCancelled(c, server, o);
    case Consumer(_, e) => if ConsumerEvent(e) { ConsumerKeepsCancelled(c.ops[o], e); }
    case _ =>
  }

  /** An operation abandoned before it was sent is never sent. */
  lemma {:induction false} CancelledNeverSent(c: Connection, acts: seq<Act>, server: Server, o: nat)
    requires o in c.ops && c.ops[o].phase == Completed && o !in c.sentLog
    ensures var c' := RunFrom(c, acts, server);
      o in c'.ops && c'.ops[o].phase == Completed && o !in c'.sentLog
  {
    if acts != [] {
      CancelledNeverSent(c, acts[..|acts| - 1], server, o);
      StepKeepsCancelled(RunFrom(c, acts[..|acts| - 1], server), acts[|acts| - 1], server, o);
    }
  }

  /** Whatever its consumer does to an operation that is queued, sent or on its way in is done to it. */
  lemma ConsumerIsHeard(pipeline: bool, acts: seq<Act>, server: Server, o: nat, e: Event)
    requires ConsumerEvent(e)
    ensures var c, c' := RunFrom(Opened(pipeline), acts, server),
        RunFrom(Opened(pipeline), acts + [Consumer(o, e)], server);
      && (o in c.ops ==> c' == c.(ops := c.ops[o := Operations.Apply(c.ops[o], e)]))
      && (o in c.door.entering ==>
            c'.door.entering == c.door.entering[o := Operations.Apply(c.door.entering[o], e)])
  {
    OpenedInv(pipeline, server);
    RunKeeps(Opened(pipeline), acts, server);
    RunSnoc(Opened(pipeline), acts, Consumer(o, e), server);
  }

  /** So an operation that its consumer abandons while it is queued is never sent, whatever follows. */
  lemma AbandonedWhileQueued(pipeline: bool, acts: seq<Act>, server: Server, o: nat, more: seq<Act>)
    requires var c := RunFrom(Opened(pipeline), acts, server);
      o in c.ops && c.ops[o].phase == Queued && o !in c.sentLog
    ensures var given := RunFrom(Opened(pipeline), acts + [Consumer(o, Abandons)], server);
      o in given.ops && Take(given.ops[o]) == Raises(Cancelled) && o !in RunFrom(given, more, server).sentLog
  {
    var c := RunFrom(Opened(pipeline), acts, server);
    ConsumerIsHeard(pipeline, acts, server, o, Abandons);
    OpenedInv(pipeline, server);
    RunKeeps(Opened(pipeline), acts, server);
    GivenUp(c.ops[o]);
    CancelledNeverSent(RunFrom(Opened(pipeline), acts + [Consumer(o, Abandons)], server), more, server, o);
  }

  lemma GivenUp(op: Operation)
    requires op.phase == Queued
    ensures var op' := Operations.Apply(op, Abandons); op'.phase == Completed && Take(op') == Raises(Cancelled)
  {
  }

  /** o was given up before enqueue() got hold of it. */
  predicate NeverCame(c: Connection, o: nat) {
    && o !in c.ops && o !in c.sentLog && o !in c.queued
    && (o in c.door.refused || (o in c.door.entering && c.door.entering[o].phase == Completed))
  }

  lemma StepNeverCame(c: Connection, act: Act, server: Server, o: nat)
    requires Entering(c) && NeverCame(c, o)
    ensures NeverCame(Step(c, act, server), o)
  {
    match act
    case Begin(_) =>
    case Enqueue(other) => if other in c.door.entering { EnqueueNeverCame(c, other, o); }
    case Consumer(other, e) =>
      if other == o && ConsumerEvent(e) && o in c.door.entering && o !in c.door.refused {
        ConsumerKeepsCancelled(c.door.entering[o], e);
      }
    case _ => PumpLeavesDoor(c, act, server);
  }

  lemma EnqueueNeverCame(c: Connection, other: nat, o: nat)
    requires Entering(c) && NeverCame(c, o) && other in c.door.entering
    ensures NeverCame(EnqueueOne(c, other), o)
  {
  }

  /** Nor is one abandoned before enqueue() got hold of it. */
  lemma {:induction false} AbandonedEarlyNeverSent(c: Connection, acts: seq<Act>, server: Server, o: nat)
    requires Entering(c) && NeverCame(c, o)
    ensures Entering(RunFrom(c, acts, server)) && NeverCame(RunFrom(c, acts, server), o)
  {
    if acts != [] {
      var before, act := RunFrom(c, acts[..|acts| - 1], server), acts[|acts| - 1];
      AbandonedEarlyNeverSent(c, acts[..|acts| - 1], server, o);
      EnteringStep(before, act, server);
      StepNeverCame(before, act, server, o);
    }
  }

  // ---------------------------------------------------------------- the pump

  lemma RunSnoc(c: Connection, acts: seq<Act>, act: Act, server: Server)
    ensures RunFrom(c, acts + [act], server) == Step(RunFrom(c, acts, server), act, server)
  {
    assert (acts + [act])[..|acts|] == acts;
  }

  function Times(act: Act, n: nat): seq<Act> {
    if n == 0 then [] else Times(act, n - 1) + [act]
  }

  function Min(a: nat, b: nat): nat {
    if a < b then a else b
  }

  /** Those of a list of operations that nobody has given up, in order. */
  function Live(os: seq<nat>, ops: map<nat, Operation>): seq<nat> {
    if os == [] then []
    else
      var n := |os| - 1;
      Live(os[..n], ops) + if os[n] in ops && ops[os[n]].phase != Completed then [os[n]] else []
  }

  /** The first k of the queue have left it, and exactly the live ones of them are on the wire. */
  predicate HandedOver(c: Connection, c': Connection, k: nat, server: Server) {
    && k <= |c.queued| && c'.queued == c.queued[k..]
    && var out := Live(c.queued[..k], c.ops);
    && c'.sentLog == c.sentLog + out
    && c'.inflight == c.inflight + out
    && c'.unread == c.unread + Due(out, c.pipeline, server)
    && c'.pipeline == c.pipeline && c'.doneLog == c.doneLog
    && forall i :: k <= i < |c.queued| ==>
         c.queued[i] in c.ops && c.queued[i] in c'.ops && c'.ops[c.queued[i]] == c.ops[c.queued[i]]
  }

  predicate MaySend(c: Connection) {
    c.queued != [] && (c.pipeline || c.inflight == [])
  }

  lemma NothingHandedOver(c: Connection, server: Server)
    requires Core(c, server)
    ensures HandedOver(c, c, 0, server)
  {
    assert c.queued[..0] == [];
  }

  /** A turn of the dispatch loop pops one operation, and sends it unless it was given up. */
  lemma DispatchSends(c: Connection, server: Server)
    requires Core(c, server) && MaySend(c)
    ensures var c', o := DispatchOne(c, server), c.queued[0];
      && c'.queued == c.queued[1..] && c'.pipeline == c.pipeline && c'.doneLog == c.doneLog
      && o in c.ops && c'.ops.Keys == c.ops.Keys && (forall q :: q in c.ops && q != o ==> c'.ops[q] == c.ops[q])
      && var out := if c.ops[o].phase == Completed then [] else [o];
      && c'.sentLog == c.sentLog + out && c'.inflight == c.inflight + out
      && c'.unread == c.unread + if out == [] then [] else Items(o, c.pipeline, server)
  {
    assert c.queued[0] in c.ops;
  }

  lemma HandOverNext(c: Connection, c': Connection, k: nat, server: Server)
    requires Core(c', server) && MaySend(c') && HandedOver(c, c', k, server)
    ensures HandedOver(c, DispatchOne(c', server), k + 1, server)
  {
    DispatchSends(c', server);
    OthersWait(c', c, k);
    OneMore(c, c', DispatchOne(c', server), k, server);
  }

  lemma OneMore(c: Connection, c': Connection, c'': Connection, k: nat, server: Server)
    requires HandedOver(c, c', k, server) && k < |c.queued| && c.queued[k] in c'.ops
    requires forall i :: k < i < |c.queued| ==> c.queued[i] != c.queued[k]
    requires c''.queued == c'.queued[1..] && c''.pipeline == c'.pipeline && c''.doneLog == c'.doneLog
    requires forall q :: q in c'.ops && q != c.queued[k] ==> q in c''.ops && c''.ops[q] == c'.ops[q]
    requires var out := if c'.ops[c.queued[k]].phase == Completed then [] else [c.queued[k]];
      && c''.sentLog == c'.sentLog + out && c''.inflight == c'.inflight + out
      && c''.unread == c'.unread + if out == [] then [] else Items(c.queued[k], c'.pipeline, server)
    ensures HandedOver(c, c'', k + 1, server)
  {
    var o, before := c.queued[k], Live(c.queued[..k], c.ops);
    LiveNext(c.queued, k, c.ops);
    if c.ops[o].phase != Completed {
      DueSnoc(before, o, c.pipeline, server);
      Regroup(c.sentLog, before, [o]);
      Regroup(c.inflight, before, [o]);
      Regroup(c.unread, Due(before, c.pipeline, server), Items(o, c.pipeline, server));
    } else {
      assert before + [] == before;
    }
  }

  lemma Regroup<T>(x: seq<T>, y: seq<T>, z: seq<T>)
    ensures (x + y) + z == x + (y + z)
  {
  }

  lemma LiveNext(os: seq<nat>, k: nat, ops: map<nat, Operation>)
    requires k < |os|
    ensures Live(os[..k + 1], ops) ==
      Live(os[..k], ops) + if os[k] in ops && ops[os[k]].phase != Completed then [os[k]] else []
  {
    assert os[..k + 1][..k] == os[..k];
  }

  lemma OthersWait(c': Connection, c: Connection, k: nat)
    requires Places(c') && k < |c.queued| && c'.queued == c.queued[k..]
    ensures forall i :: k < i < |c.queued| ==> c.queued[i] != c.queued[k]
  {
    var all := c'.sentLog + c'.queued;
    assert forall i :: k <= i < |c.queued| ==> c.queued[i] == all[|c'.sentLog| + i - k];
  }

  /** How many operations a stretch of the result stream completes. */
  function Ends(items: seq<Item>, pipeline: bool): nat {
    if items == [] then 0
    else Ends(items[1..], pipeline) + if items[0] == (if pipeline then Sync else Delimiter) then 1 else 0
  }

  lemma {:induction false} EndsDue(os: seq<nat>, pipeline: bool, server: Server)
    ensures Ends(Due(os, pipeline, server), pipeline) == |os|
  {
    if os != [] {
      EndsDue(os[1..], pipeline, server);
      var items := Items(os[0], pipeline, server);
      assert items[0..] == items;
      EndsOne(os[0], 0, Due(os[1..], pipeline, server), pipeline, server);
    }
  }

  lemma {:induction false} EndsOne(o: nat, p: nat, rest: seq<Item>, pipeline: bool, server: Server)
    requires p < |Items(o, pipeline, server)|
    ensures Ends(Items(o, pipeline, server)[p..] + rest, pipeline) == 1 + Ends(rest, pipeline)
    decreases |Items(o, pipeline, server)| - p
  {
    var items := Items(o, pipeline, server);
    var all := items[p..] + rest;
    assert all[0] == items[p] && all[1..] == items[p + 1..] + rest;
    if p + 1 < |items| {
      EndsOne(o, p + 1, rest, pipeline, server);
    } else {
      assert all[1..] == rest;
    }
  }

  /** The unread stream ends as many operations as are in flight. */
  lemma LedgerCountsEnds(c: Connection, server: Server)
    requires Core(c, server)
    ensures Ends(c.unread, c.pipeline) == |c.inflight|
  {
    if c.inflight != [] {
      var p: nat :| AlignedAt(c, server, p);
      EndsOne(c.inflight[0], p, Due(c.inflight[1..], c.pipeline, server), c.pipeline, server);
      EndsDue(c.inflight[1..], c.pipeline, server);
    }
  }

  /** The reading loop goes on after this item. */
  predicate ReadsOn(c: Connection) {
    && c.inflight != [] && c.inflight[0] in c.ops
    && (NextItem(c) != Delimiter || (c.pipeline && c.ops[c.inflight[0]].phase == Synchronizing && !c.advanced))
  }

  /** A delimiter is only stepped over on the way to its synchronisation point. */
  predicate Poised(c: Connection) {
    c.advanced ==> c.unread != [] && c.unread[0] == Sync
  }

  /** Reading takes one item off the stream, and breaks off only where the stream ends. */
  lemma ReadTakes(c: Connection, server: Server)
    requires Core(c, server) && Poised(c) && c.unread != []
    ensures var c' := ReadOne(c);
      && c'.unread == c.unread[1..] && Poised(c') && (ReadsOn(c) || c'.unread == [])
  {
    var p: nat :| AlignedAt(c, server, p);
    var items, rest := Items(c.inflight[0], c.pipeline, server), Due(c.inflight[1..], c.pipeline, server);
    assert c.unread[0] == items[p];
    assert p + 1 < |items| ==> c.unread[1] == items[p + 1];
    ReadTakesOne(c);
    if !c.pipeline {
      assert c.inflight[1..] == [];
    }
  }

  lemma ReadTakesOne(c: Connection)
    requires c.unread != [] && c.inflight != [] && c.inflight[0] in c.ops
    ensures ReadOne(c).unread == c.unread[1..]
    ensures ReadOne(c).advanced ==> c.unread[0] == Delimiter && (c.advanced || c.pipeline)
  {
  }

  lemma ReadsNothing(c: Connection, server: Server)
    requires Core(c, server) && c.unread == []
    ensures ReadOne(c) == c && !ReadsOn(c)
  {
    StreamNotEmpty(c, server);
  }

  lemma StreamNotEmpty(c: Connection, server: Server)
    requires Core(c, server)
    ensures c.unread == [] <==> c.inflight == []
  {
    if c.inflight != [] {
      var p: nat :| AlignedAt(c, server, p);
      assert |Items(c.inflight[0], c.pipeline, server)[p..]| > 0;
    }
  }

  lemma TurnKeeps(c: Connection, c': Connection, k: nat, server: Server)
    requires Inv(c', server) && HandedOver(c, c', k, server)
    ensures var c'' := Step(c', Dispatch, server);
      Inv(c'', server) && (MaySend(c') ==> HandedOver(c, c'', k + 1, server))
  {
    StepKeeps(c', Dispatch, server);
    if MaySend(c') {
      HandOverNext(c, c', k, server);
    }
  }

  /** As much of the stream as n calls give has been read, and nothing was sent or queued. */
  ghost predicate ReadUpToHere(c: Connection, c': Connection, n: nat, server: Server) {
    && Inv(c', server) && c'.pipeline == c.pipeline && c'.queued == c.queued && c'.sentLog == c.sentLog
    && c'.unread == c.unread[Min(n, |c.unread|)..]
  }

  ghost predicate Reading(c: Connection, c': Connection, n: nat, server: Server) {
    ReadUpToHere(c, c', n, server) && Poised(c')
  }

  lemma ReadTurn(c: Connection, c': Connection, n: nat, server: Server)
    requires Reading(c, c', n, server)
    ensures Reading(c, Step(c', Read, server), n + 1, server)
    ensures !ReadsOn(c') ==> NothingUnread(Step(c', Read, server))
  {
    StepKeeps(c', Read, server);
    ReadFrame(c');
    PipelineStays(c');
    if c'.unread == [] {
      ReadsNothing(c', server);
    } else {
      ReadTakes(c', server);
    }
  }

  lemma PipelineStays(c: Connection)
    ensures ReadOne(c).pipeline == c.pipeline
  {
  }

  /** Each of the first n turns of the dispatch loop finds an operation to pop. */
  predicate Popping(c: Connection, n: nat, server: Server) {
    forall j: nat :: j < n ==> MaySend(RunFrom(c, Times(Dispatch, j), server))
  }

  lemma {:induction false} SendsSo(c: Connection, n: nat, server: Server)
    requires Inv(c, server) && Popping(c, n, server)
    ensures var c' := RunFrom(c, Times(Dispatch, n), server);
      Inv(c', server) && HandedOver(c, c', n, server)
  {
    if n == 0 {
      NothingHandedOver(c, server);
    } else {
      SendsSo(c, n - 1, server);
      RunSnoc(c, Times(Dispatch, n - 1), Dispatch, server);
      TurnKeeps(c, RunFrom(c, Times(Dispatch, n - 1), server), n - 1, server);
    }
  }

  /** The last of n calls to the library gave what the reading loop breaks off at. */
  predicate RanDry(c: Connection, n: nat, server: Server) {
    n > 0 && !ReadsOn(RunFrom(c, Times(Read, n - 1), server))
  }

  lemma ReadsSo(c: Connection, n: nat, server: Server)
    requires Inv(c, server) && Poised(c)
    ensures Reading(c, RunFrom(c, Times(Read, n), server), n, server)
    ensures RanDry(c, n, server) ==> NothingUnread(RunFrom(c, Times(Read, n), server))
  {
    NothingRead(c, server);
    var i, at, dry := 0, c, false;
    while i < n
      invariant i <= n && at == RunFrom(c, Times(Read, i), server)
      invariant Reading(c, at, i, server)
      invariant RanDry(c, i, server) ==> dry
      invariant dry ==> NothingUnread(at)
    {
      RunSnoc(c, Times(Read, i), Read, server);
      ReadTurn(c, at, i, server);
      dry := !ReadsOn(at);
      at, i := Step(at, Read, server), i + 1;
    }
  }

  predicate NothingUnread(c: Connection) {
    c.unread == []
  }

  lemma NothingRead(c: Connection, server: Server)
    requires Inv(c, server) && Poised(c)
    ensures Reading(c, c, 0, server)
  {
  }

  /** What a pump does, said of the states before and after it. The first k operations leave the
      queue, as many as the budget and the mode allow; exactly the live ones of them are sent; and
      as much of the result stream as the budget allows is read. */
  ghost predicate Pumped(c: Connection, c': Connection, k: nat, budget: nat, server: Server) {
    && Inv(c', server) && c'.pipeline == c.pipeline
    && k <= budget && k <= |c.queued| && c'.queued == c.queued[k..]
    && var out := Live(c.queued[..k], c.ops);
    && c'.sentLog == c.sentLog + out
    && (!c.pipeline ==> |c.inflight| + |out| <= 1)
    && (k == budget || k == |c.queued| || (!c.pipeline && c.inflight + out != []))
    && var stream := c.unread + Due(out, c.pipeline, server);
    && c'.unread == stream[Min(budget, |stream|)..]
  }

  /** The two loops as a run: k operations popped, then n calls to the library, each loop going on
      for as long as the budget and its break conditions let it. */
  ghost predicate Loops(c: Connection, c': Connection, k: nat, n: nat, budget: nat, server: Server) {
    && k <= budget && n <= budget && Popping(c, k, server)
    && var handed := RunFrom(c, Times(Dispatch, k), server);
    if handed.thrown then c' == handed
    else
      var reading := Step(handed, BeginReading, server);
      && (k == budget || !MaySend(handed))
      && c' == RunFrom(reading, Times(Read, n), server)
      && (c'.thrown || n == budget || RanDry(reading, n, server))
  }

  lemma PumpedSo(c: Connection, c': Connection, k: nat, n: nat, budget: nat, server: Server)
    requires Inv(c, server) && Loops(c, c', k, n, budget, server)
    ensures Pumped(c, c', k, budget, server)
  {
    var handed := RunFrom(c, Times(Dispatch, k), server);
    SendsSo(c, k, server);
    NotThrown(handed, server);
    var reading := Step(handed, BeginReading, server);
    StepKeeps(handed, BeginReading, server);
    ReadsSo(reading, n, server);
    NotThrown(c', server);
    PumpedFrom(c, handed, c', k, n, budget, server);
  }

  lemma NotThrown(c: Connection, server: Server)
    requires Inv(c, server)
    ensures !c.thrown && (!c.pipeline ==> |c.inflight| <= 1)
  {
  }

  lemma PumpedFrom(c: Connection, handed: Connection, c': Connection, k: nat, results: nat, budget: nat,
    server: Server)
    requires HandedOver(c, handed, k, server) && k <= budget && (k == budget || !MaySend(handed))
    requires !handed.pipeline ==> |handed.inflight| <= 1
    requires ReadUpToHere(handed.(advanced := false), c', results, server)
    requires results <= budget && (results == budget || c'.unread == [])
    ensures Pumped(c, c', k, budget, server)
  {
  }

  /** So a pump whose budget covers the queue and the stream leaves nothing of either: everything
      that was in flight or queued and not given up has completed, in order, with its own answer. */
  lemma PumpAnswers(c: Connection, c': Connection, k: nat, budget: nat, server: Server)
    requires Inv(c, server) && Pumped(c, c', k, budget, server)
    requires var out := Live(c.queued[..k], c.ops); |c.unread| + |Due(out, c.pipeline, server)| <= budget
    ensures c'.inflight == [] && c'.doneLog == c.doneLog + c.inflight + Live(c.queued[..k], c.ops)
    ensures forall i :: 0 <= i < |c'.doneLog| ==>
      c'.doneLog[i] in c'.ops && c'.ops[c'.doneLog[i]].phase == Completed
      && Answered(c'.ops[c'.doneLog[i]], server(c'.doneLog[i]))
    ensures c.pipeline && |c.queued| <= budget ==> k == |c.queued| && c'.queued == []
  {
    LedgerCountsEnds(c', server);
    assert c'.unread == [];
    assert c'.doneLog == c'.sentLog;
    assert forall i :: 0 <= i < |c'.doneLog| ==> c'.doneLog[i] == c'.sentLog[i];
  }

  /** The pump's budget covers the queue and what will then be on the stream. */
  predicate Fits(c: Connection, budget: nat, server: Server) {
    && |c.queued| <= budget && (c.pipeline || (c.inflight == [] && |c.queued| <= 1))
    && |c.unread| + |Due(Live(c.queued, c.ops), c.pipeline, server)| <= budget
  }

  lemma {:induction false} LiveHas(os: seq<nat>, ops: map<nat, Operation>, o: nat)
    requires o in os && o in ops && ops[o].phase != Completed
    ensures o in Live(os, ops)
  {
    var n := |os| - 1;
    if os[n] != o {
      assert os == os[..n] + [os[n]];
      LiveHas(os[..n], ops, o);
    }
  }

  predicate HasItsAnswer(c: Connection, o: nat, server: Server) {
    o in c.doneLog && o in c.ops && c.ops[o].phase == Completed && Answered(c.ops[o], server(o))
  }

  lemma QueuedIsAnswered(c: Connection, o: nat, c': Connection, k: nat, n: nat, budget: nat, server: Server)
    requires Inv(c, server) && o in c.queued && o in c.ops && c.ops[o].phase != Completed && Fits(c, budget, server)
    requires Loops(c, c', k, n, budget, server)
    ensures HasItsAnswer(c', o, server)
  {
    PumpedSo(c, c', k, n, budget, server);
    WholeQueue(c, c', k, budget, server);
    PumpAnswers(c, c', k, budget, server);
    LiveHas(c.queued, c.ops, o);
    assert o in c'.doneLog;
  }

  lemma WholeQueue(c: Connection, c': Connection, k: nat, budget: nat, server: Server)
    requires Pumped(c, c', k, budget, server) && Fits(c, budget, server)
    ensures k == |c.queued| && c.queued[..k] == c.queued
  {
    assert k == 0 ==> c.queued[..k] == [];
  }

  /** From start() to the answer: on a connection in any reachable state, an operation that is started
      and enqueued leaves the next pump completed and with the server's answer to its query,
      provided the pump's budget covers what there is. */
  lemma SubmittedIsAnswered(pipeline: bool, acts: seq<Act>, o: nat, c': Connection, k: nat, n: nat, budget: nat,
    server: Server)
    requires var c := RunFrom(Opened(pipeline), acts, server);
      && o !in c.ops && o !in c.door.entering && o !in c.door.refused
      && var c1 := Step(Step(c, Begin(o), server), Enqueue(o), server);
      Fits(c1, budget, server) && Loops(c1, c', k, n, budget, server)
    ensures HasItsAnswer(c', o, server)
  {
    var c := RunFrom(Opened(pipeline), acts, server);
    var c0 := Step(c, Begin(o), server);
    OpenedInv(pipeline, server);
    RunKeeps(Opened(pipeline), acts, server);
    StepKeeps(c, Begin(o), server);
    StepKeeps(c0, Enqueue(o), server);
    Submitted(c, o, server);
    QueuedIsAnswered(Step(c0, Enqueue(o), server), o, c', k, n, budget, server);
  }

  lemma Submitted(c: Connection, o: nat, server: Server)
    requires o !in c.ops && o !in c.door.entering && o !in c.door.refused
    ensures var c1 := Step(Step(c, Begin(o), server), Enqueue(o), server);
      o in c1.queued && o in c1.ops && c1.ops[o].phase == Queued
  {
  }

  /** And a pump with any budget at all makes headway: the head of the queue leaves it whenever it
      may, and something is read whenever something is due. */
  lemma PumpMoves(c: Connection, c': Connection, k: nat, budget: nat, server: Server)
    requires Inv(c, server) && Pumped(c, c', k, budget, server) && budget > 0
    ensures MaySend(c) ==> k > 0
    ensures |c'.inflight| == Ends(c'.unread, c.pipeline)
    ensures c.unread != [] ==> |c'.unread| < |c.unread| + |Due(Live(c.queued[..k], c.ops), c.pipeline, server)|
  {
    LedgerCountsEnds(c', server);
    assert k == 0 ==> c.queued[..k] == [];
  }

  /** DBConnection with the queues, the ledger and the result stream it works on; operations
      are held by value. */
  class SharedConnection {
    const pipeline: bool
    const server: Server
    var door: Door
    var queued: seq<nat>
    var inflight: seq<nat>
    var sent: nat
    var ops: map<nat, Operation>
    var unread: seq<Item>
    var advanced: bool
    var thrown: bool
    ghost var sentLog: seq<nat>
    ghost var doneLog: seq<nat>

    ghost function Value(): Connection
      reads this
    {
      Connection(pipeline, door, queued, inflight, sent, ops, unread, advanced, thrown, sentLog, doneLog)
    }

    ghost predicate Valid()
      reads this
    {
      && (forall i :: 0 <= i < |queued| ==> queued[i] in ops)
      && (forall i :: 0 <= i < |inflight| ==> inflight[i] in ops)
    }

    constructor (pipeline: bool, server: Server)
      ensures Valid() && Value() == Opened(pipeline) && this.server == server
    {
      this.pipeline, this.server := pipeline, server;
      door, queued, inflight, sent, ops, unread := Door(map[], map[]), [], [], 0, map[], [];
      advanced, thrown, sentLog, doneLog := false, false, [], [];
    }

    /** start() on a new operation, up to its starter. */
    method StartOperation(o: nat)
      requires Valid() && o !in ops && o !in door.entering && o !in door.refused
      modifies this
      ensures Valid() && Value() == Step(old(Value()), Begin(o), server)
    {
      door := door.(entering := door.entering[o := Fresh.(phase := Queued)]);
    }

    /** enqueue(): true when markQueued() throws, which is when the operation has been given up. */
    method EnqueueOperation(o: nat) returns (threw: bool)
      requires Valid() && o in door.entering && o !in ops
      modifies this
      ensures Valid() && Value() == Step(old(Value()), Enqueue(o), server)
      ensures threw == MarkQueued(old(door).entering[o]).Threw?
    {
      var op, entering := door.entering[o], door.entering - {o};
      threw := op.phase != Queued && op.phase != Cold;
      if threw {
        door := Door(entering, door.refused[o := op]);
      } else {
        door := Door(entering, door.refused);
        ops := ops[o := op.(phase := Queued)];
        queued := queued + [o];
      }
    }

    method PopDispatchable() returns (popped: Option<nat>)
      requires Valid()
      modifies this`queued
      ensures Valid()
      ensures popped.None? <==> old(queued) == [] || (!pipeline && inflight != [])
      ensures popped.None? ==> queued == old(queued)
      ensures popped.Some? ==> popped.value == old(queued)[0] && queued == old(queued)[1..]
    {
      if queued == [] {
        return None;
      }
      if !pipeline && inflight != [] {
        return None;
      }
      popped := Some(queued[0]);
      queued := queued[1..];
    }

    method RetireHead(h: nat)
      requires Valid() && inflight != [] && inflight[0] == h
      modifies this
      ensures Valid()
      ensures Value() == Retire(old(Value()))
    {
      var outcome := Complete(ops[h]);
      if outcome.Threw? {
        thrown := true;
        return;
      }
      ops := ops[h := outcome.op];
      inflight := inflight[1..];
      if sent > 0 {
        sent := sent - 1;
      }
      doneLog := doneLog + [h];
    }

    method PutInFlight(o: nat, op: Operation)
      requires Valid() && o in ops
      modifies this
      ensures Valid()
      ensures Value() == old(Value()).(
        ops := old(ops)[o := op], unread := old(unread) + Items(o, pipeline, server),
        inflight := old(inflight) + [o], sent := old(sent) + 1, sentLog := old(sentLog) + [o])
    {
      ops := ops[o := op];
      unread := unread + Items(o, pipeline, server);
      inflight := inflight + [o];
      sent := sent + 1;
      sentLog := sentLog + [o];
    }

    /** One round of the dispatch loop; false when there was nothing to dispatch. */
    method DispatchNext() returns (more: bool)
      requires Valid()
      modifies this
      ensures Valid()
      ensures Value() == Step(old(Value()), Dispatch, server)
      ensures more <==> MaySend(old(Value()))
      ensures !more ==> Value() == old(Value())
    {
      var popped := PopDispatchable();
      if popped.None? {
        return false;
      }
      var o := popped.value;
      if ops[o].phase == Completed {
        return true;
      }
      var outcome := Send(ops[o]);
      if outcome.Threw? {
        thrown := true;
        return true;
      }
      PutInFlight(o, outcome.op);
      more := true;
    }

    method NoteOutcome(o: nat, outcome: Outcome)
      requires Valid()
      modifies this
      ensures Valid() && Value() == Note(old(Value()), o, outcome)
    {
      if outcome.Threw? {
        thrown := true;
      } else {
        ops := ops[o := outcome.op];
      }
    }

    /** One round of the reading loop; false when the loop breaks off. */
    method ReadNext() returns (more: bool)
      requires Valid()
      modifies this
      ensures Valid()
      ensures Value() == Step(old(Value()), Read, server)
      ensures more <==> ReadsOn(old(Value()))
    {
      var item := Delimiter;
      if unread != [] {
        item := unread[0];
        unread := unread[1..];
      }
      if inflight == [] {
        if item != Delimiter {
          thrown := true;
        }
        return false;
      }
      var head := inflight[0];
      match item
      case Delimiter =>
        if pipeline {
          if ops[head].phase == Synchronizing && !advanced {
            advanced := true;
            return true;
          }
        } else {
          RetireHead(head);
        }
        more := false;
      case Sync =>
        advanced := false;
        RetireHead(head);
        more := true;
      case Result(reply) =>
        advanced := false;
        NoteOutcome(head, match reply case Data(rows) => AcceptResult(ops[head], rows)
                                      case Error(message) => AcceptFailure(ops[head], message));
        more := true;
    }

    /** The dispatch loop; sends counts the operations it popped. */
    method SendUpTo(budget: nat) returns (sends: nat)
      requires Valid()
      modifies this
      ensures Valid() && sends <= budget
      ensures Value() == RunFrom(old(Value()), Times(Dispatch, sends), server)
      ensures thrown || sends == budget || !MaySend(Value())
      ensures Popping(old(Value()), sends, server)
    {
      sends := 0;
      ghost var c := Value();
      while sends < budget
        invariant sends <= budget && Popping(c, sends, server)
        invariant Valid() && Value() == RunFrom(c, Times(Dispatch, sends), server)
      {
        RunSnoc(c, Times(Dispatch, sends), Dispatch, server);
        var more := DispatchNext();
        if !more {
          break;
        }
        sends := sends + 1;
        if thrown {
          break;
        }
      }
    }

    /** The reading loop; results counts the calls to the library. */
    method ReadUpTo(budget: nat) returns (results: nat)
      requires Valid()
      modifies this
      ensures Valid() && results <= budget
      ensures Value() == RunFrom(old(Value()), Times(Read, results), server)
      ensures thrown || results == budget || RanDry(old(Value()), results, server)
    {
      results := 0;
      ghost var c := Value();
      while results < budget
        invariant results <= budget
        invariant Valid() && Value() == RunFrom(c, Times(Read, results), server)
      {
        RunSnoc(c, Times(Read, results), Read, server);
        var more := ReadNext();
        results := results + 1;
        if !more || thrown {
          break;
        }
      }
    }

    method RunLoops(budget: nat) returns (sends: nat, results: nat)
      requires Valid()
      modifies this
      ensures Valid() && Loops(old(Value()), Value(), sends, results, budget, server)
    {
      results := 0;
      sends := SendUpTo(budget);
      if thrown {
        return;
      }
      advanced := false;
      results := ReadUpTo(budget);
    }

    /** pumpConnected: at most a budget of sends, then at most a budget of reads. It is one of
        the runs the laws above speak about, and goes as far as the budget lets it. */
    method PumpConnected(budget: nat) returns (sends: nat, results: nat)
      requires Valid()
      modifies this
      ensures Valid() && Loops(old(Value()), Value(), sends, results, budget, server)
      ensures Inv(old(Value()), server) ==> Pumped(old(Value()), Value(), sends, budget, server)
    {
      sends, results := RunLoops(budget);
      if Inv(old(Value()), server) {
        PumpedSo(old(Value()), Value(), sends, results, budget, server);
      }
    }
  }
}
