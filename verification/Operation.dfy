/** One database operation: its phases, its answer, and the coroutine parked on it. Every
    step is one region under the operation's mutex; a step that throws changes nothing. */
module Operations {
  import opened Common

  /** A result or an error message, as a handle. */
  type Payload = nat

  /** The source's `streaming` and `abandoned` phases are never entered. */
  datatype Phase = Cold | Queued | Sent | Synchronizing | Completed

  datatype Fault = Cancelled | Failure(message: Payload)

  datatype Operation = Operation(
    phase: Phase,
    result: Option<Payload>,
    error: Option<Fault>,
    cancelled: bool,
    continuation: Option<nat>)

  const Fresh := Operation(Cold, None, None, false, None)

  /** What a step did: the new state and the continuation it hands to the executor. */
  datatype Outcome = Did(op: Operation, resumed: Option<nat>) | Threw

  function Only(op: Operation): Outcome {
    Did(op, None)
  }

  /** Takes the parked continuation out and resumes it. */
  function Resume(op: Operation): Outcome {
    Did(op.(continuation := None), op.continuation)
  }

  predicate Ended(op: Operation) {
    op.phase == Completed || op.cancelled
  }

  predicate OnWire(op: Operation) {
    op.phase == Sent || op.phase == Synchronizing
  }

  // ---------------------------------------------------------------- steps

  function Start(op: Operation): Outcome {
    Only(if op.phase == Cold then op.(phase := Queued) else op)
  }

  function MarkQueued(op: Operation): Outcome {
    if op.phase == Queued then Only(op)
    else if op.phase != Cold then Threw
    else Only(op.(phase := Queued))
  }

  function Send(op: Operation): Outcome {
    if op.phase != Queued then Threw else Only(op.(phase := Sent))
  }

  function AcceptResult(op: Operation, result: Payload): Outcome {
    if !OnWire(op) || op.result.Some? then Threw
    else Only(op.(result := Some(result), phase := Synchronizing))
  }

  function AcceptFailure(op: Operation, message: Payload): Outcome {
    if !OnWire(op) then Threw else Only(op.(error := Some(Failure(message)), phase := Synchronizing))
  }

  function Complete(op: Operation): Outcome {
    if !OnWire(op) then Threw else Resume(op.(phase := Completed))
  }

  function Fail(op: Operation, message: Payload): Outcome {
    if op.phase == Completed then Threw
    else Resume(op.(error := Some(Failure(message)), phase := Completed))
  }

  function Abandon(op: Operation): Outcome {
    if op.phase == Completed then Only(op)
    else if OnWire(op) then Resume(op.(cancelled := true))
    else Resume(op.(error := Some(Cancelled), phase := Completed))
  }

  function Register(op: Operation, k: nat): Outcome {
    if op.continuation.Some? then Threw
    else if Ended(op) then Did(op, Some(k))
    else Only(op.(continuation := Some(k)))
  }

  function Unregister(op: Operation): Outcome {
    Only(op.(continuation := None))
  }

  /** takeResult after rethrowIfFailed: what the consumer gets out of a resumed operation. */
  datatype Answer = Rows(rows: Payload) | Raises(fault: Fault) | Misuse

  function Take(op: Operation): Answer {
    if op.cancelled then Raises(Cancelled)
    else if op.phase != Completed then Misuse
    else if op.error.Some? then Raises(op.error.value)
    else if op.result.None? then Misuse
    else Rows(op.result.value)
  }

  /** The rows are moved out: there is nothing left for a second call. */
  function TakeResult(op: Operation): Outcome {
    if Take(op).Rows? then Only(op.(result := None)) else Threw
  }

  // ---------------------------------------------------------------- runs

  datatype Event =
    | Starts | MarksQueued | Sends
    | Accepts(result: Payload) | AcceptsFailure(message: Payload)
    | Completes | Fails(message: Payload)
    | Abandons | Registers(k: nat) | Unregisters
    | Takes

  function Perform(op: Operation, e: Event): Outcome {
    match e
    case Starts => Start(op)
    case MarksQueued => MarkQueued(op)
    case Sends => Send(op)
    case Accepts(result) => AcceptResult(op, result)
    case AcceptsFailure(message) => AcceptFailure(op, message)
    case Completes => Complete(op)
    case Fails(message) => Fail(op, message)
    case Abandons => Abandon(op)
    case Registers(k) => Register(op, k)
    case Unregisters => Unregister(op)
    case Takes => TakeResult(op)
  }

  function Apply(op: Operation, e: Event): Operation {
    var o := Perform(op, e);
    if o.Did? then o.op else op
  }

  function Run(es: seq<Event>): Operation {
    if es == [] then Fresh else Apply(Run(es[..|es| - 1]), es[|es| - 1])
  }

  function Once(b: bool): nat {
    if b then 1 else 0
  }

  /** How often a run accepted continuation k, resumed it, and dropped it unresumed. */
  function Accepted(es: seq<Event>, k: nat): nat {
    if es == [] then 0
    else
      var n := |es| - 1;
      Accepted(es[..n], k) + Once(es[n] == Registers(k) && Perform(Run(es[..n]), es[n]).Did?)
  }

  function Resumed(es: seq<Event>, k: nat): nat {
    if es == [] then 0
    else
      var n := |es| - 1;
      var o := Perform(Run(es[..n]), es[n]);
      Resumed(es[..n], k) + Once(o.Did? && o.resumed == Some(k))
  }

  function Dropped(es: seq<Event>, k: nat): nat {
    if es == [] then 0
    else
      var n := |es| - 1;
      Dropped(es[..n], k) + Once(es[n].Unregisters? && Run(es[..n]).continuation == Some(k))
  }

  /** How often a run handed the rows out. */
  function Handed(es: seq<Event>): nat {
    if es == [] then 0
    else
      var n := |es| - 1;
      Handed(es[..n]) + Once(es[n].Takes? && Perform(Run(es[..n]), es[n]).Did?)
  }

  // ---------------------------------------------------------------- laws

  /** An operation that has ended never holds a parked continuation. */
  lemma {:induction false} EndedHoldsNobody(es: seq<Event>)
    ensures Ended(Run(es)) ==> Run(es).continuation.None?
  {
    if es != [] {
      EndedHoldsNobody(es[..|es| - 1]);
    }
  }

  /** Conservation: each accepted continuation has been resumed, was unregistered, or is
      the one parked now. None is lost and none is resumed twice. */
  lemma {:induction false} ContinuationsConserved(es: seq<Event>, k: nat)
    ensures Accepted(es, k) == Resumed(es, k) + Dropped(es, k) + Once(Run(es).continuation == Some(k))
  {
    if es != [] {
      ContinuationsConserved(es[..|es| - 1], k);
    }
  }

  /** A continuation registered once and never unregistered is resumed at most once, and
      exactly once when the operation has ended. */
  lemma ResumedOnce(es: seq<Event>, k: nat)
    requires Accepted(es, k) == 1 && Dropped(es, k) == 0
    ensures Resumed(es, k) <= 1
    ensures Ended(Run(es)) ==> Resumed(es, k) == 1
  {
    ContinuationsConserved(es, k);
    EndedHoldsNobody(es);
  }

  /** Once completed, nothing but taking the rows changes what the consumer gets, and once a sent
      operation is cancelled the consumer only ever sees the cancellation. */
  lemma {:induction false} AnswerIsFinal(es: seq<Event>, n: nat)
    requires n <= |es| && Ended(Run(es[..n]))
    ensures Ended(Run(es)) && Handed(es[..n]) <= Handed(es)
    ensures Handed(es) == Handed(es[..n]) ==> Take(Run(es)) == Take(Run(es[..n]))
    ensures Handed(es) > Handed(es[..n]) ==> Take(Run(es[..n])).Rows? && Take(Run(es)) == Misuse
  {
    if n == |es| {
      assert es[..n] == es;
    } else {
      var m := |es| - 1;
      assert es[..m][..n] == es[..n];
      AnswerIsFinal(es[..m], n);
      StepKeepsAnswer(Run(es[..m]), es[m]);
    }
  }

  lemma StepKeepsAnswer(op: Operation, e: Event)
    requires Ended(op)
    ensures Ended(Apply(op, e))
    ensures Take(Apply(op, e)) == if e.Takes? && Take(op).Rows? then Misuse else Take(op)
  {
  }

  /** The rows are handed out at most once. Whoever asks again is told so, whatever happens in between. */
  lemma {:induction false} RowsOnce(es: seq<Event>)
    ensures Handed(es) <= 1
    ensures Handed(es) == 1 ==> Ended(Run(es)) && Take(Run(es)) == Misuse
  {
    if es != [] {
      var m := |es| - 1;
      RowsOnce(es[..m]);
      if Ended(Run(es[..m])) {
        StepKeepsAnswer(Run(es[..m]), es[m]);
      }
    }
  }

  lemma RunThen(es: seq<Event>, e: Event)
    ensures Run(es + [e]) == Apply(Run(es), e)
  {
    assert (es + [e])[..|es|] == es;
  }

  /** An operation ends when the server's answer is complete, when the connection fails it and when
      its consumer gives it up, and in no other way. */
  lemma EndsExactly(es: seq<Event>, e: Event)
    ensures Ended(Run(es + [e])) <==>
      Ended(Run(es)) || (e.Completes? && OnWire(Run(es))) || e.Fails? || e.Abandons?
  {
    RunThen(es, e);
  }

  /** A consumer that gives an unfinished operation up sees the cancellation, and one whose
      connection failed sees that failure, unless it had given up before. */
  lemma EndIsSeen(es: seq<Event>, message: Payload)
    requires !Ended(Run(es))
    ensures Take(Run(es + [Abandons])) == Raises(Cancelled)
    ensures Take(Run(es + [Fails(message)])) == Raises(Failure(message))
  {
    RunThen(es, Abandons);
    RunThen(es, Fails(message));
    EndTakes(Run(es), message);
  }

  lemma EndTakes(op: Operation, message: Payload)
    requires !Ended(op)
    ensures Take(Apply(op, Abandons)) == Raises(Cancelled)
    ensures Take(Apply(op, Fails(message))) == Raises(Failure(message))
  {
  }

  /** A result is taken in exactly when the operation has been sent and has none. */
  lemma AcceptDecides(es: seq<Event>, rows: Payload)
    ensures var op, op' := Run(es), Run(es + [Accepts(rows)]);
      if (op.phase == Sent || op.phase == Synchronizing) && op.result == None
      then op' == op.(result := Some(rows), phase := Synchronizing) else op' == op
  {
    RunThen(es, Accepts(rows));
  }

  /** What the server answers is what the consumer gets: the rows of a result, and the error of a
      query the server failed, also when rows came before it. */
  lemma AnswerIsSeen(es: seq<Event>, reply: Event)
    requires var op := Run(es); op.phase == Sent && !op.cancelled && op.error.None?
    requires reply.AcceptsFailure? || (reply.Accepts? && Run(es).result.None?)
    ensures Take(Run(es + [reply] + [Completes])) ==
      match reply case Accepts(rows) => Rows(rows) case AcceptsFailure(m) => Raises(Failure(m)) case _ => Misuse
  {
    RunThen(es, reply);
    RunThen(es + [reply], Completes);
    ReplyTakes(Run(es), reply);
  }

  lemma ReplyTakes(op: Operation, reply: Event)
    requires op.phase == Sent && !op.cancelled && op.error.None?
    requires reply.AcceptsFailure? || (reply.Accepts? && op.result.None?)
    ensures Take(Apply(Apply(op, reply), Completes)) ==
      match reply case Accepts(rows) => Rows(rows) case AcceptsFailure(m) => Raises(Failure(m)) case _ => Misuse
  {
  }

  /** Whoever awaits an operation that nobody else awaits is accepted, and is resumed by its end: at
      once when it has ended already, and otherwise by the event that ends it. */
  lemma AwaitedIsResumed(es: seq<Event>, k: nat, e: Event)
    requires Run(es).continuation.None?
    requires Ended(Run(es + [Registers(k)] + [e])) && e != Unregisters
    ensures Resumed(es + [Registers(k)] + [e], k) ==
      Resumed(es, k) + 1 + Once(e == Registers(k) && Ended(Run(es)))
  {
    var parked := es + [Registers(k)];
    var all := parked + [e];
    assert parked[..|es|] == es && all[..|parked|] == parked;
    RunThen(es, Registers(k));
    EndedHoldsNobody(all);
    ContinuationsConserved(all, k);
    ContinuationsConserved(es, k);
    assert !Ended(Run(es)) ==> Perform(Run(parked), Registers(k)).Threw?;
  }

  // ---------------------------------------------------------------- the shared object

  class SharedOperation {
    var phase: Phase
    var result: Option<Payload>
    var error: Option<Fault>
    var cancelled: bool
    var continuation: Option<nat>

    ghost function Value(): Operation
      reads this
    {
      Operation(phase, result, error, cancelled, continuation)
    }

    constructor ()
      ensures Value() == Fresh
    {
      phase, result, error, cancelled, continuation := Cold, None, None, false, None;
    }

    /** True when the caller goes on to run the starter. */
    method Begin() returns (started: bool)
      modifies this
      ensures Did(Value(), None) == Start(old(Value()))
      ensures started == (old(phase) == Cold)
    {
      started := phase == Cold;
      if started {
        phase := Queued;
      }
    }

    method AcceptRows(rows: Payload) returns (o: Outcome)
      modifies this
      ensures o == AcceptResult(old(Value()), rows)
      ensures Value() == if o.Did? then o.op else old(Value())
    {
      if phase != Sent && phase != Synchronizing {
        return Threw;
      }
      if result.Some? {
        return Threw;
      }
      result := Some(rows);
      phase := Synchronizing;
      o := Did(Operation(phase, result, error, cancelled, continuation), None);
    }

    method Finish() returns (threw: bool, resumed: Option<nat>)
      modifies this
      ensures threw == Complete(old(Value())).Threw?
      ensures !threw ==> Did(Value(), resumed) == Complete(old(Value()))
      ensures threw ==> Value() == old(Value())
    {
      threw, resumed := false, None;
      if phase != Sent && phase != Synchronizing {
        return true, None;
      }
      phase := Completed;
      resumed, continuation := continuation, None;
    }

    method GiveUp() returns (resumed: Option<nat>)
      modifies this
      ensures Did(Value(), resumed) == Abandon(old(Value()))
    {
      if phase == Completed {
        return None;
      }
      if phase == Cold || phase == Queued {
        error := Some(Cancelled);
        phase := Completed;
      } else {
        cancelled := true;
      }
      resumed, continuation := continuation, None;
    }

    method Park(k: nat) returns (threw: bool, resumed: Option<nat>)
      modifies this
      ensures threw == Register(old(Value()), k).Threw?
      ensures !threw ==> Did(Value(), resumed) == Register(old(Value()), k)
      ensures threw ==> Value() == old(Value())
    {
      threw, resumed := false, None;
      if continuation.Some? {
        return true, None;
      }
      if phase == Completed || cancelled {
        resumed := Some(k);
      } else {
        continuation := Some(k);
      }
    }

    /** rethrowIfFailed() and takeResult(). */
    method TakeRows() returns (answer: Answer)
      modifies this
      ensures answer == Take(old(Value()))
      ensures Value() == Apply(old(Value()), Takes)
    {
      if cancelled {
        return Raises(Cancelled);
      }
      if phase != Completed {
        return Misuse;
      }
      if error.Some? {
        return Raises(error.value);
      }
      if result.None? {
        return Misuse;
      }
      answer := Rows(result.value);
      result := None;
    }

    /** The awaiter's destructor: unregister, then abandon. Nothing it held is resumed. */
    method DropAwaiter() returns (resumed: Option<nat>)
      modifies this
      ensures Value() == Apply(Apply(old(Value()), Unregisters), Abandons)
      ensures resumed.None?
    {
      continuation := None;
      resumed := GiveUp();
    }
  }
}
