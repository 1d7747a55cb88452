/** Callbacks from module threads to the host. A thread registers its callback under a fresh id,
    sends it and parks until it is answered. One thread runs the worker: it records the host's
    results and, on the way out, answers everything still parked. A step is one region under
    the callback table's mutex or under one callback's mutex, or one atomic store. */
module Callbacks {
  import opened Common

  /** id: the callback id the host put on the result. */
  datatype Answer = FromHost(id: nat, body: nat) | ShuttingDown

  /** Unsent: sending failed and the entry is about to be erased. */
  datatype Stage = Sending | Parked | Woken | Unsent | Returned | Refused

  datatype Call = Call(stage: Stage, id: nat, answer: Option<Answer>)

  /** What the worker's main thread is doing. */
  datatype Runner =
    | Reading
    | Recording(call: nat, id: nat, body: nat)
    | Leaving
    | Sweeping(left: set<nat>)
    | Gone

  datatype State = State(
    stopping: bool,
    runner: Runner,
    next: nat,
    table: map<nat, nat>,
    calls: map<nat, Call>)

  datatype Event =
    | Dispatch(c: nat)
    | Send(c: nat, ok: bool)
    | Wake(c: nat)
    | Erase(c: nat)
    | ShutdownFrame
    | FindResult(id: nat, body: nat)
    | RecordResult
    | LeaveLoop
    | Snapshot
    | FailOne(c: nat)
    | SweepEnds

  // ---------------------------------------------------------------- steps

  predicate In(s: State, c: nat, stage: Stage) {
    c in s.calls && s.calls[c].stage == stage
  }

  function Stay(s: State, c: nat, stage: Stage): State
    requires c in s.calls
  {
    s.(calls := s.calls[c := s.calls[c].(stage := stage)])
  }

  function Answered(s: State, c: nat, answer: Answer): State
    requires c in s.calls
  {
    s.(calls := s.calls[c := s.calls[c].(answer := Some(answer))])
  }

  function ApplyThread(s: State, e: Event): State {
    match e
    case Dispatch(c) =>
      if c in s.calls then s
      else if s.stopping then s.(calls := s.calls[c := Call(Refused, 0, None)])
      else s.(calls := s.calls[c := Call(Sending, s.next, None)], table := s.table[s.next := c], next := s.next + 1)
    case Send(c, ok) => if In(s, c, Sending) then Stay(s, c, if ok then Parked else Unsent) else s
    case Wake(c) => if In(s, c, Parked) && s.calls[c].answer.Some? then Stay(s, c, Woken) else s
    case Erase(c) =>
      if In(s, c, Woken) then Stay(s, c, Returned).(table := s.table - {s.calls[c].id})
      else if In(s, c, Unsent) then Stay(s, c, Refused).(table := s.table - {s.calls[c].id})
      else s
    case _ => s
  }

  function ApplyRunner(s: State, e: Event): State {
    match e
    case ShutdownFrame => if s.runner.Reading? then s.(stopping := true) else s
    case FindResult(id, body) =>
      if s.runner.Reading? && id in s.table then s.(runner := Recording(s.table[id], id, body)) else s
    case RecordResult =>
      if s.runner.Recording? && s.runner.call in s.calls then
        Answered(s, s.runner.call, FromHost(s.runner.id, s.runner.body)).(runner := Reading)
      else s
    case LeaveLoop => if s.runner.Reading? then s.(runner := Leaving, stopping := true) else s
    case Snapshot => if s.runner.Leaving? then s.(runner := Sweeping(s.table.Values)) else s
    case FailOne(c) =>
      if s.runner.Sweeping? && c in s.runner.left && c in s.calls then
        var t := if s.calls[c].answer.Some? then s else Answered(s, c, ShuttingDown);
        t.(runner := Sweeping(s.runner.left - {c}))
      else s
    case SweepEnds => if s.runner == Sweeping({}) then s.(runner := Gone) else s
    case _ => s
  }

  predicate ByThread(e: Event) {
    e.Dispatch? || e.Send? || e.Wake? || e.Erase?
  }

  function Apply(s: State, e: Event): State {
    if ByThread(e) then ApplyThread(s, e) else ApplyRunner(s, e)
  }

  function Run(es: seq<Event>): State {
    if es == [] then State(false, Reading, 0, map[], map[])
    else Apply(Run(es[..|es| - 1]), es[|es| - 1])
  }

  // ---------------------------------------------------------------- what every step keeps

  predicate Registered(stage: Stage) {
    stage.Sending? || stage.Parked? || stage.Woken? || stage.Unsent?
  }

  /** The table holds exactly the callbacks in progress, each under its own id. */
  ghost predicate TableExact(s: State) {
    && (forall id :: id in s.table ==>
          id < s.next && s.table[id] in s.calls && s.calls[s.table[id]].id == id &&
          Registered(s.calls[s.table[id]].stage))
    && (forall c :: c in s.calls && Registered(s.calls[c].stage) ==>
          s.calls[c].id in s.table && s.table[s.calls[c].id] == c)
  }

  /** A result on its way to a callback, or recorded in it, came under the callback's id. */
  ghost predicate OwnIds(s: State) {
    && (s.runner.Recording? ==> s.runner.call in s.calls && s.calls[s.runner.call].id == s.runner.id)
    && (forall c :: c in s.calls && s.calls[c].answer.Some? && s.calls[c].answer.value.FromHost? ==>
          s.calls[c].answer.value.id == s.calls[c].id)
    && (forall c :: In(s, c, Woken) || In(s, c, Returned) ==> s.calls[c].answer.Some?)
  }

  /** From the moment the runner leaves its loop no callback can be added, and once it has
      looked at the table only those on its list can be unanswered. */
  ghost predicate SweepCovers(s: State) {
    && (!s.runner.Reading? && !s.runner.Recording? ==> s.stopping)
    && (s.runner.Sweeping? || s.runner.Gone? ==>
          forall c :: c in s.calls && Registered(s.calls[c].stage) ==>
            s.calls[c].answer.Some? || (s.runner.Sweeping? && c in s.runner.left))
    && (s.runner.Sweeping? ==> forall c :: c in s.runner.left ==> c in s.calls)
  }

  lemma TableKept(s: State, e: Event)
    requires TableExact(s)
    ensures TableExact(Apply(s, e))
  {
    if ByThread(e) {
      TableKeptByThread(s, e);
    } else {
      TableKeptByRunner(s, e);
    }
  }

  lemma TableKeptByThread(s: State, e: Event)
    requires TableExact(s)
    ensures TableExact(ApplyThread(s, e))
  {
    if e.Erase? && (In(s, e.c, Woken) || In(s, e.c, Unsent)) {
      var s' := ApplyThread(s, e);
      assert forall id :: id in s'.table ==> id in s.table && id != s.calls[e.c].id && s'.table[id] != e.c;
    }
  }

  lemma TableKeptByRunner(s: State, e: Event)
    requires TableExact(s)
    ensures TableExact(ApplyRunner(s, e))
  {
  }

  lemma OwnIdsKept(s: State, e: Event)
    requires TableExact(s) && OwnIds(s)
    ensures OwnIds(Apply(s, e))
  {
    if ByThread(e) {
      OwnIdsKeptByThread(s, e);
    } else {
      OwnIdsKeptByRunner(s, e);
    }
  }

  lemma OwnIdsKeptByThread(s: State, e: Event)
    requires OwnIds(s)
    ensures OwnIds(ApplyThread(s, e))
  {
  }

  lemma OwnIdsKeptByRunner(s: State, e: Event)
    requires TableExact(s) && OwnIds(s)
    ensures OwnIds(ApplyRunner(s, e))
  {
  }

  lemma SweepKept(s: State, e: Event)
    requires TableExact(s) && SweepCovers(s)
    ensures SweepCovers(Apply(s, e))
  {
    if e.Snapshot? && s.runner.Leaving? {
      forall c | c in s.calls && Registered(s.calls[c].stage)
        ensures c in s.table.Values
      {
        assert s.table[s.calls[c].id] == c;
      }
    }
  }

  lemma {:induction false} RunKeeps(es: seq<Event>)
    ensures TableExact(Run(es)) && OwnIds(Run(es)) && SweepCovers(Run(es))
  {
    if es != [] {
      var s, e := Run(es[..|es| - 1]), es[|es| - 1];
      RunKeeps(es[..|es| - 1]);
      TableKept(s, e);
      OwnIdsKept(s, e);
      SweepKept(s, e);
    }
  }

  // ---------------------------------------------------------------- what module threads can rely on

  lemma RunSnoc(es: seq<Event>, e: Event)
    ensures Run(es + [e]) == Apply(Run(es), e)
  {
    assert (es + [e])[..|es|] == es;
  }

  /** A callback that returned has an answer, and an answer from the host is the one the host
      gave under this callback's id. */
  lemma AnsweredUnderOwnId(es: seq<Event>, c: nat)
    requires In(Run(es), c, Returned)
    ensures Run(es).calls[c].answer.Some?
    ensures Run(es).calls[c].answer.value.FromHost? ==> Run(es).calls[c].answer.value.id == Run(es).calls[c].id
  {
    RunKeeps(es);
  }

  /** Two callbacks never have the same id while both are in progress, so neither can be given
      the other's result. */
  lemma IdsAreDistinct(es: seq<Event>, c: nat, d: nat)
    requires c in Run(es).calls && d in Run(es).calls && c != d
    requires Registered(Run(es).calls[c].stage) && Registered(Run(es).calls[d].stage)
    ensures Run(es).calls[c].id != Run(es).calls[d].id
  {
    RunKeeps(es);
  }

  lemma {:induction false} GoneStays(es: seq<Event>, more: seq<Event>)
    requires Run(es).runner.Gone?
    ensures Run(es + more).runner.Gone?
  {
    if more == [] {
      assert es + more == es;
    } else {
      var n := |more| - 1;
      GoneStays(es, more[..n]);
      assert es + more == (es + more[..n]) + [more[n]];
      RunSnoc(es + more[..n], more[n]);
    }
  }

  /** After the shutdown sweep no callback is unanswered, however the threads go on; a new one
      is refused, so none can be added. */
  lemma SweepAnswersAll(es: seq<Event>, more: seq<Event>, c: nat)
    requires Run(es).runner.Gone?
    ensures var s := Run(es + more);
      && (c in s.calls && Registered(s.calls[c].stage) ==> s.calls[c].answer.Some?)
      && (c !in s.calls ==> In(Apply(s, Dispatch(c)), c, Refused))
  {
    GoneStays(es, more);
    RunKeeps(es + more);
  }

  /** So no module thread stays parked: three steps of its own end any callback. */
  lemma NobodyStaysParked(es: seq<Event>, c: nat, sent: bool)
    requires Run(es).runner.Gone? && c in Run(es).calls && Registered(Run(es).calls[c].stage)
    ensures var s := Apply(Apply(Apply(Run(es), Send(c, sent)), Wake(c)), Erase(c));
      In(s, c, Returned) || In(s, c, Refused)
  {
    RunKeeps(es);
    assert Run(es).calls[c].answer.Some?;
  }

  /** When every callback has returned or been refused the table is empty. */
  lemma NothingLeftBehind(es: seq<Event>)
    requires forall c :: c in Run(es).calls ==> !Registered(Run(es).calls[c].stage)
    ensures Run(es).table == map[]
  {
    RunKeeps(es);
    assert forall id :: id !in Run(es).table;
  }

  predicate HasHostAnswer(s: State, c: nat) {
    c in s.calls && s.calls[c].answer.Some? && s.calls[c].answer.value.FromHost?
  }

  lemma HostAnswerStep(s: State, e: Event, c: nat)
    requires HasHostAnswer(s, c)
    ensures HasHostAnswer(Apply(s, e), c)
  {
  }

  /** The sweep never takes back what the host has answered. */
  lemma {:induction false} HostAnswerStands(es: seq<Event>, more: seq<Event>, c: nat)
    requires HasHostAnswer(Run(es), c)
    ensures HasHostAnswer(Run(es + more), c)
  {
    if more == [] {
      assert es + more == es;
    } else {
      var n := |more| - 1;
      HostAnswerStands(es, more[..n], c);
      assert es + more == (es + more[..n]) + [more[n]];
      RunSnoc(es + more[..n], more[n]);
      HostAnswerStep(Run(es + more[..n]), more[n], c);
    }
  }

  /** A callback is refused exactly when the worker is stopping; otherwise it is registered under an
      id that no callback had before. */
  lemma DispatchDecides(es: seq<Event>, c: nat)
    requires c !in Run(es).calls
    ensures var s, s' := Run(es), Run(es + [Dispatch(c)]);
      && (In(s', c, Refused) <==> s.stopping)
      && (s.stopping ==> s'.table == s.table)
      && (!s.stopping ==>
            In(s', c, Sending) && s'.calls[c].id !in s.table && s'.table == s.table[s'.calls[c].id := c])
  {
    RunKeeps(es);
    RunSnoc(es, Dispatch(c));
  }

  /** The whole way of a callback: registered, sent, answered by the host under its id, woken and
      returned with exactly that answer, after which the table is as it was. */
  lemma CallbackRoundTrip(es: seq<Event>, c: nat, body: nat)
    requires var s := Run(es); !s.stopping && s.runner.Reading? && c !in s.calls
    ensures var s := Run(es);
      var sent := Apply(Apply(s, Dispatch(c)), Send(c, true));
      var answered := Apply(Apply(sent, FindResult(s.next, body)), RecordResult);
      Apply(Apply(answered, Wake(c)), Erase(c)) == s.(
        next := s.next + 1, calls := s.calls[c := Call(Returned, s.next, Some(FromHost(s.next, body)))])
  {
    RunKeeps(es);
    RoundTrip(Run(es), c, body);
  }

  lemma RoundTrip(s: State, c: nat, body: nat)
    requires !s.stopping && s.runner.Reading? && c !in s.calls && s.next !in s.table
    ensures var sent := Apply(Apply(s, Dispatch(c)), Send(c, true));
      var answered := Apply(Apply(sent, FindResult(s.next, body)), RecordResult);
      Apply(Apply(answered, Wake(c)), Erase(c)) == s.(
        next := s.next + 1, calls := s.calls[c := Call(Returned, s.next, Some(FromHost(s.next, body)))])
  {
    var id := s.next;
    var sent := Apply(Apply(s, Dispatch(c)), Send(c, true));
    assert sent == s.(next := id + 1, table := s.table[id := c], calls := s.calls[c := Call(Parked, id, None)]);
    AnswerReturns(sent, c, id, body);
    assert s.table[id := c] - {id} == s.table;
    assert sent.calls[c := Call(Returned, id, Some(FromHost(id, body)))]
        == s.calls[c := Call(Returned, id, Some(FromHost(id, body)))];
  }

  lemma AnswerReturns(s: State, c: nat, id: nat, body: nat)
    requires s.runner.Reading? && id in s.table && s.table[id] == c && c in s.calls
    requires s.calls[c] == Call(Parked, id, None)
    ensures var answered := Apply(Apply(s, FindResult(id, body)), RecordResult);
      Apply(Apply(answered, Wake(c)), Erase(c)) == s.(
        table := s.table - {id}, calls := s.calls[c := Call(Returned, id, Some(FromHost(id, body)))])
  {
    var answered := Apply(Apply(s, FindResult(id, body)), RecordResult);
    assert answered == s.(calls := s.calls[c := Call(Parked, id, Some(FromHost(id, body)))]);
  }

  /** A callback that could not be sent is refused and leaves the table. */
  lemma UnsentIsRefused(es: seq<Event>, c: nat)
    requires In(Run(es), c, Sending)
    ensures var s, s' := Run(es), Run(es + [Send(c, false)] + [Erase(c)]);
      In(s', c, Refused) && s'.table == s.table - {s.calls[c].id}
  {
    RunTwo(es, Send(c, false), Erase(c));
  }

  lemma RunTwo(es: seq<Event>, a: Event, b: Event)
    ensures Run(es + [a] + [b]) == Apply(Apply(Run(es), a), b)
  {
    RunSnoc(es, a);
    RunSnoc(es + [a], b);
  }

  predicate IsStopping(s: State) {
    s.stopping
  }

  lemma StoppingStep(s: State, e: Event)
    requires IsStopping(s)
    ensures IsStopping(Apply(s, e))
  {
  }

  /** From a shutdown frame or the end of the loop on, every new callback is refused. */
  lemma {:induction false} StoppingIsFinal(es: seq<Event>, e: Event, more: seq<Event>, c: nat)
    requires Run(es).runner.Reading? && (e.ShutdownFrame? || e.LeaveLoop?)
    ensures IsStopping(Run(es + [e] + more))
    ensures c !in Run(es + [e] + more).calls ==> In(Run(es + [e] + more + [Dispatch(c)]), c, Refused)
  {
    if more == [] {
      assert es + [e] + more == es + [e];
      RunSnoc(es, e);
    } else {
      var n := |more| - 1;
      StoppingIsFinal(es, e, more[..n], c);
      assert es + [e] + more == (es + [e] + more[..n]) + [more[n]];
      RunSnoc(es + [e] + more[..n], more[n]);
      StoppingStep(Run(es + [e] + more[..n]), more[n]);
    }
    if c !in Run(es + [e] + more).calls {
      DispatchDecides(es + [e] + more, c);
    }
  }

  /** A parked callback without an answer does not wake. */
  lemma ParkedUntilAnswered(es: seq<Event>, c: nat)
    requires In(Run(es), c, Parked)
    ensures In(Run(es + [Wake(c)]), c, Woken) <==> Run(es).calls[c].answer.Some?
  {
    RunSnoc(es, Wake(c));
  }

  lemma Joined(es: seq<Event>, e: Event, rest: seq<Event>) returns (tail: seq<Event>)
    ensures tail == [e] + rest && es + tail == (es + [e]) + rest
  {
    tail := [e] + rest;
  }

  /** From every reachable state the worker can leave: the sweep ends, whatever is parked. */
  lemma SweepCanEnd(es: seq<Event>) returns (tail: seq<Event>)
    ensures Run(es + tail).runner.Gone?
    decreases match Run(es).runner case Recording(_, _, _) => 3 case Reading => 2 case Leaving => 1 case _ => 0
  {
    RunKeeps(es);
    match Run(es).runner
    case Gone =>
      tail := [];
      assert es + tail == es;
    case Sweeping(_) => tail := SweepOn(es);
    case Leaving =>
      RunSnoc(es, Snapshot);
      tail := SweepCanEnd(es + [Snapshot]);
      tail := Joined(es, Snapshot, tail);
    case Reading =>
      RunSnoc(es, LeaveLoop);
      tail := SweepCanEnd(es + [LeaveLoop]);
      tail := Joined(es, LeaveLoop, tail);
    case Recording(_, _, _) =>
      RunSnoc(es, RecordResult);
      tail := SweepCanEnd(es + [RecordResult]);
      tail := Joined(es, RecordResult, tail);
  }

  lemma {:induction false} SweepOn(es: seq<Event>) returns (tail: seq<Event>)
    requires Run(es).runner.Sweeping?
    ensures Run(es + tail).runner.Gone?
    decreases |Run(es).runner.left|
  {
    var left := Run(es).runner.left;
    if left == {} {
      tail := [SweepEnds];
      RunSnoc(es, SweepEnds);
    } else {
      RunKeeps(es);
      var c :| c in left;
      RunSnoc(es, FailOne(c));
      tail := SweepOn(es + [FailOne(c)]);
      tail := Joined(es, FailOne(c), tail);
    }
  }

  // ---------------------------------------------------------------- the objects

  class PendingCallback {
    var answered: bool
    var answer: Option<Answer>

    ghost predicate Valid()
      reads this
    {
      answered <==> answer.Some?
    }

    constructor ()
      ensures Valid() && !answered
    {
      answered, answer := false, None;
    }

    /** The RecordResult step for the callback it is about. */
    method Record(id: nat, body: nat, ghost s: State, ghost c: nat)
      requires s.runner == Recording(c, id, body) && c in s.calls
      modifies this
      ensures Valid() && answer == Apply(s, RecordResult).calls[c].answer
      ensures answer == Some(FromHost(id, body))
    {
      answer := Some(FromHost(id, body));
      answered := true;
    }

    /** The FailOne step: nothing when the callback has been answered. */
    method Fail(ghost s: State, ghost c: nat)
      requires Valid() && s.runner.Sweeping? && c in s.runner.left && c in s.calls && answer == s.calls[c].answer
      modifies this
      ensures Valid() && answered && answer == Apply(s, FailOne(c)).calls[c].answer
      ensures answer == if old(answered) then old(answer) else Some(ShuttingDown)
    {
      if answered {
        return;
      }
      answer := Some(ShuttingDown);
      answered := true;
    }
  }

  /** The loop of failAllCallbacks over the callbacks it found in the table. */
  method FailAll(parked: seq<PendingCallback>)
    requires forall p :: p in parked ==> p.Valid()
    modifies parked
    ensures forall p :: p in parked ==> p.Valid() && p.answered
    ensures forall p :: p in parked ==> p.answer == if old(p.answered) then old(p.answer) else Some(ShuttingDown)
  {
    for i := 0 to |parked|
      invariant forall p :: p in parked ==> p.Valid()
      invariant forall p :: p in parked[..i] ==> p.answered
      invariant forall p :: p in parked[..i] ==>
        p.answer == if old(p.answered) then old(p.answer) else Some(ShuttingDown)
      invariant forall p :: p in parked && p !in parked[..i] ==>
        p.answered == old(p.answered) && p.answer == old(p.answer)
    {
      assert parked[..i + 1] == parked[..i] + [parked[i]];
      if !parked[i].answered {
        parked[i].answer := Some(ShuttingDown);
        parked[i].answered := true;
      }
    }
    assert parked[..|parked|] == parked;
  }

  class CallbackTable {
    var stopping: bool
    var next: nat
    var callbacks: map<nat, PendingCallback>

    ghost predicate Valid()
      reads this
    {
      forall id :: id in callbacks ==> id < next
    }

    /** The fields are those of the machine: the table has the same ids. */
    ghost predicate Mirrors(s: State)
      reads this
    {
      stopping == s.stopping && next == s.next && callbacks.Keys == s.table.Keys
    }

    constructor ()
      ensures Valid() && Mirrors(Run([]))
    {
      stopping, next, callbacks := false, 0, map[];
    }

    /** The Dispatch step: a fresh id, or None when the worker is stopping and the callback refused. */
    method Register(pending: PendingCallback, ghost s: State, ghost c: nat) returns (id: Option<nat>)
      requires Valid() && Mirrors(s) && c !in s.calls
      modifies this
      ensures Valid() && Mirrors(Apply(s, Dispatch(c)))
      ensures id.None? ==> callbacks == old(callbacks) && In(Apply(s, Dispatch(c)), c, Refused)
      ensures id.Some? ==> id.value !in old(callbacks) && callbacks == old(callbacks)[id.value := pending]
      ensures id.Some? ==> Apply(s, Dispatch(c)).calls[c] == Call(Sending, id.value, None)
    {
      if stopping {
        return None;
      }
      id := Some(next);
      callbacks := callbacks[next := pending];
      next := next + 1;
    }

    /** The Erase step. */
    method Unregister(id: nat, ghost s: State, ghost c: nat)
      requires Valid() && Mirrors(s) && (In(s, c, Woken) || In(s, c, Unsent)) && id == s.calls[c].id
      modifies this
      ensures Valid() && Mirrors(Apply(s, Erase(c))) && callbacks == old(callbacks) - {id}
    {
      callbacks := callbacks - {id};
    }

    /** handleCallbackResult: the FindResult step and, when it finds a callback, RecordResult; a
        result under an unknown id changes nothing. */
    method HandleResult(id: nat, body: nat, ghost s: State) returns (known: bool)
      requires Valid() && Mirrors(s) && s.runner.Reading? && TableExact(s)
      modifies callbacks.Values
      ensures Mirrors(Apply(Apply(s, FindResult(id, body)), RecordResult))
      ensures known == Apply(s, FindResult(id, body)).runner.Recording?
      ensures known ==> id in callbacks && callbacks[id].answered && callbacks[id].answer == Some(FromHost(id, body))
      ensures forall k :: k in callbacks && (!known || callbacks[k] != callbacks[id]) ==>
                callbacks[k].answer == old(callbacks[k].answer) && callbacks[k].answered == old(callbacks[k].answered)
    {
      known := id in callbacks;
      if known {
        callbacks[id].Record(id, body, Apply(s, FindResult(id, body)), s.table[id]);
      }
    }
  }
}
