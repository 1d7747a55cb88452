/** The script runner's worker threads around one session's ledger: a worker takes work from the
    queue, begins it, keeps it among its residents until it has finished, and after the runner
    has stopped discards what is left before it exits. stop() empties the queue once all
    workers have been joined. */
module Crew {
  import opened Common
  import L = Session

  /** Asking: startWork() has seen the runner running and is about to call take(); Starting: the
      work taken is not resident yet; Stepping: it is, and still has its start slot; Releasing:
      retire() of a finished resident runs; Discarding: discardAll() has dealt with the first
      `next` residents. */
  datatype Stage =
    | Looping
    | Asking
    | Starting(id: nat)
    | Stepping(id: nat)
    | Releasing(id: nat)
    | Discarding(next: nat)
    | Exited

  datatype Worker = Worker(stage: Stage, residents: seq<nat>)

  datatype Runner = Runner(ledger: L.Ledger, workers: seq<Worker>)

  datatype Event =
    | Elsewhere(e: L.Event)           // a step of the ledger that needs no worker's stage
    | Ask(w: nat)
    | TakeWork(w: nat, id: nat)
    | TakeNothing(w: nat)
    | BeginWork(w: nat)
    | BeginFailed(w: nat)
    | BeginDone(w: nat)
    | ReleaseSlot(w: nat)
    | ReleaseAt(w: nat, i: nat)
    | ReleaseDone(w: nat)
    | LeaveLoop(w: nat)
    | DiscardNext(w: nat)
    | Exit(w: nat)
    | Swap                            // stop(), after the joins

  // ---------------------------------------------------------------- steps

  predicate ByWorkers(e: L.Event) {
    e.Take? || e.Begin? || e.BeginFails? || e.BeginSucceeds? || e.ReleaseStart? || e.Finish? || e.SwapQueue?
  }

  /** The previous resident's retire() has returned. */
  predicate Caught(l: L.Ledger, k: Worker)
    requires k.stage.Discarding?
  {
    var n := k.stage.next;
    n <= |k.residents| && (n > 0 ==> L.In(l, k.residents[n - 1], L.Retired))
  }

  predicate AllExited(workers: seq<Worker>) {
    forall w :: 0 <= w < |workers| ==> workers[w].stage.Exited?
  }

  predicate Enabled(r: Runner, e: Event) {
    if e.Elsewhere? then !ByWorkers(e.e)
    else if e.Swap? then !r.ledger.flags.running && AllExited(r.workers)
    else e.w < |r.workers| && WorkerEnabled(r.ledger, r.workers[e.w], e)
  }

  predicate WorkerEnabled(l: L.Ledger, k: Worker, e: Event)
    requires !e.Elsewhere? && !e.Swap?
  {
    match e
    case Ask(_) => k.stage.Looping? && l.flags.running
    case TakeNothing(_) => k.stage.Asking?
    case TakeWork(_, id) => k.stage.Asking? && L.In(l, id, L.Waiting) && L.In(L.Apply(l, L.Take(id)), id, L.Taken)
    case BeginWork(_) => k.stage.Starting? && L.In(l, k.stage.id, L.Taken)
    case BeginFailed(_) => k.stage.Starting? && L.In(l, k.stage.id, L.Beginning)
    case BeginDone(_) => k.stage.Starting? && L.In(l, k.stage.id, L.Beginning)
    case ReleaseSlot(_) => k.stage.Stepping? || (k.stage.Starting? && L.In(l, k.stage.id, L.Retired))
    case ReleaseAt(_, i) => k.stage.Looping? && i < |k.residents|
    case ReleaseDone(_) => k.stage.Releasing? && L.In(l, k.stage.id, L.Retired)
    case LeaveLoop(_) => k.stage.Looping? && !l.flags.running
    case DiscardNext(_) => k.stage.Discarding? && Caught(l, k) && k.stage.next < |k.residents|
    case Exit(_) => k.stage.Discarding? && Caught(l, k) && k.stage.next == |k.residents|
  }

  /** What an event does to the ledger, if anything. */
  function LedgerPart(r: Runner, e: Event): seq<L.Event>
    requires Enabled(r, e)
  {
    match e
    case Elsewhere(le) => [le]
    case Swap => [L.SwapQueue]
    case TakeWork(_, id) => [L.Take(id)]
    case BeginWork(w) => [L.Begin(r.workers[w].stage.id)]
    case BeginFailed(w) => [L.BeginFails(r.workers[w].stage.id)]
    case BeginDone(w) => [L.BeginSucceeds(r.workers[w].stage.id)]
    case ReleaseSlot(w) => [L.ReleaseStart(r.workers[w].stage.id)]
    case ReleaseAt(w, i) => [L.Finish(r.workers[w].residents[i])]
    case DiscardNext(w) => [L.Finish(r.workers[w].residents[r.workers[w].stage.next])]
    case _ => []
  }

  /** What it does to the worker. */
  function WorkerPart(k: Worker, e: Event): Worker {
    match e
    case Ask(_) => k.(stage := Asking)
    case TakeNothing(_) => k.(stage := Looping)
    case TakeWork(_, id) => k.(stage := Starting(id))
    case BeginDone(_) => if k.stage.Starting? then Worker(Stepping(k.stage.id), k.residents + [k.stage.id]) else k
    case ReleaseSlot(_) => k.(stage := Looping)
    case ReleaseAt(_, i) =>
      if i < |k.residents| then Worker(Releasing(k.residents[i]), k.residents[..i] + k.residents[i + 1..]) else k
    case ReleaseDone(_) => k.(stage := Looping)
    case LeaveLoop(_) => k.(stage := Discarding(0))
    case DiscardNext(_) => if k.stage.Discarding? then k.(stage := Discarding(k.stage.next + 1)) else k
    case Exit(_) => Worker(Exited, [])
    case _ => k
  }

  function Ledgered(l: L.Ledger, les: seq<L.Event>): L.Ledger {
    if les == [] then l else L.Apply(l, les[0])
  }

  function Apply(r: Runner, e: Event): Runner {
    if !Enabled(r, e) then r
    else
      Runner(Ledgered(r.ledger, LedgerPart(r, e)),
             if e.Elsewhere? || e.Swap? then r.workers else r.workers[e.w := WorkerPart(r.workers[e.w], e)])
  }

  function Run(limit: nat, threads: nat, es: seq<Event>): Runner {
    if es == [] then Runner(L.Start(limit), seq(threads, _ => Worker(Looping, [])))
    else Apply(Run(limit, threads, es[..|es| - 1]), es[|es| - 1])
  }

  /** With its workers the runner does nothing the ledger could not do: what holds of every run of
      the ledger holds here. */
  lemma {:induction false} RunIsLedgerRun(limit: nat, threads: nat, es: seq<Event>) returns (les: seq<L.Event>)
    ensures Run(limit, threads, es).ledger == L.Run(limit, les)
  {
    les := [];
    if es != [] {
      var r, e := Run(limit, threads, es[..|es| - 1]), es[|es| - 1];
      les := RunIsLedgerRun(limit, threads, es[..|es| - 1]);
      if Enabled(r, e) && LedgerPart(r, e) != [] {
        L.RunSnoc(limit, les, LedgerPart(r, e)[0]);
        les := les + [LedgerPart(r, e)[0]];
      }
    }
  }

  // ---------------------------------------------------------------- who holds what

  predicate HeldPhase(p: L.Phase) {
    p.Taken? || p.Beginning? || p.Resident?
  }

  predicate Holds(k: Worker, id: nat) {
    match k.stage
    case Starting(x) => x == id || id in k.residents
    case Discarding(n) => exists i :: n <= i < |k.residents| && k.residents[i] == id
    case Exited => false
    case _ => id in k.residents
  }

  /** Work a worker has taken and not released is in that worker's hands. */
  ghost predicate Held(r: Runner) {
    forall id :: id in r.ledger.phase && HeldPhase(r.ledger.phase[id]) ==>
      exists w :: 0 <= w < |r.workers| && Holds(r.workers[w], id)
  }

  /** A reserved start slot belongs to a worker that is starting its work. */
  ghost predicate SlotsHeld(r: Runner) {
    forall id :: id in r.ledger.slots ==>
      exists w :: 0 <= w < |r.workers| && Starts(r.workers[w], id)
  }

  predicate Starts(k: Worker, id: nat) {
    (k.stage.Starting? || k.stage.Stepping?) && k.stage.id == id
  }

  predicate SwappedAfterExit(r: Runner) {
    r.ledger.flags.swapped ==> AllExited(r.workers)
  }

  /** Residents have been begun, and no step takes that back. */
  predicate Begun(l: L.Ledger, id: nat) {
    L.In(l, id, L.Resident) || L.In(l, id, L.Ending) || L.In(l, id, L.Retired)
  }

  predicate ResidentsBegun(l: L.Ledger, k: Worker) {
    forall i :: 0 <= i < |k.residents| ==> Begun(l, k.residents[i])
  }

  lemma BegunStays(l: L.Ledger, e: L.Event, id: nat)
    requires Begun(l, id)
    ensures Begun(L.Apply(l, e), id)
  {
  }

  lemma ElsewhereTakesNothing(l: L.Ledger, e: L.Event, id: nat)
    requires !ByWorkers(e) || e.SwapQueue?
    requires id in L.Apply(l, e).phase && HeldPhase(L.Apply(l, e).phase[id])
    ensures id in l.phase && l.phase[id] == L.Apply(l, e).phase[id]
  {
  }

  lemma ElsewhereKeepsSlots(l: L.Ledger, e: L.Event)
    requires !ByWorkers(e) || e.SwapQueue?
    ensures L.Apply(l, e).slots == l.slots
    ensures !e.SwapQueue? ==> L.Apply(l, e).flags.swapped == l.flags.swapped
  {
  }

  predicate ActsOn(e: L.Event, id: nat) {
    (e.Take? || e.Begin? || e.BeginFails? || e.BeginSucceeds? || e.ReleaseStart? || e.Finish?) && e.id == id
  }

  /** A worker's step of the ledger leaves the other works where they are. */
  lemma OthersStay(l: L.Ledger, e: L.Event, x: nat)
    requires ActsOn(e, x)
    ensures forall id :: id != x ==> (id in L.Apply(l, e).phase <==> id in l.phase)
    ensures forall id :: id != x && id in l.phase ==> L.Apply(l, e).phase[id] == l.phase[id]
    ensures L.Apply(l, e).flags == l.flags
    ensures L.Apply(l, e).slots ==
            if e.ReleaseStart? then l.slots - {x}
            else if e.Take? && L.In(L.Apply(l, e), x, L.Taken) && L.In(l, x, L.Waiting) then l.slots + {x}
            else l.slots
  {
  }

  predicate HeldIn(l: L.Ledger, id: nat) {
    id in l.phase && HeldPhase(l.phase[id])
  }

  lemma FinishLetsGo(l: L.Ledger, id: nat)
    requires Begun(l, id)
    ensures !HeldIn(L.Apply(l, L.Finish(id)), id)
  {
  }

  /** The work a worker's step lets go of, if any. */
  predicate LetsGo(k: Worker, e: Event, id: nat) {
    match e
    case ReleaseAt(_, i) => i < |k.residents| && k.residents[i] == id
    case DiscardNext(_) => k.stage.Discarding? && k.stage.next < |k.residents| && k.residents[k.stage.next] == id
    case ReleaseSlot(_) => k.stage.Starting? && k.stage.id == id
    case _ => false
  }

  lemma HoldsTheRest(l: L.Ledger, k: Worker, e: Event, id: nat)
    requires !e.Elsewhere? && !e.Swap? && WorkerEnabled(l, k, e)
    requires Holds(k, id) && !LetsGo(k, e, id)
    ensures Holds(WorkerPart(k, e), id)
  {
    match e
    case ReleaseAt(_, i) =>
      var j :| 0 <= j < |k.residents| && k.residents[j] == id;
      assert (k.residents[..i] + k.residents[i + 1..])[if j < i then j else j - 1] == id;
    case DiscardNext(_) =>
      var j :| k.stage.next <= j < |k.residents| && k.residents[j] == id;
      assert k.stage.next + 1 <= j;
    case BeginDone(_) => assert k.stage.id in k.residents + [k.stage.id];
    case LeaveLoop(_) => var j :| 0 <= j < |k.residents| && k.residents[j] == id;
    case _ =>
  }

  /** A worker's step lets go of a work only when that work is no longer in a held phase. */
  lemma LetGoIsOver(r: Runner, e: Event, id: nat)
    requires Enabled(r, e) && !e.Elsewhere? && !e.Swap?
    requires ResidentsBegun(r.ledger, r.workers[e.w]) && LetsGo(r.workers[e.w], e, id)
    ensures !HeldIn(Apply(r, e).ledger, id)
  {
    if !e.ReleaseSlot? {
      FinishLetsGo(r.ledger, id);
    }
  }

  /** A work comes into a held phase only when a worker takes it. */
  lemma NewlyHeld(r: Runner, e: Event, id: nat)
    requires Enabled(r, e) && HeldIn(Apply(r, e).ledger, id) && !HeldIn(r.ledger, id)
    ensures e.TakeWork? && e.id == id
  {
    if e.Elsewhere? {
      ElsewhereTakesNothing(r.ledger, e.e, id);
    } else if e.Swap? {
      ElsewhereTakesNothing(r.ledger, L.SwapQueue, id);
    } else if LedgerPart(r, e) != [] {
      OthersStay(r.ledger, LedgerPart(r, e)[0], LedgerPart(r, e)[0].id);
    }
  }

  lemma HeldStep(r: Runner, e: Event)
    requires Held(r) && forall w :: 0 <= w < |r.workers| ==> ResidentsBegun(r.ledger, r.workers[w])
    ensures Held(Apply(r, e))
  {
    var r' := Apply(r, e);
    if Enabled(r, e) {
      forall id | id in r'.ledger.phase && HeldPhase(r'.ledger.phase[id])
        ensures exists w :: 0 <= w < |r'.workers| && Holds(r'.workers[w], id)
      {
        if HeldIn(r.ledger, id) {
          var w :| 0 <= w < |r.workers| && Holds(r.workers[w], id);
          if !e.Elsewhere? && !e.Swap? && e.w == w {
            if LetsGo(r.workers[w], e, id) {
              LetGoIsOver(r, e, id);
            }
            HoldsTheRest(r.ledger, r.workers[w], e, id);
          }
          assert Holds(r'.workers[w], id);
        } else {
          NewlyHeld(r, e, id);
          assert Holds(r'.workers[e.w], id);
        }
      }
    }
  }

  lemma BegunStep(r: Runner, e: Event, w: nat)
    requires w < |r.workers| && ResidentsBegun(r.ledger, r.workers[w])
    ensures ResidentsBegun(Apply(r, e).ledger, Apply(r, e).workers[w])
  {
    if Enabled(r, e) {
      var r' := Apply(r, e);
      forall i | 0 <= i < |r'.workers[w].residents|
        ensures Begun(r'.ledger, r'.workers[w].residents[i])
      {
        var id := r'.workers[w].residents[i];
        if id in r.workers[w].residents && LedgerPart(r, e) != [] {
          BegunStays(r.ledger, LedgerPart(r, e)[0], id);
        }
      }
    }
  }

  lemma SlotsStep(r: Runner, e: Event)
    requires SlotsHeld(r)
    ensures SlotsHeld(Apply(r, e))
  {
    var r' := Apply(r, e);
    if Enabled(r, e) {
      forall id | id in r'.ledger.slots
        ensures exists w :: 0 <= w < |r'.workers| && Starts(r'.workers[w], id)
      {
        if e.Elsewhere? {
          ElsewhereKeepsSlots(r.ledger, e.e);
        } else if e.Swap? {
          ElsewhereKeepsSlots(r.ledger, L.SwapQueue);
        } else if LedgerPart(r, e) != [] {
          OthersStay(r.ledger, LedgerPart(r, e)[0], LedgerPart(r, e)[0].id);
        }
        if id in r.ledger.slots {
          var w :| 0 <= w < |r.workers| && Starts(r.workers[w], id);
          assert Starts(r'.workers[w], id);
        } else {
          assert Starts(r'.workers[e.w], id);
        }
      }
    }
  }

  lemma SwappedStep(r: Runner, e: Event)
    requires SwappedAfterExit(r)
    ensures SwappedAfterExit(Apply(r, e))
  {
    if Enabled(r, e) {
      if e.Elsewhere? {
        ElsewhereKeepsSlots(r.ledger, e.e);
      } else if !e.Swap? && LedgerPart(r, e) != [] {
        OthersStay(r.ledger, LedgerPart(r, e)[0], LedgerPart(r, e)[0].id);
      }
    }
  }

  ghost predicate Inv(r: Runner) {
    && Held(r) && SlotsHeld(r) && SwappedAfterExit(r)
    && forall w :: 0 <= w < |r.workers| ==> ResidentsBegun(r.ledger, r.workers[w])
  }

  lemma {:induction false} RunHeld(limit: nat, threads: nat, es: seq<Event>)
    ensures Inv(Run(limit, threads, es))
  {
    if es != [] {
      var r, e := Run(limit, threads, es[..|es| - 1]), es[|es| - 1];
      RunHeld(limit, threads, es[..|es| - 1]);
      HeldStep(r, e);
      SlotsStep(r, e);
      SwappedStep(r, e);
      forall w | 0 <= w < |Apply(r, e).workers|
        ensures ResidentsBegun(Apply(r, e).ledger, Apply(r, e).workers[w])
      {
        BegunStep(r, e, w);
      }
    }
  }

  // ---------------------------------------------------------------- stopping

  /** When all workers have exited, no work is taken, begun or resident any more, and no start
      slot is reserved: whatever a worker held when the runner stopped has been discarded. */
  lemma ExitedHoldNothing(limit: nat, threads: nat, es: seq<Event>, id: nat)
    requires AllExited(Run(limit, threads, es).workers)
    ensures !HeldIn(Run(limit, threads, es).ledger, id) && id !in Run(limit, threads, es).ledger.slots
  {
    RunHeld(limit, threads, es);
  }

  /** Outside the workers nobody is in enqueue(), discard() or retire() with this work. */
  predicate NobodyMidway(l: L.Ledger, id: nat) {
    !L.In(l, id, L.Counted) && !L.In(l, id, L.Refused) && !L.In(l, id, L.Dropped) && !L.In(l, id, L.Ending)
  }

  /** Once stop() has emptied the queue and nobody is in the middle of enqueue(), discard() or
      retire(), every work ever counted in has been retired, wherever it was when the runner
      stopped, and all counters are back to zero. */
  lemma StopRetiresEverything(limit: nat, threads: nat, es: seq<Event>)
    requires Run(limit, threads, es).ledger.flags.swapped
    requires forall id :: NobodyMidway(Run(limit, threads, es).ledger, id)
    ensures var l := Run(limit, threads, es).ledger;
      && (forall id :: id in l.phase ==> id in l.retirements)
      && Distinct(l.retirements) && l.counters == L.Counters(0, 0, 0)
  {
    var l := Run(limit, threads, es).ledger;
    var les := RunIsLedgerRun(limit, threads, es);
    RunHeld(limit, threads, es);
    L.RunSwept(limit, les);
    L.CountersAreTrue(limit, les);
    L.RetirementsAreUnique(limit, les);
    forall id | id in l.phase
      ensures L.In(l, id, L.Retired)
    {
      ExitedHoldNothing(limit, threads, es, id);
      assert !L.In(l, id, L.Waiting) && NobodyMidway(l, id);
    }
    forall id
      ensures id !in l.slots
    {
      ExitedHoldNothing(limit, threads, es, id);
    }
    assert L.Queued(l.phase) == {} && L.Live(l.phase) == {} && l.slots == {};
  }

  // ---------------------------------------------------------------- nobody gets stuck

  predicate Over(l: L.Ledger, id: nat) {
    L.In(l, id, L.Ending) || L.In(l, id, L.Retired)
  }

  /** Where a worker stands says where its work is. */
  predicate StageTrue(l: L.Ledger, k: Worker) {
    match k.stage
    case Starting(x) => L.In(l, x, L.Taken) || L.In(l, x, L.Beginning) || Over(l, x)
    case Releasing(x) => Over(l, x)
    case Discarding(n) => n <= |k.residents| && (n > 0 ==> Over(l, k.residents[n - 1]))
    case _ => true
  }

  /** No two workers start the same work. */
  predicate StartersDiffer(workers: seq<Worker>) {
    forall w, v :: 0 <= w < v < |workers| && workers[w].stage.Starting? && workers[v].stage.Starting? ==>
      workers[w].stage.id != workers[v].stage.id
  }

  lemma OverStays(l: L.Ledger, e: L.Event, id: nat)
    requires Over(l, id)
    ensures Over(L.Apply(l, e), id)
  {
  }

  lemma FinishEnds(l: L.Ledger, id: nat)
    requires Begun(l, id)
    ensures Over(L.Apply(l, L.Finish(id)), id)
  {
  }

  /** A step of the ledger that is not a worker's beginning of x leaves the stage true. */
  lemma StageKept(l: L.Ledger, k: Worker, e: L.Event)
    requires StageTrue(l, k)
    requires e.BeginSucceeds? && k.stage.Starting? ==> e.id != k.stage.id
    ensures StageTrue(L.Apply(l, e), k)
  {
    match k.stage
    case Starting(x) => if Over(l, x) { OverStays(l, e, x); }
    case Releasing(x) => OverStays(l, e, x);
    case Discarding(n) => if n > 0 { OverStays(l, e, k.residents[n - 1]); }
    case _ =>
  }

  lemma OwnStageStep(r: Runner, e: Event)
    requires Enabled(r, e) && !e.Elsewhere? && !e.Swap?
    requires StageTrue(r.ledger, r.workers[e.w]) && ResidentsBegun(r.ledger, r.workers[e.w])
    ensures StageTrue(Apply(r, e).ledger, Apply(r, e).workers[e.w])
  {
    if e.TakeWork? || e.BeginWork? || e.BeginFailed? {
      StartingStageStep(r, e);
    } else if e.ReleaseAt? || e.DiscardNext? {
      FinishingStageStep(r, e);
    }
  }

  lemma FinishingStageStep(r: Runner, e: Event)
    requires Enabled(r, e) && (e.ReleaseAt? || e.DiscardNext?)
    requires StageTrue(r.ledger, r.workers[e.w]) && ResidentsBegun(r.ledger, r.workers[e.w])
    ensures StageTrue(Apply(r, e).ledger, Apply(r, e).workers[e.w])
  {
    var k := r.workers[e.w];
    FinishEnds(r.ledger, if e.ReleaseAt? then k.residents[e.i] else k.residents[k.stage.next]);
  }

  lemma StartingStageStep(r: Runner, e: Event)
    requires Enabled(r, e) && (e.TakeWork? || e.BeginWork? || e.BeginFailed?)
    ensures StageTrue(Apply(r, e).ledger, Apply(r, e).workers[e.w])
  {
    var k := r.workers[e.w];
    if e.BeginWork? {
      StartingStep(r.ledger, k.stage.id, L.Begin(k.stage.id));
    } else if e.BeginFailed? {
      StartingStep(r.ledger, k.stage.id, L.BeginFails(k.stage.id));
    }
  }

  lemma StartingStep(l: L.Ledger, x: nat, e: L.Event)
    requires (e == L.Begin(x) && L.In(l, x, L.Taken)) || (e == L.BeginFails(x) && L.In(l, x, L.Beginning))
    ensures L.In(L.Apply(l, e), x, if e.Begin? then L.Beginning else L.Ending)
  {
  }

  ghost predicate Placed(r: Runner) {
    && StartersDiffer(r.workers)
    && forall w :: 0 <= w < |r.workers| ==> StageTrue(r.ledger, r.workers[w]) && ResidentsBegun(r.ledger, r.workers[w])
  }

  lemma OtherStageStep(r: Runner, e: Event, v: nat)
    requires Enabled(r, e) && Placed(r) && v < |r.workers|
    requires !e.Elsewhere? && !e.Swap? ==> e.w != v
    ensures StageTrue(Apply(r, e).ledger, Apply(r, e).workers[v])
  {
    if LedgerPart(r, e) != [] {
      StageKept(r.ledger, r.workers[v], LedgerPart(r, e)[0]);
    }
  }

  lemma StartersStep(r: Runner, e: Event)
    requires Placed(r)
    ensures StartersDiffer(Apply(r, e).workers)
  {
    if Enabled(r, e) && e.TakeWork? {
      assert forall v :: 0 <= v < |r.workers| && r.workers[v].stage.Starting? ==>
          StageTrue(r.ledger, r.workers[v]) && r.workers[v].stage.id != e.id;
    }
  }

  lemma PlacedStep(r: Runner, e: Event)
    requires Placed(r)
    ensures Placed(Apply(r, e))
  {
    StartersStep(r, e);
    forall v | 0 <= v < |r.workers|
      ensures StageTrue(Apply(r, e).ledger, Apply(r, e).workers[v])
      ensures ResidentsBegun(Apply(r, e).ledger, Apply(r, e).workers[v])
    {
      BegunStep(r, e, v);
      if Enabled(r, e) {
        if !e.Elsewhere? && !e.Swap? && e.w == v {
          OwnStageStep(r, e);
        } else {
          OtherStageStep(r, e, v);
        }
      }
    }
  }

  lemma {:induction false} RunPlaced(limit: nat, threads: nat, es: seq<Event>)
    ensures Placed(Run(limit, threads, es))
  {
    if es != [] {
      RunPlaced(limit, threads, es[..|es| - 1]);
      PlacedStep(Run(limit, threads, es[..|es| - 1]), es[|es| - 1]);
    }
  }

  /** After the runner has stopped, every worker that has not exited can take its next step, or is
      inside retire() for a work that is ending: the joins in stop() wait for nothing else. */
  lemma WorkersGoOn(limit: nat, threads: nat, es: seq<Event>, w: nat) returns (e: Event)
    requires var r := Run(limit, threads, es);
      w < |r.workers| && !r.workers[w].stage.Exited? && !r.ledger.flags.running
    ensures var r := Run(limit, threads, es);
      Enabled(r, e) && ((!e.Elsewhere? && !e.Swap? && e.w == w) ||
      (e.Elsewhere? && e.e.Retire? && L.In(r.ledger, e.e.id, L.Ending)))
  {
    RunPlaced(limit, threads, es);
    var r := Run(limit, threads, es);
    var l, k := r.ledger, r.workers[w];
    assert StageTrue(l, k);
    match k.stage
    case Looping => e := LeaveLoop(w);
    case Asking => e := TakeNothing(w);
    case Starting(x) =>
      e := if L.In(l, x, L.Taken) then BeginWork(w) else if L.In(l, x, L.Beginning) then BeginDone(w)
           else if L.In(l, x, L.Ending) then Elsewhere(L.Retire(x)) else ReleaseSlot(w);
    case Stepping(_) => e := ReleaseSlot(w);
    case Releasing(x) => e := if L.In(l, x, L.Ending) then Elsewhere(L.Retire(x)) else ReleaseDone(w);
    case Discarding(n) =>
      e := if n > 0 && L.In(l, k.residents[n - 1], L.Ending) then Elsewhere(L.Retire(k.residents[n - 1]))
           else if n < |k.residents| then DiscardNext(w) else Exit(w);
  }

  // ---------------------------------------------------------------- and everybody gets out

  predicate Own(e: Event, w: nat) {
    !e.Elsewhere? && !e.Swap? && e.w == w
  }

  /** A bound on the steps a worker has left once the runner has stopped. */
  function Rank(l: L.Ledger, k: Worker): nat {
    var n := 3 * |k.residents|;
    match k.stage
    case Exited => 0
    case Discarding(next) => if next <= |k.residents| then 1 + |k.residents| - next else 1
    case Looping => n + 2
    case Releasing(_) => n + 3
    case Stepping(_) => n + 3
    case Starting(x) => n + (if L.In(l, x, L.Taken) then 9 else if L.In(l, x, L.Beginning) then 8 else 7)
    case Asking => n + 10
  }

  lemma OwnRankStep(r: Runner, e: Event)
    requires Enabled(r, e) && !e.Elsewhere? && !e.Swap? && !r.ledger.flags.running
    ensures Rank(Apply(r, e).ledger, Apply(r, e).workers[e.w]) < Rank(r.ledger, r.workers[e.w])
  {
    var k := r.workers[e.w];
    if e.BeginWork? || e.BeginFailed? {
      var le := if e.BeginWork? then L.Begin(k.stage.id) else L.BeginFails(k.stage.id);
      StartingStep(r.ledger, k.stage.id, le);
      assert Apply(r, e).ledger == L.Apply(r.ledger, le) && Apply(r, e).workers[e.w] == k;
    } else {
      PlainRankStep(r.ledger, Apply(r, e).ledger, k, e);
    }
  }

  lemma PlainRankStep(l: L.Ledger, l': L.Ledger, k: Worker, e: Event)
    requires !e.Elsewhere? && !e.Swap? && !e.BeginWork? && !e.BeginFailed? && !l.flags.running
    requires WorkerEnabled(l, k, e)
    ensures Rank(l', WorkerPart(k, e)) < Rank(l, k)
  {
  }

  /** No step of the ledger takes a work back to an earlier phase of starting. */
  lemma LedgerRankStep(l: L.Ledger, k: Worker, e: L.Event)
    requires StageTrue(l, k)
    ensures Rank(L.Apply(l, e), k) <= Rank(l, k)
  {
    if k.stage.Starting? && Over(l, k.stage.id) {
      OverStays(l, e, k.stage.id);
    }
  }

  lemma RankStep(r: Runner, e: Event, w: nat)
    requires Placed(r) && w < |r.workers| && !r.ledger.flags.running
    ensures var r' := Apply(r, e);
      && |r'.workers| == |r.workers| && !r'.ledger.flags.running
      && Rank(r'.ledger, r'.workers[w]) + (if Own(e, w) && Enabled(r, e) then 1 else 0) <= Rank(r.ledger, r.workers[w])
  {
    if Enabled(r, e) {
      if LedgerPart(r, e) != [] {
        StoppedStays(r.ledger, LedgerPart(r, e)[0]);
      }
      if Own(e, w) {
        OwnRankStep(r, e);
      } else if LedgerPart(r, e) != [] {
        LedgerRankStep(r.ledger, r.workers[w], LedgerPart(r, e)[0]);
      }
    }
  }

  lemma StoppedStays(l: L.Ledger, e: L.Event)
    requires !l.flags.running
    ensures !L.Apply(l, e).flags.running
  {
  }

  lemma {:induction false} CrewStays(limit: nat, threads: nat, es: seq<Event>)
    ensures |Run(limit, threads, es).workers| == threads
  {
    if es != [] {
      CrewStays(limit, threads, es[..|es| - 1]);
    }
  }

  /** How many of its own steps worker w takes after the first n events. */
  function OwnSteps(limit: nat, threads: nat, es: seq<Event>, n: nat, w: nat): nat {
    if |es| <= n then 0
    else
      var m := |es| - 1;
      OwnSteps(limit, threads, es[..m], n, w) +
      (if Own(es[m], w) && Enabled(Run(limit, threads, es[..m]), es[m]) then 1 else 0)
  }

  ghost predicate Bounded(limit: nat, threads: nat, es: seq<Event>, n: nat, w: nat)
    requires n <= |es| && w < threads
  {
    var was, now := Run(limit, threads, es[..n]), Run(limit, threads, es);
    && w < |was.workers| && w < |now.workers| && !now.ledger.flags.running
    && OwnSteps(limit, threads, es, n, w) + Rank(now.ledger, now.workers[w]) <= Rank(was.ledger, was.workers[w])
  }

  lemma {:induction false} StaysBounded(limit: nat, threads: nat, es: seq<Event>, n: nat, w: nat)
    requires n <= |es| && w < threads && !Run(limit, threads, es[..n]).ledger.flags.running
    ensures Bounded(limit, threads, es, n, w)
  {
    CrewStays(limit, threads, es[..n]);
    if n == |es| {
      assert es[..n] == es;
    } else {
      var m := |es| - 1;
      assert es[..m][..n] == es[..n];
      StaysBounded(limit, threads, es[..m], n, w);
      RunPlaced(limit, threads, es[..m]);
      RankStep(Run(limit, threads, es[..m]), es[m], w);
    }
  }

  lemma RankRange(l: L.Ledger, k: Worker)
    ensures Rank(l, k) == 0 <==> k.stage.Exited?
    ensures Rank(l, k) <= 3 * |k.residents| + 10
  {
  }

  /** After the stop a worker takes at most Rank steps of its own, which is at most ten and three for
      each of its residents; when it has used them up it has exited. With WorkersGoOn every
      worker gets out, so the joins in stop() return. */
  lemma WorkersGetOut(limit: nat, threads: nat, es: seq<Event>, n: nat, w: nat)
    requires n <= |es| && w < threads && !Run(limit, threads, es[..n]).ledger.flags.running
    ensures Bounded(limit, threads, es, n, w)
    ensures var now := Run(limit, threads, es); Rank(now.ledger, now.workers[w]) == 0 <==> now.workers[w].stage.Exited?
    ensures var was := Run(limit, threads, es[..n]);
      Rank(was.ledger, was.workers[w]) <= 3 * |was.workers[w].residents| + 10
  {
    StaysBounded(limit, threads, es, n, w);
    var was, now := Run(limit, threads, es[..n]), Run(limit, threads, es);
    RankRange(was.ledger, was.workers[w]);
    RankRange(now.ledger, now.workers[w]);
  }

  lemma RunThen(limit: nat, threads: nat, es: seq<Event>, e: Event)
    ensures Run(limit, threads, es + [e]) == Apply(Run(limit, threads, es), e)
  {
    assert (es + [e])[..|es|] == es;
  }

  lemma ExitedStays(r: Runner, e: Event, v: nat)
    requires v < |r.workers| && r.workers[v].stage.Exited?
    ensures v < |Apply(r, e).workers| && Apply(r, e).workers[v] == r.workers[v]
  {
  }

  lemma RetireLessens(l: L.Ledger, x: nat)
    requires L.In(l, x, L.Ending)
    ensures |L.Live(L.Apply(l, L.Retire(x)).phase)| < |L.Live(l.phase)|
  {
    L.QueuedMove(l.phase, x, L.Retired);
    L.SizeAfter(L.Live(l.phase), x);
  }

  /** The runner is still stopped, and who had exited still has. */
  predicate ExitsKept(r: Runner, r': Runner, threads: nat) {
    && |r.workers| == |r'.workers| == threads && !r'.ledger.flags.running
    && forall v :: 0 <= v < threads && r.workers[v].stage.Exited? ==> r'.workers[v].stage.Exited?
  }

  lemma Nearer(limit: nat, threads: nat, es: seq<Event>, w: nat) returns (e: Event)
    requires var r := Run(limit, threads, es);
      w < threads == |r.workers| && !r.ledger.flags.running && !r.workers[w].stage.Exited?
    ensures var r, r' := Run(limit, threads, es), Run(limit, threads, es + [e]);
      && ExitsKept(r, r', threads)
      && Rank(r'.ledger, r'.workers[w]) <= Rank(r.ledger, r.workers[w])
      && (Rank(r'.ledger, r'.workers[w]) == Rank(r.ledger, r.workers[w]) ==>
            |L.Live(r'.ledger.phase)| < |L.Live(r.ledger.phase)|)
  {
    var r := Run(limit, threads, es);
    e := WorkersGoOn(limit, threads, es, w);
    RunPlaced(limit, threads, es);
    RunThen(limit, threads, es, e);
    RankStep(r, e, w);
    if e.Elsewhere? {
      RetireLessens(r.ledger, e.e.id);
    }
    forall v | 0 <= v < threads && r.workers[v].stage.Exited?
      ensures Apply(r, e).workers[v].stage.Exited?
    {
      ExitedStays(r, e, v);
    }
  }

  /** After the stop there are steps that bring a worker out, and they take no other worker back. */
  lemma {:induction false} WorkerCanExit(limit: nat, threads: nat, es: seq<Event>, w: nat) returns (tail: seq<Event>)
    requires w < threads && !Run(limit, threads, es).ledger.flags.running
    requires |Run(limit, threads, es).workers| == threads
    ensures ExitsKept(Run(limit, threads, es), Run(limit, threads, es + tail), threads)
    ensures Run(limit, threads, es + tail).workers[w].stage.Exited?
    decreases Rank(Run(limit, threads, es).ledger, Run(limit, threads, es).workers[w]),
      |L.Live(Run(limit, threads, es).ledger.phase)|
  {
    var r := Run(limit, threads, es);
    if r.workers[w].stage.Exited? {
      tail := [];
      assert es + tail == es;
    } else {
      var e := Nearer(limit, threads, es, w);
      tail := WorkerCanExit(limit, threads, es + [e], w);
      assert es + ([e] + tail) == (es + [e]) + tail;
      tail := [e] + tail;
    }
  }

  /** From every reachable state after the stop there are steps after which all workers have exited
      and stop() has emptied the queue. */
  lemma StopCanFinish(limit: nat, threads: nat, es: seq<Event>) returns (tail: seq<Event>)
    requires !Run(limit, threads, es).ledger.flags.running
    ensures var r := Run(limit, threads, es + tail); AllExited(r.workers) && r.ledger.flags.swapped
  {
    CrewStays(limit, threads, es);
    tail := [];
    assert es + tail == es;
    for w := 0 to threads
      invariant FirstExited(Run(limit, threads, es + tail), threads, w)
    {
      tail := OneMoreExits(limit, threads, es, tail, w);
    }
    tail := SwapLast(limit, threads, es, tail);
  }

  predicate FirstExited(r: Runner, threads: nat, w: nat) {
    && |r.workers| == threads && !r.ledger.flags.running
    && forall v :: 0 <= v < w && v < threads ==> r.workers[v].stage.Exited?
  }

  lemma OneMoreExits(limit: nat, threads: nat, es: seq<Event>, before: seq<Event>, w: nat) returns (tail: seq<Event>)
    requires w < threads && FirstExited(Run(limit, threads, es + before), threads, w)
    ensures FirstExited(Run(limit, threads, es + tail), threads, w + 1)
  {
    var more := WorkerCanExit(limit, threads, es + before, w);
    assert es + (before + more) == (es + before) + more;
    tail := before + more;
  }

  lemma SwapLast(limit: nat, threads: nat, es: seq<Event>, before: seq<Event>) returns (tail: seq<Event>)
    requires var r := Run(limit, threads, es + before); AllExited(r.workers) && !r.ledger.flags.running
    ensures var r := Run(limit, threads, es + tail); AllExited(r.workers) && r.ledger.flags.swapped
  {
    RunThen(limit, threads, es + before, Swap);
    tail := before + [Swap];
    assert es + tail == (es + before) + [Swap];
  }

  /** What five steps of a looping worker do with a waiting work when the session has room for it: it
      is among the worker's residents and has its execution, and its start slot is free again. */
  predicate TakesIn(r: Runner, w: nat, id: nat)
    requires w < |r.workers|
  {
    var taken := Apply(Apply(r, Ask(w)), TakeWork(w, id));
    var r' := Apply(Apply(Apply(taken, BeginWork(w)), BeginDone(w)), ReleaseSlot(w));
    && r'.workers == r.workers[w := Worker(Looping, r.workers[w].residents + [id])]
    && r'.ledger.phase == r.ledger.phase[id := L.Resident] && r'.ledger.slots == r.ledger.slots
  }

  /** From every reachable state of a running runner a looping worker can take in any waiting work its
      session has room for. */
  lemma WaitingIsTakenIn(limit: nat, threads: nat, es: seq<Event>, w: nat, id: nat)
    requires var r := Run(limit, threads, es);
      w < |r.workers| && r.workers[w].stage.Looping? && L.In(r.ledger, id, L.Waiting) && L.HasRoom(r.ledger)
    ensures TakesIn(Run(limit, threads, es), w, id)
  {
    var les := RunIsLedgerRun(limit, threads, es);
    L.CountersAreTrue(limit, les);
    TakeIn(Run(limit, threads, es), w, id);
  }

  lemma TakeIn(r: Runner, w: nat, id: nat)
    requires w < |r.workers| && r.workers[w].stage.Looping? && L.In(r.ledger, id, L.Waiting)
    requires L.HasRoom(r.ledger) && L.Counting(r.ledger)
    ensures TakesIn(r, w, id)
  {
    var l, k := r.ledger, r.workers[w];
    var taken := Apply(Apply(r, Ask(w)), TakeWork(w, id));
    var l1 := L.Apply(l, L.Take(id));
    WaitingTaken(l, id);
    assert taken == Runner(l1, r.workers[w := Worker(Starting(id), k.residents)]);
    BeginIn(taken, w, id);
    assert taken.workers[w := Worker(Looping, k.residents + [id])]
        == r.workers[w := Worker(Looping, k.residents + [id])];
    assert l.phase[id := L.Taken][id := L.Resident] == l.phase[id := L.Resident];
    assert (l.slots + {id}) - {id} == l.slots;
  }

  lemma BeginIn(r: Runner, w: nat, id: nat)
    requires w < |r.workers| && r.workers[w].stage == Starting(id)
    requires L.In(r.ledger, id, L.Taken) && id in r.ledger.slots
    ensures var r' := Apply(Apply(Apply(r, BeginWork(w)), BeginDone(w)), ReleaseSlot(w));
      && r'.workers == r.workers[w := Worker(Looping, r.workers[w].residents + [id])]
      && r'.ledger.phase == r.ledger.phase[id := L.Resident] && r'.ledger.slots == r.ledger.slots - {id}
  {
    var l, k := r.ledger, r.workers[w];
    var l1 := L.Apply(l, L.Begin(id));
    var begun := Apply(r, BeginWork(w));
    assert begun == Runner(l1, r.workers);
    var done := Apply(begun, BeginDone(w));
    assert done == Runner(L.Apply(l1, L.BeginSucceeds(id)),
                          r.workers[w := Worker(Stepping(id), k.residents + [id])]);
    BegunAndFree(l, id);
  }

  lemma WaitingTaken(l: L.Ledger, id: nat)
    requires L.In(l, id, L.Waiting) && L.HasRoom(l) && L.Counting(l)
    ensures id !in l.slots
    ensures L.Apply(l, L.Take(id)).phase == l.phase[id := L.Taken]
    ensures L.Apply(l, L.Take(id)).slots == l.slots + {id}
  {
  }

  lemma BegunAndFree(l: L.Ledger, id: nat)
    requires L.In(l, id, L.Taken) && id in l.slots
    ensures var l' := L.Apply(L.Apply(L.Apply(l, L.Begin(id)), L.BeginSucceeds(id)), L.ReleaseStart(id));
      && l'.phase == l.phase[id := L.Resident] && l'.slots == l.slots - {id}
      && L.In(L.Apply(l, L.Begin(id)), id, L.Beginning)
  {
  }

  /** What three steps do with a resident that has finished: it is retired and its worker goes on
      without it. */
  predicate LetsOut(r: Runner, w: nat, i: nat)
    requires w < |r.workers| && i < |r.workers[w].residents|
  {
    var k := r.workers[w];
    var id := k.residents[i];
    var r' := Apply(Apply(Apply(r, ReleaseAt(w, i)), Elsewhere(L.Retire(id))), ReleaseDone(w));
    && r'.workers == r.workers[w := Worker(Looping, k.residents[..i] + k.residents[i + 1..])]
    && r'.ledger.phase == r.ledger.phase[id := L.Retired] && r'.ledger.retirements == r.ledger.retirements + [id]
  }

  lemma ResidentIsLetOut(limit: nat, threads: nat, es: seq<Event>, w: nat, i: nat)
    requires var r := Run(limit, threads, es);
      && w < |r.workers| && r.workers[w].stage.Looping? && i < |r.workers[w].residents|
      && L.In(r.ledger, r.workers[w].residents[i], L.Resident)
    ensures LetsOut(Run(limit, threads, es), w, i)
  {
    LetOut(Run(limit, threads, es), w, i);
  }

  lemma LetOut(r: Runner, w: nat, i: nat)
    requires w < |r.workers| && r.workers[w].stage.Looping? && i < |r.workers[w].residents|
    requires L.In(r.ledger, r.workers[w].residents[i], L.Resident)
    ensures LetsOut(r, w, i)
  {
    var l, k := r.ledger, r.workers[w];
    var id := k.residents[i];
    var released := Apply(r, ReleaseAt(w, i));
    assert released == Runner(L.Apply(l, L.Finish(id)), r.workers[w := WorkerPart(k, ReleaseAt(w, i))]);
    var retired := Apply(released, Elsewhere(L.Retire(id)));
    assert retired == Runner(L.Apply(released.ledger, L.Retire(id)), released.workers);
    assert l.phase[id := L.Ending][id := L.Retired] == l.phase[id := L.Retired];
  }

  // ---------------------------------------------------------------- the worker object

  /** The residents for which step() says they have finished, or have not, in order. */
  function Which(residents: seq<nat>, finished: nat -> bool, wanted: bool): seq<nat> {
    if residents == [] then []
    else (if finished(residents[0]) == wanted then [residents[0]] else []) + Which(residents[1..], finished, wanted)
  }

  lemma WhichNext(before: seq<nat>, rest: seq<nat>, finished: nat -> bool, wanted: bool)
    requires rest != []
    ensures var one := if finished(rest[0]) == wanted then [rest[0]] else [];
      before + Which(rest, finished, wanted) == (before + one) + Which(rest[1..], finished, wanted)
  {
  }

  /** Where a pass over the residents stands: kept and released have been looked at, rest has not. */
  predicate Parted(all: seq<nat>, kept: seq<nat>, released: seq<nat>, rest: seq<nat>, finished: nat -> bool) {
    && kept + Which(rest, finished, false) == Which(all, finished, false)
    && released + Which(rest, finished, true) == Which(all, finished, true)
  }

  lemma PartNext(all: seq<nat>, kept: seq<nat>, released: seq<nat>, rest: seq<nat>, finished: nat -> bool)
    requires rest != [] && Parted(all, kept, released, rest, finished)
    ensures if finished(rest[0]) then Parted(all, kept, released + [rest[0]], rest[1..], finished)
      else Parted(all, kept + [rest[0]], released, rest[1..], finished)
  {
    WhichNext(kept, rest, finished, false);
    WhichNext(released, rest, finished, true);
    assert kept + [] == kept && released + [] == released;
  }

  /** So it does with the residents in place: those before the index have been looked at and kept. */
  predicate Passing(all: seq<nat>, residents: seq<nat>, index: nat, released: seq<nat>, rest: seq<nat>,
    finished: nat -> bool)
  {
    index <= |residents| && residents[index..] == rest && Parted(all, residents[..index], released, rest, finished)
  }

  lemma PassBegins(all: seq<nat>, finished: nat -> bool)
    ensures Passing(all, all, 0, [], all, finished)
  {
    assert all[..0] == [] && forall x: seq<nat> :: [] + x == x;
  }

  function Without(s: seq<nat>, i: nat): seq<nat>
    requires i < |s|
  {
    s[..i] + s[i + 1..]
  }

  lemma PassNext(all: seq<nat>, residents: seq<nat>, index: nat, released: seq<nat>, rest: seq<nat>,
    finished: nat -> bool)
    requires index < |residents| && Passing(all, residents, index, released, rest, finished)
    ensures rest != [] &&
      if finished(residents[index])
      then Passing(all, Without(residents, index), index, released + [residents[index]], rest[1..], finished)
      else Passing(all, residents, index + 1, released, rest[1..], finished)
  {
    PartNext(all, residents[..index], released, rest, finished);
    assert residents[index..][1..] == residents[index + 1..];
    assert residents[..index] + [residents[index]] == residents[..index + 1];
    assert Without(residents, index)[..index] == residents[..index];
    assert Without(residents, index)[index..] == residents[index + 1..];
  }

  lemma PassEnds(all: seq<nat>, residents: seq<nat>, index: nat, released: seq<nat>, rest: seq<nat>,
    finished: nat -> bool)
    requires Passing(all, residents, index, released, rest, finished) && index == |residents|
    ensures residents == Which(all, finished, false) && released == Which(all, finished, true)
  {
    assert residents[..index] + [] == residents && released + [] == released;
  }

  function WorkerRun(k: Worker, es: seq<Event>): Worker {
    if es == [] then k else WorkerPart(WorkerRun(k, es[..|es| - 1]), es[|es| - 1])
  }

  lemma WorkerRunSnoc(k: Worker, es: seq<Event>, e: Event)
    ensures WorkerRun(k, es + [e]) == WorkerPart(WorkerRun(k, es), e)
  {
    assert (es + [e])[..|es|] == es;
  }

  /** Releasing steps of worker w alone lead from these residents to those. */
  ghost predicate ByReleasing(residents: seq<nat>, es: seq<Event>, w: nat, left: seq<nat>) {
    WorkerRun(Worker(Looping, residents), es) == Worker(Looping, left) && OnlyReleases(es, w)
  }

  predicate OnlyReleases(es: seq<Event>, w: nat) {
    if es == [] then true
    else
      var n := |es| - 1;
      OnlyReleases(es[..n], w) && (es[n].ReleaseAt? || es[n].ReleaseDone?) && es[n].w == w
  }

  lemma ReleaseOne(residents: seq<nat>, es: seq<Event>, w: nat, left: seq<nat>, i: nat) returns (more: seq<Event>)
    requires ByReleasing(residents, es, w, left) && i < |left|
    ensures ByReleasing(residents, more, w, Without(left, i))
  {
    more := es + [ReleaseAt(w, i)] + [ReleaseDone(w)];
    WorkerRunSnoc(Worker(Looping, residents), es, ReleaseAt(w, i));
    WorkerRunSnoc(Worker(Looping, residents), es + [ReleaseAt(w, i)], ReleaseDone(w));
    assert more[..|es| + 1] == es + [ReleaseAt(w, i)] && (es + [ReleaseAt(w, i)])[..|es|] == es;
  }

  function Times(e: Event, n: nat): seq<Event> {
    if n == 0 then [] else Times(e, n - 1) + [e]
  }

  lemma {:induction false} DiscardsRun(residents: seq<nat>, w: nat, n: nat)
    ensures WorkerRun(Worker(Discarding(0), residents), Times(DiscardNext(w), n)) == Worker(Discarding(n), residents)
  {
    if n > 0 {
      var k, before := Worker(Discarding(0), residents), Times(DiscardNext(w), n - 1);
      DiscardsRun(residents, w, n - 1);
      WorkerRunSnoc(k, before, DiscardNext(w));
      assert Times(DiscardNext(w), n) == before + [DiscardNext(w)];
    }
  }

  /** What a worker holds, updated as its loops go: each method is the named steps of the machine. */
  class ScriptWorker {
    var residents: seq<nat>

    constructor ()
      ensures residents == []
    {
      residents := [];
    }

    /** releaseAt(): the ReleaseAt step. */
    method ReleaseIndex(index: nat, ghost w: nat) returns (id: nat)
      requires index < |residents|
      modifies this
      ensures Worker(Releasing(id), residents) == WorkerPart(Worker(Looping, old(residents)), ReleaseAt(w, index))
      ensures residents == Without(old(residents), index) && id == old(residents)[index]
    {
      id := residents[index];
      residents := residents[..index] + residents[index + 1..];
    }

    /** advance(): ReleaseAt and ReleaseDone steps only, which release exactly the finished residents
        and keep the others in order, although releasing moves the rest forward. */
    method AdvanceAll(finished: nat -> bool, ghost w: nat) returns (released: seq<nat>, ghost es: seq<Event>)
      modifies this
      ensures residents == Which(old(residents), finished, false)
      ensures released == Which(old(residents), finished, true)
      ensures ByReleasing(old(residents), es, w, residents)
    {
      released, es := [], [];
      var index := 0;
      ghost var rest := residents;
      PassBegins(residents, finished);
      while index < |residents|
        invariant index <= |residents| && Passing(old(residents), residents, index, released, rest, finished)
        invariant ByReleasing(old(residents), es, w, residents)
        decreases |rest|
      {
        PassNext(old(residents), residents, index, released, rest, finished);
        if finished(residents[index]) {
          es := ReleaseOne(old(residents), es, w, residents, index);
          var id := ReleaseIndex(index, w);
          released := released + [id];
        } else {
          index := index + 1;
        }
        rest := rest[1..];
      }
      PassEnds(old(residents), residents, index, released, rest, finished);
    }

    /** discardAll(): one DiscardNext step for each resident, in order, and then the exit. */
    method DiscardAll(ghost w: nat) returns (released: seq<nat>)
      modifies this
      ensures released == old(residents)
      ensures WorkerRun(Worker(Discarding(0), released), Times(DiscardNext(w), |released|) + [Exit(w)])
           == Worker(Exited, residents)
    {
      released := [];
      for index := 0 to |residents|
        invariant residents == old(residents) && released == residents[..index]
      {
        released := released + [residents[index]];
      }
      DiscardsRun(residents, w, |residents|);
      WorkerRunSnoc(Worker(Discarding(0), residents), Times(DiscardNext(w), |residents|), Exit(w));
      residents := [];
    }
  }
}
