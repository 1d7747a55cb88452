/** The work ledger of one crawl session and its place in the script runner's queue. A step is
    one region under the session's or the runner's mutex, or one atomic store. */
module Session {
  import opened Common

  /** Where a piece of work is.
      Counted: enqueue() has counted it in; Refused: the runner would not queue it; Waiting: in
      the runner's queue; Dropped: taken out by discard() or stop(); Taken: a worker has it;
      Beginning: beginWork() has counted it out of the queue; Resident: it has an execution;
      Ending: retire() is about to run. */
  datatype Phase = Counted | Refused | Waiting | Dropped | Taken | Beginning | Resident | Ending | Retired

  /** m_queued, m_outstanding and m_starting. */
  datatype Counters = Counters(queued: int, outstanding: int, starting: int)

  /** swept: a discard() ran after the session was cancelled or closed; swapped: stop() has
      emptied the queue. */
  datatype Flags = Flags(running: bool, cancelled: bool, closed: bool, swept: bool, swapped: bool)

  /** m_seen, and the keys for which follow() reported QUEUED. */
  datatype Claims = Claims(seen: set<nat>, followed: seq<nat>)

  /** m_pending's size and m_drained_reported; owed: threads about to call
      reportDrainedIfIdle(); began: something was ever counted in. */
  datatype Drain = Drain(pending: nat, reported: bool, owed: nat, began: bool)

  datatype Ledger = Ledger(
    limit: nat,
    phase: map<nat, Phase>,
    slots: set<nat>,
    counters: Counters,
    flags: Flags,
    claims: Claims,
    drain: Drain,
    retirements: seq<nat>)

  datatype Event =
    | CountIn(id: nat, key: nat)
    | Offer(id: nat)                  // ScriptRunner::submit
    | Take(id: nat)
    | Begin(id: nat)
    | BeginFails(id: nat)
    | BeginSucceeds(id: nat)
    | ReleaseStart(id: nat)
    | Finish(id: nat)                 // releaseWork
    | CountOut(id: nat)               // the first region of retireQueued
    | Retire(id: nat)
    | Cancel
    | Close
    | Discard
    | StopRunning
    | SwapQueue
    | Explore(key: nat)               // follow() finds it imported already
    | Claim(key: nat)                 // follow() claims the key
    | Track(id: nat)                  // a request or an import of this work
    | Untrack                         // settle(), or deliver() after the runner stopped
    | Abandon(id: nat, n: nat)
    | Report

  // ---------------------------------------------------------------- regions

  predicate In(l: Ledger, id: nat, phase: Phase) {
    id in l.phase && l.phase[id] == phase
  }

  function Move(l: Ledger, id: nat, phase: Phase): Ledger {
    l.(phase := l.phase[id := phase])
  }

  function Decreased(n: int): int {
    if n > 0 then n - 1 else n
  }

  predicate Accepts(f: Flags) {
    !f.cancelled && !f.closed
  }

  function Dropping(phase: map<nat, Phase>): map<nat, Phase> {
    map id | id in phase :: if phase[id] == Waiting then Dropped else phase[id]
  }

  function ApplyWork(l: Ledger, e: Event): Ledger {
    match e
    case CountIn(id, key) =>
      if id in l.phase then l
      else
        Move(l, id, Counted).(
          counters := l.counters.(queued := l.counters.queued + 1, outstanding := l.counters.outstanding + 1),
          claims := l.claims.(seen := l.claims.seen + {key}),
          drain := l.drain.(reported := false, began := true))
    case Offer(id) =>
      if In(l, id, Counted) then Move(l, id, if l.flags.running && Accepts(l.flags) then Waiting else Refused) else l
    case Take(id) =>
      if In(l, id, Waiting) && Accepts(l.flags) && l.drain.pending + l.counters.starting < l.limit then
        Move(l, id, Taken).(slots := l.slots + {id}, counters := l.counters.(starting := l.counters.starting + 1))
      else l
    case Begin(id) =>
      if In(l, id, Taken) then
        Move(l, id, Beginning).(counters := l.counters.(queued := Decreased(l.counters.queued))) else l
    case BeginFails(id) => if In(l, id, Beginning) then Move(l, id, Ending) else l
    case BeginSucceeds(id) => if In(l, id, Beginning) then Move(l, id, Resident) else l
    case ReleaseStart(id) =>
      if id in l.slots then
        l.(slots := l.slots - {id}, counters := l.counters.(starting := Decreased(l.counters.starting)))
      else l
    case Finish(id) => if In(l, id, Resident) then Move(l, id, Ending) else l
    case CountOut(id) =>
      if In(l, id, Refused) || In(l, id, Dropped) then
        Move(l, id, Ending).(counters := l.counters.(queued := Decreased(l.counters.queued)))
      else l
    case Retire(id) =>
      if In(l, id, Ending) then
        Move(l, id, Retired).(
          counters := l.counters.(outstanding := l.counters.outstanding - 1),
          drain := l.drain.(owed := l.drain.owed + 1),
          retirements := l.retirements + [id])
      else l
    case _ => l
  }

  function Apply(l: Ledger, e: Event): Ledger {
    match e
    case Cancel => l.(flags := l.flags.(cancelled := true))
    case Close => l.(flags := l.flags.(closed := true))
    case StopRunning => l.(flags := l.flags.(running := false))
    case Discard => l.(phase := Dropping(l.phase), flags := l.flags.(swept := l.flags.swept || !Accepts(l.flags)))
    case SwapQueue =>
      if l.flags.running then l else l.(phase := Dropping(l.phase), flags := l.flags.(swapped := true))
    case Explore(key) => l.(claims := l.claims.(seen := l.claims.seen + {key}))
    case Claim(key) =>
      if key in l.claims.seen then l
      else l.(claims := Claims(l.claims.seen + {key}, l.claims.followed + [key]))
    case Track(id) =>
      if In(l, id, Beginning) || In(l, id, Resident) then l.(drain := l.drain.(pending := l.drain.pending + 1)) else l
    case Untrack =>
      if l.drain.pending == 0 then l
      else l.(drain := l.drain.(pending := l.drain.pending - 1, owed := l.drain.owed + 1))
    case Abandon(id, n) =>
      if n <= l.drain.pending && (In(l, id, Beginning) || In(l, id, Resident)) then
        l.(drain := l.drain.(pending := l.drain.pending - n))
      else l
    case Report =>
      if l.drain.owed == 0 then l
      else
        l.(drain := l.drain.(
           owed := l.drain.owed - 1,
           reported := l.drain.reported || (l.counters.outstanding == 0 && l.drain.pending == 0)))
    case _ => ApplyWork(l, e)
  }

  function Start(limit: nat): Ledger {
    Ledger(limit, map[], {}, Counters(0, 0, 0), Flags(true, false, false, false, false),
           Claims({}, []), Drain(0, false, 0, false), [])
  }

  /** limit: the session's inflight_requests option. */
  function Run(limit: nat, es: seq<Event>): Ledger {
    if es == [] then Start(limit) else Apply(Run(limit, es[..|es| - 1]), es[|es| - 1])
  }

  // ---------------------------------------------------------------- the counters count

  predicate InQueuePhase(p: Phase) {
    p.Counted? || p.Refused? || p.Waiting? || p.Dropped? || p.Taken?
  }

  predicate Started(p: Phase) {
    p.Taken? || p.Beginning? || p.Resident? || p.Ending? || p.Retired?
  }

  function Queued(phase: map<nat, Phase>): set<nat> {
    set id | id in phase && InQueuePhase(phase[id])
  }

  function Live(phase: map<nat, Phase>): set<nat> {
    set id | id in phase && phase[id] != Retired
  }

  predicate WorkCounted(l: Ledger) {
    l.counters.queued == |Queued(l.phase)| && l.counters.outstanding == |Live(l.phase)|
  }

  predicate StartsCounted(l: Ledger) {
    && l.counters.starting == |l.slots| <= l.limit
    && (forall id :: id in l.slots ==> id in l.phase && Started(l.phase[id]))
  }

  predicate Counting(l: Ledger) {
    WorkCounted(l) && StartsCounted(l)
  }

  lemma QueuedMove(phase: map<nat, Phase>, id: nat, p: Phase)
    ensures Queued(phase[id := p]) == if InQueuePhase(p) then Queued(phase) + {id} else Queued(phase) - {id}
    ensures Live(phase[id := p]) == if p != Retired then Live(phase) + {id} else Live(phase) - {id}
  {
  }

  lemma SizeAfter(s: set<nat>, id: nat)
    ensures |s + {id}| == if id in s then |s| else |s| + 1
    ensures |s - {id}| == if id in s then |s| - 1 else |s|
  {
    if id in s {
      assert s + {id} == s;
    } else {
      assert s - {id} == s;
    }
  }

  lemma DroppingCounts(phase: map<nat, Phase>)
    ensures Queued(Dropping(phase)) == Queued(phase) && Live(Dropping(phase)) == Live(phase)
  {
  }

  lemma CountingMove(phase: map<nat, Phase>, id: nat, p: Phase)
    requires id in phase
    ensures var m := phase[id := p];
      && |Queued(m)| - |Queued(phase)| ==
         (if InQueuePhase(p) then 1 else 0) - (if InQueuePhase(phase[id]) then 1 else 0)
      && |Live(m)| - |Live(phase)| == (if p != Retired then 1 else 0) - (if phase[id] != Retired then 1 else 0)
  {
    QueuedMove(phase, id, p);
    SizeAfter(Queued(phase), id);
    SizeAfter(Live(phase), id);
  }

  /** What a step does to the phase of the one work it is about. */
  lemma PhaseStep(l: Ledger, e: Event) returns (id: nat, p: Phase)
    ensures ApplyWork(l, e).phase == l.phase || ApplyWork(l, e).phase == l.phase[id := p]
    ensures ApplyWork(l, e).phase != l.phase && id in l.phase ==>
      && ApplyWork(l, e).counters.queued ==
         (if InQueuePhase(l.phase[id]) && !InQueuePhase(p) then Decreased(l.counters.queued) else l.counters.queued)
      && ApplyWork(l, e).counters.outstanding ==
         (if p == Retired then l.counters.outstanding - 1 else l.counters.outstanding)
      && l.phase[id] != Retired && (InQueuePhase(p) ==> InQueuePhase(l.phase[id]))
      && (Started(l.phase[id]) ==> Started(p))
    ensures ApplyWork(l, e).phase != l.phase && id !in l.phase ==>
      && ApplyWork(l, e).counters.queued == l.counters.queued + 1
      && ApplyWork(l, e).counters.outstanding == l.counters.outstanding + 1 && p == Counted
    ensures ApplyWork(l, e).phase == l.phase ==>
      && ApplyWork(l, e).counters.queued == l.counters.queued
      && ApplyWork(l, e).counters.outstanding == l.counters.outstanding
  {
    id, p := 0, Counted;
    match e
    case CountIn(i, _) => id := i;
    case Offer(i) => id, p := i, if l.flags.running && Accepts(l.flags) then Waiting else Refused;
    case Take(i) => id, p := i, Taken;
    case Begin(i) => id, p := i, Beginning;
    case BeginFails(i) => id, p := i, Ending;
    case BeginSucceeds(i) => id, p := i, Resident;
    case Finish(i) => id, p := i, Ending;
    case CountOut(i) => id, p := i, Ending;
    case Retire(i) => id, p := i, Retired;
    case _ =>
  }

  lemma WorkStep(l: Ledger, e: Event)
    requires WorkCounted(l)
    ensures WorkCounted(ApplyWork(l, e))
  {
    var id, p := PhaseStep(l, e);
    if ApplyWork(l, e).phase != l.phase {
      if id in l.phase {
        CountingMove(l.phase, id, p);
      } else {
        QueuedMove(l.phase, id, p);
        SizeAfter(Queued(l.phase), id);
        SizeAfter(Live(l.phase), id);
      }
    }
  }

  lemma SlotsStay(l: Ledger, e: Event)
    requires !e.Take? && !e.ReleaseStart?
    ensures var l' := ApplyWork(l, e);
      l'.slots == l.slots && l'.counters.starting == l.counters.starting && l'.limit == l.limit
  {
  }

  lemma SlotsStep(l: Ledger, e: Event)
    requires StartsCounted(l)
    ensures var l' := ApplyWork(l, e); l'.counters.starting == |l'.slots| <= l'.limit
    ensures var l' := ApplyWork(l, e); forall id :: id in l'.slots ==> id in l.slots || In(l', id, Taken)
  {
    match e
    case Take(id) =>
      SizeAfter(l.slots, id);
      assert id in l.slots ==> !In(l, id, Waiting);
    case ReleaseStart(id) => SizeAfter(l.slots, id);
    case _ => SlotsStay(l, e);
  }

  lemma StartsStep(l: Ledger, e: Event)
    requires StartsCounted(l)
    ensures StartsCounted(ApplyWork(l, e))
  {
    SlotsStep(l, e);
    var id, p := PhaseStep(l, e);
  }

  lemma CountingStep(l: Ledger, e: Event)
    requires Counting(l)
    ensures Counting(Apply(l, e))
  {
    if e.Discard? || e.SwapQueue? {
      DroppingCounts(l.phase);
    } else {
      WorkStep(l, e);
      StartsStep(l, e);
    }
  }

  /** In every run the three counters are the true numbers of live works, of works not begun
      yet, and of reserved start slots, so none of their decrements is ever lost. */
  lemma {:induction false} CountersAreTrue(limit: nat, es: seq<Event>)
    ensures Counting(Run(limit, es))
  {
    if es != [] {
      CountersAreTrue(limit, es[..|es| - 1]);
      CountingStep(Run(limit, es[..|es| - 1]), es[|es| - 1]);
    }
  }

  // ---------------------------------------------------------------- retired exactly once

  ghost predicate RetiredOnce(l: Ledger) {
    Distinct(l.retirements) && forall id :: id in l.retirements <==> In(l, id, Retired)
  }

  lemma RetiredStep(l: Ledger, e: Event)
    requires RetiredOnce(l)
    ensures RetiredOnce(Apply(l, e))
  {
    var l' := Apply(l, e);
    if e.Retire? && In(l, e.id, Ending) {
      assert e.id !in l.retirements;
      assert l'.retirements == l.retirements + [e.id];
    } else {
      assert l'.retirements == l.retirements;
      assert forall id :: In(l', id, Retired) <==> In(l, id, Retired);
    }
  }

  /** No work is retired twice, and a work is retired when its phase says so. */
  lemma {:induction false} RetirementsAreUnique(limit: nat, es: seq<Event>)
    ensures RetiredOnce(Run(limit, es))
  {
    if es != [] {
      RetirementsAreUnique(limit, es[..|es| - 1]);
      RetiredStep(Run(limit, es[..|es| - 1]), es[|es| - 1]);
    }
  }

  // ---------------------------------------------------------------- the way of a work

  /** A work is queued exactly when the runner runs and the session is neither cancelled nor closed,
      and refused otherwise. */
  lemma OfferDecides(limit: nat, es: seq<Event>, id: nat)
    requires In(Run(limit, es), id, Counted)
    ensures var l, l' := Run(limit, es), Run(limit, es + [Offer(id)]);
      && (In(l', id, Waiting) <==> l.flags.running && !l.flags.cancelled && !l.flags.closed)
      && (!In(l', id, Waiting) ==> In(l', id, Refused))
  {
    RunSnoc(limit, es, Offer(id));
  }

  /** A queued work may start exactly when its session takes work and its pending requests and
      reserved slots together are below the limit. */
  lemma TakeDecides(limit: nat, es: seq<Event>, id: nat)
    requires In(Run(limit, es), id, Waiting)
    ensures var l, l' := Run(limit, es), Run(limit, es + [Take(id)]);
      && (In(l', id, Taken) <==>
            !l.flags.cancelled && !l.flags.closed && l.drain.pending + |l.slots| < limit)
      && (In(l', id, Taken) ==> id in l'.slots) && (!In(l', id, Taken) ==> l' == l)
  {
    RunSnoc(limit, es, Take(id));
    CountersAreTrue(limit, es);
    LimitStays(limit, es);
  }

  lemma {:induction false} LimitStays(limit: nat, es: seq<Event>)
    ensures Run(limit, es).limit == limit
  {
    if es != [] {
      LimitStays(limit, es[..|es| - 1]);
      LimitStep(Run(limit, es[..|es| - 1]), es[|es| - 1]);
    }
  }

  lemma LimitStep(l: Ledger, e: Event)
    ensures Apply(l, e).limit == l.limit
  {
  }

  predicate HasRoom(l: Ledger) {
    l.flags.running && Accepts(l.flags) && l.drain.pending + |l.slots| < l.limit
  }

  /** The ledger with this work taken by a worker. */
  function WithTaken(l: Ledger, id: nat, key: nat): Ledger {
    l.(phase := l.phase[id := Taken], slots := l.slots + {id},
       counters := Counters(l.counters.queued + 1, l.counters.outstanding + 1, l.counters.starting + 1),
       claims := l.claims.(seen := l.claims.seen + {key}), drain := l.drain.(reported := false, began := true))
  }

  /** From every reachable state in which the runner runs and the session takes work and has room, a
      new work that is enqueued, offered, taken and begun gets its execution. No other work is
      touched, the slot it started in is free again, and it counts as outstanding and not as queued. */
  lemma WorkReachesItsScript(limit: nat, es: seq<Event>, id: nat, key: nat)
    requires HasRoom(Run(limit, es)) && id !in Run(limit, es).phase
    ensures var taken := es + [CountIn(id, key)] + [Offer(id)] + [Take(id)];
      var l, l' := Run(limit, es), Run(limit, taken + [Begin(id)] + [BeginSucceeds(id)] + [ReleaseStart(id)]);
      && l'.phase == l.phase[id := Resident] && l'.slots == l.slots && l'.retirements == l.retirements
      && l'.counters == l.counters.(outstanding := l.counters.outstanding + 1)
      && l'.flags == l.flags && l'.drain == l.drain.(reported := false, began := true)
  {
    var l := Run(limit, es);
    var taken := es + [CountIn(id, key)] + [Offer(id)] + [Take(id)];
    CountersAreTrue(limit, es);
    SlotUnused(l, id);
    GetsTaken(limit, es, id, key);
    GetsResident(limit, taken, id);
    TakenAndBack(l, id);
  }

  lemma TakenAndBack(l: Ledger, id: nat)
    requires id !in l.slots
    ensures l.phase[id := Taken][id := Resident] == l.phase[id := Resident] && (l.slots + {id}) - {id} == l.slots
  {
  }

  lemma SlotUnused(l: Ledger, id: nat)
    requires Counting(l) && id !in l.phase
    ensures id !in l.slots && l.counters.starting == |l.slots| && l.counters.queued >= 0
  {
  }

  lemma GetsTaken(limit: nat, es: seq<Event>, id: nat, key: nat)
    requires var l := Run(limit, es); HasRoom(l) && id !in l.phase && l.counters.starting == |l.slots|
    ensures Run(limit, es + [CountIn(id, key)] + [Offer(id)] + [Take(id)]) == WithTaken(Run(limit, es), id, key)
  {
    RunSnoc(limit, es, CountIn(id, key));
    RunSnoc(limit, es + [CountIn(id, key)], Offer(id));
    RunSnoc(limit, es + [CountIn(id, key)] + [Offer(id)], Take(id));
    QueuedThenTaken(Run(limit, es), id, key);
  }

  lemma QueuedThenTaken(l: Ledger, id: nat, key: nat)
    requires HasRoom(l) && id !in l.phase && l.counters.starting == |l.slots|
    ensures Apply(Apply(Apply(l, CountIn(id, key)), Offer(id)), Take(id)) == WithTaken(l, id, key)
  {
    assert l.phase[id := Counted][id := Waiting] == l.phase[id := Waiting];
    assert l.phase[id := Waiting][id := Taken] == l.phase[id := Taken];
  }

  lemma GetsResident(limit: nat, es: seq<Event>, id: nat)
    requires var l := Run(limit, es);
      In(l, id, Taken) && id in l.slots && l.counters.queued > 0 && l.counters.starting > 0
    ensures var l := Run(limit, es);
      Run(limit, es + [Begin(id)] + [BeginSucceeds(id)] + [ReleaseStart(id)]) == l.(
        phase := l.phase[id := Resident], slots := l.slots - {id},
        counters := l.counters.(queued := l.counters.queued - 1, starting := l.counters.starting - 1))
  {
    RunSnoc(limit, es, Begin(id));
    RunSnoc(limit, es + [Begin(id)], BeginSucceeds(id));
    RunSnoc(limit, es + [Begin(id)] + [BeginSucceeds(id)], ReleaseStart(id));
    TakenThenResident(Run(limit, es), id);
  }

  lemma TakenThenResident(l: Ledger, id: nat)
    requires In(l, id, Taken) && id in l.slots && l.counters.queued > 0 && l.counters.starting > 0
    ensures Apply(Apply(Apply(l, Begin(id)), BeginSucceeds(id)), ReleaseStart(id)) == l.(
      phase := l.phase[id := Resident], slots := l.slots - {id},
      counters := l.counters.(queued := l.counters.queued - 1, starting := l.counters.starting - 1))
  {
    assert l.phase[id := Beginning][id := Resident] == l.phase[id := Resident];
  }

  /** The work has been retired, and nothing has changed but its counts and one more thread that is
      about to report. */
  predicate RetiredFrom(l: Ledger, l': Ledger, id: nat, counters: Counters) {
    l' == l.(phase := l.phase[id := Retired], retirements := l.retirements + [id], counters := counters,
             drain := l.drain.(owed := l.drain.owed + 1))
  }

  lemma RetiresFrom(l: Ledger, e: Event, id: nat, counters: Counters)
    requires Apply(l, e) == l.(phase := l.phase[id := Ending], counters := counters)
    ensures RetiredFrom(l, Apply(Apply(l, e), Retire(id)), id,
              counters.(outstanding := counters.outstanding - 1))
  {
    assert l.phase[id := Ending][id := Retired] == l.phase[id := Retired];
  }

  lemma RunTwo(limit: nat, es: seq<Event>, a: Event, b: Event)
    ensures Run(limit, es + [a] + [b]) == Apply(Apply(Run(limit, es), a), b)
  {
    RunSnoc(limit, es, a);
    RunSnoc(limit, es + [a], b);
  }

  /** And when its script has finished it is retired, which leaves the counters as they were before
      it came. */
  lemma ScriptIsRetired(limit: nat, es: seq<Event>, id: nat)
    requires In(Run(limit, es), id, Resident)
    ensures var l := Run(limit, es);
      RetiredFrom(l, Run(limit, es + [Finish(id)] + [Retire(id)]), id,
        l.counters.(outstanding := l.counters.outstanding - 1))
  {
    RunTwo(limit, es, Finish(id), Retire(id));
    RetiresFrom(Run(limit, es), Finish(id), id, Run(limit, es).counters);
  }

  /** A work that was refused or dropped is counted out and retired the same way. */
  lemma LeftoverIsRetired(limit: nat, es: seq<Event>, id: nat)
    requires In(Run(limit, es), id, Refused) || In(Run(limit, es), id, Dropped)
    ensures var l := Run(limit, es);
      RetiredFrom(l, Run(limit, es + [CountOut(id)] + [Retire(id)]), id,
        Counters(l.counters.queued - 1, l.counters.outstanding - 1, l.counters.starting))
  {
    var l := Run(limit, es);
    CountersAreTrue(limit, es);
    CountedAmongQueued(l, id);
    RunTwo(limit, es, CountOut(id), Retire(id));
    OutAndRetired(l, id);
  }

  lemma OutAndRetired(l: Ledger, id: nat)
    requires (In(l, id, Refused) || In(l, id, Dropped)) && l.counters.queued > 0
    ensures RetiredFrom(l, Apply(Apply(l, CountOut(id)), Retire(id)), id,
              Counters(l.counters.queued - 1, l.counters.outstanding - 1, l.counters.starting))
  {
    RetiresFrom(l, CountOut(id), id, l.counters.(queued := l.counters.queued - 1));
  }

  lemma CountedAmongQueued(l: Ledger, id: nat)
    requires Counting(l) && (In(l, id, Refused) || In(l, id, Dropped))
    ensures l.counters.queued > 0
  {
    assert id in Queued(l.phase);
  }

  /** A work whose execution could not begin is retired too. */
  lemma FailedStartIsRetired(limit: nat, es: seq<Event>, id: nat)
    requires In(Run(limit, es), id, Beginning)
    ensures var l := Run(limit, es);
      RetiredFrom(l, Run(limit, es + [BeginFails(id)] + [Retire(id)]), id,
        l.counters.(outstanding := l.counters.outstanding - 1))
  {
    RunTwo(limit, es, BeginFails(id), Retire(id));
    RetiresFrom(Run(limit, es), BeginFails(id), id, Run(limit, es).counters);
  }

  /** Cancelling, closing and stopping are for good: after them no work is ever queued again. */
  lemma {:induction false} ShutForGood(limit: nat, es: seq<Event>, e: Event, more: seq<Event>, id: nat)
    requires e.Cancel? || e.Close? || e.StopRunning?
    requires In(Run(limit, es + [e] + more), id, Counted)
    ensures In(Run(limit, es + [e] + more + [Offer(id)]), id, Refused)
  {
    Shut(limit, es, e, more);
    OfferDecides(limit, es + [e] + more, id);
  }

  predicate TakesNothing(l: Ledger) {
    !l.flags.running || l.flags.cancelled || l.flags.closed
  }

  lemma {:induction false} Shut(limit: nat, es: seq<Event>, e: Event, more: seq<Event>)
    requires e.Cancel? || e.Close? || e.StopRunning?
    ensures TakesNothing(Run(limit, es + [e] + more))
  {
    if more == [] {
      assert es + [e] + more == es + [e];
      RunSnoc(limit, es, e);
    } else {
      var n := |more| - 1;
      Shut(limit, es, e, more[..n]);
      assert es + [e] + more == (es + [e] + more[..n]) + [more[n]];
      RunSnoc(limit, es + [e] + more[..n], more[n]);
      ShutStep(Run(limit, es + [e] + more[..n]), more[n]);
    }
  }

  lemma ShutStep(l: Ledger, e: Event)
    requires TakesNothing(l)
    ensures TakesNothing(Apply(l, e))
  {
  }

  // ---------------------------------------------------------------- nothing queued after close

  ghost predicate Swept(l: Ledger) {
    && (l.flags.swept ==> !Accepts(l.flags))
    && (l.flags.swapped ==> !l.flags.running)
    && (l.flags.swept || l.flags.swapped ==> forall id :: !In(l, id, Waiting))
  }

  lemma SweptStep(l: Ledger, e: Event)
    requires Swept(l)
    ensures Swept(Apply(l, e))
  {
    var l' := Apply(l, e);
    forall id | In(l', id, Waiting)
      ensures In(l, id, Waiting) || (l.flags.running && Accepts(l.flags))
      ensures !e.Discard? && (e.SwapQueue? ==> l.flags.running)
    {
    }
  }

  lemma {:induction false} RunSwept(limit: nat, es: seq<Event>)
    ensures Swept(Run(limit, es))
  {
    if es != [] {
      RunSwept(limit, es[..|es| - 1]);
      SweptStep(Run(limit, es[..|es| - 1]), es[|es| - 1]);
    }
  }

  lemma RunSnoc(limit: nat, es: seq<Event>, e: Event)
    ensures Run(limit, es + [e]) == Apply(Run(limit, es), e)
  {
    assert (es + [e])[..|es|] == es;
  }

  lemma RunAt(limit: nat, es: seq<Event>, i: nat)
    requires i < |es|
    ensures Run(limit, es[..i + 1]) == Apply(Run(limit, es[..i]), es[i])
  {
    assert es[..i + 1][..i] == es[..i];
  }

  predicate IsSwept(l: Ledger) {
    l.flags.swept
  }

  lemma FlagStays(l: Ledger, e: Event)
    requires IsSwept(l)
    ensures IsSwept(Apply(l, e))
  {
  }

  lemma StaysSwept(limit: nat, es: seq<Event>, n: nat)
    requires n <= |es| && IsSwept(Run(limit, es[..n]))
    ensures IsSwept(Run(limit, es))
  {
    var i := n;
    while i < |es|
      invariant n <= i <= |es| && IsSwept(Run(limit, es[..i]))
    {
      RunAt(limit, es, i);
      FlagStays(Run(limit, es[..i]), es[i]);
      i := i + 1;
    }
    assert es[..|es|] == es;
  }

  /** Once the discard step of cancel() or close() has run, no work of the session is queued
      and none can become queued, whatever happens afterwards. */
  lemma NothingQueuedAfterClose(limit: nat, es: seq<Event>, more: seq<Event>, id: nat)
    requires !Accepts(Run(limit, es).flags)
    ensures !In(Run(limit, es + [Discard] + more), id, Waiting)
  {
    RunSnoc(limit, es, Discard);
    assert (es + [Discard] + more)[..|es| + 1] == es + [Discard];
    StaysSwept(limit, es + [Discard] + more, |es| + 1);
    RunSwept(limit, es + [Discard] + more);
  }

  // ---------------------------------------------------------------- one QUEUED follow per key

  predicate Claimed(l: Ledger) {
    Distinct(l.claims.followed) && forall key :: key in l.claims.followed ==> key in l.claims.seen
  }

  lemma ClaimedStep(l: Ledger, e: Event)
    requires Claimed(l)
    ensures Claimed(Apply(l, e))
  {
    if e.Claim? && e.key !in l.claims.seen {
      assert e.key !in l.claims.followed;
    }
  }

  /** However many followers race, a comparison key is reported QUEUED at most once in the
      session's life. */
  lemma {:induction false} OneFollowPerKey(limit: nat, es: seq<Event>)
    ensures Distinct(Run(limit, es).claims.followed)
    ensures Claimed(Run(limit, es))
  {
    if es != [] {
      OneFollowPerKey(limit, es[..|es| - 1]);
      ClaimedStep(Run(limit, es[..|es| - 1]), es[|es| - 1]);
    }
  }

  /** The step after the first n is a follower's claim, and that follower reports QUEUED. */
  predicate Wins(limit: nat, es: seq<Event>, n: nat, key: nat) {
    n < |es| && es[n] == Claim(key) && Run(limit, es[..n + 1]).claims.followed != Run(limit, es[..n]).claims.followed
  }

  lemma WinsUnseen(limit: nat, es: seq<Event>, n: nat, key: nat)
    requires n < |es| && es[n] == Claim(key)
    ensures Wins(limit, es, n, key) <==> !Sees(Run(limit, es[..n]), key)
    ensures Wins(limit, es, n, key) ==>
      Run(limit, es[..n + 1]).claims.followed == Run(limit, es[..n]).claims.followed + [key]
  {
    RunAt(limit, es, n);
    ClaimWins(Run(limit, es[..n]), Run(limit, es[..n + 1]), key);
  }

  lemma ClaimWins(l: Ledger, l': Ledger, key: nat)
    requires l' == Apply(l, Claim(key))
    ensures l'.claims.followed == if Sees(l, key) then l.claims.followed else l.claims.followed + [key]
  {
  }

  lemma SeenStays(l: Ledger, e: Event, key: nat)
    ensures Sees(l, key) ==> Sees(Apply(l, e), key)
    ensures Sees(Apply(l, e), key) && !Sees(l, key) ==>
      e == Claim(key) || e == Explore(key) || (e.CountIn? && e.key == key)
  {
  }

  predicate Sees(l: Ledger, key: nat) {
    key in l.claims.seen
  }

  lemma SeenForever(limit: nat, es: seq<Event>, n: nat, key: nat)
    requires n <= |es| && Sees(Run(limit, es[..n]), key)
    ensures Sees(Run(limit, es), key)
  {
    var i := n;
    while i < |es|
      invariant n <= i <= |es| && Sees(Run(limit, es[..i]), key)
    {
      RunAt(limit, es, i);
      SeenStays(Run(limit, es[..i]), es[i], key);
      i := i + 1;
    }
    assert es[..|es|] == es;
  }

  /** Of all the followers of a key that nobody has explored or enqueued before the first of
      them claims it, exactly one wins: that first one. */
  lemma ExactlyOneWins(limit: nat, es: seq<Event>, first: nat, n: nat, key: nat)
    requires first < |es| && es[first] == Claim(key)
    requires forall i :: 0 <= i < first ==>
      es[i] != Claim(key) && es[i] != Explore(key) && !(es[i].CountIn? && es[i].key == key)
    ensures Wins(limit, es, n, key) <==> n == first
  {
    NotSeenYet(limit, es[..first], key);
    WinsUnseen(limit, es, first, key);
    if n < |es| && n != first && es[n] == Claim(key) {
      WinsUnseen(limit, es, n, key);
      if first < n {
        SeenAfterClaim(limit, es, first, n, key);
      }
    }
  }

  lemma SeenAfterClaim(limit: nat, es: seq<Event>, first: nat, n: nat, key: nat)
    requires first < n < |es| && es[first] == Claim(key)
    ensures Sees(Run(limit, es[..n]), key)
  {
    assert es[..n][..first + 1] == es[..first + 1];
    RunAt(limit, es, first);
    SeenForever(limit, es[..n], first + 1, key);
  }

  lemma {:induction false} NotSeenYet(limit: nat, es: seq<Event>, key: nat)
    requires forall i :: 0 <= i < |es| ==>
      es[i] != Claim(key) && es[i] != Explore(key) && !(es[i].CountIn? && es[i].key == key)
    ensures !Sees(Run(limit, es), key)
  {
    if es != [] {
      var m := |es| - 1;
      NotSeenYet(limit, es[..m], key);
      SeenStays(Run(limit, es[..m]), es[m], key);
    }
  }

  /** A key that was explored or enqueued is never won afterwards. */
  lemma SeenIsNotWon(limit: nat, es: seq<Event>, before: nat, n: nat, key: nat)
    requires before < n < |es|
    requires es[before] == Explore(key) || (es[before].CountIn? && es[before].key == key &&
      es[before].id !in Run(limit, es[..before]).phase)
    ensures !Wins(limit, es, n, key)
  {
    if es[n] == Claim(key) {
      RunAt(limit, es, before);
      assert es[..n][..before + 1] == es[..before + 1];
      SeenForever(limit, es[..n], before + 1, key);
      WinsUnseen(limit, es, n, key);
    }
  }

  // ---------------------------------------------------------------- the drained report

  /** Requests tracked by works that have begun, and requests settled or abandoned, in a run. */
  function Tracked(limit: nat, es: seq<Event>): nat {
    if es == [] then 0
    else
      var n := |es| - 1;
      Tracked(limit, es[..n]) + TrackedBy(Run(limit, es[..n]), es[n])
  }

  function TrackedBy(l: Ledger, e: Event): nat {
    if e.Track? && (In(l, e.id, Beginning) || In(l, e.id, Resident)) then 1 else 0
  }

  function Over(limit: nat, es: seq<Event>): nat {
    if es == [] then 0
    else
      var n := |es| - 1;
      Over(limit, es[..n]) + OverBy(Run(limit, es[..n]), es[n])
  }

  function OverBy(l: Ledger, e: Event): nat {
    if e.Untrack? && l.drain.pending > 0 then 1
    else if e.Abandon? && e.n <= l.drain.pending && (In(l, e.id, Beginning) || In(l, e.id, Resident)) then e.n
    else 0
  }

  /** Requests are conserved: in every run those tracked are those settled or abandoned and those
      pending. */
  lemma {:induction false} RequestsConserved(limit: nat, es: seq<Event>)
    ensures Tracked(limit, es) == Over(limit, es) + Run(limit, es).drain.pending
  {
    if es != [] {
      var n := |es| - 1;
      RequestsConserved(limit, es[..n]);
      RequestsStep(Run(limit, es[..n]), es[n]);
    }
  }

  lemma RequestsStep(l: Ledger, e: Event)
    ensures Apply(l, e).drain.pending == l.drain.pending + TrackedBy(l, e) - OverBy(l, e)
  {
  }

  predicate Idle(l: Ledger) {
    l.counters.outstanding == 0 && l.drain.pending == 0
  }

  /** A session that says it has drained has; an idle one that has not said so yet has a thread
      on its way to say it. */
  predicate ReportsTruly(l: Ledger) {
    (l.drain.reported ==> Idle(l)) && (l.drain.began && Idle(l) && !l.drain.reported ==> l.drain.owed > 0)
  }

  lemma ReportsTrulyStep(l: Ledger, e: Event)
    requires Counting(l) && ReportsTruly(l)
    ensures ReportsTruly(Apply(l, e))
  {
    if (e.Abandon? || e.Track? || e.Retire?) && e.id in l.phase && l.phase[e.id] != Retired {
      assert e.id in Live(l.phase);
    }
  }

  lemma {:induction false} RunReportsTruly(limit: nat, es: seq<Event>)
    ensures ReportsTruly(Run(limit, es))
  {
    if es != [] {
      RunReportsTruly(limit, es[..|es| - 1]);
      CountersAreTrue(limit, es[..|es| - 1]);
      ReportsTrulyStep(Run(limit, es[..|es| - 1]), es[|es| - 1]);
    }
  }

  /** As soon as no thread is about to report, a session that ever had work stands reported as
      drained exactly when all its work is retired and no request is pending. */
  lemma DrainIsReported(limit: nat, es: seq<Event>)
    requires Run(limit, es).drain.owed == 0 && Run(limit, es).drain.began
    ensures var l := Run(limit, es);
      l.drain.reported <==> l.drain.pending == 0 && forall id | id in l.phase :: l.phase[id] == Retired
  {
    var l := Run(limit, es);
    RunReportsTruly(limit, es);
    CountersAreTrue(limit, es);
    if forall id | id in l.phase :: l.phase[id] == Retired {
      assert Live(l.phase) == {};
    } else {
      var id :| id in l.phase && l.phase[id] != Retired;
      assert id in Live(l.phase);
    }
  }

  function Reports(n: nat): seq<Event> {
    if n == 0 then [] else Reports(n - 1) + [Report]
  }

  function AfterReports(l: Ledger, n: nat): Ledger {
    if n == 0 then l else Apply(AfterReports(l, n - 1), Report)
  }

  lemma {:induction false} ReportsRun(limit: nat, es: seq<Event>, n: nat)
    ensures Run(limit, es + Reports(n)) == AfterReports(Run(limit, es), n)
  {
    if n == 0 {
      assert es + Reports(0) == es;
    } else {
      ReportsRun(limit, es, n - 1);
      ReportsSnoc(es, n);
      RunSnoc(limit, es + Reports(n - 1), Report);
    }
  }

  lemma ReportsSnoc(es: seq<Event>, n: nat)
    requires n > 0
    ensures es + Reports(n) == (es + Reports(n - 1)) + [Report]
  {
  }

  lemma {:induction false} ReportsAreReports(l: Ledger, n: nat)
    requires n <= l.drain.owed
    ensures OnlyReported(l, AfterReports(l, n), n)
  {
    if n > 0 {
      ReportsAreReports(l, n - 1);
      OneReport(l, AfterReports(l, n - 1), n - 1);
    }
  }

  predicate HasDrained(l: Ledger) {
    l.drain.pending == 0 && forall id | id in l.phase :: l.phase[id] == Retired
  }

  /** When the threads that are about to report have done so, a session that ever had work stands
      reported as drained exactly when it has drained, and nothing else has changed. */
  lemma ReportsSettle(limit: nat, es: seq<Event>)
    requires Run(limit, es).drain.began
    ensures var l, l' := Run(limit, es), Run(limit, es + Reports(Run(limit, es).drain.owed));
      && l'.drain.owed == 0 && l'.phase == l.phase && l'.drain.pending == l.drain.pending
      && (l'.drain.reported <==> HasDrained(l))
  {
    var l := Run(limit, es);
    var n := l.drain.owed;
    ReportsRun(limit, es, n);
    ReportsAreReports(l, n);
    DrainIsReported(limit, es + Reports(n));
  }

  predicate OnlyReported(l: Ledger, l': Ledger, n: int) {
    && l'.drain.owed == l.drain.owed - n && l'.phase == l.phase
    && l'.drain.pending == l.drain.pending && l'.drain.began == l.drain.began
  }

  lemma OneReport(l: Ledger, at: Ledger, n: int)
    requires OnlyReported(l, at, n) && at.drain.owed > 0
    ensures OnlyReported(l, Apply(at, Report), n + 1)
  {
  }

  /** The report after the first n events is the one that announces the drained session. */
  predicate Announces(limit: nat, es: seq<Event>, n: nat) {
    n < |es| && es[n].Report? && !Run(limit, es[..n]).drain.reported && Run(limit, es[..n + 1]).drain.reported
  }

  predicate IsReported(l: Ledger) {
    l.drain.reported
  }

  lemma ReportedStays(l: Ledger, e: Event)
    requires IsReported(l) && !e.CountIn?
    ensures IsReported(Apply(l, e))
  {
  }

  lemma ReportedUntilWork(limit: nat, es: seq<Event>, n: nat)
    requires n <= |es| && IsReported(Run(limit, es[..n]))
    requires forall k :: n <= k < |es| ==> !es[k].CountIn?
    ensures IsReported(Run(limit, es))
  {
    var i := n;
    while i < |es|
      invariant n <= i <= |es| && IsReported(Run(limit, es[..i]))
    {
      RunAt(limit, es, i);
      ReportedStays(Run(limit, es[..i]), es[i]);
      i := i + 1;
    }
    assert es[..|es|] == es;
  }

  /** Between two announcements new work was counted in: however many threads report, a drained
      session is announced once. */
  lemma OneAnnouncement(limit: nat, es: seq<Event>, i: nat, j: nat)
    requires i < j && Announces(limit, es, i) && Announces(limit, es, j)
    ensures exists k :: i < k < j && es[k].CountIn?
  {
    if forall k :: i < k < j ==> !es[k].CountIn? {
      assert es[..j][..i + 1] == es[..i + 1];
      ReportedUntilWork(limit, es[..j], i + 1);
    }
  }

  lemma CountInStep(l: Ledger, id: nat, key: nat)
    requires Counting(l) && id !in l.phase
    ensures var l' := Apply(l, CountIn(id, key));
      && l'.counters == l.counters.(queued := l.counters.queued + 1, outstanding := l.counters.outstanding + 1)
      && l'.claims.seen == l.claims.seen + {key} && !l'.drain.reported
      && l'.limit == l.limit && l'.drain.pending == l.drain.pending && l'.flags == l.flags
    ensures l.counters.queued + 1 == |Queued(l.phase) + {id}| && l.counters.outstanding + 1 == |Live(l.phase) + {id}|
  {
    SizeAfter(Queued(l.phase), id);
    SizeAfter(Live(l.phase), id);
  }

  lemma RetireStep(l: Ledger, id: nat)
    requires Counting(l) && In(l, id, Ending)
    ensures var l' := Apply(l, Retire(id));
      && l'.counters == l.counters.(outstanding := l.counters.outstanding - 1)
      && l'.claims == l.claims && l'.drain.reported == l.drain.reported
      && l'.limit == l.limit && l'.drain.pending == l.drain.pending && l'.flags == l.flags
    ensures l.counters.outstanding - 1 == |Live(l.phase) - {id}|
  {
    SizeAfter(Live(l.phase), id);
  }

  // ---------------------------------------------------------------- the session object

  /** The counters of one session, with the regions its mutex protects. */
  class SharedCounters {
    const limit: nat
    var queued: int
    var outstanding: int
    var starting: int
    var pending: nat
    var seen: set<nat>
    var reported: bool
    var cancelled: bool
    var closed: bool

    /** The fields are those of the ledger. */
    ghost predicate Mirrors(l: Ledger)
      reads this
    {
      && limit == l.limit && Counters(queued, outstanding, starting) == l.counters
      && seen == l.claims.seen && pending == l.drain.pending && reported == l.drain.reported
      && cancelled == l.flags.cancelled && closed == l.flags.closed
    }

    constructor (limit: nat)
      ensures Mirrors(Start(limit))
    {
      this.limit := limit;
      queued, outstanding, starting, pending := 0, 0, 0, 0;
      seen, reported, cancelled, closed := {}, false, false, false;
    }

    /** enqueue()'s region: the CountIn step, after which the counters count the new work too. */
    method CountWorkIn(key: nat, ghost l: Ledger, ghost id: nat)
      requires Mirrors(l) && Counting(l) && id !in l.phase
      modifies this
      ensures Mirrors(Apply(l, CountIn(id, key)))
      ensures queued == |Queued(l.phase) + {id}| && outstanding == |Live(l.phase) + {id}|
    {
      CountInStep(l, id, key);
      seen := seen + {key};
      queued := queued + 1;
      outstanding := outstanding + 1;
      reported := false;
    }

    /** A slot is reserved exactly when the Take step takes the work. */
    method ReserveStart(ghost l: Ledger, ghost id: nat) returns (reserved: bool)
      requires Mirrors(l) && In(l, id, Waiting)
      modifies this
      ensures Mirrors(Apply(l, Take(id)))
      ensures reserved == In(Apply(l, Take(id)), id, Taken)
      ensures reserved <==> !cancelled && !closed && pending + old(starting) < limit
      ensures starting == old(starting) + if reserved then 1 else 0
    {
      if cancelled || closed {
        return false;
      }
      if pending + starting >= limit {
        return false;
      }
      starting := starting + 1;
      return true;
    }

    /** The ReleaseStart step; the guard never bites, because the slot is counted. */
    method ReleaseReserved(ghost l: Ledger, ghost id: nat)
      requires Mirrors(l) && Counting(l) && id in l.slots
      modifies this
      ensures Mirrors(Apply(l, ReleaseStart(id)))
      ensures starting == |l.slots| - 1
    {
      CountingStep(l, ReleaseStart(id));
      SizeAfter(l.slots, id);
      if starting > 0 {
        starting := starting - 1;
      }
    }

    /** The decrement that beginWork() and retireQueued() share: the Begin or CountOut step. The
        guard never bites, because the work is counted. */
    method CountQueuedOut(ghost l: Ledger, ghost e: Event)
      requires Mirrors(l) && Counting(l)
      requires (e.Begin? && In(l, e.id, Taken)) || (e.CountOut? && (In(l, e.id, Refused) || In(l, e.id, Dropped)))
      modifies this
      ensures Mirrors(Apply(l, e))
      ensures queued == |Queued(l.phase) - {e.id}|
    {
      CountingStep(l, e);
      QueuedMove(l.phase, e.id, if e.Begin? then Beginning else Ending);
      if queued > 0 {
        queued := queued - 1;
      }
    }

    /** retire()'s region: the Retire step. */
    method RetireWork(ghost l: Ledger, ghost id: nat)
      requires Mirrors(l) && Counting(l) && In(l, id, Ending)
      modifies this
      ensures Mirrors(Apply(l, Retire(id)))
      ensures outstanding == |Live(l.phase) - {id}|
    {
      RetireStep(l, id);
      outstanding := outstanding - 1;
    }

    /** The Report step; true when this report is the one that announces. */
    method ReportIfIdle(ghost l: Ledger) returns (announce: bool)
      requires Mirrors(l) && l.drain.owed > 0
      modifies this
      ensures Mirrors(Apply(l, Report))
      ensures announce == (!l.drain.reported && Apply(l, Report).drain.reported)
      ensures announce <==> outstanding == 0 && pending == 0 && !old(reported)
      ensures reported <==> old(reported) || announce
    {
      if outstanding != 0 || pending != 0 || reported {
        return false;
      }
      reported := true;
      return true;
    }

    /** The Claim step; true when this follower wins the key. */
    method ClaimKey(key: nat, ghost l: Ledger) returns (claimed: bool)
      requires Mirrors(l)
      modifies this
      ensures Mirrors(Apply(l, Claim(key)))
      ensures Apply(l, Claim(key)).claims.followed == if claimed then l.claims.followed + [key] else l.claims.followed
      ensures claimed <==> key !in old(seen)
      ensures seen == old(seen) + {key}
    {
      claimed := key !in seen;
      seen := seen + {key};
    }
  }

  // ---------------------------------------------------------------- the runner's queue

  datatype Work = Work(session: nat, id: nat)

  function Others(q: seq<Work>, session: nat): seq<Work> {
    if q == [] then []
    else Others(q[..|q| - 1], session) + (if q[|q| - 1].session == session then [] else [q[|q| - 1]])
  }

  function Own(q: seq<Work>, session: nat): seq<Work> {
    if q == [] then []
    else Own(q[..|q| - 1], session) + (if q[|q| - 1].session == session then [q[|q| - 1]] else [])
  }

  lemma {:induction false} OthersAreOthers(q: seq<Work>, session: nat)
    ensures forall w :: w in Others(q, session) <==> w in q && w.session != session
    ensures forall w :: w in Own(q, session) <==> w in q && w.session == session
    ensures |Others(q, session)| + |Own(q, session)| == |q|
  {
    if q != [] {
      OthersAreOthers(q[..|q| - 1], session);
    }
  }

  class WorkQueue {
    var queue: seq<Work>
    var running: bool

    /** The queue holds exactly the session's waiting works, each once. */
    ghost predicate Shows(l: Ledger, session: nat)
      reads this
    {
      && running == l.flags.running && Distinct(queue)
      && forall id :: Work(session, id) in queue <==> In(l, id, Waiting)
    }

    constructor ()
      ensures forall limit, session :: Shows(Start(limit), session)
    {
      queue, running := [], true;
    }

    /** submit()'s region: the Offer step. */
    method Append(work: Work, accepts: bool, ghost l: Ledger) returns (queued: bool)
      requires Shows(l, work.session) && In(l, work.id, Counted) && accepts == Accepts(l.flags)
      modifies this`queue
      ensures Shows(Apply(l, Offer(work.id)), work.session)
      ensures queued == In(Apply(l, Offer(work.id)), work.id, Waiting)
      ensures queued <==> running && accepts
      ensures queue == if queued then old(queue) + [work] else old(queue)
    {
      assert work !in queue;
      if !running || !accepts {
        return false;
      }
      queue := queue + [work];
      return true;
    }

    /** The first work whose session lets it start; ready(i) is what reserveStart() answers
        for the i-th. The others keep their order. For the session's own work it is the Take
        step. */
    method TakeReady(ready: nat -> bool, ghost l: Ledger, ghost session: nat) returns (work: Option<Work>)
      requires Shows(l, session)
      requires forall i: nat :: i < |queue| && queue[i].session == session ==>
        ready(i) == In(Apply(l, Take(queue[i].id)), queue[i].id, Taken)
      modifies this`queue
      ensures work.None? ==> queue == old(queue) && forall i: nat :: i < |queue| ==> !ready(i)
      ensures work.Some? ==> exists i: nat ::
                && i < |old(queue)| && ready(i) && work.value == old(queue)[i] && (forall j: nat :: j < i ==> !ready(j))
                && queue == old(queue)[..i] + old(queue)[i + 1..]
      ensures Shows(if work.Some? && work.value.session == session then Apply(l, Take(work.value.id)) else l, session)
    {
      for i := 0 to |queue|
        invariant queue == old(queue)
        invariant forall j: nat :: j < i ==> !ready(j)
      {
        if !ready(i) {
          continue;
        }
        work := Some(queue[i]);
        WithoutOne(queue, i);
        queue := queue[..i] + queue[i + 1..];
        return;
      }
      work := None;
    }

    /** discard()'s region: the Discard step; what was dropped is what was waiting. */
    method DiscardSession(session: nat, ghost l: Ledger) returns (dropped: seq<Work>)
      requires Shows(l, session)
      modifies this`queue
      ensures queue == Others(old(queue), session) && dropped == Own(old(queue), session)
      ensures Shows(Apply(l, Discard), session)
      ensures forall id :: Work(session, id) in dropped <==> In(l, id, Waiting)
    {
      dropped := [];
      var kept := [];
      for i := 0 to |queue|
        invariant queue == old(queue)
        invariant kept == Others(queue[..i], session) && dropped == Own(queue[..i], session)
      {
        assert queue[..i + 1][..i] == queue[..i];
        if queue[i].session != session {
          kept := kept + [queue[i]];
        } else {
          dropped := dropped + [queue[i]];
        }
      }
      assert queue[..|queue|] == queue;
      OthersAreOthers(queue, session);
      OthersDistinct(queue, session);
      queue := kept;
    }

    /** stop()'s swap: the SwapQueue step for every session at once. */
    method TakeAll(ghost l: Ledger, ghost session: nat) returns (queued: seq<Work>)
      requires Shows(l, session) && !running
      modifies this`queue
      ensures queued == old(queue) && Shows(Apply(l, SwapQueue), session)
    {
      queued := queue;
      queue := [];
    }
  }

  lemma WithoutOne(q: seq<Work>, i: nat)
    requires i < |q| && Distinct(q)
    ensures Distinct(q[..i] + q[i + 1..])
    ensures forall x :: x in q[..i] + q[i + 1..] <==> x in q && x != q[i]
  {
    var left := q[..i] + q[i + 1..];
    forall x | x in q && x != q[i]
      ensures x in left
    {
      var k :| 0 <= k < |q| && q[k] == x;
      assert left[if k < i then k else k - 1] == x;
    }
  }

  lemma {:induction false} OthersDistinct(q: seq<Work>, session: nat)
    requires Distinct(q)
    ensures Distinct(Others(q, session))
  {
    if q != [] {
      OthersDistinct(q[..|q| - 1], session);
      OthersAreOthers(q[..|q| - 1], session);
    }
  }
}
