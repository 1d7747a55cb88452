/** One download lane: a queue that drains at the policy's pace, at most `ceiling` requests in
    flight, and one replaceable timer that wakes the queue when the policy says wait. Regions
    under the lane's mutex are single steps; the policy has its own mutex, so other threads
    can change it while a pump is under way. */
module LaneGate {
  import opened Common
  import P = LanePolicy

  /** id numbers the accepted requests in the order they were accepted. */
  datatype Pending = Pending(id: nat, token: nat)

  datatype Gate = Gate(armed: bool, deadline: int, generation: nat)

  datatype Config = Config(ceiling: nat, maxShards: nat, growth: nat)

  /** What the lane's mutex protects. */
  datatype Lane = Lane(queue: seq<Pending>, inFlight: nat, gate: Gate, shards: nat, stopped: bool)

  // ---------------------------------------------------------------- regions under the mutex

  predicate Ready(l: Lane, c: Config) {
    !l.stopped && l.queue != [] && l.inFlight < c.ceiling
  }

  /** growIfNeeded: the first shard always, more only for an unthrottled lane under load. */
  function Grow(l: Lane, c: Config, throttled: bool): (shards: nat)
    requires l.shards <= 1 || l.shards <= c.maxShards
    ensures l.shards <= shards <= l.shards + 1 && 0 < shards
    ensures shards <= 1 || shards <= c.maxShards
    ensures shards != l.shards <==>
      l.shards == 0 ||
      (!throttled && l.shards < c.maxShards && l.shards * c.growth < l.inFlight + |l.queue|)
  {
    if l.shards == 0 then 1
    else if throttled || l.shards >= c.maxShards then l.shards
    else if l.inFlight + |l.queue| <= l.shards * c.growth then l.shards
    else l.shards + 1
  }

  function Dispatch(l: Lane, c: Config, throttled: bool): Lane
    requires Ready(l, c) && (l.shards <= 1 || l.shards <= c.maxShards)
  {
    l.(shards := Grow(l, c, throttled), queue := l.queue[1..], inFlight := l.inFlight + 1)
  }

  predicate Covered(g: Gate, deadline: int, generation: nat) {
    g.armed && g.generation == generation && g.deadline <= deadline
  }

  function ArmAt(l: Lane, deadline: int, generation: nat): Lane {
    if Covered(l.gate, deadline, generation) then l else l.(gate := Gate(true, deadline, generation))
  }

  /** A timer finds its own deadline still on the gate, or has been replaced. */
  predicate Current(l: Lane, deadline: int) {
    l.gate.armed && l.gate.deadline == deadline
  }

  function Disarm(l: Lane, deadline: int): Lane {
    if Current(l, deadline) then l.(gate := l.gate.(armed := false)) else l
  }

  /** The queue without the entries of one cancellation token. */
  function Without(q: seq<Pending>, token: nat): seq<Pending> {
    if q == [] then []
    else Without(q[..|q| - 1], token) + (if q[|q| - 1].token == token then [] else [q[|q| - 1]])
  }

  function Matching(q: seq<Pending>, token: nat): set<Pending> {
    set x | x in q && x.token == token
  }

  // ---------------------------------------------------------------- steps

  /** claimedAt and wait: a claim said wait, and arm() has not read its clock yet. */
  datatype Pump = Idle | Looping | Arming(claimedAt: int, wait: int)

  /** owed: threads between a change and the pump it calls. timers: deadlines of the posted
      wakeups. gap: the longest time that passed between a claim and its arm(). */
  datatype World = World(
    lane: Lane,
    policy: P.Policy,
    pump: Pump,
    owed: nat,
    timers: seq<int>,
    now: int,
    gap: nat,
    log: Log)

  /** times: when each of the dispatched requests was. */
  datatype Log = Log(
    accepted: seq<Pending>,
    dispatched: seq<Pending>,
    times: seq<int>,
    running: set<Pending>,
    removed: set<Pending>,
    cancelled: set<nat>)

  datatype Event =
    | Tick(to: int)
    | Submit(token: nat)
    | Cancel(token: nat)
    | Finished(x: Pending)
    | TimerFires(i: nat)
    | Shutdown
    | PolicyResets
    | PolicyFails
    | PolicyLimits(retry: Option<nat>)
    | OtherClaims            // a retired lane of the same host shares the policy
    | PumpEnters
    | PumpSteps(throttled: bool)
    | PumpArms

  function RemoveAt(s: seq<int>, i: nat): seq<int>
    requires i < |s|
  {
    s[..i] + s[i + 1..]
  }

  /** Regions that need the lane's mutex while no pump holds it. */
  function ApplyLocked(w: World, e: Event): World
    requires w.pump.Idle?
  {
    match e
    case Submit(token) =>
      if w.lane.stopped then w
      else
        var x := Pending(|w.log.accepted|, token);
        w.(lane := w.lane.(queue := w.lane.queue + [x]), owed := w.owed + 1,
           log := w.log.(accepted := w.log.accepted + [x]))
    case Cancel(token) =>
      w.(lane := w.lane.(queue := Without(w.lane.queue, token)),
         log := w.log.(removed := w.log.removed + Matching(w.lane.queue, token),
                       cancelled := w.log.cancelled + {token}))
    case Finished(x) =>
      if x !in w.log.running then w
      else
        w.(lane := w.lane.(inFlight := if w.lane.inFlight > 0 then w.lane.inFlight - 1 else 0),
           owed := w.owed + 1, log := w.log.(running := w.log.running - {x}))
    case TimerFires(i) =>
      if i >= |w.timers| then w
      else
        var deadline := w.timers[i];
        w.(lane := Disarm(w.lane, deadline), timers := RemoveAt(w.timers, i),
           owed := if Current(w.lane, deadline) then w.owed + 1 else w.owed)
    case Shutdown =>
      if w.lane.stopped then w
      else
        w.(lane := w.lane.(stopped := true, queue := [], shards := 0),
           log := w.log.(removed := w.log.removed + set x | x in w.lane.queue))
    case PumpEnters => if w.owed == 0 then w else w.(owed := w.owed - 1, pump := Looping)
    case _ => w
  }

  /** One turn of the pump's loop. */
  function PumpStep(w: World, c: Config, throttled: bool): World
    requires w.lane.shards <= 1 || w.lane.shards <= c.maxShards
  {
    if !Ready(w.lane, c) then w.(pump := Idle)
    else if P.Granted(w.policy, w.now) then
      var x := w.lane.queue[0];
      w.(lane := Dispatch(w.lane, c, throttled), policy := P.Claim(w.policy, w.now),
         log := w.log.(dispatched := w.log.dispatched + [x], times := w.log.times + [w.now],
                       running := w.log.running + {x}))
    else w.(pump := Arming(w.now, w.policy.nextRequest - w.now))
  }

  function PumpArm(w: World): World
    requires w.pump.Arming?
  {
    var deadline := w.now + w.pump.wait;
    var spent := w.now - w.pump.claimedAt;
    w.(lane := ArmAt(w.lane, deadline, w.policy.generation), pump := Idle,
       timers := if Covered(w.lane.gate, deadline, w.policy.generation) then w.timers else w.timers + [deadline],
       gap := if w.gap < spent then spent else w.gap)
  }

  function Apply(w: World, c: Config, e: Event): World
    requires w.lane.shards <= 1 || w.lane.shards <= c.maxShards
  {
    match e
    case Tick(to) => if w.now <= to then w.(now := to) else w
    case PolicyResets => w.(policy := P.Reset(w.policy), owed := w.owed + 1)
    case PolicyFails => w.(policy := P.Fail(w.policy, w.now))
    case PolicyLimits(retry) => w.(policy := P.Limit(w.policy, retry, w.now))
    case OtherClaims => w.(policy := P.Claim(w.policy, w.now))
    case PumpSteps(throttled) => if w.pump.Looping? then PumpStep(w, c, throttled) else w
    case PumpArms => if w.pump.Arming? then PumpArm(w) else w
    case _ => if w.pump.Idle? then ApplyLocked(w, e) else w
  }

  function Start(policy: P.Policy, now: int): World {
    World(Lane([], 0, Gate(false, 0, 0), 0, false), policy, Idle, 0, [], now, 0, Log([], [], [], {}, {}, {}))
  }

  function Run(policy: P.Policy, now: int, c: Config, es: seq<Event>): (w: World)
    ensures w.lane.shards <= 1 || w.lane.shards <= c.maxShards
  {
    if es == [] then Start(policy, now)
    else Apply(Run(policy, now, c, es[..|es| - 1]), c, es[|es| - 1])
  }

  // ---------------------------------------------------------------- no lost wake-up

  /** Nobody is between a change and its pump, and no pump is under way. */
  predicate Quiet(w: World) {
    w.owed == 0 && w.pump.Idle?
  }

  predicate GateHasTimer(w: World) {
    w.lane.gate.armed ==> w.lane.gate.deadline in w.timers
  }

  predicate Awake(w: World, c: Config) {
    && (Quiet(w) && Ready(w.lane, c) ==> w.lane.gate.armed && w.lane.gate.deadline <= w.policy.nextRequest + w.gap)
    && (w.pump.Arming? ==> w.owed > 0 || w.pump.claimedAt + w.pump.wait <= w.policy.nextRequest)
    && (w.pump.Arming? ==> w.pump.claimedAt <= w.now)
  }

  lemma TimersKept(w: World, c: Config, e: Event)
    requires w.lane.shards <= 1 || w.lane.shards <= c.maxShards
    requires GateHasTimer(w)
    ensures GateHasTimer(Apply(w, c, e))
  {
    if e.TimerFires? && w.pump.Idle? && e.i < |w.timers| && w.lane.gate.armed && !Current(w.lane, w.timers[e.i]) {
      var k :| 0 <= k < |w.timers| && w.timers[k] == w.lane.gate.deadline;
      var left := RemoveAt(w.timers, e.i);
      assert left[if k < e.i then k else k - 1] == w.timers[k];
    }
  }

  lemma AwakeKept(w: World, c: Config, e: Event)
    requires w.lane.shards <= 1 || w.lane.shards <= c.maxShards
    requires Awake(w, c)
    ensures Awake(Apply(w, c, e), c)
  {
    if e.Cancel? {
      assert w.lane.queue == [] ==> Without(w.lane.queue, e.token) == [];
    }
  }

  lemma {:induction false} RunAwake(policy: P.Policy, now: int, c: Config, es: seq<Event>)
    ensures GateHasTimer(Run(policy, now, c, es)) && Awake(Run(policy, now, c, es), c)
  {
    if es != [] {
      var n := |es| - 1;
      RunAwake(policy, now, c, es[..n]);
      TimersKept(Run(policy, now, c, es[..n]), c, es[n]);
      AwakeKept(Run(policy, now, c, es[..n]), c, es[n]);
    }
  }

  /** Whenever no thread is between a change and its pump, a running lane with queued
      requests and room in flight has an armed gate and an outstanding timer with exactly the
      gate's deadline, whatever stale or replaced timers are around; and that deadline lies
      at most `gap` after the policy's next slot. */
  lemma NoLostWakeUp(policy: P.Policy, now: int, c: Config, es: seq<Event>)
    requires Quiet(Run(policy, now, c, es)) && Ready(Run(policy, now, c, es).lane, c)
    ensures var w := Run(policy, now, c, es);
      && w.lane.gate.armed && w.lane.gate.deadline in w.timers
      && w.lane.gate.deadline <= w.policy.nextRequest + w.gap
  {
    RunAwake(policy, now, c, es);
  }

  /** From there the wake-up does its work: once the timer fires with the slot open, the
      pump it owes dispatches the head of the queue. */
  lemma WakeUpDispatches(policy: P.Policy, now: int, c: Config, es: seq<Event>, t: int) returns (i: nat)
    requires var w := Run(policy, now, c, es);
      Quiet(w) && Ready(w.lane, c) && w.now <= t && w.policy.nextRequest <= t
    ensures var w := Run(policy, now, c, es);
      && i < |w.timers| && w.timers[i] == w.lane.gate.deadline
      && Run(policy, now, c, es + [Tick(t), TimerFires(i), PumpEnters, PumpSteps(true)]).log.dispatched
        == w.log.dispatched + [w.lane.queue[0]]
  {
    NoLostWakeUp(policy, now, c, es);
    var w := Run(policy, now, c, es);
    i :| 0 <= i < |w.timers| && w.timers[i] == w.lane.gate.deadline;
    RunSnoc(policy, now, c, es, Tick(t));
    RunSnoc(policy, now, c, es + [Tick(t)], TimerFires(i));
    RunSnoc(policy, now, c, es + [Tick(t)] + [TimerFires(i)], PumpEnters);
    RunSnoc(policy, now, c, es + [Tick(t)] + [TimerFires(i)] + [PumpEnters], PumpSteps(true));
    assert es + [Tick(t)] + [TimerFires(i)] + [PumpEnters] + [PumpSteps(true)]
        == es + [Tick(t), TimerFires(i), PumpEnters, PumpSteps(true)];
  }

  lemma RunSnoc(policy: P.Policy, now: int, c: Config, es: seq<Event>, e: Event)
    ensures Run(policy, now, c, es + [e]) == Apply(Run(policy, now, c, es), c, e)
  {
    assert (es + [e])[..|es|] == es;
  }

  // ---------------------------------------------------------------- no idle wake-up

  /** The slots a pump has been told to wait for, in the course of a run. */
  function RefusedSlots(policy: P.Policy, now: int, c: Config, es: seq<Event>): set<int> {
    if es == [] then {}
    else
      var n := |es| - 1;
      RefusedSlots(policy, now, c, es[..n]) + RefusedBy(Run(policy, now, c, es[..n]), c, es[n])
  }

  function RefusedBy(w: World, c: Config, e: Event): set<int> {
    if e.PumpSteps? && w.pump.Looping? && Ready(w.lane, c) && w.now < w.policy.nextRequest
    then {w.policy.nextRequest} else {}
  }

  /** d is a deadline for one of these slots: not before it, and at most gap after it. */
  predicate ForSlot(d: int, slots: set<int>, gap: nat) {
    exists slot :: slot in slots && slot <= d <= slot + gap
  }

  predicate TimersDue(w: World, slots: set<int>) {
    && (w.pump.Arming? ==> w.pump.claimedAt + w.pump.wait in slots && w.pump.claimedAt <= w.now)
    && (forall d :: d in w.timers ==> ForSlot(d, slots, w.gap))
  }

  lemma ForSlotStays(d: int, slots: set<int>, gap: nat, slots': set<int>, gap': nat)
    requires ForSlot(d, slots, gap) && slots <= slots' && gap <= gap'
    ensures ForSlot(d, slots', gap')
  {
    var slot :| slot in slots && slot <= d <= slot + gap;
    assert slot in slots';
  }

  lemma TimersDueStep(w: World, c: Config, e: Event, slots: set<int>)
    requires w.lane.shards <= 1 || w.lane.shards <= c.maxShards
    requires TimersDue(w, slots)
    ensures TimersDue(Apply(w, c, e), slots + RefusedBy(w, c, e))
  {
    var w', slots' := Apply(w, c, e), slots + RefusedBy(w, c, e);
    forall d | d in w'.timers
      ensures ForSlot(d, slots', w'.gap)
    {
      if d in w.timers {
        ForSlotStays(d, slots, w.gap, slots', w'.gap);
      } else {
        assert e.PumpArms? && w.pump.Arming?;
        assert w.pump.claimedAt + w.pump.wait in slots';
      }
    }
  }

  lemma {:induction false} RunTimersDue(policy: P.Policy, now: int, c: Config, es: seq<Event>)
    ensures TimersDue(Run(policy, now, c, es), RefusedSlots(policy, now, c, es))
  {
    if es != [] {
      var n := |es| - 1;
      RunTimersDue(policy, now, c, es[..n]);
      TimersDueStep(Run(policy, now, c, es[..n]), c, es[n], RefusedSlots(policy, now, c, es[..n]));
    }
  }

  /** No timer is set without need: each one was posted for a slot that a pump with a request to
      dispatch was told to wait for, and not before that slot nor more than `gap` after it. */
  lemma TimersAreForSlots(policy: P.Policy, now: int, c: Config, es: seq<Event>, d: int)
    requires d in Run(policy, now, c, es).timers
    ensures ForSlot(d, RefusedSlots(policy, now, c, es), Run(policy, now, c, es).gap)
  {
    RunTimersDue(policy, now, c, es);
  }

  /** The gate is kept if it wakes the same generation of the policy no later, and replaced otherwise;
      only then there is a new timer. */
  predicate KeepsTheEarliest(w: World, w': World)
    requires w.pump.Arming?
  {
    var deadline := w.now + w.pump.wait;
    var keeps :=
      w.lane.gate.armed && w.lane.gate.generation == w.policy.generation && w.lane.gate.deadline <= deadline;
    && w'.pump.Idle? && w'.lane == w.lane.(gate := w'.lane.gate)
    && w'.lane.gate == (if keeps then w.lane.gate else Gate(true, deadline, w.policy.generation))
    && w'.timers == (if keeps then w.timers else w.timers + [deadline])
  }

  /** Within one generation of the policy the gate keeps the earliest wake-up: arming adds a timer only
      for an earlier deadline, for a new generation or on a gate that is open. */
  lemma ArmKeepsTheEarliest(policy: P.Policy, now: int, c: Config, es: seq<Event>)
    requires Run(policy, now, c, es).pump.Arming?
    ensures KeepsTheEarliest(Run(policy, now, c, es), Run(policy, now, c, es + [PumpArms]))
  {
    RunSnoc(policy, now, c, es, PumpArms);
    ArmsRightly(Run(policy, now, c, es), c);
  }

  lemma ArmsRightly(w: World, c: Config)
    requires w.pump.Arming? && (w.lane.shards <= 1 || w.lane.shards <= c.maxShards)
    ensures KeepsTheEarliest(w, Apply(w, c, PumpArms))
  {
  }

  // ---------------------------------------------------------------- pace

  predicate NoReset(es: seq<Event>) {
    forall i :: 0 <= i < |es| ==> !es[i].PolicyResets?
  }

  ghost predicate Paced(w: World, m: nat) {
    && P.Spaced(w.policy, w.log.times, m) && P.Sane(w.policy)
    && m == P.Min(w.policy.base, w.policy.maximum)
  }

  lemma SlotOnlyMovesOn(p: P.Policy, p': P.Policy, times: seq<int>, m: nat)
    requires P.Spaced(p, times, m) && p.nextRequest <= p'.nextRequest
    ensures P.Spaced(p', times, m)
  {
  }

  lemma PacedStep(w: World, c: Config, e: Event, m: nat)
    requires w.lane.shards <= 1 || w.lane.shards <= c.maxShards
    requires Paced(w, m) && 0 < m && !e.PolicyResets?
    ensures Paced(Apply(w, c, e), m)
  {
    var w' := Apply(w, c, e);
    if w'.log.times != w.log.times {
      P.GrantSpaced(w.policy, w.log.times, m, w.now);
    } else {
      assert w'.policy.nextRequest >= w.policy.nextRequest;
      SlotOnlyMovesOn(w.policy, w'.policy, w.log.times, m);
    }
  }

  lemma {:induction false} RunPaced(policy: P.Policy, now: int, c: Config, es: seq<Event>)
    requires P.Sane(policy) && 0 < P.Min(policy.base, policy.maximum) && NoReset(es)
    ensures Paced(Run(policy, now, c, es), P.Min(policy.base, policy.maximum))
    ensures |Run(policy, now, c, es).log.times| == |Run(policy, now, c, es).log.dispatched|
  {
    if es != [] {
      var n := |es| - 1;
      RunPaced(policy, now, c, es[..n]);
      PacedStep(Run(policy, now, c, es[..n]), c, es[n], P.Min(policy.base, policy.maximum));
      TimesStep(Run(policy, now, c, es[..n]), c, es[n]);
    }
  }

  lemma TimesStep(w: World, c: Config, e: Event)
    requires w.lane.shards <= 1 || w.lane.shards <= c.maxShards
    requires |w.log.times| == |w.log.dispatched|
    ensures |Apply(w, c, e).log.times| == |Apply(w, c, e).log.dispatched|
  {
  }

  /** The lane keeps the policy's pace: in every run without a reset, any n + 1 dispatches span
      strictly more than n - 1 intervals, whatever timers fire and whoever pumps. */
  lemma DispatchesAreSpaced(policy: P.Policy, now: int, c: Config, es: seq<Event>, i: nat, j: nat)
    requires P.Sane(policy) && 0 < P.Min(policy.base, policy.maximum) && NoReset(es)
    requires i < j < |Run(policy, now, c, es).log.dispatched|
    ensures var times := Run(policy, now, c, es).log.times;
      && |times| == |Run(policy, now, c, es).log.dispatched|
      && times[j] - times[i] > (j - i - 1) * P.Min(policy.base, policy.maximum)
  {
    RunPaced(policy, now, c, es);
  }

  // ---------------------------------------------------------------- what submitting and finishing do

  /** A request submitted to a lane that is not stopped joins the end of the queue, and with a free
      place and an open slot the pump it brings along goes on to dispatch the head of the queue. */
  lemma SubmittedIsDispatched(policy: P.Policy, now: int, c: Config, es: seq<Event>, token: nat)
    requires var w := Run(policy, now, c, es);
      w.pump.Idle? && !w.lane.stopped && w.lane.inFlight < c.ceiling && w.policy.nextRequest <= w.now
    ensures var w := Run(policy, now, c, es);
      var x := Pending(|w.log.accepted|, token);
      var w' := Run(policy, now, c, es + [Submit(token)] + [PumpEnters] + [PumpSteps(true)]);
      && w'.log.accepted == w.log.accepted + [x]
      && w'.log.dispatched == w.log.dispatched + [(w.lane.queue + [x])[0]]
      && w'.lane.queue == (w.lane.queue + [x])[1..]
      && w'.lane.inFlight == w.lane.inFlight + 1
  {
    RunSnoc(policy, now, c, es, Submit(token));
    RunSnoc(policy, now, c, es + [Submit(token)], PumpEnters);
    RunSnoc(policy, now, c, es + [Submit(token)] + [PumpEnters], PumpSteps(true));
    SubmitAndPump(Run(policy, now, c, es), c, token);
  }

  lemma SubmitAndPump(w: World, c: Config, token: nat)
    requires w.lane.shards <= 1 || w.lane.shards <= c.maxShards
    requires w.pump.Idle? && !w.lane.stopped && w.lane.inFlight < c.ceiling && w.policy.nextRequest <= w.now
    ensures var x := Pending(|w.log.accepted|, token);
      var entered := Apply(Apply(w, c, Submit(token)), c, PumpEnters);
      && (entered.lane.shards <= 1 || entered.lane.shards <= c.maxShards)
      && var w' := Apply(entered, c, PumpSteps(true));
      && w'.log.accepted == w.log.accepted + [x]
      && w'.log.dispatched == w.log.dispatched + [(w.lane.queue + [x])[0]]
      && w'.lane.queue == (w.lane.queue + [x])[1..]
      && w'.lane.inFlight == w.lane.inFlight + 1
  {
  }

  /** A finished transfer frees its place and brings a pump along. */
  lemma FinishedFreesAPlace(policy: P.Policy, now: int, c: Config, es: seq<Event>, x: Pending)
    requires Run(policy, now, c, es).pump.Idle? && x in Run(policy, now, c, es).log.running
    ensures var w, w' := Run(policy, now, c, es), Run(policy, now, c, es + [Finished(x)]);
      && w'.lane.inFlight == w.lane.inFlight - 1 && w'.log.running == w.log.running - {x} && !Quiet(w')
      && w'.lane.queue == w.lane.queue
  {
    RunOrdered(policy, now, c, es);
    RunSnoc(policy, now, c, es, Finished(x));
    var running := Run(policy, now, c, es).log.running;
    assert |running - {x}| == |running| - 1;
  }

  /** Cancelling takes out of the queue exactly the requests of its token. */
  lemma CancelTakesItsOwn(policy: P.Policy, now: int, c: Config, es: seq<Event>, token: nat, x: Pending)
    requires Run(policy, now, c, es).pump.Idle?
    ensures var w, w' := Run(policy, now, c, es), Run(policy, now, c, es + [Cancel(token)]);
      && (x in w'.lane.queue <==> x in w.lane.queue && x.token != token)
      && w'.log.dispatched == w.log.dispatched && w'.log.running == w.log.running
  {
    var w := Run(policy, now, c, es);
    RunSnoc(policy, now, c, es, Cancel(token));
    var gone := Matching(w.lane.queue, token);
    WithoutIsKeep(w.lane.queue, token, gone);
    KeepMembers(w.lane.queue, gone);
  }

  predicate Over(w: World) {
    w.lane.stopped && w.lane.queue == []
  }

  lemma OverStep(w: World, c: Config, e: Event)
    requires w.lane.shards <= 1 || w.lane.shards <= c.maxShards
    requires Over(w)
    ensures Over(Apply(w, c, e)) && Apply(w, c, e).log.dispatched == w.log.dispatched
    ensures Apply(w, c, e).log.accepted == w.log.accepted
  {
    assert Without([], 0) == [];
  }

  /** After shutdown nothing is accepted or dispatched any more, in every continuation. */
  lemma {:induction false} ShutdownIsFinal(policy: P.Policy, now: int, c: Config, es: seq<Event>, more: seq<Event>)
    requires Run(policy, now, c, es).pump.Idle? && !Run(policy, now, c, es).lane.stopped
    ensures var w, w' := Run(policy, now, c, es), Run(policy, now, c, es + [Shutdown] + more);
      Over(w') && w'.log.dispatched == w.log.dispatched && w'.log.accepted == w.log.accepted
  {
    RunSnoc(policy, now, c, es, Shutdown);
    if more == [] {
      assert es + [Shutdown] + more == es + [Shutdown];
    } else {
      var n := |more| - 1;
      ShutdownIsFinal(policy, now, c, es, more[..n]);
      assert es + [Shutdown] + more == (es + [Shutdown] + more[..n]) + [more[n]];
      RunSnoc(policy, now, c, es + [Shutdown] + more[..n], more[n]);
      OverStep(Run(policy, now, c, es + [Shutdown] + more[..n]), c, more[n]);
    }
  }

  // ---------------------------------------------------------------- order and counting

  /** The entries of s that are not in gone, in order. */
  function Keep(s: seq<Pending>, gone: set<Pending>): seq<Pending> {
    if s == [] then []
    else Keep(s[..|s| - 1], gone) + (if s[|s| - 1] in gone then [] else [s[|s| - 1]])
  }

  lemma {:induction false} KeepMembers(s: seq<Pending>, gone: set<Pending>)
    ensures forall x :: x in Keep(s, gone) <==> x in s && x !in gone
  {
    if s != [] {
      KeepMembers(s[..|s| - 1], gone);
    }
  }

  lemma KeepSnoc(s: seq<Pending>, x: Pending, gone: set<Pending>)
    ensures Keep(s + [x], gone) == if x in gone then Keep(s, gone) else Keep(s, gone) + [x]
  {
    assert (s + [x])[..|s|] == s;
  }

  predicate Numbered(s: seq<Pending>) {
    forall i :: 0 <= i < |s| ==> s[i].id == i
  }

  predicate InOrder(w: World, c: Config) {
    && Numbered(w.log.accepted)
    && (forall x :: x in w.log.removed ==> x in w.log.accepted && (x.token in w.log.cancelled || w.lane.stopped))
    && w.log.dispatched + w.lane.queue == Keep(w.log.accepted, w.log.removed)
    && (forall x :: x in w.log.running ==> x in w.log.dispatched)
    && w.lane.inFlight == |w.log.running| <= c.ceiling
  }

  lemma {:induction false} KeepDistinct(s: seq<Pending>, gone: set<Pending>)
    requires Numbered(s)
    ensures Distinct(Keep(s, gone))
  {
    if s != [] {
      KeepDistinct(s[..|s| - 1], gone);
      KeepMembers(s[..|s| - 1], gone);
    }
  }

  lemma {:induction false} KeepAll(s: seq<Pending>, gone: set<Pending>)
    requires forall x :: x in s ==> x !in gone
    ensures Keep(s, gone) == s
  {
    if s != [] {
      KeepAll(s[..|s| - 1], gone);
    }
  }

  lemma {:induction false} KeepNone(s: seq<Pending>, gone: set<Pending>)
    requires forall x :: x in s ==> x in gone
    ensures Keep(s, gone) == []
  {
    if s != [] {
      KeepNone(s[..|s| - 1], gone);
    }
  }

  lemma {:induction false} KeepTwice(s: seq<Pending>, gone: set<Pending>, more: set<Pending>)
    ensures Keep(s, gone + more) == Keep(Keep(s, gone), more)
  {
    if s != [] {
      var n := |s| - 1;
      KeepTwice(s[..n], gone, more);
      assert s == s[..n] + [s[n]];
      KeepSnoc(s[..n], s[n], gone);
      KeepSnoc(s[..n], s[n], gone + more);
      KeepSnoc(Keep(s[..n], gone), s[n], more);
    }
  }

  lemma Associate<T>(a: seq<T>, b: seq<T>, c: seq<T>)
    ensures (a + b) + c == a + (b + c)
  {
  }

  lemma {:induction false} KeepConcat(s: seq<Pending>, t: seq<Pending>, gone: set<Pending>)
    ensures Keep(s + t, gone) == Keep(s, gone) + Keep(t, gone)
  {
    if t == [] {
      assert s + t == s;
    } else {
      var n := |t| - 1;
      KeepConcat(s, t[..n], gone);
      Associate(s, t[..n], [t[n]]);
      assert t == t[..n] + [t[n]];
      KeepSnoc(s + t[..n], t[n], gone);
      KeepSnoc(t[..n], t[n], gone);
      Associate(Keep(s, gone), Keep(t[..n], gone), [t[n]]);
    }
  }

  lemma {:induction false} WithoutIsKeep(q: seq<Pending>, token: nat, gone: set<Pending>)
    requires forall x :: x in q ==> (x in gone <==> x.token == token)
    ensures Without(q, token) == Keep(q, gone)
  {
    if q != [] {
      WithoutIsKeep(q[..|q| - 1], token, gone);
    }
  }

  /** Taking entries out of the queue only: what was dispatched stays, the rest keeps its order. */
  lemma RemoveFromQueue(log: Log, queue: seq<Pending>, gone: set<Pending>)
    requires Numbered(log.accepted) && log.dispatched + queue == Keep(log.accepted, log.removed)
    requires forall x :: x in gone ==> x in queue
    ensures log.dispatched + Keep(queue, gone) == Keep(log.accepted, log.removed + gone)
    ensures forall x :: x in gone ==> x in log.accepted
  {
    KeepDistinct(log.accepted, log.removed);
    forall x | x in log.dispatched
      ensures x !in gone
    {
      var line := log.dispatched + queue;
      var i :| 0 <= i < |log.dispatched| && log.dispatched[i] == x;
      assert forall j :: 0 <= j < |queue| ==> line[|log.dispatched| + j] == queue[j] && line[i] != queue[j];
    }
    KeepAll(log.dispatched, gone);
    KeepConcat(log.dispatched, queue, gone);
    KeepTwice(log.accepted, log.removed, gone);
    KeepMembers(log.accepted, log.removed);
    forall x | x in gone
      ensures x in log.accepted
    {
      assert x in log.dispatched + queue;
    }
  }

  lemma SubmitOrdered(w: World, c: Config, token: nat)
    requires w.pump.Idle? && InOrder(w, c)
    ensures InOrder(ApplyLocked(w, Submit(token)), c)
  {
    if !w.lane.stopped {
      var x := Pending(|w.log.accepted|, token);
      KeepSnoc(w.log.accepted, x, w.log.removed);
      assert x !in w.log.removed;
      assert w.log.dispatched + (w.lane.queue + [x]) == (w.log.dispatched + w.lane.queue) + [x];
    }
  }

  lemma CancelOrdered(w: World, c: Config, token: nat)
    requires w.pump.Idle? && InOrder(w, c)
    ensures InOrder(ApplyLocked(w, Cancel(token)), c)
  {
    var gone := Matching(w.lane.queue, token);
    WithoutIsKeep(w.lane.queue, token, gone);
    RemoveFromQueue(w.log, w.lane.queue, gone);
  }

  lemma ShutdownOrdered(w: World, c: Config)
    requires w.pump.Idle? && InOrder(w, c)
    ensures InOrder(ApplyLocked(w, Shutdown), c)
  {
    if !w.lane.stopped {
      var gone := set x | x in w.lane.queue;
      KeepNone(w.lane.queue, gone);
      RemoveFromQueue(w.log, w.lane.queue, gone);
    }
  }

  lemma FinishedOrdered(w: World, c: Config, x: Pending)
    requires w.pump.Idle? && InOrder(w, c)
    ensures InOrder(ApplyLocked(w, Finished(x)), c)
  {
    if x in w.log.running {
      assert |w.log.running - {x}| == |w.log.running| - 1;
    }
  }

  lemma StepOrdered(w: World, c: Config, throttled: bool)
    requires w.lane.shards <= 1 || w.lane.shards <= c.maxShards
    requires InOrder(w, c)
    ensures InOrder(PumpStep(w, c, throttled), c)
  {
    if Ready(w.lane, c) && P.Granted(w.policy, w.now) {
      var x, line := w.lane.queue[0], w.log.dispatched + w.lane.queue;
      KeepDistinct(w.log.accepted, w.log.removed);
      assert line[|w.log.dispatched|] == x;
      forall i | 0 <= i < |w.log.dispatched|
        ensures w.log.dispatched[i] != x
      {
        assert line[i] == w.log.dispatched[i];
      }
      assert (w.log.dispatched + [x]) + w.lane.queue[1..] == line;
    }
  }

  lemma LockedOrdered(w: World, c: Config, e: Event)
    requires w.pump.Idle? && InOrder(w, c)
    ensures InOrder(ApplyLocked(w, e), c)
  {
    match e
    case Submit(token) => SubmitOrdered(w, c, token);
    case Cancel(token) => CancelOrdered(w, c, token);
    case Finished(x) => FinishedOrdered(w, c, x);
    case Shutdown => ShutdownOrdered(w, c);
    case _ =>
  }

  lemma ApplyOrdered(w: World, c: Config, e: Event)
    requires w.lane.shards <= 1 || w.lane.shards <= c.maxShards
    requires InOrder(w, c)
    ensures InOrder(Apply(w, c, e), c)
  {
    if e.PumpSteps? {
      StepOrdered(w, c, e.throttled);
    } else if w.pump.Idle? {
      LockedOrdered(w, c, e);
    }
  }

  lemma {:induction false} RunOrdered(policy: P.Policy, now: int, c: Config, es: seq<Event>)
    ensures InOrder(Run(policy, now, c, es), c)
  {
    if es != [] {
      RunOrdered(policy, now, c, es[..|es| - 1]);
      ApplyOrdered(Run(policy, now, c, es[..|es| - 1]), c, es[|es| - 1]);
    }
  }

  /** Requests leave the lane in the order they were submitted, skipping exactly those that
      were cancelled while queued or cut off by shutdown; never more than the ceiling are in
      flight, and the count is the number of transfers that have not finished. */
  lemma DispatchOrder(policy: P.Policy, now: int, c: Config, es: seq<Event>)
    ensures var w := Run(policy, now, c, es);
      && w.log.dispatched + w.lane.queue == Keep(w.log.accepted, w.log.removed)
      && (forall x :: x in w.log.removed ==> x.token in w.log.cancelled || w.lane.stopped)
      && w.lane.inFlight == |w.log.running| <= c.ceiling
  {
    RunOrdered(policy, now, c, es);
  }

  // ---------------------------------------------------------------- the lane object

  /** A pump that nothing interrupts: clock(k) is the k-th clock reading. The last reading
      is arm()'s. */
  function PumpAll(l: Lane, p: P.Policy, c: Config, throttled: bool, clock: nat -> int, k: nat):
    (Lane, P.Policy, Option<int>)
    requires l.shards <= 1 || l.shards <= c.maxShards
    decreases |l.queue|
  {
    if !Ready(l, c) then (l, p, None)
    else if P.Granted(p, clock(k)) then
      PumpAll(Dispatch(l, c, throttled), P.Claim(p, clock(k)), c, throttled, clock, k + 1)
    else
      var deadline := clock(k + 1) + (p.nextRequest - clock(k));
      (ArmAt(l, deadline, p.generation), p, if Covered(l.gate, deadline, p.generation) then None else Some(deadline))
  }

  ghost predicate Forward(clock: nat -> int, from: int, k: nat) {
    from <= clock(k) && forall i: nat :: k <= i ==> clock(i) <= clock(i + 1)
  }

  /** The uninterrupted pump is a run of the step machine, from the moment it has the mutex. */
  lemma {:induction false} PumpIsRun(w: World, c: Config, throttled: bool, clock: nat -> int, k: nat)
    returns (es: seq<Event>)
    requires w.lane.shards <= 1 || w.lane.shards <= c.maxShards
    requires w.pump.Looping? && Forward(clock, w.now, k)
    ensures var (l, p, posted) := PumpAll(w.lane, w.policy, c, throttled, clock, k);
      Reaches(w, c, es, l, p, if posted.Some? then w.timers + [posted.value] else w.timers)
    decreases |w.lane.queue|
  {
    var (l, p, posted) := PumpAll(w.lane, w.policy, c, throttled, clock, k);
    var timers := if posted.Some? then w.timers + [posted.value] else w.timers;
    var w1 := Apply(w, c, Tick(clock(k)));
    var w2 := Apply(w1, c, PumpSteps(throttled));
    if !Ready(w.lane, c) {
      es := [];
    } else if P.Granted(w.policy, clock(k)) {
      assert clock(k) <= clock(k + 1);
      es := PumpIsRun(w2, c, throttled, clock, k + 1);
    } else {
      assert clock(k) <= clock(k + 1);
      es := ArmsAt(w2, c, clock(k + 1), l, timers);
    }
    es := ReachStep(w1, c, PumpSteps(throttled), es, l, p, timers);
    es := ReachStep(w, c, Tick(clock(k)), es, l, p, timers);
  }

  /** A pump that has been told to wait reads the clock once more and arms. */
  lemma ArmsAt(w: World, c: Config, now: int, l: Lane, timers: seq<int>) returns (es: seq<Event>)
    requires w.lane.shards <= 1 || w.lane.shards <= c.maxShards
    requires w.pump.Arming? && w.now <= now
    requires var deadline := now + w.pump.wait;
      && l == ArmAt(w.lane, deadline, w.policy.generation)
      && timers == if Covered(w.lane.gate, deadline, w.policy.generation) then w.timers else w.timers + [deadline]
    ensures Reaches(w, c, es, l, w.policy, timers)
  {
    es := ReachStep(Apply(w, c, Tick(now)), c, PumpArms, [], l, w.policy, timers);
    es := ReachStep(w, c, Tick(now), es, l, w.policy, timers);
  }

  lemma ReachStep(w: World, c: Config, e: Event, es: seq<Event>, l: Lane, p: P.Policy, timers: seq<int>)
    returns (longer: seq<Event>)
    requires w.lane.shards <= 1 || w.lane.shards <= c.maxShards
    requires Reaches(Apply(w, c, e), c, es, l, p, timers)
    ensures longer == [e] + es && Reaches(w, c, longer, l, p, timers)
  {
    longer := [e] + es;
    assert longer[1..] == es;
  }

  /** The events es take w to an idle lane with this lane state, policy and timers. */
  predicate Reaches(w: World, c: Config, es: seq<Event>, l: Lane, p: P.Policy, timers: seq<int>)
    requires w.lane.shards <= 1 || w.lane.shards <= c.maxShards
    decreases |es|
  {
    if es == [] then w.pump.Idle? && w.lane == l && w.policy == p && w.timers == timers
    else
      var w' := Apply(w, c, es[0]);
      (w'.lane.shards <= 1 || w'.lane.shards <= c.maxShards) && Reaches(w', c, es[1..], l, p, timers)
  }

  /** pickShard: the first of the least loaded. */
  method PickShard(loads: seq<nat>) returns (best: nat)
    requires loads != []
    ensures best < |loads|
    ensures forall i :: 0 <= i < |loads| ==> loads[best] <= loads[i]
    ensures forall i :: 0 <= i < best ==> loads[best] < loads[i]
  {
    best := 0;
    for i := 0 to |loads|
      invariant best < |loads| && best <= i
      invariant forall j :: 0 <= j < i ==> loads[best] <= loads[j]
      invariant forall j :: 0 <= j < best ==> loads[best] < loads[j]
    {
      if loads[i] < loads[best] {
        best := i;
      }
    }
  }

  class SharedLane {
    var queue: seq<Pending>
    var inFlight: nat
    var gate: Gate
    var shards: nat
    var stopped: bool
    const config: Config

    ghost predicate Valid()
      reads this
    {
      shards <= 1 || shards <= config.maxShards
    }

    ghost function Value(): Lane
      reads this
    {
      Lane(queue, inFlight, gate, shards, stopped)
    }

    constructor (config: Config)
      ensures Valid() && this.config == config
      ensures Value() == Lane([], 0, Gate(false, 0, 0), 0, false)
    {
      this.config := config;
      queue, inFlight, gate, shards, stopped := [], 0, Gate(false, 0, 0), 0, false;
    }

    /** False when the lane is stopped and the caller has to be told so. */
    method Enqueue(x: Pending) returns (accepted: bool)
      requires Valid()
      modifies this
      ensures Valid() && accepted == !old(stopped)
      ensures Value() == if accepted then old(Value()).(queue := old(queue) + [x]) else old(Value())
    {
      if stopped {
        return false;
      }
      queue := queue + [x];
      return true;
    }

    method CancelQueued(token: nat) returns (cancelled: seq<Pending>)
      requires Valid()
      modifies this
      ensures Valid() && Value() == old(Value()).(queue := Without(old(queue), token))
      ensures forall x :: x in cancelled <==> x in Matching(old(queue), token)
      ensures |cancelled| + |queue| == |old(queue)|
    {
      cancelled := [];
      var kept := [];
      for i := 0 to |queue|
        invariant unchanged(this)
        invariant kept == Without(queue[..i], token)
        invariant forall x :: x in cancelled <==> x in queue[..i] && x.token == token
        invariant |kept| + |cancelled| == i
      {
        assert queue[..i + 1][..i] == queue[..i];
        if queue[i].token != token {
          kept := kept + [queue[i]];
        } else {
          cancelled := cancelled + [queue[i]];
        }
      }
      assert queue[..|queue|] == queue;
      queue := kept;
    }

    /** onTransferFinished(): the Finished step; the guard never bites, because the transfer counts. */
    method TransferFinished(ghost w: World, ghost x: Pending)
      requires Valid() && Value() == w.lane && w.pump.Idle? && InOrder(w, config) && x in w.log.running
      modifies this
      ensures Valid() && Value() == ApplyLocked(w, Finished(x)).lane
      ensures inFlight == |w.log.running - {x}|
    {
      FinishedOrdered(w, config, x);
      if inFlight > 0 {
        inFlight := inFlight - 1;
      }
    }

    /** True when the timer was the current one, so that its thread goes on to pump. */
    method TimerFired(deadline: int) returns (pumps: bool)
      requires Valid()
      modifies this
      ensures Valid() && Value() == Disarm(old(Value()), deadline)
      ensures pumps == Current(old(Value()), deadline)
    {
      if !gate.armed || gate.deadline != deadline {
        return false;
      }
      gate := gate.(armed := false);
      return true;
    }

    method Arm(deadline: int, generation: nat) returns (posted: Option<int>)
      requires Valid()
      modifies this
      ensures Valid() && Value() == ArmAt(old(Value()), deadline, generation)
      ensures posted == if Covered(old(gate), deadline, generation) then None else Some(deadline)
      ensures posted.None? <==> old(gate).armed && old(gate).generation == generation && old(gate).deadline <= deadline
      ensures gate == if posted.None? then old(gate) else Gate(true, deadline, generation)
    {
      if gate.armed && gate.generation == generation && gate.deadline <= deadline {
        return None;
      }
      gate := Gate(true, deadline, generation);
      return Some(deadline);
    }

    method GrowIfNeeded(throttled: bool)
      requires Valid()
      modifies this
      ensures Valid() && Value() == old(Value()).(shards := Grow(old(Value()), config, throttled))
    {
      if shards == 0 {
        shards := 1;
        return;
      }
      if throttled || shards >= config.maxShards {
        return;
      }
      var load := inFlight + |queue|;
      if load <= shards * config.growth {
        return;
      }
      shards := shards + 1;
    }

    /** pump(): what is left is PumpAll's; posted is the timer arm() asks for. */
    method Drain(policy: P.SharedPolicy, throttled: bool, clock: nat -> int) returns (posted: Option<int>)
      requires Valid()
      modifies this, policy
      ensures Valid()
      ensures (Value(), policy.Value(), posted) ==
              PumpAll(old(Value()), old(policy.Value()), config, throttled, clock, 0)
    {
      var k: nat := 0;
      posted := None;
      while !stopped && queue != [] && inFlight < config.ceiling
        invariant Valid()
        invariant PumpAll(Value(), policy.Value(), config, throttled, clock, k)
               == PumpAll(old(Value()), old(policy.Value()), config, throttled, clock, 0)
        invariant posted == None
        decreases |queue|
      {
        ghost var before := Value();
        var wait := policy.TryClaim(clock(k));
        if wait.Some? {
          posted := Arm(clock(k + 1) + wait.value, policy.generation);
          return;
        }
        GrowIfNeeded(throttled);
        queue := queue[1..];
        inFlight := inFlight + 1;
        k := k + 1;
        assert Value() == Dispatch(before, config, throttled);
      }
    }

    method Stop() returns (cut: seq<Pending>)
      requires Valid()
      modifies this
      ensures Valid() && cut == if old(stopped) then [] else old(queue)
      ensures Value() == if old(stopped) then old(Value()) else old(Value()).(stopped := true, queue := [], shards := 0)
    {
      if stopped {
        return [];
      }
      cut := queue;
      stopped, queue, shards := true, [], 0;
    }
  }
}
