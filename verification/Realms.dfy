/** Script executions and the requests they wait for. An execution lives on one worker thread,
    which tracks, settles and releases; results arrive on other threads through deliver(), which
    posts to the worker's inbox while the runner runs and drops the request once it has
    stopped. A pending request points at its execution; releasing the execution frees it. */
module Realms {
  import opened Common

  datatype Status = Alive | Abandoned | Released

  datatype Execution = Execution(worker: nat, outstanding: int, status: Status)

  /** An import outlives the work that started it and points at no execution. */
  datatype Pending = Pending(execution: Option<nat>, worker: nat)

  /** A worker between the two halves of track() or settle(), with the execution it has in hand. */
  datatype Hand = Tracking(x: nat) | Settling(x: nat)

  datatype Mail = Mail(id: nat, worker: nat)

  datatype State = State(
    running: bool,
    executions: map<nat, Execution>,
    pending: map<nat, Pending>,
    inflight: int,
    next: nat,
    hands: map<nat, Hand>,
    delivering: set<Mail>,
    inbox: set<Mail>)

  datatype Event =
    | Begin(x: nat, worker: nat)
    | TrackBegins(x: nat)
    | TrackEnds(worker: nat)
    | TrackImport(worker: nat)
    | DeliverFinds(id: nat)
    | DeliverPosts(mail: Mail)
    | DeliverErases(mail: Mail)
    | SettleTakes(mail: Mail)
    | SettleEnds(worker: nat)
    | Release(x: nat)
    | Abandon(x: nat)
    | AbandonEnds(x: nat)
    | ReleaseAbandoned(x: nat)
    | Stop

  // ---------------------------------------------------------------- steps

  predicate Is(s: State, x: nat, status: Status) {
    x in s.executions && s.executions[x].status == status
  }

  /** The worker of x is not in the middle of something. */
  predicate HandFree(s: State, x: nat)
    requires x in s.executions
  {
    s.executions[x].worker !in s.hands
  }

  function Less(n: int): int {
    if n > 0 then n - 1 else n
  }

  function SetOutstanding(s: State, x: nat, n: int): State
    requires x in s.executions
  {
    s.(executions := s.executions[x := s.executions[x].(outstanding := n)])
  }

  function SetStatus(s: State, x: nat, status: Status): State
    requires x in s.executions
  {
    s.(executions := s.executions[x := s.executions[x].(status := status)])
  }

  function Pointing(pending: map<nat, Pending>, x: nat): set<nat> {
    set id | id in pending && pending[id].execution == Some(x)
  }

  function ApplyTrack(s: State, e: Event): State {
    match e
    case Begin(x, worker) =>
      if x in s.executions then s else s.(executions := s.executions[x := Execution(worker, 0, Alive)])
    case TrackBegins(x) =>
      if Is(s, x, Alive) && HandFree(s, x) then
        SetOutstanding(s, x, s.executions[x].outstanding + 1).(hands := s.hands[s.executions[x].worker := Tracking(x)])
      else s
    case TrackEnds(worker) =>
      if worker in s.hands && s.hands[worker].Tracking? then
        s.(pending := s.pending[s.next := Pending(Some(s.hands[worker].x), worker)], inflight := s.inflight + 1,
           next := s.next + 1, hands := s.hands - {worker})
      else s
    case TrackImport(worker) =>
      s.(pending := s.pending[s.next := Pending(None, worker)], inflight := s.inflight + 1, next := s.next + 1)
    case _ => s
  }

  function ApplyDeliver(s: State, e: Event): State {
    match e
    case DeliverFinds(id) =>
      if id in s.pending then s.(delivering := s.delivering + {Mail(id, s.pending[id].worker)}) else s
    case DeliverPosts(mail) =>
      if mail in s.delivering && s.running then
        s.(delivering := s.delivering - {mail}, inbox := s.inbox + {mail})
      else s
    case DeliverErases(mail) =>
      if mail in s.delivering && !s.running then
        s.(delivering := s.delivering - {mail}, pending := s.pending - {mail.id},
           inflight := if mail.id in s.pending then Less(s.inflight) else s.inflight)
      else s
    case SettleTakes(mail) =>
      if mail in s.inbox && mail.worker !in s.hands then
        var t := s.(inbox := s.inbox - {mail});
        if mail.id !in s.pending then t
        else
          var entry := s.pending[mail.id];
          t.(pending := s.pending - {mail.id}, inflight := Less(s.inflight),
             hands := if entry.execution.Some? then s.hands[mail.worker := Settling(entry.execution.value)]
                 else s.hands)
      else s
    case SettleEnds(worker) =>
      if worker in s.hands && s.hands[worker].Settling? && s.hands[worker].x in s.executions then
        var x := s.hands[worker].x;
        SetOutstanding(s, x, Less(s.executions[x].outstanding)).(hands := s.hands - {worker})
      else s
    case _ => s
  }

  function ApplyRelease(s: State, e: Event): State {
    match e
    case Release(x) =>
      if Is(s, x, Alive) && HandFree(s, x) && s.executions[x].outstanding == 0 then SetStatus(s, x, Released) else s
    case Abandon(x) =>
      if Is(s, x, Alive) && HandFree(s, x) then
        SetStatus(s, x, Abandoned).(pending := s.pending - Pointing(s.pending, x),
                                    inflight := LessBy(s.inflight, |Pointing(s.pending, x)|))
      else s
    case AbandonEnds(x) => if Is(s, x, Abandoned) then SetOutstanding(s, x, 0) else s
    case ReleaseAbandoned(x) =>
      if Is(s, x, Abandoned) && s.executions[x].outstanding == 0 then SetStatus(s, x, Released) else s
    case Stop => s.(running := false)
    case _ => s
  }

  /** One guarded decrement for each entry taken out. */
  function LessBy(n: int, k: nat): int {
    if k == 0 then n else Less(LessBy(n, k - 1))
  }

  function Apply(s: State, e: Event): State {
    if e.Begin? || e.TrackBegins? || e.TrackEnds? || e.TrackImport? then ApplyTrack(s, e)
    else if e.Release? || e.Abandon? || e.AbandonEnds? || e.ReleaseAbandoned? || e.Stop? then ApplyRelease(s, e)
    else ApplyDeliver(s, e)
  }

  function Run(es: seq<Event>): State {
    if es == [] then State(true, map[], map[], 0, 0, map[], {}, {})
    else Apply(Run(es[..|es| - 1]), es[|es| - 1])
  }

  // ---------------------------------------------------------------- what every step keeps

  function InHand(s: State, x: nat): nat
    requires x in s.executions
  {
    if s.executions[x].worker in s.hands && s.hands[s.executions[x].worker].x == x then 1 else 0
  }

  /** Every request's pointer is to an execution still alive, on the worker that will settle it. */
  ghost predicate EntriesAlive(s: State) {
    forall id :: id in s.pending && s.pending[id].execution.Some? ==>
      var x := s.pending[id].execution.value;
      Is(s, x, Alive) && s.executions[x].worker == s.pending[id].worker
  }

  /** So is what a worker has in hand. */
  ghost predicate HandsAlive(s: State) {
    forall w :: w in s.hands ==> Is(s, s.hands[w].x, Alive) && s.executions[s.hands[w].x].worker == w
  }

  /** Ids are not reused, and a result on its way goes to the worker of its request. */
  ghost predicate MailKnown(s: State) {
    && (forall id :: id in s.pending ==> id < s.next)
    && (forall m :: m in s.delivering || m in s.inbox ==>
          m.id < s.next && (m.id in s.pending ==> s.pending[m.id].worker == m.worker))
  }

  ghost predicate NoDangling(s: State) {
    EntriesAlive(s) && HandsAlive(s) && MailKnown(s)
  }

  /** How far outstanding lies above the requests that point at the execution, counting the one
      its worker has in hand. */
  function Surplus(s: State, x: nat): int
    requires x in s.executions
  {
    s.executions[x].outstanding - |Pointing(s.pending, x)| - InHand(s, x)
  }

  ghost predicate NoDeficit(s: State) {
    forall x :: Is(s, x, Alive) ==> Surplus(s, x) >= 0
  }

  ghost predicate Inv(s: State) {
    NoDangling(s) && NoDeficit(s) && s.inflight == |s.pending|
  }

  lemma PointingAdd(pending: map<nat, Pending>, id: nat, entry: Pending, x: nat)
    requires id !in pending
    ensures |Pointing(pending[id := entry], x)| ==
            |Pointing(pending, x)| + (if entry.execution == Some(x) then 1 else 0)
    ensures |pending[id := entry]| == |pending| + 1
  {
    var more := Pointing(pending[id := entry], x);
    if entry.execution == Some(x) {
      assert more == Pointing(pending, x) + {id};
    } else {
      assert more == Pointing(pending, x);
    }
  }

  lemma PointingLess(pending: map<nat, Pending>, id: nat, x: nat)
    ensures id in pending ==>
      |Pointing(pending - {id}, x)| == |Pointing(pending, x)| - (if pending[id].execution == Some(x) then 1 else 0)
    ensures id in pending ==> |pending - {id}| == |pending| - 1
    ensures id !in pending ==> pending - {id} == pending
  {
    if id in pending {
      var fewer := Pointing(pending - {id}, x);
      if pending[id].execution == Some(x) {
        assert fewer == Pointing(pending, x) - {id};
      } else {
        assert fewer == Pointing(pending, x);
      }
      assert (pending - {id}).Keys == pending.Keys - {id};
    } else {
      assert (pending - {id}) == pending;
    }
  }

  lemma PointingOthers(pending: map<nat, Pending>, x: nat, y: nat)
    requires x != y
    ensures Pointing(pending - Pointing(pending, x), y) == Pointing(pending, y)
    ensures |Pointing(pending, x)| <= |pending|
    ensures |pending - Pointing(pending, x)| == |pending| - |Pointing(pending, x)|
  {
    var gone := Pointing(pending, x);
    assert (pending - gone).Keys == pending.Keys - gone && gone <= pending.Keys;
    assert |pending.Keys - gone| == |pending.Keys| - |gone|;
  }

  lemma {:induction false} LessBySubtracts(n: int, k: nat)
    requires k <= n
    ensures LessBy(n, k) == n - k
  {
    if k > 0 {
      LessBySubtracts(n, k - 1);
    }
  }

  // ---------------------------------------------------------------- no dangling pointer

  lemma TrackPointers(s: State, e: Event)
    requires NoDangling(s) && (e.Begin? || e.TrackBegins? || e.TrackEnds? || e.TrackImport?)
    ensures NoDangling(ApplyTrack(s, e))
  {
    match e
    case Begin(_, _) =>
    case TrackBegins(_) =>
    case TrackEnds(_) =>
    case TrackImport(_) =>
  }

  lemma MailPointers(s: State, e: Event)
    requires NoDangling(s) && (e.DeliverFinds? || e.DeliverPosts? || e.DeliverErases?)
    ensures NoDangling(ApplyDeliver(s, e))
  {
  }

  lemma SettlePointers(s: State, e: Event)
    requires NoDangling(s) && (e.SettleTakes? || e.SettleEnds?)
    ensures NoDangling(ApplyDeliver(s, e))
  {
  }

  /** An execution whose outstanding is zero has no request pointing at it. */
  lemma ZeroMeansNobody(s: State, x: nat)
    requires Inv(s) && Is(s, x, Alive) && s.executions[x].outstanding == 0
    ensures forall id :: id in s.pending ==> s.pending[id].execution != Some(x)
  {
    assert Surplus(s, x) >= 0;
    forall id | id in s.pending
      ensures s.pending[id].execution != Some(x)
    {
      assert Pointing(s.pending, x) == {};
      assert id !in Pointing(s.pending, x);
    }
  }

  lemma AbandonPointers(s: State, x: nat)
    requires NoDangling(s)
    ensures NoDangling(ApplyRelease(s, Abandon(x)))
  {
  }

  lemma ReleasePointers(s: State, e: Event)
    requires Inv(s) && (e.Release? || e.AbandonEnds? || e.ReleaseAbandoned? || e.Stop?)
    ensures NoDangling(ApplyRelease(s, e))
  {
    if e.Release? && Is(s, e.x, Alive) && s.executions[e.x].outstanding == 0 {
      ZeroMeansNobody(s, e.x);
    }
  }

  // ---------------------------------------------------------------- what changes the surplus

  /** This step is deliver() dropping a request of x after the stop. */
  predicate Erases(s: State, e: Event, x: nat) {
    && e.DeliverErases? && e.mail in s.delivering && !s.running
    && e.mail.id in s.pending && s.pending[e.mail.id].execution == Some(x)
  }

  function One(b: bool): nat {
    if b then 1 else 0
  }

  lemma TrackSurplus(s: State, e: Event, x: nat)
    requires NoDangling(s) && Is(s, x, Alive)
    requires e.Begin? || e.TrackBegins? || e.TrackEnds? || e.TrackImport?
    ensures Is(ApplyTrack(s, e), x, Alive) && Surplus(ApplyTrack(s, e), x) == Surplus(s, x)
  {
    if e.TrackEnds? && e.worker in s.hands {
      PointingAdd(s.pending, s.next, Pending(Some(s.hands[e.worker].x), e.worker), x);
    } else if e.TrackImport? {
      PointingAdd(s.pending, s.next, Pending(None, e.worker), x);
    }
  }

  lemma MailSurplus(s: State, e: Event, x: nat)
    requires NoDangling(s) && Is(s, x, Alive)
    requires e.DeliverFinds? || e.DeliverPosts? || e.DeliverErases?
    ensures Is(ApplyDeliver(s, e), x, Alive) && Surplus(ApplyDeliver(s, e), x) == Surplus(s, x) + One(Erases(s, e, x))
  {
    if e.DeliverErases? {
      PointingLess(s.pending, e.mail.id, x);
    }
  }

  lemma SettleTakesSurplus(s: State, mail: Mail, x: nat)
    requires NoDangling(s) && Is(s, x, Alive)
    ensures var s' := ApplyDeliver(s, SettleTakes(mail)); Is(s', x, Alive) && Surplus(s', x) == Surplus(s, x)
  {
    if mail in s.inbox && mail.worker !in s.hands && mail.id in s.pending {
      PointingLess(s.pending, mail.id, x);
      TakenInHand(s, mail, x);
    }
  }

  /** The request that leaves the table comes into the hand of the worker of its execution. */
  lemma TakenInHand(s: State, mail: Mail, x: nat)
    requires NoDangling(s) && Is(s, x, Alive) && mail in s.inbox && mail.worker !in s.hands && mail.id in s.pending
    ensures var s' := ApplyDeliver(s, SettleTakes(mail));
      && s'.executions == s.executions && s'.pending == s.pending - {mail.id}
      && InHand(s', x) == InHand(s, x) + One(s.pending[mail.id].execution == Some(x))
  {
  }

  lemma SettleEndsSurplus(s: State, worker: nat, x: nat)
    requires NoDangling(s) && NoDeficit(s) && Is(s, x, Alive)
    ensures var s' := ApplyDeliver(s, SettleEnds(worker)); Is(s', x, Alive) && Surplus(s', x) == Surplus(s, x)
  {
    if worker in s.hands && s.hands[worker].x == x {
      assert Surplus(s, x) >= 0 && s.executions[x].worker == worker && InHand(s, x) == 1;
    }
  }

  lemma ReleaseSurplus(s: State, e: Event, x: nat)
    requires Is(s, x, Alive) && Is(ApplyRelease(s, e), x, Alive)
    requires e.Release? || e.Abandon? || e.AbandonEnds? || e.ReleaseAbandoned? || e.Stop?
    ensures Surplus(ApplyRelease(s, e), x) == Surplus(s, x)
  {
    if e.Abandon? && Is(s, e.x, Alive) && e.x != x {
      PointingOthers(s.pending, e.x, x);
    }
  }

  /** Each drop by deliver() after the stop raises the surplus by one, and nothing else moves it. */
  lemma SurplusStep(s: State, e: Event, x: nat)
    requires NoDangling(s) && NoDeficit(s) && Is(s, x, Alive) && Is(Apply(s, e), x, Alive)
    ensures Surplus(Apply(s, e), x) == Surplus(s, x) + One(Erases(s, e, x))
  {
    match e
    case Begin(_, _) => TrackSurplus(s, e, x);
    case TrackBegins(_) => TrackSurplus(s, e, x);
    case TrackEnds(_) => TrackSurplus(s, e, x);
    case TrackImport(_) => TrackSurplus(s, e, x);
    case DeliverFinds(_) => MailSurplus(s, e, x);
    case DeliverPosts(_) => MailSurplus(s, e, x);
    case DeliverErases(_) => MailSurplus(s, e, x);
    case SettleTakes(mail) => SettleTakesSurplus(s, mail, x);
    case SettleEnds(worker) => SettleEndsSurplus(s, worker, x);
    case _ => ReleaseSurplus(s, e, x);
  }

  /** An execution starts with nothing pointing at it. */
  lemma BeginSurplus(s: State, e: Event, x: nat)
    requires NoDangling(s) && !Is(s, x, Alive) && Is(Apply(s, e), x, Alive)
    ensures x !in s.executions && Surplus(Apply(s, e), x) == 0
  {
    assert e.Begin? && e.x == x;
    assert Pointing(s.pending, x) == {} by {
      assert forall id :: id in s.pending ==> s.pending[id].execution != Some(x);
    }
  }

  lemma InsertInflight(s: State, e: Event)
    requires MailKnown(s) && s.inflight == |s.pending| && (e.TrackEnds? || e.TrackImport?)
    ensures ApplyTrack(s, e).inflight == |ApplyTrack(s, e).pending|
  {
    if e.TrackImport? {
      PointingAdd(s.pending, s.next, Pending(None, e.worker), 0);
    } else if e.worker in s.hands {
      PointingAdd(s.pending, s.next, Pending(Some(s.hands[e.worker].x), e.worker), 0);
    }
  }

  lemma RemoveInflight(s: State, e: Event)
    requires s.inflight == |s.pending| && (e.DeliverErases? || e.SettleTakes?)
    ensures ApplyDeliver(s, e).inflight == |ApplyDeliver(s, e).pending|
  {
    PointingLess(s.pending, e.mail.id, 0);
  }

  lemma AbandonInflight(s: State, x: nat)
    requires s.inflight == |s.pending|
    ensures ApplyRelease(s, Abandon(x)).inflight == |ApplyRelease(s, Abandon(x)).pending|
  {
    PointingOthers(s.pending, x, x + 1);
    LessBySubtracts(s.inflight, |Pointing(s.pending, x)|);
  }

  lemma TableStays(s: State, e: Event)
    requires !e.TrackEnds? && !e.TrackImport? && !e.DeliverErases? && !e.SettleTakes? && !e.Abandon?
    ensures Apply(s, e).pending == s.pending && Apply(s, e).inflight == s.inflight
  {
  }

  lemma InflightStep(s: State, e: Event)
    requires MailKnown(s) && s.inflight == |s.pending|
    ensures Apply(s, e).inflight == |Apply(s, e).pending|
  {
    if e.TrackEnds? || e.TrackImport? {
      InsertInflight(s, e);
    } else if e.DeliverErases? || e.SettleTakes? {
      RemoveInflight(s, e);
    } else if e.Abandon? {
      AbandonInflight(s, e.x);
    } else {
      TableStays(s, e);
    }
  }

  lemma PointersStep(s: State, e: Event)
    requires Inv(s)
    ensures NoDangling(Apply(s, e))
  {
    if e.Begin? || e.TrackBegins? || e.TrackEnds? || e.TrackImport? {
      TrackPointers(s, e);
    } else if e.DeliverFinds? || e.DeliverPosts? || e.DeliverErases? {
      MailPointers(s, e);
    } else if e.SettleTakes? || e.SettleEnds? {
      SettlePointers(s, e);
    } else if e.Abandon? {
      AbandonPointers(s, e.x);
    } else {
      ReleasePointers(s, e);
    }
  }

  lemma StepKeeps(s: State, e: Event)
    requires Inv(s)
    ensures Inv(Apply(s, e))
  {
    PointersStep(s, e);
    InflightStep(s, e);
    forall x | Is(Apply(s, e), x, Alive)
      ensures Surplus(Apply(s, e), x) >= 0
    {
      if Is(s, x, Alive) {
        SurplusStep(s, e, x);
      } else {
        BeginSurplus(s, e, x);
      }
    }
  }

  lemma {:induction false} RunKeeps(es: seq<Event>)
    ensures Inv(Run(es))
  {
    if es != [] {
      RunKeeps(es[..|es| - 1]);
      StepKeeps(Run(es[..|es| - 1]), es[|es| - 1]);
    }
  }

  // ---------------------------------------------------------------- the laws

  /** How many requests of x deliver() has dropped after the stop. */
  function Erased(es: seq<Event>, x: nat): nat {
    if es == [] then 0
    else Erased(es[..|es| - 1], x) + One(Erases(Run(es[..|es| - 1]), es[|es| - 1], x))
  }

  lemma ExecutionsStay(s: State, e: Event, x: nat)
    requires x in s.executions
    ensures x in Apply(s, e).executions
  {
  }

  lemma {:induction false} NothingErasedBefore(es: seq<Event>, x: nat)
    requires x !in Run(es).executions
    ensures Erased(es, x) == 0
  {
    if es != [] {
      var s, e := Run(es[..|es| - 1]), es[|es| - 1];
      if x in s.executions {
        ExecutionsStay(s, e, x);
      } else {
        NothingErasedBefore(es[..|es| - 1], x);
        RunKeeps(es[..|es| - 1]);
      }
    }
  }

  /** The exact law, in every run: outstanding is the number of requests that point at the
      execution, plus the one in its worker's hand, plus those dropped after the stop. */
  lemma {:induction false} OutstandingLaw(es: seq<Event>, x: nat)
    requires Is(Run(es), x, Alive)
    ensures Surplus(Run(es), x) == Erased(es, x)
  {
    if es != [] {
      var s, e := Run(es[..|es| - 1]), es[|es| - 1];
      RunKeeps(es[..|es| - 1]);
      if Is(s, x, Alive) {
        OutstandingLaw(es[..|es| - 1], x);
        SurplusStep(s, e, x);
      } else {
        BeginSurplus(s, e, x);
        NothingErasedBefore(es[..|es| - 1], x);
      }
    }
  }

  lemma {:induction false} RunningErasesNothing(es: seq<Event>, x: nat)
    requires Run(es).running
    ensures Erased(es, x) == 0
  {
    if es != [] {
      RunningBefore(Run(es[..|es| - 1]), es[|es| - 1]);
      RunningErasesNothing(es[..|es| - 1], x);
    }
  }

  lemma RunningBefore(s: State, e: Event)
    ensures Apply(s, e).running ==> s.running
  {
  }

  /** outstanding is the number of requests that point at the execution, counting the one its
      worker is tracking or settling, if and only if none of its requests was dropped after the
      stop; in particular while the runner runs. */
  lemma OutstandingIsExact(es: seq<Event>, x: nat)
    requires Is(Run(es), x, Alive)
    ensures var s := Run(es);
      s.executions[x].outstanding == |Pointing(s.pending, x)| + InHand(s, x) <==> Erased(es, x) == 0
    ensures Run(es).running ==> Erased(es, x) == 0
  {
    OutstandingLaw(es, x);
    if Run(es).running {
      RunningErasesNothing(es, x);
    }
  }

  /** No pending request, and no worker, ever refers to an execution that has been released,
      also while the runner stops and results keep arriving. */
  lemma NoPointerToReleased(es: seq<Event>, x: nat)
    requires Is(Run(es), x, Released)
    ensures Pointing(Run(es).pending, x) == {} && InHand(Run(es), x) == 0
  {
    RunKeeps(es);
    var s := Run(es);
    forall id | id in s.pending
      ensures s.pending[id].execution != Some(x)
    {
      assert s.pending[id].execution == Some(x) ==> Is(s, x, Alive);
    }
    assert s.executions[x].worker in s.hands ==> Is(s, s.hands[s.executions[x].worker].x, Alive);
  }

  lemma RunSnoc(es: seq<Event>, e: Event)
    ensures Run(es + [e]) == Apply(Run(es), e)
    ensures forall x :: Erased(es + [e], x) == Erased(es, x) + One(Erases(Run(es), e, x))
  {
    assert (es + [e])[..|es|] == es;
  }

  /** After the stop the condition fails as soon as one result of x is delivered: from every
      reachable state with a request of x that drop happens, and the count is off by one more. */
  lemma StopLeavesSurplus(es: seq<Event>, id: nat, x: nat) returns (late: seq<Event>)
    requires id in Run(es).pending && Run(es).pending[id].execution == Some(x)
    ensures Is(Run(es + late), x, Alive) && Erased(es + late, x) == Erased(es, x) + 1
    ensures Surplus(Run(es + late), x) == Erased(es, x) + 1
  {
    var mail := Mail(id, Run(es).pending[id].worker);
    RunKeeps(es);
    late := [DeliverFinds(id), Stop, DeliverErases(mail)];
    RunSnoc(es, DeliverFinds(id));
    RunSnoc(es + [DeliverFinds(id)], Stop);
    RunSnoc(es + [DeliverFinds(id)] + [Stop], DeliverErases(mail));
    assert es + late == es + [DeliverFinds(id)] + [Stop] + [DeliverErases(mail)];
    LateDelivery(Run(es), id, x);
    OutstandingLaw(es + late, x);
  }

  lemma LateDelivery(s: State, id: nat, x: nat)
    requires id in s.pending && s.pending[id].execution == Some(x) && Is(s, x, Alive)
    ensures var mail := Mail(id, s.pending[id].worker);
      var s2 := Apply(Apply(s, DeliverFinds(id)), Stop);
      && !Erases(s, DeliverFinds(id), x) && !Erases(Apply(s, DeliverFinds(id)), Stop, x)
      && Erases(s2, DeliverErases(mail), x) && Is(Apply(s2, DeliverErases(mail)), x, Alive)
  {
    var mail := Mail(id, s.pending[id].worker);
    assert Apply(s, DeliverFinds(id)) == s.(delivering := s.delivering + {mail});
  }

  // ---------------------------------------------------------------- requests go round

  lemma RunTwo(es: seq<Event>, a: Event, b: Event)
    ensures Run(es + [a] + [b]) == Apply(Apply(Run(es), a), b)
  {
    RunSnoc(es, a);
    RunSnoc(es + [a], b);
  }

  /** A request of x that is tracked, delivered and settled from here is in the table and counted in
      between, and leaves everything as it was in the end, but for its used-up id. */
  predicate GoesRound(s: State, x: nat)
    requires x in s.executions
  {
    var id, w := s.next, s.executions[x].worker;
    var tracked := Apply(Apply(s, TrackBegins(x)), TrackEnds(w));
    var posted := Apply(Apply(tracked, DeliverFinds(id)), DeliverPosts(Mail(id, w)));
    && tracked.pending == s.pending[id := Pending(Some(x), w)]
    && tracked.executions == s.executions[x := s.executions[x].(outstanding := s.executions[x].outstanding + 1)]
    && Apply(Apply(posted, SettleTakes(Mail(id, w))), SettleEnds(w)) == s.(next := id + 1)
  }

  /** In every reachable state of a running runner the requests of a live execution go round. */
  lemma RequestRoundTrip(es: seq<Event>, x: nat)
    requires Run(es).running && Is(Run(es), x, Alive) && HandFree(Run(es), x)
    ensures GoesRound(Run(es), x)
  {
    RunKeeps(es);
    RoundTrip(Run(es), x);
  }

  lemma RoundTrip(s: State, x: nat)
    requires s.running && Is(s, x, Alive) && HandFree(s, x) && Inv(s)
    ensures GoesRound(s, x)
  {
    assert Surplus(s, x) >= 0;
    TrackedState(s, x);
    PostedState(WithRequest(s, x), s.next);
    SettledState(s, x, WithRequest(s, x).(inbox := s.inbox + {Mail(s.next, s.executions[x].worker)}));
  }

  function WithRequest(s: State, x: nat): State
    requires x in s.executions
  {
    SetOutstanding(s, x, s.executions[x].outstanding + 1).(
      pending := s.pending[s.next := Pending(Some(x), s.executions[x].worker)],
      inflight := s.inflight + 1, next := s.next + 1)
  }

  lemma TrackedState(s: State, x: nat)
    requires Is(s, x, Alive) && HandFree(s, x)
    ensures Apply(Apply(s, TrackBegins(x)), TrackEnds(s.executions[x].worker)) == WithRequest(s, x)
  {
    var w := s.executions[x].worker;
    assert s.hands[w := Tracking(x)] - {w} == s.hands;
  }

  lemma PostedState(s: State, id: nat)
    requires s.running && id in s.pending && Mail(id, s.pending[id].worker) !in s.delivering
    ensures var mail := Mail(id, s.pending[id].worker);
      Apply(Apply(s, DeliverFinds(id)), DeliverPosts(mail)) == s.(inbox := s.inbox + {mail})
  {
    var mail := Mail(id, s.pending[id].worker);
    assert (s.delivering + {mail}) - {mail} == s.delivering;
  }

  lemma SettledState(s: State, x: nat, posted: State)
    requires Is(s, x, Alive) && HandFree(s, x) && s.next !in s.pending && s.inflight >= 0
    requires s.executions[x].outstanding >= 0 && Mail(s.next, s.executions[x].worker) !in s.inbox
    requires posted ==
      WithRequest(s, x).(inbox := s.inbox + {Mail(s.next, s.executions[x].worker)})
    ensures var w := s.executions[x].worker;
      Apply(Apply(posted, SettleTakes(Mail(s.next, w))), SettleEnds(w)) == s.(next := s.next + 1)
  {
    var w := s.executions[x].worker;
    var mail := Mail(s.next, w);
    assert (s.inbox + {mail}) - {mail} == s.inbox;
    assert posted.pending - {s.next} == s.pending;
    assert s.hands[w := Settling(x)] - {w} == s.hands;
    assert s.executions[x := s.executions[x].(outstanding := s.executions[x].outstanding + 1)][x := s.executions[x]]
        == s.executions;
  }

  /** A new execution is alive and waits for nothing. */
  lemma BeginIsAlive(es: seq<Event>, x: nat, worker: nat)
    requires x !in Run(es).executions
    ensures Run(es + [Begin(x, worker)]) ==
      Run(es).(executions := Run(es).executions[x := Execution(worker, 0, Alive)])
  {
    RunSnoc(es, Begin(x, worker));
  }

  /** An import that is tracked, delivered and settled goes round the same way. */
  predicate ImportGoesRound(s: State, w: nat) {
    var id := s.next;
    var tracked := Apply(s, TrackImport(w));
    var posted := Apply(Apply(tracked, DeliverFinds(id)), DeliverPosts(Mail(id, w)));
    && tracked.pending == s.pending[id := Pending(None, w)] && tracked.inflight == s.inflight + 1
    && Apply(posted, SettleTakes(Mail(id, w))) == s.(next := id + 1)
  }

  lemma ImportRoundTrip(es: seq<Event>, w: nat)
    requires Run(es).running && w !in Run(es).hands
    ensures ImportGoesRound(Run(es), w)
  {
    RunKeeps(es);
    ImportTrip(Run(es), w);
  }

  lemma ImportTrip(s: State, w: nat)
    requires s.running && w !in s.hands && Inv(s)
    ensures ImportGoesRound(s, w)
  {
    var tracked, mail := Apply(s, TrackImport(w)), Mail(s.next, w);
    PostedState(tracked, s.next);
    ImportSettled(s, tracked.(inbox := s.inbox + {mail}), w);
  }

  lemma ImportSettled(s: State, posted: State, w: nat)
    requires w !in s.hands && s.next !in s.pending && Mail(s.next, w) !in s.inbox && s.inflight >= 0
    requires posted == Apply(s, TrackImport(w)).(inbox := s.inbox + {Mail(s.next, w)})
    ensures Apply(posted, SettleTakes(Mail(s.next, w))) == s.(next := s.next + 1)
  {
    var mail := Mail(s.next, w);
    assert posted.pending - {s.next} == s.pending;
    assert (s.inbox + {mail}) - {mail} == s.inbox;
  }

  /** An execution that is in nobody's hands can be released as finished exactly when nothing is
      outstanding. */
  lemma ReleaseDecides(es: seq<Event>, x: nat)
    requires Is(Run(es), x, Alive) && HandFree(Run(es), x)
    ensures Is(Run(es + [Release(x)]), x, Released) <==> Run(es).executions[x].outstanding == 0
  {
    RunSnoc(es, Release(x));
  }

  /** Abandoning an execution takes all its requests out of the table and no others, and lets it be
      released whatever is outstanding. */
  lemma AbandonedIsReleased(es: seq<Event>, x: nat)
    requires Is(Run(es), x, Alive) && HandFree(Run(es), x)
    ensures var s, s' := Run(es), Run(es + [Abandon(x)] + [AbandonEnds(x)] + [ReleaseAbandoned(x)]);
      && Is(s', x, Released) && s'.pending == s.pending - Pointing(s.pending, x)
      && s'.inflight == s.inflight - |Pointing(s.pending, x)|
      && forall y | y in s.executions && y != x :: y in s'.executions && s'.executions[y] == s.executions[y]
  {
    RunKeeps(es);
    RunSnoc(es, Abandon(x));
    RunTwo(es + [Abandon(x)], AbandonEnds(x), ReleaseAbandoned(x));
    AbandonThrough(Run(es), x);
  }

  lemma AbandonThrough(s: State, x: nat)
    requires Inv(s) && Is(s, x, Alive) && HandFree(s, x)
    ensures var s' := Apply(Apply(Apply(s, Abandon(x)), AbandonEnds(x)), ReleaseAbandoned(x));
      && Is(s', x, Released) && s'.pending == s.pending - Pointing(s.pending, x)
      && s'.inflight == s.inflight - |Pointing(s.pending, x)|
      && forall y | y in s.executions && y != x :: y in s'.executions && s'.executions[y] == s.executions[y]
  {
    PointingOthers(s.pending, x, x + 1);
    LessBySubtracts(s.inflight, |Pointing(s.pending, x)|);
  }

  /** No execution can get stuck: from every reachable state there are events that release it. */
  lemma ExecutionCanEnd(es: seq<Event>, x: nat) returns (tail: seq<Event>)
    requires x in Run(es).executions
    ensures Is(Run(es + tail), x, Released)
  {
    match Run(es).executions[x].status
    case Released =>
      tail := [];
      assert es + tail == es;
    case Abandoned =>
      tail := [AbandonEnds(x), ReleaseAbandoned(x)];
      assert es + tail == es + [AbandonEnds(x)] + [ReleaseAbandoned(x)];
      RunTwo(es, AbandonEnds(x), ReleaseAbandoned(x));
    case Alive => tail := AliveCanEnd(es, x);
  }

  lemma AliveCanEnd(es: seq<Event>, x: nat) returns (tail: seq<Event>)
    requires Is(Run(es), x, Alive)
    ensures Is(Run(es + tail), x, Released)
  {
    var before := FreeTheHand(es, x);
    tail := FreeCanEnd(es + before, x);
    assert es + (before + tail) == (es + before) + tail;
    tail := before + tail;
  }

  lemma FreeTheHand(es: seq<Event>, x: nat) returns (before: seq<Event>)
    requires Is(Run(es), x, Alive)
    ensures Is(Run(es + before), x, Alive) && HandFree(Run(es + before), x)
  {
    var s := Run(es);
    var w := s.executions[x].worker;
    before := [];
    assert es + before == es;
    if w in s.hands {
      RunKeeps(es);
      var e := if s.hands[w].Tracking? then TrackEnds(w) else SettleEnds(w);
      RunSnoc(es, e);
      HandEmptied(s, w, e, x);
      before := [e];
    }
  }

  lemma FreeCanEnd(es: seq<Event>, x: nat) returns (tail: seq<Event>)
    requires Is(Run(es), x, Alive) && HandFree(Run(es), x)
    ensures Is(Run(es + tail), x, Released)
  {
    AbandonedIsReleased(es, x);
    tail := [Abandon(x), AbandonEnds(x), ReleaseAbandoned(x)];
    assert es + tail == es + [Abandon(x)] + [AbandonEnds(x)] + [ReleaseAbandoned(x)];
  }

  lemma HandEmptied(s: State, w: nat, e: Event, x: nat)
    requires w in s.hands && HandsAlive(s) && Is(s, x, Alive) && s.executions[x].worker == w
    requires e == if s.hands[w].Tracking? then TrackEnds(w) else SettleEnds(w)
    ensures Is(Apply(s, e), x, Alive) && HandFree(Apply(s, e), x)
  {
  }

  // ---------------------------------------------------------------- the session's pending table

  /** The second half of track(). */
  predicate Inserts(s: State, e: Event, entry: Pending) {
    || (e.TrackEnds? && e.worker in s.hands && s.hands[e.worker].Tracking? &&
        entry == Pending(Some(s.hands[e.worker].x), e.worker))
    || (e.TrackImport? && entry == Pending(None, e.worker))
  }

  /** The region of settle(), and of deliver() once the runner has stopped. */
  predicate Removes(s: State, e: Event, id: nat) {
    || (e.DeliverErases? && e.mail in s.delivering && !s.running && e.mail.id == id)
    || (e.SettleTakes? && e.mail in s.inbox && e.mail.worker !in s.hands && e.mail.id == id)
  }

  lemma RemoveStep(s: State, e: Event, id: nat)
    requires Removes(s, e, id) && s.inflight == |s.pending|
    ensures var s' := Apply(s, e);
      && s'.pending == s.pending - {id} && s'.next == s.next
      && s'.inflight == if id in s.pending then s.inflight - 1 else s.inflight
  {
    assert id !in s.pending ==> s.pending - {id} == s.pending;
  }

  /** m_pending and m_inflight_requests, with the regions that change them. */
  class PendingTable {
    var pending: map<nat, Pending>
    var inflight: int
    var next: nat

    ghost predicate Valid()
      reads this
    {
      inflight == |pending| && forall id :: id in pending ==> id < next
    }

    /** The fields are those of the state. */
    ghost predicate Mirrors(s: State)
      reads this
    {
      pending == s.pending && inflight == s.inflight && next == s.next
    }

    constructor ()
      ensures Valid() && Mirrors(Run([]))
    {
      pending, inflight, next := map[], 0, 0;
    }

    /** Under a fresh id, as the TrackEnds or TrackImport step does. */
    method Insert(entry: Pending, ghost s: State, ghost e: Event) returns (id: nat)
      requires Valid() && Mirrors(s) && Inserts(s, e, entry)
      modifies this
      ensures Valid() && Mirrors(Apply(s, e))
      ensures id !in s.pending && pending == s.pending[id := entry]
    {
      id := next;
      next := next + 1;
      inflight := inflight + 1;
      pending := pending[id := entry];
    }

    method TakeOut(id: nat)
      requires Valid() && id in pending
      modifies this
      ensures Valid() && pending == old(pending) - {id} && inflight == old(inflight) - 1 && next == old(next)
    {
      PointingLess(pending, id, 0);
      pending := pending - {id};
      if inflight > 0 {
        inflight := inflight - 1;
      }
    }

    /** The DeliverErases or SettleTakes step: nothing when somebody else took the entry out. */
    method Remove(id: nat, ghost s: State, ghost e: Event) returns (entry: Option<Pending>)
      requires Valid() && Mirrors(s) && Removes(s, e, id)
      modifies this
      ensures Valid() && Mirrors(Apply(s, e))
      ensures entry == if id in s.pending then Some(s.pending[id]) else None
    {
      RemoveStep(s, e, id);
      if id !in pending {
        assert pending - {id} == pending;
        return None;
      }
      entry := Some(pending[id]);
      TakeOut(id);
    }

    /** The Abandon step: every entry of the execution goes, in whatever order the table gives them. */
    method RemoveAll(x: nat, ghost s: State) returns (taken: set<nat>)
      requires Valid() && Mirrors(s) && Is(s, x, Alive) && HandFree(s, x)
      modifies this
      ensures Valid() && Mirrors(Apply(s, Abandon(x)))
      ensures taken == Pointing(s.pending, x)
    {
      taken := {};
      var left := pending.Keys;
      ghost var all := pending;
      AbandonInflight(s, x);
      while left != {}
        invariant Valid() && left <= all.Keys && next == s.next
        invariant taken == Pointing(all, x) - left
        invariant pending == all - taken
        decreases left
      {
        var id :| id in left;
        LookedAt(all, x, left, id);
        left := left - {id};
        if pending[id].execution == Some(x) {
          TakenOne(all, taken, id);
          taken := taken + {id};
          TakeOut(id);
        }
      }
    }
  }

  lemma LookedAt(all: map<nat, Pending>, x: nat, left: set<nat>, id: nat)
    requires id in left && id in all
    ensures Pointing(all, x) - (left - {id}) ==
            if all[id].execution == Some(x) then Pointing(all, x) - left + {id} else Pointing(all, x) - left
  {
  }

  lemma TakenOne(all: map<nat, Pending>, taken: set<nat>, id: nat)
    ensures (all - taken) - {id} == all - (taken + {id})
  {
  }
}
