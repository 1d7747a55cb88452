/** The leases of a pool's transaction connections: a bounded queue hands them out, a
    transaction holds one from BEGIN until its COMMIT or ROLLBACK has been answered, and
    every way a transaction can end gives it back. */
module Leases {
  import opened Common

  datatype Phase = Active | Finalizing | Finished

  /** The state a transaction object shares with its finalizing coroutine. */
  datatype Transaction = Transaction(phase: Phase, connection: Option<nat>)

  /** begins: BEGIN under way; finalizers: coroutines awaiting COMMIT or ROLLBACK, with the
      transaction they finalize; returning: coroutines that took a lease out of a finished
      transaction and have not queued it yet. A handle moved from points to nothing. */
  datatype Pool = Pool(
    capacity: nat,
    available: seq<nat>,
    begins: map<nat, nat>,
    transactions: map<nat, Transaction>,
    handles: map<nat, Option<nat>>,
    finalizers: map<nat, nat>,
    returning: map<nat, nat>,
    failed: bool)

  datatype Event =
    | Acquire(task: nat)
    | BeginFails(task: nat)
    | BeginSucceeds(task: nat, transaction: nat, handle: nat)
    | Finalize(handle: nat, task: nat)            // commit() or rollback()
    | Destroy(handle: nat, task: nat)
    | MoveAssign(target: nat, source: nat, task: nat)
    | MoveConstruct(target: nat, source: nat)
    | Answered(task: nat)                         // releaseLease, under the state's mutex
    | Return(task: nat)                           // the release callback

  // ---------------------------------------------------------------- one transaction

  /** Only an active transaction can be finalized; anything else leaves it alone. */
  function BeginFinalizing(t: Transaction): Transaction {
    if t.phase == Active then t.(phase := Finalizing) else t
  }

  /** releaseLease: what is given back, the first time only. */
  function GivesBack(t: Transaction): Option<nat> {
    if t.phase == Finished then None else t.connection
  }

  function Released(t: Transaction): Transaction {
    if t.phase == Finished then t else Transaction(Finished, None)
  }

  // ---------------------------------------------------------------- steps

  predicate Fresh(p: Pool, task: nat) {
    task !in p.begins && task !in p.finalizers && task !in p.returning
  }

  /** try_enqueue; a full queue is the "returned more than once" error. */
  function Queue(p: Pool, c: nat): Pool {
    if |p.available| < p.capacity then p.(available := p.available + [c]) else p.(failed := true)
  }

  predicate Finalizable(p: Pool, h: Option<nat>) {
    h.Some? && h.value in p.transactions && p.transactions[h.value].phase == Active
  }

  function StartFinalizing(p: Pool, h: Option<nat>, task: nat): Pool {
    if Finalizable(p, h) then
      p.(transactions := p.transactions[h.value := BeginFinalizing(p.transactions[h.value])],
         finalizers := p.finalizers[task := h.value])
    else p
  }

  function Apply(p: Pool, e: Event): Pool {
    match e
    case Acquire(task) =>
      if Fresh(p, task) && p.available != [] then
        p.(available := p.available[1..], begins := p.begins[task := p.available[0]])
      else p
    case BeginFails(task) =>
      if task in p.begins then Queue(p.(begins := p.begins - {task}), p.begins[task]) else p
    case BeginSucceeds(task, t, h) =>
      if task in p.begins && t !in p.transactions && h !in p.handles then
        p.(begins := p.begins - {task},
           transactions := p.transactions[t := Transaction(Active, Some(p.begins[task]))],
           handles := p.handles[h := Some(t)])
      else p
    case Finalize(h, task) =>
      if Fresh(p, task) && h in p.handles then StartFinalizing(p, p.handles[h], task) else p
    case Destroy(h, task) =>
      if Fresh(p, task) && h in p.handles then
        StartFinalizing(p, p.handles[h], task).(handles := p.handles - {h})
      else p
    case MoveAssign(target, source, task) =>
      if Fresh(p, task) && target in p.handles && source in p.handles && target != source then
        StartFinalizing(p, p.handles[target], task).(
          handles := p.handles[target := p.handles[source]][source := None])
      else p
    case MoveConstruct(target, source) =>
      if target !in p.handles && source in p.handles then
        p.(handles := p.handles[target := p.handles[source]][source := None])
      else p
    case Answered(task) =>
      if task in p.finalizers && task !in p.returning && p.finalizers[task] in p.transactions then
        var t := p.finalizers[task];
        var back := GivesBack(p.transactions[t]);
        p.(finalizers := p.finalizers - {task},
           transactions := p.transactions[t := Released(p.transactions[t])],
           returning := if back.Some? then p.returning[task := back.value] else p.returning)
      else p
    case Return(task) =>
      if task in p.returning then Queue(p.(returning := p.returning - {task}), p.returning[task]) else p
  }

  /** The pool as start() leaves it. */
  function Started(connections: seq<nat>): Pool {
    Pool(|connections|, connections, map[], map[], map[], map[], map[], false)
  }

  function Run(connections: seq<nat>, es: seq<Event>): Pool {
    if es == [] then Started(connections) else Apply(Run(connections, es[..|es| - 1]), es[|es| - 1])
  }

  // ---------------------------------------------------------------- one place each

  datatype Place = InQueue | InBegin(task: nat) | InTransaction(t: nat) | InReturn(task: nat)

  /** Connection c is at this place. */
  predicate Holds(p: Pool, place: Place, c: nat) {
    match place
    case InQueue => c in p.available
    case InBegin(task) => task in p.begins && p.begins[task] == c
    case InTransaction(t) => t in p.transactions && p.transactions[t].connection == Some(c)
    case InReturn(task) => task in p.returning && p.returning[task] == c
  }

  /** home tells where every connection is: there, and nowhere else. */
  ghost predicate Homes(p: Pool, home: map<nat, Place>) {
    && (forall c, place :: Holds(p, place, c) <==> c in home && home[c] == place)
    && Distinct(p.available)
    && |home| == p.capacity
  }

  /** Every unfinished transaction holds a connection and has somebody who will end it. */
  ghost predicate Tended(p: Pool) {
    forall t | t in p.transactions ::
      match p.transactions[t].phase
      case Active => p.transactions[t].connection.Some? && exists h :: h in p.handles && p.handles[h] == Some(t)
      case Finalizing => p.transactions[t].connection.Some? && exists k :: k in p.finalizers && p.finalizers[k] == t
      case Finished => p.transactions[t].connection.None?
  }

  ghost predicate Inv(p: Pool, home: map<nat, Place>) {
    !p.failed && Homes(p, home) && Tended(p)
  }

  function Elements(s: seq<nat>): set<nat> {
    set c | c in s
  }

  lemma {:induction false} DistinctFits(s: seq<nat>, all: set<nat>)
    requires Distinct(s) && forall i :: 0 <= i < |s| ==> s[i] in all
    ensures |s| <= |all|
  {
    if s != [] {
      var n := |s| - 1;
      DistinctFits(s[..n], all - {s[n]});
    }
  }

  /** A connection that is not in the queue always finds room there. */
  lemma RoomForAnother(p: Pool, home: map<nat, Place>, c: nat)
    requires Homes(p, home) && c in home && home[c] != InQueue
    ensures |p.available| < p.capacity
  {
    forall i | 0 <= i < |p.available|
      ensures p.available[i] in home.Keys - {c}
    {
      assert Holds(p, InQueue, p.available[i]);
    }
    DistinctFits(p.available, home.Keys - {c});
    assert |home.Keys - {c}| == |home| - 1;
  }

  // ---------------------------------------------------------------- every step keeps it

  /** A connection moves from one place to another and nothing else moves. */
  lemma MoveHome(p: Pool, p': Pool, home: map<nat, Place>, c: nat, place: Place)
    requires Homes(p, home) && c in home && p'.capacity == p.capacity && Distinct(p'.available)
    requires Holds(p', place, c)
    requires forall x, q :: Holds(p', q, x) <==> if x == c then q == place else Holds(p, q, x)
    ensures Homes(p', home[c := place]) && home[c := place].Keys == home.Keys
  {
    assert home[c := place].Keys == home.Keys;
  }

  lemma AcquireKeeps(p: Pool, home: map<nat, Place>, task: nat) returns (home': map<nat, Place>)
    requires Inv(p, home)
    ensures Inv(Apply(p, Acquire(task)), home') && home'.Keys == home.Keys
  {
    var p' := Apply(p, Acquire(task));
    home' := home;
    if p' != p {
      var c := p.available[0];
      assert Holds(p, InQueue, c);
      home' := home[c := InBegin(task)];
      forall x, q
        ensures Holds(p', q, x) <==> if x == c then q == InBegin(task) else Holds(p, q, x)
      {
        assert p.available == [c] + p'.available;
        if x == c {
          assert Holds(p, q, x) <==> q == InQueue;
        }
      }
      MoveHome(p, p', home, c, InBegin(task));
      assert Tended(p');
    }
  }

  lemma QueueKeeps(p: Pool, q: Pool, home: map<nat, Place>, c: nat) returns (home': map<nat, Place>)
    requires Inv(p, home) && c in home && home[c] != InQueue
    requires q == p.(begins := q.begins, returning := q.returning)
    requires forall x, place :: place != home[c] ==> (Holds(q, place, x) <==> Holds(p, place, x))
    requires forall x :: !Holds(q, home[c], x)
    requires !home[c].InTransaction?
    ensures Inv(Queue(q, c), home') && home'.Keys == home.Keys
  {
    RoomForAnother(p, home, c);
    var p' := Queue(q, c);
    home' := home[c := InQueue];
    assert Distinct(p'.available) by {
      assert !Holds(p, InQueue, c);
    }
    forall x, place
      ensures Holds(p', place, x) <==> if x == c then place == InQueue else Holds(p, place, x)
    {
      assert Holds(p, home[c], c);
      assert Holds(p, home[c], x) ==> x == c;
      assert !Holds(q, home[c], x);
      assert Holds(p', place, x) <==> Holds(q, place, x) || (place == InQueue && x == c);
      assert Holds(p, place, x) <==> x in home && home[x] == place;
    }
    MoveHome(p, p', home, c, InQueue);
    assert Tended(p');
  }

  lemma BeginSucceedsKeeps(p: Pool, home: map<nat, Place>, e: Event) returns (home': map<nat, Place>)
    requires Inv(p, home) && e.BeginSucceeds?
    ensures Inv(Apply(p, e), home') && home'.Keys == home.Keys
  {
    var p' := Apply(p, e);
    home' := home;
    if e.task in p.begins && e.transaction !in p.transactions && e.handle !in p.handles {
      var c, place := p.begins[e.task], InTransaction(e.transaction);
      assert Holds(p, InBegin(e.task), c);
      home' := home[c := place];
      forall x, q
        ensures Holds(p', q, x) <==> if x == c then q == place else Holds(p, q, x)
      {
        assert x == c ==> (Holds(p, q, x) <==> q == InBegin(e.task));
      }
      MoveHome(p, p', home, c, place);
      HandlesGrow(p, p', e.transaction, e.handle);
    }
  }

  lemma HandlesGrow(p: Pool, p': Pool, t: nat, h: nat)
    requires Tended(p) && h !in p.handles && p'.handles == p.handles[h := Some(t)] && p'.finalizers == p.finalizers
    requires t !in p.transactions && exists c :: p'.transactions == p.transactions[t := Transaction(Active, Some(c))]
    ensures Tended(p')
  {
    forall u | u in p'.transactions
      ensures p'.transactions[u].phase == Active ==> exists k :: k in p'.handles && p'.handles[k] == Some(u)
    {
      if u == t {
        assert p'.handles[h] == Some(u);
      } else if p.transactions[u].phase == Active {
        var k :| k in p.handles && p.handles[k] == Some(u);
        assert p'.handles[k] == Some(u);
      }
    }
  }

  /** Starting to finalize moves no lease, and the coroutine now tends the transaction. */
  lemma StartFinalizingKeeps(p: Pool, home: map<nat, Place>, h: nat, task: nat, handles: map<nat, Option<nat>>)
    requires Inv(p, home) && Fresh(p, task) && h in p.handles
    requires forall k | k in p.handles && k != h :: exists j :: j in handles && handles[j] == p.handles[k]
    requires handles == p.handles || !Finalizable(StartFinalizing(p, p.handles[h], task), p.handles[h])
    ensures Inv(StartFinalizing(p, p.handles[h], task).(handles := handles), home)
  {
    var q := StartFinalizing(p, p.handles[h], task);
    var p' := q.(handles := handles);
    forall c, place
      ensures Holds(p', place, c) <==> Holds(p, place, c)
    {
      SamePlace(p, h, task, handles, c, place);
    }
    StillTended(p, h, task, handles);
  }

  lemma SamePlace(p: Pool, h: nat, task: nat, handles: map<nat, Option<nat>>, c: nat, place: Place)
    requires h in p.handles
    ensures Holds(StartFinalizing(p, p.handles[h], task).(handles := handles), place, c) <==> Holds(p, place, c)
  {
  }

  lemma StillTended(p: Pool, h: nat, task: nat, handles: map<nat, Option<nat>>)
    requires Tended(p) && Fresh(p, task) && h in p.handles
    requires forall k | k in p.handles && k != h :: exists j :: j in handles && handles[j] == p.handles[k]
    requires handles == p.handles || !Finalizable(StartFinalizing(p, p.handles[h], task), p.handles[h])
    ensures Tended(StartFinalizing(p, p.handles[h], task).(handles := handles))
  {
    var p' := StartFinalizing(p, p.handles[h], task).(handles := handles);
    forall u | u in p'.transactions
      ensures match p'.transactions[u].phase
        case Active => p'.transactions[u].connection.Some? && exists k :: k in p'.handles && p'.handles[k] == Some(u)
        case Finalizing => p'.transactions[u].connection.Some? &&
          exists k :: k in p'.finalizers && p'.finalizers[k] == u
        case Finished => p'.transactions[u].connection.None?
    {
      match p.transactions[u].phase
      case Active =>
        if Finalizable(p, p.handles[h]) && p.handles[h] == Some(u) {
          assert p'.finalizers[task] == u;
        } else {
          var k :| k in p.handles && p.handles[k] == Some(u);
          assert k != h;
          var j :| j in handles && handles[j] == p.handles[k];
          assert p'.handles[j] == Some(u);
        }
      case Finalizing =>
        var k :| k in p.finalizers && p.finalizers[k] == u;
        assert p'.finalizers[k] == u;
      case Finished =>
    }
  }

  lemma FinalizeKeeps(p: Pool, home: map<nat, Place>, h: nat, task: nat)
    requires Inv(p, home)
    ensures Inv(Apply(p, Finalize(h, task)), home)
  {
    if Fresh(p, task) && h in p.handles {
      StartFinalizingKeeps(p, home, h, task, p.handles);
    }
  }

  lemma DestroyKeeps(p: Pool, home: map<nat, Place>, h: nat, task: nat)
    requires Inv(p, home)
    ensures Inv(Apply(p, Destroy(h, task)), home)
  {
    if Fresh(p, task) && h in p.handles {
      var rest := p.handles - {h};
      forall k | k in p.handles && k != h
        ensures exists j :: j in rest && rest[j] == p.handles[k]
      {
        assert rest[k] == p.handles[k];
      }
      StartFinalizingKeeps(p, home, h, task, rest);
    }
  }

  lemma MoveAssignKeeps(p: Pool, home: map<nat, Place>, target: nat, source: nat, task: nat)
    requires Inv(p, home)
    ensures Inv(Apply(p, MoveAssign(target, source, task)), home)
  {
    if Fresh(p, task) && target in p.handles && source in p.handles && target != source {
      var moved := p.handles[target := p.handles[source]][source := None];
      forall k | k in p.handles && k != target
        ensures exists j :: j in moved && moved[j] == p.handles[k]
      {
        assert moved[if k == source then target else k] == p.handles[k];
      }
      StartFinalizingKeeps(p, home, target, task, moved);
    }
  }

  lemma MoveConstructKeeps(p: Pool, home: map<nat, Place>, target: nat, source: nat)
    requires Inv(p, home)
    ensures Inv(Apply(p, MoveConstruct(target, source)), home)
  {
    var p' := Apply(p, MoveConstruct(target, source));
    assert forall c, place :: Holds(p', place, c) <==> Holds(p, place, c);
    if p' != p {
      forall u | u in p.transactions && p.transactions[u].phase == Active
        ensures exists h :: h in p'.handles && p'.handles[h] == Some(u)
      {
        var h :| h in p.handles && p.handles[h] == Some(u);
        assert p'.handles[if h == source then target else h] == Some(u);
      }
    }
  }

  lemma AnsweredKeeps(p: Pool, home: map<nat, Place>, task: nat) returns (home': map<nat, Place>)
    requires Inv(p, home)
    ensures Inv(Apply(p, Answered(task)), home') && home'.Keys == home.Keys
  {
    var p' := Apply(p, Answered(task));
    home' := home;
    if task in p.finalizers && task !in p.returning && p.finalizers[task] in p.transactions {
      var t := p.finalizers[task];
      if p.transactions[t].phase != Finished {
        var c := p.transactions[t].connection.value;
        assert Holds(p, InTransaction(t), c);
        home' := home[c := InReturn(task)];
        forall x, q
          ensures Holds(p', q, x) <==> if x == c then q == InReturn(task) else Holds(p, q, x)
        {
          assert x == c ==> (Holds(p, q, x) <==> q == InTransaction(t));
        }
        MoveHome(p, p', home, c, InReturn(task));
      } else {
        assert p'.transactions == p.transactions;
        assert forall c, place :: Holds(p', place, c) <==> Holds(p, place, c);
      }
      FinalizerLeaves(p, p', task);
    }
  }

  lemma FinalizerLeaves(p: Pool, p': Pool, task: nat)
    requires Tended(p) && task in p.finalizers && p.finalizers[task] in p.transactions
    requires p'.finalizers == p.finalizers - {task} && p'.handles == p.handles
    requires var t := p.finalizers[task]; p'.transactions == p.transactions[t := Released(p.transactions[t])]
    ensures Tended(p')
  {
    forall u | u in p'.transactions && p'.transactions[u].phase == Finalizing
      ensures exists k :: k in p'.finalizers && p'.finalizers[k] == u
    {
      var k :| k in p.finalizers && p.finalizers[k] == u;
      assert k != task;
      assert p'.finalizers[k] == u;
    }
  }

  lemma GiveBackKeeps(p: Pool, home: map<nat, Place>, e: Event) returns (home': map<nat, Place>)
    requires Inv(p, home) && (e.BeginFails? || e.Return?)
    ensures Inv(Apply(p, e), home') && home'.Keys == home.Keys
  {
    home' := home;
    if e.BeginFails? && e.task in p.begins {
      var c := p.begins[e.task];
      assert Holds(p, InBegin(e.task), c);
      var q := p.(begins := p.begins - {e.task});
      home' := QueueKeeps(p, q, home, c);
    } else if e.Return? && e.task in p.returning {
      var c := p.returning[e.task];
      assert Holds(p, InReturn(e.task), c);
      var q := p.(returning := p.returning - {e.task});
      home' := QueueKeeps(p, q, home, c);
    }
  }

  lemma {:induction false} StartedHomes(connections: seq<nat>) returns (home: map<nat, Place>)
    requires Distinct(connections)
    ensures Inv(Started(connections), home) && home.Keys == Elements(connections)
  {
    home := map c | c in connections :: InQueue;
    DistinctSize(connections);
    assert home.Keys == Elements(connections);
  }

  lemma {:induction false} DistinctSize(s: seq<nat>)
    requires Distinct(s)
    ensures |Elements(s)| == |s|
  {
    if s != [] {
      var n := |s| - 1;
      DistinctSize(s[..n]);
      assert Elements(s) == Elements(s[..n]) + {s[n]};
    }
  }

  lemma {:induction false} RunHomes(connections: seq<nat>, es: seq<Event>) returns (home: map<nat, Place>)
    requires Distinct(connections)
    ensures Inv(Run(connections, es), home) && home.Keys == Elements(connections)
    ensures Run(connections, es).capacity == |connections|
  {
    if es == [] {
      home := StartedHomes(connections);
    } else {
      var p, e := Run(connections, es[..|es| - 1]), es[|es| - 1];
      home := RunHomes(connections, es[..|es| - 1]);
      if e.Acquire? {
        home := AcquireKeeps(p, home, e.task);
      } else if e.BeginSucceeds? {
        home := BeginSucceedsKeeps(p, home, e);
      } else if e.BeginFails? || e.Return? {
        home := GiveBackKeeps(p, home, e);
      } else if e.Answered? {
        home := AnsweredKeeps(p, home, e.task);
      } else if e.MoveConstruct? {
        MoveConstructKeeps(p, home, e.target, e.source);
      } else {
        match e
        case Finalize(h, task) => FinalizeKeeps(p, home, h, task);
        case Destroy(h, task) => DestroyKeeps(p, home, h, task);
        case MoveAssign(target, source, task) => MoveAssignKeeps(p, home, target, source, task);
      }
    }
  }

  // ---------------------------------------------------------------- what the pool can rely on

  /** In every run each transaction connection is in exactly one place, so the "returned
      more than once" error cannot happen. */
  lemma OnePlaceEach(connections: seq<nat>, es: seq<Event>, c: nat)
    requires Distinct(connections) && c in connections
    ensures !Run(connections, es).failed
    ensures exists place :: Holds(Run(connections, es), place, c)
    ensures forall a, b :: Holds(Run(connections, es), a, c) && Holds(Run(connections, es), b, c) ==> a == b
  {
    var home := RunHomes(connections, es);
    assert Holds(Run(connections, es), home[c], c);
  }

  /** When no BEGIN, no finalizing coroutine and no transaction object is left, every lease
      is back in the queue, whichever way each transaction ended. */
  lemma AllLeasesReturn(connections: seq<nat>, es: seq<Event>)
    requires Distinct(connections)
    requires var p := Run(connections, es);
      p.begins == map[] && p.finalizers == map[] && p.returning == map[] && p.handles == map[]
    ensures forall c :: c in connections ==> c in Run(connections, es).available
    ensures |Run(connections, es).available| == |connections|
  {
    var home := RunHomes(connections, es);
    var p := Run(connections, es);
    forall c | c in connections
      ensures c in p.available
    {
      assert Holds(p, home[c], c);
      assert forall t :: t in p.transactions ==> p.transactions[t].connection.None?;
    }
    assert Elements(p.available) == home.Keys by {
      forall c | c in p.available
        ensures c in home
      {
        assert Holds(p, InQueue, c);
      }
    }
    DistinctSize(p.available);
  }

  // ---------------------------------------------------------------- leases go round

  lemma RunThen(connections: seq<nat>, es: seq<Event>, e: Event)
    ensures Run(connections, es + [e]) == Apply(Run(connections, es), e)
  {
    assert (es + [e])[..|es|] == es;
  }

  /** A finalizing coroutine is not at the same time giving a lease back. */
  predicate TasksApart(p: Pool) {
    forall k :: k in p.finalizers ==> k !in p.returning
  }

  lemma {:induction false} RunTasksApart(connections: seq<nat>, es: seq<Event>)
    ensures TasksApart(Run(connections, es))
  {
    if es != [] {
      RunTasksApart(connections, es[..|es| - 1]);
      TasksApartStep(Run(connections, es[..|es| - 1]), es[|es| - 1]);
    }
  }

  lemma TasksApartStep(p: Pool, e: Event)
    requires TasksApart(p)
    ensures TasksApart(Apply(p, e))
  {
  }

  /** Whoever asks while a lease is free gets the one that has been free longest; with its BEGIN
      answered it is an active transaction that its handle names, and with its BEGIN failed the
      lease goes to the end of the queue. */
  lemma LeaseIsHandedOut(connections: seq<nat>, es: seq<Event>, task: nat, t: nat, h: nat)
    requires Distinct(connections)
    requires var p := Run(connections, es);
      Fresh(p, task) && p.available != [] && t !in p.transactions && h !in p.handles
    ensures var p := Run(connections, es);
      var c := p.available[0];
      var begun := Run(connections, es + [Acquire(task)] + [BeginSucceeds(task, t, h)]);
      var failed := Run(connections, es + [Acquire(task)] + [BeginFails(task)]);
      && begun == p.(available := p.available[1..], handles := p.handles[h := Some(t)],
                     transactions := p.transactions[t := Transaction(Active, Some(c))])
      && failed == p.(available := p.available[1..] + [c])
  {
    var p := Run(connections, es);
    var home := RunHomes(connections, es);
    RunThen(connections, es, Acquire(task));
    RunThen(connections, es + [Acquire(task)], BeginSucceeds(task, t, h));
    RunThen(connections, es + [Acquire(task)], BeginFails(task));
    AtMostAll(p, home);
    HandOut(p, task, t, h);
  }

  lemma HandOut(p: Pool, task: nat, t: nat, h: nat)
    requires Fresh(p, task) && p.available != [] && t !in p.transactions && h !in p.handles
    requires |p.available| <= p.capacity
    ensures var c, begins := p.available[0], Apply(p, Acquire(task));
      && Apply(begins, BeginSucceeds(task, t, h)) ==
           p.(available := p.available[1..], handles := p.handles[h := Some(t)],
              transactions := p.transactions[t := Transaction(Active, Some(c))])
      && Apply(begins, BeginFails(task)) == p.(available := p.available[1..] + [c])
  {
    assert p.begins[task := p.available[0]] - {task} == p.begins;
  }

  lemma AtMostAll(p: Pool, home: map<nat, Place>)
    requires Homes(p, home)
    ensures |p.available| <= p.capacity
  {
    forall i | 0 <= i < |p.available|
      ensures p.available[i] in home.Keys
    {
      assert Holds(p, InQueue, p.available[i]);
    }
    DistinctFits(p.available, home.Keys);
  }

  /** Ending an active transaction, by finalizing or by destroying its handle, gives its lease back at
      the end of the queue as soon as the answer has come, and finishes it. Whoever tries to end it
      again changes nothing. */
  lemma EndedTransactionReturns(connections: seq<nat>, es: seq<Event>, e: Event, t: nat)
    requires Distinct(connections) && (e.Finalize? || e.Destroy?)
    requires var p := Run(connections, es);
      && Fresh(p, e.task) && e.handle in p.handles && p.handles[e.handle] == Some(t)
      && t in p.transactions && p.transactions[t].phase == Active
    ensures var p, p' := Run(connections, es), Run(connections, es + [e] + [Answered(e.task)] + [Return(e.task)]);
      && p.transactions[t].connection.Some?
      && p'.available == p.available + [p.transactions[t].connection.value]
      && p'.transactions == p.transactions[t := Transaction(Finished, None)]
      && p'.finalizers == p.finalizers && p'.returning == p.returning && p'.begins == p.begins && !p'.failed
      && p'.handles == if e.Destroy? then p.handles - {e.handle} else p.handles
  {
    var p := Run(connections, es);
    var home := RunHomes(connections, es);
    var c := p.transactions[t].connection.value;
    assert Holds(p, InTransaction(t), c);
    RoomForAnother(p, home, c);
    RunThen(connections, es, e);
    RunThen(connections, es + [e], Answered(e.task));
    RunThen(connections, es + [e] + [Answered(e.task)], Return(e.task));
    EndRound(p, e, t);
  }

  lemma EndRound(p: Pool, e: Event, t: nat)
    requires (e.Finalize? || e.Destroy?) && Fresh(p, e.task) && |p.available| < p.capacity && !p.failed
    requires e.handle in p.handles && p.handles[e.handle] == Some(t)
    requires t in p.transactions && p.transactions[t].phase == Active && p.transactions[t].connection.Some?
    ensures Apply(Apply(Apply(p, e), Answered(e.task)), Return(e.task)) == p.(
      available := p.available + [p.transactions[t].connection.value],
      transactions := p.transactions[t := Transaction(Finished, None)],
      handles := if e.Destroy? then p.handles - {e.handle} else p.handles)
  {
    var c := p.transactions[t].connection.value;
    assert p.finalizers[e.task := t] - {e.task} == p.finalizers;
    assert p.returning[e.task := c] - {e.task} == p.returning;
    assert p.transactions[t := Transaction(Finalizing, Some(c))][t := Transaction(Finished, None)]
        == p.transactions[t := Transaction(Finished, None)];
  }

  /** Only an active transaction can be ended: on any other, ending it again changes nothing. */
  lemma EndedOnlyOnce(connections: seq<nat>, es: seq<Event>, h: nat, task: nat)
    requires var p := Run(connections, es); h in p.handles && !Finalizable(p, p.handles[h])
    ensures Run(connections, es + [Finalize(h, task)]) == Run(connections, es)
  {
    RunThen(connections, es, Finalize(h, task));
  }

  /** Moving a handle hands its transaction over; what the target of an assignment held is ended. */
  lemma HandleMoves(connections: seq<nat>, es: seq<Event>, target: nat, source: nat, task: nat)
    requires var p := Run(connections, es); source in p.handles && target != source && Fresh(p, task)
    ensures var p := Run(connections, es);
      && (target !in p.handles ==>
            Run(connections, es + [MoveConstruct(target, source)]) ==
              p.(handles := p.handles[target := p.handles[source]][source := None]))
      && (target in p.handles ==>
            var p' := Run(connections, es + [MoveAssign(target, source, task)]);
            p'.handles == p.handles[target := p.handles[source]][source := None] &&
            forall t | t in p.transactions :: t in p'.transactions &&
              var ended := p.handles[target] == Some(t) && p.transactions[t].phase == Active;
              p'.transactions[t] == p.transactions[t].(phase := if ended then Finalizing else p.transactions[t].phase))
  {
    RunThen(connections, es, MoveConstruct(target, source));
    RunThen(connections, es, MoveAssign(target, source, task));
  }

  lemma {:induction false} Above(s: set<nat>) returns (k: nat)
    ensures forall x :: x in s ==> x < k
  {
    k := 0;
    if s != {} {
      var x :| x in s;
      var rest := s - {x};
      k := Above(rest);
      if k <= x {
        k := x + 1;
      }
      assert forall y :: y in s ==> y == x || y in rest;
    }
  }

  /** No lease can get stuck: from every reachable state there are events that bring any connection
      back to the queue, wherever it is. */
  lemma LeaseCanReturn(connections: seq<nat>, es: seq<Event>, c: nat) returns (tail: seq<Event>)
    requires Distinct(connections) && c in connections
    ensures c in Run(connections, es + tail).available
  {
    var p := Run(connections, es);
    var home := RunHomes(connections, es);
    assert Holds(p, home[c], c);
    match home[c]
    case InQueue =>
      tail := [];
      assert es + tail == es;
    case InBegin(task) =>
      RoomForAnother(p, home, c);
      tail := [BeginFails(task)];
      RunThen(connections, es, BeginFails(task));
    case InReturn(task) =>
      RoomForAnother(p, home, c);
      tail := [Return(task)];
      RunThen(connections, es, Return(task));
    case InTransaction(t) => tail := TransactionCanEnd(connections, es, home, t, c);
  }

  lemma TransactionCanEnd(connections: seq<nat>, es: seq<Event>, home: map<nat, Place>, t: nat, c: nat)
    returns (tail: seq<Event>)
    requires Distinct(connections) && Inv(Run(connections, es), home) && c in home && home[c] == InTransaction(t)
    ensures c in Run(connections, es + tail).available
  {
    var p := Run(connections, es);
    assert Holds(p, InTransaction(t), c);
    match p.transactions[t].phase
    case Active =>
      var h :| h in p.handles && p.handles[h] == Some(t);
      var k := Above(p.begins.Keys + p.finalizers.Keys + p.returning.Keys);
      assert k !in p.begins.Keys + p.finalizers.Keys + p.returning.Keys;
      tail := [Finalize(h, k), Answered(k), Return(k)];
      assert es + tail == es + [Finalize(h, k)] + [Answered(k)] + [Return(k)];
      EndedTransactionReturns(connections, es, Finalize(h, k), t);
    case Finalizing => tail := FinalizedCanEnd(connections, es, home, t, c);
    case Finished =>
  }

  lemma FinalizedCanEnd(connections: seq<nat>, es: seq<Event>, home: map<nat, Place>, t: nat, c: nat)
    returns (tail: seq<Event>)
    requires Inv(Run(connections, es), home) && c in home && home[c] == InTransaction(t)
    requires t in Run(connections, es).transactions
    requires Run(connections, es).transactions[t] == Transaction(Finalizing, Some(c))
    ensures c in Run(connections, es + tail).available
  {
    var p := Run(connections, es);
    var k :| k in p.finalizers && p.finalizers[k] == t;
    RoomForAnother(p, home, c);
    RunTasksApart(connections, es);
    tail := [Answered(k), Return(k)];
    assert es + tail == es + [Answered(k)] + [Return(k)];
    RunThen(connections, es, Answered(k));
    RunThen(connections, es + [Answered(k)], Return(k));
    AnsweredThenQueued(p, k, t, c);
  }

  lemma AnsweredThenQueued(p: Pool, k: nat, t: nat, c: nat)
    requires k in p.finalizers && p.finalizers[k] == t && k !in p.returning && |p.available| < p.capacity
    requires t in p.transactions && p.transactions[t] == Transaction(Finalizing, Some(c))
    ensures c in Apply(Apply(p, Answered(k)), Return(k)).available
  {
  }

  // ---------------------------------------------------------------- the shared state

  class SharedTransaction {
    var phase: Phase
    var connection: Option<nat>

    ghost function Value(): Transaction
      reads this
    {
      Transaction(phase, connection)
    }

    constructor (c: nat)
      ensures Value() == Transaction(Active, Some(c))
    {
      phase, connection := Active, Some(c);
    }

    /** The check commit(), rollback() and queueRollback() make under the mutex: true when
        the caller is the one to finalize. */
    method ClaimFinalizing() returns (claimed: bool)
      modifies this
      ensures Value() == BeginFinalizing(old(Value()))
      ensures claimed == (old(phase) == Active)
      ensures phase == (if claimed then Finalizing else old(phase)) && connection == old(connection)
    {
      if phase != Active {
        return false;
      }
      phase := Finalizing;
      return true;
    }

    method ReleaseLease() returns (back: Option<nat>)
      modifies this
      ensures Value() == Released(old(Value()))
      ensures back == GivesBack(old(Value()))
      ensures phase == Finished && back == if old(phase) == Finished then None else old(connection)
      ensures old(phase) != Finished ==> connection == None
    {
      if phase == Finished {
        return None;
      }
      phase := Finished;
      back, connection := connection, None;
    }
  }

  // ---------------------------------------------------------------- choosing a connection

  /** How far from the tie mark an index lies, going round. */
  function Distance(n: nat, tie: nat, index: nat): nat
    requires index < n
  {
    if tie % n <= index then index - tie % n else index + n - tie % n
  }

  /** DBPool::submit's loop: the least loaded connection, and among equals the first one from
      the tie mark on; the mark then moves just past it. */
  method ChooseConnection(loads: seq<nat>, tie: nat) returns (chosen: nat, nextTie: nat)
    requires loads != []
    ensures chosen < |loads| && nextTie == (chosen + 1) % |loads|
    ensures forall i :: 0 <= i < |loads| ==> loads[chosen] <= loads[i]
    ensures forall i :: 0 <= i < |loads| && loads[i] == loads[chosen] ==>
      Distance(|loads|, tie, chosen) <= Distance(|loads|, tie, i)
  {
    var n := |loads|;
    var minimum: Option<nat> := None;
    chosen := tie % n;
    for offset := 0 to n
      invariant chosen < n
      invariant offset == 0 <==> minimum.None?
      invariant offset > 0 ==> minimum == Some(loads[chosen]) && Distance(n, tie, chosen) < offset
      invariant forall i :: 0 <= i < n && Distance(n, tie, i) < offset ==> loads[chosen] <= loads[i]
      invariant forall i :: 0 <= i < n && Distance(n, tie, i) < offset && loads[i] == loads[chosen] ==>
        Distance(n, tie, chosen) <= Distance(n, tie, i)
    {
      var index := (tie + offset) % n;
      RoundTrip(n, tie, offset);
      var unfinished := loads[index];
      if minimum.Some? && unfinished >= minimum.value {
        continue;
      }
      minimum := Some(unfinished);
      chosen := index;
    }
    nextTie := (chosen + 1) % n;
  }

  lemma RoundTrip(n: nat, tie: nat, offset: nat)
    requires offset < n
    ensures (tie + offset) % n < n && Distance(n, tie, (tie + offset) % n) == offset
    ensures forall i :: 0 <= i < n && Distance(n, tie, i) == offset ==> i == (tie + offset) % n
  {
    var r := tie % n;
    var i := if r + offset < n then r + offset else r + offset - n;
    ModStep(n, tie, offset, i);
  }

  lemma ModStep(n: nat, tie: nat, offset: nat, i: nat)
    requires offset < n && i < n
    requires i == tie % n + offset || i == tie % n + offset - n
    ensures (tie + offset) % n == i
  {
    var q := if i == tie % n + offset then tie / n else tie / n + 1;
    assert tie == (tie / n) * n + tie % n;
    assert (tie / n + 1) * n == (tie / n) * n + n;
    OneRemainder(tie + offset, n, q, i);
  }

  lemma OneRemainder(a: nat, n: nat, q: int, r: nat)
    requires r < n && a == q * n + r
    ensures a % n == r
  {
    var d := a / n - q;
    assert a == (a / n) * n + a % n;
    assert d * n == (a / n) * n - q * n;
    if d > 0 {
      NoSmaller(d, n);
    } else if d < 0 {
      NoSmaller(-d, n);
    }
  }

  lemma NoSmaller(d: nat, n: nat)
    requires d > 0
    ensures d * n >= n
  {
    assert (d - 1) * n >= 0;
  }
}
