/** The pump scheduling protocol of one database watch.

    Any number of threads ask for a pump by raising `pending` and trying to take
    `scheduled`; the one that takes it posts a worker task that pumps, looks at
    `pending` again, gives `scheduled` back and looks once more. Every load, store
    and exchange is one atomic step and atomics are sequentially consistent. */
module Reactor {

  /** Where an activity stands: the next line it executes. A requester that wins the
      exchange goes on under the same name as the worker task it posts. */
  datatype Line =
    | Exchange77      // pending is raised, `scheduled` not yet tried
    | Clear83         // holds `scheduled`, about to lower pending
    | Call84          // holds `scheduled`, about to call pump
    | Pumping         // inside pump
    | Recheck86
    | Release88
    | Recheck90       // no longer a holder
    | Reacquire91

  datatype Watch = Watch(pending: bool, scheduled: bool, lines: map<nat, Line>)

  /** Request(t): activity t executes line 76. Advance(t): t executes its next line. */
  datatype Event = Request(t: nat) | Advance(t: nat)

  const Idle := Watch(false, false, map[])

  function At(w: Watch, t: nat, line: Line): Watch {
    w.(lines := w.lines[t := line])
  }

  function Leave(w: Watch, t: nat): Watch {
    w.(lines := w.lines - {t})
  }

  function Apply(w: Watch, e: Event): Watch {
    match e
    case Request(t) => if t in w.lines then w else At(w.(pending := true), t, Exchange77)
    case Advance(t) => if t in w.lines then Execute(w, t) else w
  }

  function Execute(w: Watch, t: nat): Watch
    requires t in w.lines
  {
    match w.lines[t]
    case Exchange77 => if w.scheduled then Leave(w, t) else At(w.(scheduled := true), t, Clear83)
    case Clear83 => At(w.(pending := false), t, Call84)
    case Call84 => At(w, t, Pumping)
    case Pumping => At(w, t, Recheck86)
    case Recheck86 => At(w.(pending := false), t, if w.pending then Clear83 else Release88)
    case Release88 => At(w.(scheduled := false), t, Recheck90)
    case Recheck90 => if w.pending then At(w.(pending := false), t, Reacquire91) else Leave(w, t)
    case Reacquire91 => if w.scheduled then Leave(w, t) else At(w.(scheduled := true), t, Clear83)
  }

  function Run(es: seq<Event>): Watch {
    if es == [] then Idle else Apply(Run(es[..|es| - 1]), es[|es| - 1])
  }

  // ---------------------------------------------------------------- mutual exclusion

  predicate Holds(line: Line) {
    line in {Clear83, Call84, Pumping, Recheck86, Release88}
  }

  predicate Holder(w: Watch, t: nat) {
    t in w.lines && Holds(w.lines[t])
  }

  /** `scheduled` is up exactly while one activity is between lines 83 and 88. */
  ghost predicate OneHolder(w: Watch) {
    && (w.scheduled <==> exists t :: Holder(w, t))
    && forall t, u :: Holder(w, t) && Holder(w, u) ==> t == u
  }

  lemma ApplyKeepsOneHolder(w: Watch, e: Event)
    requires OneHolder(w)
    ensures OneHolder(Apply(w, e))
  {
    var w' := Apply(w, e);
    assert forall u :: u != e.t ==> (Holder(w', u) <==> Holder(w, u));
    if Holder(w, e.t) || Holder(w', e.t) {
      assert forall u :: u != e.t ==> !Holder(w, u);
      assert w'.scheduled <==> Holder(w', e.t);
    } else {
      assert w'.scheduled == w.scheduled;
    }
  }

  lemma {:induction false} RunKeepsOneHolder(es: seq<Event>)
    ensures OneHolder(Run(es))
  {
    if es != [] {
      RunKeepsOneHolder(es[..|es| - 1]);
      ApplyKeepsOneHolder(Run(es[..|es| - 1]), es[|es| - 1]);
    }
  }

  /** At most one activity is ever inside the pump of one watch, in every interleaving. */
  lemma PumpIsExclusive(es: seq<Event>, t: nat, u: nat)
    requires t in Run(es).lines && Run(es).lines[t] == Pumping
    requires u in Run(es).lines && Run(es).lines[u] == Pumping
    ensures t == u
  {
    RunKeepsOneHolder(es);
    assert Holder(Run(es), t) && Holder(Run(es), u);
  }

  // ---------------------------------------------------------------- it comes to rest

  /** What the activities weigh together. */
  ghost function Total(lines: map<nat, Line>, weight: Line -> nat): nat {
    if lines == map[] then 0
    else
      var t :| t in lines;
      weight(lines[t]) + Total(lines - {t}, weight)
  }

  lemma {:induction false} TotalWithout(lines: map<nat, Line>, weight: Line -> nat, t: nat)
    requires t in lines
    ensures Total(lines, weight) == weight(lines[t]) + Total(lines - {t}, weight)
    decreases |lines|
  {
    var u :| u in lines && Total(lines, weight) == weight(lines[u]) + Total(lines - {u}, weight);
    if u != t {
      TotalWithout(lines - {u}, weight, t);
      TotalWithout(lines - {t}, weight, u);
      assert lines - {u} - {t} == lines - {t} - {u};
    }
  }

  lemma TotalWith(lines: map<nat, Line>, weight: Line -> nat, t: nat, line: Line)
    ensures Total(lines[t := line], weight) == weight(line) + Total(lines - {t}, weight)
    ensures t !in lines ==> lines - {t} == lines
  {
    TotalWithout(lines[t := line], weight, t);
    assert lines[t := line] - {t} == lines - {t};
  }

  /** An upper bound on the lines an activity has left to execute by itself. */
  function LinesLeft(line: Line): nat {
    match line
    case Recheck90 => 1
    case Release88 => 2
    case Recheck86 => 3
    case Pumping => 4
    case Call84 => 5
    case Clear83 => 6
    case Exchange77 => 7
    case Reacquire91 => 7
  }

  /** How many more pumps an activity can start by itself. */
  function PumpsLeft(line: Line): nat {
    if line in {Exchange77, Clear83, Call84, Reacquire91} then 1 else 0
  }

  ghost function StepsToRest(w: Watch): nat {
    (if w.pending then 7 else 0) + Total(w.lines, LinesLeft)
  }

  ghost function PumpsToCome(w: Watch): nat {
    (if w.pending then 1 else 0) + Total(w.lines, PumpsLeft)
  }

  lemma RequestAdds(w: Watch, t: nat)
    requires t !in w.lines
    ensures StepsToRest(Apply(w, Request(t))) <= StepsToRest(w) + 14
    ensures PumpsToCome(Apply(w, Request(t))) <= PumpsToCome(w) + 2
  {
    TotalWith(w.lines, LinesLeft, t, Exchange77);
    TotalWith(w.lines, PumpsLeft, t, Exchange77);
  }

  lemma AdvanceUses(w: Watch, t: nat)
    requires t in w.lines
    ensures StepsToRest(Apply(w, Advance(t))) < StepsToRest(w)
    ensures PumpsToCome(Apply(w, Advance(t))) + (if w.lines[t] == Call84 then 1 else 0) <= PumpsToCome(w)
  {
    var w' := Apply(w, Advance(t));
    TotalWithout(w.lines, LinesLeft, t);
    TotalWithout(w.lines, PumpsLeft, t);
    if t in w'.lines {
      TotalWith(w.lines, LinesLeft, t, w'.lines[t]);
      TotalWith(w.lines, PumpsLeft, t, w'.lines[t]);
      assert w'.lines == w.lines[t := w'.lines[t]];
    }
  }

  /** How many requests a run makes, how many lines its activities execute after line 76, and how many
      pumps it starts. */
  function RequestCount(es: seq<Event>): nat {
    if es == [] then 0
    else
      var n := |es| - 1;
      RequestCount(es[..n]) + if es[n].Request? && es[n].t !in Run(es[..n]).lines then 1 else 0
  }

  function LineCount(es: seq<Event>): nat {
    if es == [] then 0
    else
      var n := |es| - 1;
      LineCount(es[..n]) + if es[n].Advance? && es[n].t in Run(es[..n]).lines then 1 else 0
  }

  function PumpCount(es: seq<Event>): nat {
    if es == [] then 0
    else
      var n := |es| - 1;
      PumpCount(es[..n]) + if es[n].Advance? && Stands(Run(es[..n]), es[n].t, Call84) then 1 else 0
  }

  /** The protocol does not spin: however requests and workers interleave, at most fourteen lines are
      executed and at most two pumps started for each request. */
  lemma {:induction false} ComesToRest(es: seq<Event>)
    ensures LineCount(es) + StepsToRest(Run(es)) <= 14 * RequestCount(es)
    ensures PumpCount(es) + PumpsToCome(Run(es)) <= 2 * RequestCount(es)
  {
    if es != [] {
      var n := |es| - 1;
      ComesToRest(es[..n]);
      var w, t := Run(es[..n]), es[n].t;
      if es[n].Request? && t !in w.lines {
        RequestAdds(w, t);
      } else if es[n].Advance? && t in w.lines {
        AdvanceUses(w, t);
      }
    }
  }

  // ---------------------------------------------------------------- wake-up delivery

  /** Event i is a request that executes line 76. */
  predicate Requests(es: seq<Event>, i: nat) {
    i < |es| && es[i].Request? && es[i].t !in Run(es[..i]).lines
  }

  /** Event j calls pump. */
  predicate StartsPump(es: seq<Event>, j: nat) {
    j < |es| && es[j].Advance? && Stands(Run(es[..j]), es[j].t, Call84)
  }

  predicate Stands(w: Watch, t: nat, line: Line) {
    t in w.lines && w.lines[t] == line
  }

  /** Every request is followed by a pump that starts after it. */
  ghost predicate Delivered(es: seq<Event>) {
    forall i :: Requests(es, i) ==> exists j :: i < j && StartsPump(es, j)
  }

  /** Some request has not been followed by a pump yet, read off the last events. */
  predicate Owed(es: seq<Event>) {
    if es == [] then false
    else if Requests(es, |es| - 1) then true
    else if StartsPump(es, |es| - 1) then false
    else Owed(es[..|es| - 1])
  }

  /** Event k leaves at line 91 because another activity holds `scheduled` and that
      holder has already called its pump. */
  ghost predicate LeavesBusyHolder(es: seq<Event>, k: nat) {
    && k < |es| && es[k].Advance?
    && Stands(Run(es[..k]), es[k].t, Reacquire91)
    && exists u :: BusyHolder(Run(es[..k]), u)
  }

  predicate BusyHolder(w: Watch, u: nat) {
    u in w.lines && w.lines[u] in {Pumping, Recheck86, Release88}
  }

  /** Something already under way will still start a pump. */
  ghost predicate Covered(w: Watch) {
    || (exists t :: Stands(w, t, Clear83))
    || (exists t :: Stands(w, t, Call84))
    || (exists t :: Stands(w, t, Reacquire91))
    || (w.pending && w.scheduled)
    || (w.pending && exists t :: Stands(w, t, Exchange77))
    || (w.pending && exists t :: Stands(w, t, Recheck90))
  }

  lemma ApplyKeepsCovered(w: Watch, e: Event)
    requires OneHolder(w)
    requires Covered(w)
    requires e.Advance? ==> !Stands(w, e.t, Call84)
    requires e.Advance? && Stands(w, e.t, Reacquire91) ==> forall u :: !BusyHolder(w, u)
    ensures Covered(Apply(w, e))
  {
    var w' := Apply(w, e);
    assert forall u, l :: u != e.t && Stands(w, u, l) ==> Stands(w', u, l);
    if e.Request? && e.t !in w.lines {
      assert Stands(w', e.t, Exchange77);
    } else if e.Advance? && e.t in w.lines {
      match w.lines[e.t]
      case Exchange77 => if !w.scheduled { assert Stands(w', e.t, Clear83); }
      case Clear83 => assert Stands(w', e.t, Call84);
      case Pumping =>
      case Recheck86 => if w.pending { assert Stands(w', e.t, Clear83); }
      case Release88 => if w.pending { assert Stands(w', e.t, Recheck90); }
      case Recheck90 => if w.pending { assert Stands(w', e.t, Reacquire91); }
      case Reacquire91 =>
        if w.scheduled {
          var u :| Holder(w, u);
          assert !BusyHolder(w, u);
          assert Stands(w', u, Clear83) || Stands(w', u, Call84);
        } else {
          assert Stands(w', e.t, Clear83);
        }
    }
  }

  lemma RunSnoc(es: seq<Event>, e: Event)
    ensures Run(es + [e]) == Apply(Run(es), e)
  {
    assert (es + [e])[..|es|] == es;
  }

  /** The events of a prefix mean in the whole run what they mean in the prefix. */
  lemma PrefixMeaning(es: seq<Event>, n: nat, i: nat)
    requires i < n <= |es|
    ensures Requests(es, i) == Requests(es[..n], i)
    ensures StartsPump(es, i) == StartsPump(es[..n], i)
    ensures LeavesBusyHolder(es, i) == LeavesBusyHolder(es[..n], i)
  {
    assert es[..n][..i] == es[..i];
  }

  /** Delivery from one event to the next. */
  lemma DeliveredNext(es: seq<Event>)
    requires es != []
    ensures var n := |es| - 1;
      Delivered(es) <==> !Requests(es, n) && (StartsPump(es, n) || Delivered(es[..n]))
  {
    var n := |es| - 1;
    forall i | 0 <= i < n
      ensures Requests(es, i) == Requests(es[..n], i) && StartsPump(es, i) == StartsPump(es[..n], i)
    {
      PrefixMeaning(es, n, i);
    }
    if Requests(es, n) {
      assert !Delivered(es);
    } else if StartsPump(es, n) {
      assert Delivered(es);
    } else if Delivered(es[..n]) {
      forall i: nat | Requests(es, i)
        ensures exists j :: i < j && StartsPump(es, j)
      {
        var j :| i < j && StartsPump(es[..n], j);
        assert StartsPump(es, j);
      }
    } else {
      var i :| Requests(es[..n], i) && forall j :: i < j ==> !StartsPump(es[..n], j);
      assert Requests(es, i);
    }
  }

  /** The rolling flag says the same as the statement about all requests. */
  lemma {:induction false} OwedMeansUndelivered(es: seq<Event>)
    ensures Owed(es) <==> !Delivered(es)
  {
    if es != [] {
      OwedMeansUndelivered(es[..|es| - 1]);
      DeliveredNext(es);
    }
  }

  /** Event k loses a wake-up: it leaves at line 91 past a busy holder while a request
      is owed, and nothing later starts a pump. */
  ghost predicate LosesWakeUp(es: seq<Event>, k: nat) {
    && LeavesBusyHolder(es, k)
    && Owed(es[..k])
    && forall j :: k < j ==> !StartsPump(es, j)
  }

  /** An owed request that nothing covers was lost at line 91. */
  lemma {:induction false} UncoveredWasLost(es: seq<Event>) returns (k: nat)
    requires Owed(es) && !Covered(Run(es))
    ensures LosesWakeUp(es, k)
  {
    var n := |es| - 1;
    var p, e := es[..n], es[n];
    RunKeepsOneHolder(p);
    assert !Requests(es, n) by {
      if Requests(es, n) {
        assert Stands(Run(es), e.t, Exchange77);
      }
    }
    if Covered(Run(p)) {
      k := n;
      if !LeavesBusyHolder(es, n) {
        ApplyKeepsCovered(Run(p), e);
      }
    } else {
      k := UncoveredWasLost(p);
      assert p[..k] == es[..k];
      PrefixMeaning(es, n, k);
      forall j | k < j
        ensures !StartsPump(es, j)
      {
        if j < n {
          PrefixMeaning(es, n, j);
        }
      }
    }
  }

  lemma {:induction false} OwedUntilPump(es: seq<Event>, k: nat)
    requires k <= |es| && Owed(es[..k])
    requires forall j :: k <= j ==> !StartsPump(es, j)
    ensures Owed(es)
  {
    if k == |es| {
      assert es[..k] == es;
    } else {
      var n := |es| - 1;
      assert es[..n][..k] == es[..k];
      forall j | k <= j
        ensures !StartsPump(es[..n], j)
      {
        if j < n {
          PrefixMeaning(es, n, j);
        }
      }
      OwedUntilPump(es[..n], k);
    }
  }

  /** Once every activity has finished, some request has gone without a pump if and only if a
      worker left at line 91 while the holder was already past the start of its pump, with a
      request owed and no pump afterwards. The result is that an undelivered request always
      comes from such an exit: there is no other way to lose one. The way back is immediate,
      since an owed request with no later pump is undelivered whatever happened at line 91. */
  lemma DeliveryCondition(es: seq<Event>)
    requires Run(es).lines == map[]
    ensures Delivered(es) <==> forall k :: !LosesWakeUp(es, k)
  {
    OwedMeansUndelivered(es);
    if Owed(es) {
      RunKeepsOneHolder(es);
      assert !Covered(Run(es)) by {
        assert forall t :: !Holder(Run(es), t);
      }
      var k := UncoveredWasLost(es);
    } else if k :| LosesWakeUp(es, k) {
      OwedUntilPump(es, k);
    }
  }

  /** So no request is lost in a run in which no worker leaves at line 91 past a busy holder. */
  lemma NoBusyExitDelivers(es: seq<Event>)
    requires Run(es).lines == map[]
    requires forall k :: !LeavesBusyHolder(es, k)
    ensures Delivered(es)
  {
    DeliveryCondition(es);
  }

  // ---------------------------------------------------------------- lost for good

  /** Nothing under way can start a pump any more. */
  ghost predicate Stranded(w: Watch) {
    && !w.pending
    && forall t :: t in w.lines ==> w.lines[t] in {Pumping, Recheck86, Release88, Recheck90}
  }

  /** From a stranded state no pump ever starts until somebody requests again. */
  lemma {:induction false} StrandedNeverPumps(es: seq<Event>, n: nat)
    requires n <= |es| && Stranded(Run(es[..n]))
    requires forall i :: n <= i ==> !Requests(es, i)
    ensures Stranded(Run(es))
    ensures forall j :: n <= j ==> !StartsPump(es, j)
  {
    if n == |es| {
      assert es[..n] == es;
    } else {
      var m := |es| - 1;
      assert es[..m][..n] == es[..n];
      forall i | n <= i < m
        ensures Requests(es, i) == Requests(es[..m], i) && StartsPump(es, i) == StartsPump(es[..m], i)
      {
        PrefixMeaning(es, m, i);
      }
      StrandedNeverPumps(es[..m], n);
      assert !Requests(es, m);
    }
  }

  /** A raised `pending` always has somebody who will look at it. */
  ghost predicate Watched(w: Watch) {
    w.pending ==> w.scheduled || exists t :: Stands(w, t, Exchange77) || Stands(w, t, Recheck90)
  }

  lemma {:induction false} RunKeepsWatched(es: seq<Event>)
    ensures Watched(Run(es))
  {
    if es != [] {
      var n := |es| - 1;
      var w, e, w' := Run(es[..n]), es[n], Run(es);
      RunKeepsWatched(es[..n]);
      if w'.pending && !w'.scheduled {
        if Stands(w', e.t, Exchange77) || Stands(w', e.t, Recheck90) {
        } else {
          var t :| Stands(w, t, Exchange77) || Stands(w, t, Recheck90);
          assert Stands(w', t, w.lines[t]);
        }
      }
    }
  }

  function StepsLeft(line: Line): nat {
    match line
    case Call84 => 0
    case Clear83 => 1
    case Exchange77 => 2
    case Reacquire91 => 2
    case Recheck90 => 3
    case Release88 => 4
    case Recheck86 => 5
    case Pumping => 6
  }

  /** t may be driven next: it is the holder, or nobody holds and t can take over. */
  ghost predicate CanDrive(w: Watch, t: nat) {
    && t in w.lines
    && if w.scheduled then Holder(w, t)
       else w.lines[t] in {Exchange77, Reacquire91} || (w.pending && w.lines[t] == Recheck90)
  }

  lemma FindDriver(es: seq<Event>) returns (t: nat)
    requires !Stranded(Run(es))
    ensures CanDrive(Run(es), t)
  {
    var w := Run(es);
    RunKeepsOneHolder(es);
    RunKeepsWatched(es);
    if w.scheduled {
      t :| Holder(w, t);
    } else if u :| Stands(w, u, Exchange77) || Stands(w, u, Reacquire91) {
      t := u;
    } else {
      assert forall u :: u in w.lines ==> !Holder(w, u);
      assert w.pending by {
        if !w.pending {
          assert forall u :: u in w.lines ==> Stands(w, u, w.lines[u]);
        }
      }
      t :| Stands(w, t, Exchange77) || Stands(w, t, Recheck90);
    }
  }

  /** From every other state a pump can still start without a new request, so being
      stranded is exactly what makes a wake-up irrecoverable. */
  lemma {:induction false} UnstrandedCanPump(es: seq<Event>, t: nat) returns (tail: seq<Event>)
    requires !Stranded(Run(es)) && CanDrive(Run(es), t)
    ensures forall e :: e in tail ==> e.Advance?
    ensures tail != [] && StartsPump(es + tail, |es + tail| - 1)
    decreases StepsLeft(Run(es).lines[t])
  {
    var w := Run(es);
    var next := es + [Advance(t)];
    RunSnoc(es, Advance(t));
    assert next[..|es|] == es;
    if w.lines[t] == Call84 {
      return [Advance(t)];
    }
    var w' := Run(next);
    RunKeepsOneHolder(es);
    RunKeepsOneHolder(next);
    assert !Stranded(w') by {
      if w.lines[t] in {Pumping, Recheck86, Release88} && !w.pending {
        var u :| u in w.lines && w.lines[u] !in {Pumping, Recheck86, Release88, Recheck90};
        assert u in w'.lines && w'.lines[u] == w.lines[u];
      } else {
        assert w'.pending || (t in w'.lines && w'.lines[t] in {Clear83, Call84, Reacquire91});
      }
    }
    var u := t;
    if !CanDrive(w', t) {
      u := FindDriver(next);
    }
    var rest := UnstrandedCanPump(next, u);
    tail := [Advance(t)] + rest;
    assert es + tail == next + rest;
  }

  predicate OnlyAdvances(tail: seq<Event>) {
    forall i :: 0 <= i < |tail| ==> tail[i].Advance?
  }

  /** An owed request can still get its pump without a new request exactly when the watch is not
      stranded. */
  lemma OwedIsRecoverable(es: seq<Event>)
    requires Owed(es)
    ensures (exists tail :: OnlyAdvances(tail) && !Owed(es + tail)) <==> !Stranded(Run(es))
  {
    if Stranded(Run(es)) {
      forall tail | OnlyAdvances(tail)
        ensures Owed(es + tail)
      {
        StrandedStaysOwed(es, tail);
      }
    } else {
      var t := FindDriver(es);
      var tail := UnstrandedCanPump(es, t);
      assert OnlyAdvances(tail) && !Owed(es + tail);
    }
  }

  lemma StrandedStaysOwed(es: seq<Event>, tail: seq<Event>)
    requires Owed(es) && Stranded(Run(es)) && OnlyAdvances(tail)
    ensures Owed(es + tail)
  {
    var all, n := es + tail, |es|;
    assert all[..n] == es;
    assert forall i :: n <= i < |all| ==> all[i] == tail[i - n];
    StrandedNeverPumps(all, n);
    OwedUntilPump(all, n);
  }

  // ---------------------------------------------------------------- the excluded run

  predicate OwedNext(w: Watch, owed: bool, e: Event) {
    if e.Request? && e.t !in w.lines then true
    else if e.Advance? && Stands(w, e.t, Call84) then false
    else owed
  }

  lemma Extend(es: seq<Event>, e: Event) returns (es': seq<Event>)
    ensures es' == es + [e]
    ensures Run(es') == Apply(Run(es), e)
    ensures Owed(es') == OwedNext(Run(es), Owed(es), e)
  {
    es' := es + [e];
    assert es'[..|es|] == es;
  }

  lemma FirstPumping() returns (es: seq<Event>)
    ensures Run(es) == Watch(false, true, map[0 := Pumping])
  {
    es := Extend([], Request(0));
    assert Run(es) == Watch(true, false, map[0 := Exchange77]);
    es := Extend(es, Advance(0));
    assert Run(es) == Watch(true, true, map[0 := Clear83]);
    es := Extend(es, Advance(0));
    assert Run(es) == Watch(false, true, map[0 := Call84]);
    es := Extend(es, Advance(0));
  }

  lemma FirstReleased() returns (es: seq<Event>)
    ensures Run(es) == Watch(false, false, map[0 := Recheck90])
  {
    es := FirstPumping();
    es := Extend(es, Advance(0));
    assert Run(es) == Watch(false, true, map[0 := Recheck86]);
    es := Extend(es, Advance(0));
    assert Run(es) == Watch(false, true, map[0 := Release88]);
    es := Extend(es, Advance(0));
  }

  lemma SecondPumping() returns (es: seq<Event>)
    ensures Run(es) == Watch(false, true, map[0 := Recheck90, 1 := Pumping])
  {
    es := FirstReleased();
    es := Extend(es, Request(1));
    es := Extend(es, Advance(1));
    es := Extend(es, Advance(1));
    es := Extend(es, Advance(1));
  }

  /** A run that ends with every activity finished and a request nobody pumped for:
      activity 0 has given `scheduled` back, activity 1 is pumping, activity 2 requests
      and finds it scheduled, then 0 consumes `pending` at line 90 and leaves at 91. */
  lemma LostWakeUp() returns (es: seq<Event>)
    ensures Run(es).lines == map[]
    ensures !Delivered(es)
  {
    es := SecondPumping();
    es := Extend(es, Request(2));
    es := Extend(es, Advance(2));
    assert Owed(es) && Run(es) == Watch(true, true, map[0 := Recheck90, 1 := Pumping]);
    es := Extend(es, Advance(0));
    es := Extend(es, Advance(0));
    assert Owed(es) && Run(es) == Watch(false, true, map[1 := Pumping]);
    es := Extend(es, Advance(1));
    es := Extend(es, Advance(1));
    es := Extend(es, Advance(1));
    es := Extend(es, Advance(1));
    assert Run(es) == Watch(false, false, map[]);
    OwedMeansUndelivered(es);
  }

  // ---------------------------------------------------------------- the shared flags

  /** The watch itself: two atomic flags and the activities working on them. Each method
      is one atomic operation of DBReactor::request or of the worker loop it posts. */
  class SharedWatch {
    var pending: bool
    var scheduled: bool
    var lines: map<nat, Line>

    ghost function State(): Watch
      reads this
    {
      Watch(pending, scheduled, lines)
    }

    constructor ()
      ensures State() == Run([])
    {
      pending, scheduled, lines := false, false, map[];
    }

    /** Line 76. */
    method Raise(t: nat)
      requires t !in lines
      modifies this
      ensures State() == Apply(old(State()), Request(t))
    {
      pending := true;
      lines := lines[t := Exchange77];
    }

    method ExchangePending(value: bool) returns (was: bool)
      modifies this`pending
      ensures was == old(pending) && pending == value
    {
      was, pending := pending, value;
    }

    method ExchangeScheduled(value: bool) returns (was: bool)
      modifies this`scheduled
      ensures was == old(scheduled) && scheduled == value
    {
      was, scheduled := scheduled, value;
    }

    /** The next operation of activity t: line 77, or one line of the worker loop. */
    method Advance(t: nat)
      requires t in lines
      modifies this
      ensures State() == Apply(old(State()), Event.Advance(t))
    {
      match lines[t]
      case Exchange77 =>
        var was := ExchangeScheduled(true);
        if was { lines := lines - {t}; } else { lines := lines[t := Clear83]; }
      case Clear83 =>
        pending := false;
        lines := lines[t := Call84];
      case Call84 => lines := lines[t := Pumping];
      case Pumping => lines := lines[t := Recheck86];
      case Recheck86 =>
        var was := ExchangePending(false);
        lines := lines[t := if was then Clear83 else Release88];
      case Release88 =>
        scheduled := false;
        lines := lines[t := Recheck90];
      case Recheck90 =>
        var was := ExchangePending(false);
        if was { lines := lines[t := Reacquire91]; } else { lines := lines - {t}; }
      case Reacquire91 =>
        var was := ExchangeScheduled(true);
        if was { lines := lines - {t}; } else { lines := lines[t := Clear83]; }
    }
  }
}
