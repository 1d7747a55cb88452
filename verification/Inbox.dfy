/** What becomes of a result on its way to a script worker when the runner stops. deliver() looks at
    the runner once and then posts to the worker's inbox, so it may post after the worker has left;
    a worker that leaves abandons and releases its executions and clears its inbox. Each result is
    delivered once. Everything here is a run of Realms with steps left out, so its laws hold. */
module Inbox {
  import opened Common
  import R = Realms

  /** posting: deliver() has seen the runner running and has not reached the inbox yet; gone: workers
      that have left; delivered: requests whose result deliver() has been given. */
  datatype Office = Office(s: R.State, posting: set<R.Mail>, gone: set<nat>, delivered: set<nat>)

  datatype Event =
    | Base(e: R.Event)
    | Post(mail: R.Mail)
    | Leave(worker: nat)              // the end of discardAll()

  // ---------------------------------------------------------------- steps

  ghost predicate Enabled(o: Office, e: Event) {
    match e
    case Base(be) => BaseEnabled(o, be)
    case Post(mail) => mail in o.posting
    case Leave(w) =>
      && !o.s.running && w !in o.s.hands
      && forall x :: x in o.s.executions && o.s.executions[x].worker == w ==> o.s.executions[x].status == R.Released
  }

  predicate BaseEnabled(o: Office, e: R.Event) {
    match e
    case Begin(_, w) => w !in o.gone
    case TrackImport(w) => w !in o.gone
    case DeliverFinds(id) => id !in o.delivered
    case SettleTakes(mail) => mail !in o.posting && mail.worker !in o.gone
    case _ => true
  }

  ghost function Apply(o: Office, e: Event): Office {
    if !Enabled(o, e) then o
    else
      match e
      case Base(be) =>
        var posts := be.DeliverPosts? && be.mail in o.s.delivering && o.s.running;
        var finds := be.DeliverFinds? && be.id in o.s.pending;
        Office(R.Apply(o.s, be),
               if posts then o.posting + {be.mail} else o.posting,
               o.gone,
               if finds then o.delivered + {be.id} else o.delivered)
      case Post(mail) => o.(posting := o.posting - {mail})
      case Leave(w) => o.(gone := o.gone + {w})
  }

  ghost function Run(es: seq<Event>): Office {
    if es == [] then Office(R.Run([]), {}, {}, {}) else Apply(Run(es[..|es| - 1]), es[|es| - 1])
  }

  lemma {:induction false} RunIsRealmsRun(es: seq<Event>) returns (res: seq<R.Event>)
    ensures Run(es).s == R.Run(res)
  {
    res := [];
    if es != [] {
      var o, e := Run(es[..|es| - 1]), es[|es| - 1];
      res := RunIsRealmsRun(es[..|es| - 1]);
      if Enabled(o, e) && e.Base? {
        R.RunSnoc(res, e.e);
        res := res + [e.e];
      }
    }
  }

  // ---------------------------------------------------------------- lost results

  function MailOf(s: R.State, id: nat): R.Mail
    requires id in s.pending
  {
    R.Mail(id, s.pending[id].worker)
  }

  /** The result was handed to a worker that has left. */
  predicate Lost(o: Office, id: nat) {
    && id in o.s.pending && id in o.delivered
    && MailOf(o.s, id) !in o.s.delivering && o.s.pending[id].worker in o.gone
  }

  /** A worker that has left has no execution any more. */
  ghost predicate GoneHaveNone(o: Office) {
    forall x :: R.Is(o.s, x, R.Alive) ==> o.s.executions[x].worker !in o.gone
  }

  /** A delivered result whose request still stands is on its way or in an inbox. */
  ghost predicate Tracked(o: Office) {
    forall id :: id in o.s.pending && id in o.delivered ==>
      MailOf(o.s, id) in o.s.delivering || MailOf(o.s, id) in o.s.inbox
  }

  ghost predicate Known(o: Office) {
    (forall id :: id in o.delivered ==> id < o.s.next) && forall m :: m in o.posting ==> m in o.s.inbox
  }

  ghost predicate Inv(o: Office) {
    R.Inv(o.s) && GoneHaveNone(o) && Tracked(o) && Known(o)
  }

  // ---------------------------------------------------------------- what every step keeps

  lemma AliveBefore(s: R.State, e: R.Event, x: nat)
    requires R.Is(R.Apply(s, e), x, R.Alive)
    ensures (R.Is(s, x, R.Alive) && R.Apply(s, e).executions[x].worker == s.executions[x].worker) ||
            (e.Begin? && R.Apply(s, e).executions[x].worker == e.worker)
  {
  }

  /** Which step takes which request out of the table. */
  predicate TakesOut(s: R.State, e: R.Event, id: nat) {
    match e
    case DeliverErases(mail) => mail in s.delivering && mail.id == id
    case SettleTakes(mail) => mail in s.inbox && mail.id == id
    case Abandon(x) => R.Is(s, x, R.Alive) && id in s.pending && s.pending[id].execution == Some(x)
    case _ => false
  }

  lemma Stands(s: R.State, e: R.Event, id: nat)
    requires id in s.pending && id < s.next
    ensures id in R.Apply(s, e).pending ==> R.Apply(s, e).pending[id] == s.pending[id]
    ensures id !in R.Apply(s, e).pending ==> TakesOut(s, e, id)
  {
  }

  lemma NewRequest(s: R.State, e: R.Event, id: nat)
    requires id !in s.pending && id in R.Apply(s, e).pending
    ensures id == s.next
  {
  }

  /** Which step moves a mail. */
  lemma MailMoves(s: R.State, e: R.Event, m: R.Mail)
    ensures var s' := R.Apply(s, e);
      && (m in s'.delivering && m !in s.delivering ==> e == R.DeliverFinds(m.id))
      && (m in s.delivering && m !in s'.delivering ==>
            (e == R.DeliverPosts(m) && m in s'.inbox) || (e == R.DeliverErases(m) && m.id !in s'.pending))
      && (m in s.inbox && m !in s'.inbox ==> e == R.SettleTakes(m) && m.id !in s'.pending)
      && s.next <= s'.next
  {
  }

  lemma FoundIsDelivering(s: R.State, id: nat)
    requires id in s.pending
    ensures R.Apply(s, R.DeliverFinds(id)).pending == s.pending
    ensures MailOf(s, id) in R.Apply(s, R.DeliverFinds(id)).delivering
  {
  }

  lemma TrackedStep(o: Office, e: R.Event)
    requires Inv(o) && BaseEnabled(o, e)
    ensures Tracked(Apply(o, Base(e)))
  {
    var o' := Apply(o, Base(e));
    forall id | id in o'.s.pending && id in o'.delivered
      ensures MailOf(o'.s, id) in o'.s.delivering || MailOf(o'.s, id) in o'.s.inbox
    {
      if id !in o.s.pending {
        NewRequest(o.s, e, id);
      } else {
        Stands(o.s, e, id);
        if id in o.delivered {
          MailMoves(o.s, e, MailOf(o.s, id));
        } else {
          FoundIsDelivering(o.s, id);
        }
      }
    }
  }

  lemma KnownStep(o: Office, e: R.Event)
    requires Inv(o) && BaseEnabled(o, e)
    ensures Known(Apply(o, Base(e)))
  {
    var o' := Apply(o, Base(e));
    forall m | m in o'.posting
      ensures m in o'.s.inbox
    {
      MailMoves(o.s, e, m);
    }
    MailMoves(o.s, e, R.Mail(0, 0));
  }

  lemma GoneStep(o: Office, e: R.Event)
    requires GoneHaveNone(o) && BaseEnabled(o, e)
    ensures GoneHaveNone(Apply(o, Base(e)))
  {
    forall x | R.Is(R.Apply(o.s, e), x, R.Alive)
      ensures R.Apply(o.s, e).executions[x].worker !in o.gone
    {
      AliveBefore(o.s, e, x);
    }
  }

  lemma StepKeeps(o: Office, e: Event)
    requires Inv(o)
    ensures Inv(Apply(o, e))
  {
    if Enabled(o, e) && e.Base? {
      R.StepKeeps(o.s, e.e);
      GoneStep(o, e.e);
      TrackedStep(o, e.e);
      KnownStep(o, e.e);
    }
  }

  lemma {:induction false} RunKeeps(es: seq<Event>)
    ensures Inv(Run(es))
  {
    if es == [] {
      R.RunKeeps([]);
    } else {
      RunKeeps(es[..|es| - 1]);
      StepKeeps(Run(es[..|es| - 1]), es[|es| - 1]);
    }
  }

  // ---------------------------------------------------------------- lost for good

  /** What a worker leaves behind in the table is imports. */
  lemma LostIsImport(o: Office, id: nat)
    requires Inv(o) && Lost(o, id)
    ensures o.s.pending[id].execution == None
  {
    assert o.s.pending[id].execution.Some? ==> R.Is(o.s, o.s.pending[id].execution.value, R.Alive);
  }

  lemma LostStep(o: Office, e: Event, id: nat)
    requires Inv(o) && Lost(o, id)
    ensures Lost(Apply(o, e), id)
  {
    if Enabled(o, e) && e.Base? {
      var m := MailOf(o.s, id);
      LostIsImport(o, id);
      Stands(o.s, e.e, id);
      MailMoves(o.s, e.e, m);
      assert forall x: R.Mail :: (x in o.s.delivering || x in o.s.inbox) && x.id == id ==> x == m;
    }
  }

  lemma {:induction false} LostForever(es: seq<Event>, n: nat, id: nat)
    requires n <= |es| && Lost(Run(es[..n]), id)
    ensures Lost(Run(es), id)
  {
    if n == |es| {
      assert es[..n] == es;
    } else {
      var m := |es| - 1;
      assert es[..m][..n] == es[..n];
      LostForever(es[..m], n, id);
      RunKeeps(es[..m]);
      LostStep(Run(es[..m]), es[m], id);
    }
  }

  lemma RunSnoc(es: seq<Event>, e: Event)
    ensures Run(es + [e]) == Apply(Run(es), e)
  {
    assert (es + [e])[..|es|] == es;
  }

  /** deliver() drops the request after the stop. */
  lemma DropsIt(o: Office, id: nat)
    requires Inv(o) && id in o.s.pending && MailOf(o.s, id) in o.s.delivering
    ensures id !in Apply(Apply(o, Base(R.Stop)), Base(R.DeliverErases(MailOf(o.s, id)))).s.pending
  {
  }

  /** The worker, once its hands are free, settles it. */
  lemma SettlesIt(o: Office, id: nat)
    requires Inv(o) && id in o.s.pending && o.s.pending[id].worker !in o.gone && o.s.pending[id].worker !in o.s.hands
    requires MailOf(o.s, id) in o.s.inbox && MailOf(o.s, id) !in o.posting
    ensures id !in Apply(o, Base(R.SettleTakes(MailOf(o.s, id)))).s.pending
  {
  }

  /** A worker in the middle of track() or settle() can finish. */
  lemma FreesHand(o: Office, id: nat) returns (e: Event)
    requires Inv(o) && id in o.s.pending && o.s.pending[id].worker in o.s.hands
    ensures var o' := Apply(o, e);
      && id in o'.s.pending && o'.s.pending[id] == o.s.pending[id] && o.s.pending[id].worker !in o'.s.hands
      && o'.s.inbox == o.s.inbox && o'.posting == o.posting && o'.gone == o.gone
  {
    var w := o.s.pending[id].worker;
    e := Base(if o.s.hands[w].Tracking? then R.TrackEnds(w) else R.SettleEnds(w));
    Stands(o.s, e.e, id);
  }

  lemma LeavesFromInbox(es: seq<Event>, id: nat) returns (tail: seq<Event>)
    requires var o := Run(es);
      && id in o.s.pending && o.s.pending[id].worker !in o.gone && MailOf(o.s, id) in o.s.inbox
    ensures id !in Run(es + tail).s.pending
  {
    var mail := MailOf(Run(es).s, id);
    var first := es + [Post(mail)];
    RunSnoc(es, Post(mail));
    RunKeeps(first);
    assert Run(first).s == Run(es).s && mail !in Run(first).posting && Run(first).gone == Run(es).gone;
    tail := [Post(mail)];
    if mail.worker in Run(first).s.hands {
      var free := FreesHand(Run(first), id);
      RunSnoc(first, free);
      RunKeeps(first + [free]);
      SettlesIt(Run(first + [free]), id);
      RunSnoc(first + [free], Base(R.SettleTakes(mail)));
      tail := [Post(mail), free, Base(R.SettleTakes(mail))];
      assert es + tail == first + [free] + [Base(R.SettleTakes(mail))];
    } else {
      SettlesIt(Run(first), id);
      RunSnoc(first, Base(R.SettleTakes(mail)));
      tail := [Post(mail), Base(R.SettleTakes(mail))];
      assert es + tail == first + [Base(R.SettleTakes(mail))];
    }
  }

  lemma LeavesByDrop(es: seq<Event>, id: nat) returns (tail: seq<Event>)
    requires id in Run(es).s.pending && MailOf(Run(es).s, id) in Run(es).s.delivering
    ensures id !in Run(es + tail).s.pending
  {
    var mail := MailOf(Run(es).s, id);
    RunKeeps(es);
    DropsIt(Run(es), id);
    RunSnoc(es, Base(R.Stop));
    RunSnoc(es + [Base(R.Stop)], Base(R.DeliverErases(mail)));
    tail := [Base(R.Stop), Base(R.DeliverErases(mail))];
    assert es + tail == es + [Base(R.Stop)] + [Base(R.DeliverErases(mail))];
  }

  lemma CanLeave(es: seq<Event>, id: nat) returns (tail: seq<Event>)
    requires id in Run(es).s.pending && !Lost(Run(es), id)
    ensures id !in Run(es + tail).s.pending
  {
    var o := Run(es);
    RunKeeps(es);
    if MailOf(o.s, id) in o.s.delivering {
      tail := LeavesByDrop(es, id);
    } else if id in o.delivered {
      tail := LeavesFromInbox(es, id);
    } else {
      var find := Base(R.DeliverFinds(id));
      RunSnoc(es, find);
      FoundIsDelivering(o.s, id);
      var rest := LeavesByDrop(es + [find], id);
      tail := [find] + rest;
      assert es + tail == es + [find] + rest;
    }
  }

  /** A pending request can still leave the table if and only if its result has not been lost: its
      result was not handed to a worker that left before settling it. */
  lemma StaysExactlyWhenLost(es: seq<Event>, id: nat)
    requires id in Run(es).s.pending
    ensures (exists tail :: id !in Run(es + tail).s.pending) <==> !Lost(Run(es), id)
  {
    if Lost(Run(es), id) {
      forall tail
        ensures id in Run(es + tail).s.pending
      {
        assert (es + tail)[..|es|] == es;
        LostForever(es + tail, |es|, id);
      }
    } else {
      var tail := CanLeave(es, id);
    }
  }

  /** A session with a lost import never has an empty table again, so it never counts as drained. */
  lemma NeverDrained(es: seq<Event>, tail: seq<Event>, id: nat)
    requires Lost(Run(es), id)
    ensures Run(es + tail).s.pending != map[] && Run(es + tail).s.inflight > 0
    ensures Run(es).s.pending[id].execution == None
  {
    RunKeeps(es);
    LostIsImport(Run(es), id);
    assert (es + tail)[..|es|] == es;
    LostForever(es + tail, |es|, id);
    RunKeeps(es + tail);
  }

  /** It happens: from any state of a running runner, an import whose result is delivered is lost when
      the runner stops and the import's worker, which has nothing else to do, leaves at once. */
  lemma ImportIsLost(es: seq<Event>, id: nat) returns (tail: seq<Event>)
    requires var o := Run(es);
      && o.s.running && id in o.s.pending && id !in o.delivered
      && o.s.pending[id].worker !in o.s.hands
      && forall x :: x in o.s.executions && o.s.executions[x].worker == o.s.pending[id].worker ==>
            o.s.executions[x].status == R.Released
    ensures Lost(Run(es + tail), id)
  {
    var o := Run(es);
    RunKeeps(es);
    var mail := MailOf(o.s, id);
    var find, post, stop, leave :=
      Base(R.DeliverFinds(id)), Base(R.DeliverPosts(mail)), Base(R.Stop), Leave(mail.worker);
    tail := [find, post, stop, leave];
    RunSnoc(es, find);
    RunSnoc(es + [find], post);
    RunSnoc(es + [find] + [post], stop);
    RunSnoc(es + [find] + [post] + [stop], leave);
    assert es + tail == es + [find] + [post] + [stop] + [leave];
    HandedOver(o, id);
  }

  lemma HandedOver(o: Office, id: nat)
    requires Inv(o) && o.s.running && id in o.s.pending && id !in o.delivered && o.s.pending[id].worker !in o.s.hands
    requires forall x :: x in o.s.executions && o.s.executions[x].worker == o.s.pending[id].worker ==>
      o.s.executions[x].status == R.Released
    ensures var mail := MailOf(o.s, id);
      var stopped := Apply(Apply(Apply(o, Base(R.DeliverFinds(id))), Base(R.DeliverPosts(mail))), Base(R.Stop));
      Lost(Apply(stopped, Leave(mail.worker)), id)
  {
    var mail := MailOf(o.s, id);
    var o1 := Apply(o, Base(R.DeliverFinds(id)));
    assert o1.s == o.s.(delivering := o.s.delivering + {mail}) && id in o1.delivered;
    var o2 := Apply(o1, Base(R.DeliverPosts(mail)));
    assert o2.s == o1.s.(delivering := o1.s.delivering - {mail}, inbox := o1.s.inbox + {mail});
  }
}
