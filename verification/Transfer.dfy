/** One LanePool::send: the exchange that lives across redirect hops and 429 retries, the hop
    request that travels through a lane and a shard, and the import sink that is moved along
    with it. URLs are numbers; what curl, the URL parser and the sink answer are inputs. */
module Transfer {
  import opened Common

  datatype Verb = Get | Head | Post | Put | Patch | Delete | Options

  datatype Hop = Hop(url: nat, status: int)

  /** What a hop's callback is given; sink: the response carries the sink back. */
  datatype Reply = Failed | Replied(status: int, url: nat, sink: bool)

  /** Where the hop request is. AtPool: none is out and dispatch() is about to run. The sink
      flags are the sink pointers of the queued, posted and active requests. */
  datatype Stage =
    | AtPool
    | Queued(sink: bool)
    | Posted(sink: bool)
    | Active(sink: bool, status: int, sinkError: bool, overLimit: bool)
    | Answered(reply: Reply)
    | Done(reply: Reply)

  /** late: something was done to the sink after it had been finished or aborted. */
  datatype Sink = Sink(bytes: nat, finishes: nat, aborts: nat, late: bool)

  datatype Request = Request(hasSink: bool, follow: bool, maxRedirects: nat, verb: Verb, body: bool, url: nat)

  /** held: exchange->sink is set. */
  datatype Send = Send(
    stage: Stage,
    held: bool,
    sink: Sink,
    cancelled: bool,
    callbacks: nat,
    verb: Verb,
    body: bool,
    url: nat,
    hops: seq<Hop>,
    redirects: nat)

  datatype Event =
    | Cancels                                                       // the cancellation flag is set
    | Dispatches(validUrl: bool, laneFound: bool, laneStopped: bool)
    | Dequeued                                                      // cancelled in the queue, or lane shutdown
    | Picked                                                        // the lane posts it to a shard
    | Starts(curlReady: bool)
    | StatusLine(status: int)
    | Writes(size: nat, accepted: bool, message: bool, tooLarge: bool)
    | Interrupted                                                   // shard cancel or shutdown
    | Finishes(curlOk: bool, status: int, url: nat, notAFile: bool, imported: bool)
    | Completes(location: bool, next: Option<nat>)

  // ---------------------------------------------------------------- the sink

  predicate Settled(k: Sink) {
    k.finishes + k.aborts > 0
  }

  function Abort(k: Sink): Sink {
    k.(aborts := k.aborts + 1, late := k.late || Settled(k))
  }

  /** A failed finish leaves the sink to be aborted. */
  function Finish(k: Sink, imported: bool): Sink {
    k.(finishes := if imported then k.finishes + 1 else k.finishes, late := k.late || Settled(k))
  }

  function Write(k: Sink, size: nat): Sink {
    k.(bytes := k.bytes + size, late := k.late || Settled(k))
  }

  function AbortIf(k: Sink, holds: bool): Sink {
    if holds then Abort(k) else k
  }

  // ---------------------------------------------------------------- status codes

  predicate IsRedirect(status: int) {
    status == 301 || status == 302 || status == 303 || status == 307 || status == 308
  }

  predicate Successful(status: int) {
    200 <= status < 300
  }

  predicate Preserving(r: Request, status: int) {
    (r.follow && IsRedirect(status)) || !Successful(status)
  }

  predicate Rewrites(status: int) {
    status == 301 || status == 302 || status == 303
  }

  // ---------------------------------------------------------------- steps

  function Deliver(s: Send, reply: Reply): Send {
    s.(stage := Done(reply), held := false, callbacks := s.callbacks + 1)
  }

  function Dispatch(s: Send, validUrl: bool, laneFound: bool, laneStopped: bool): Send {
    if s.cancelled || !validUrl || !laneFound then Deliver(s.(sink := AbortIf(s.sink, s.held)), Failed)
    else if laneStopped then s.(held := false, sink := AbortIf(s.sink, s.held), stage := Answered(Failed))
    else s.(held := false, stage := Queued(s.held))
  }

  /** The hop ends without a response. */
  function Drop(s: Send, holds: bool): Send {
    s.(sink := AbortIf(s.sink, holds), stage := Answered(Failed))
  }

  function WriteBytes(r: Request, s: Send, size: nat, accepted: bool, message: bool, tooLarge: bool): Send
    requires s.stage.Active?
  {
    var a := s.stage;
    if a.sink && Preserving(r, a.status) then s
    else if a.sink then
      s.(sink := Write(s.sink, size), stage := a.(sinkError := if accepted then a.sinkError else message))
    else if tooLarge then s.(stage := a.(overLimit := true))
    else s
  }

  function FinishHop(r: Request, s: Send, curlOk: bool, status: int, url: nat, notAFile: bool, imported: bool): Send
    requires s.stage.Active?
  {
    var a := s.stage;
    if a.sinkError then Drop(s, a.sink)
    else if a.overLimit then s.(stage := Answered(Failed))
    else if !curlOk then Drop(s, a.sink)
    else if a.sink && Preserving(r, status) then s.(stage := Answered(Replied(status, url, true)))
    else if a.sink && notAFile then Drop(s, true)
    else if a.sink then
      var k := Finish(s.sink, imported);
      if imported then s.(sink := k, stage := Answered(Replied(status, url, false)))
      else s.(sink := Abort(k), stage := Answered(Failed))
    else s.(stage := Answered(Replied(status, url, false)))
  }

  predicate Follows(r: Request, s: Send, status: int, location: bool) {
    r.follow && IsRedirect(status) && location && s.redirects < r.maxRedirects
  }

  function Rewritten(verb: Verb, status: int): Verb {
    if Rewrites(status) && verb != Head then Get else verb
  }

  function Redirected(s: Send, reply: Reply, next: nat): Send
    requires reply.Replied?
  {
    s.(stage := AtPool, url := next,
       hops := s.hops + [Hop(reply.url, reply.status)], redirects := s.redirects + 1,
       verb := Rewritten(s.verb, reply.status), body := s.body && !Rewrites(reply.status))
  }

  function Complete(r: Request, s: Send, location: bool, next: Option<nat>): Send
    requires s.stage.Answered?
  {
    var reply := s.stage.reply;
    if reply.Failed? then Deliver(s, reply)
    else if reply.status == 429 then s.(held := reply.sink, stage := AtPool)
    else if !Follows(r, s, reply.status, location) || next.None? then
      Deliver(s.(sink := AbortIf(s.sink, reply.sink)), reply)
    else Redirected(s.(held := reply.sink), reply, next.value)
  }

  function Apply(r: Request, s: Send, e: Event): Send {
    match e
    case Cancels => s.(cancelled := true)
    case Dispatches(validUrl, laneFound, laneStopped) =>
      if s.stage.AtPool? then Dispatch(s, validUrl, laneFound, laneStopped) else s
    case Dequeued => if s.stage.Queued? then Drop(s, s.stage.sink) else s
    case Picked => if s.stage.Queued? then s.(stage := Posted(s.stage.sink)) else s
    case Starts(curlReady) =>
      if !s.stage.Posted? then s
      else if s.cancelled || !curlReady then Drop(s, s.stage.sink)
      else s.(stage := Active(s.stage.sink, 0, false, false))
    case StatusLine(status) => if s.stage.Active? then s.(stage := s.stage.(status := status)) else s
    case Writes(size, accepted, message, tooLarge) =>
      if s.stage.Active? then WriteBytes(r, s, size, accepted, message, tooLarge) else s
    case Interrupted => if s.stage.Active? then Drop(s, s.stage.sink) else s
    case Finishes(curlOk, status, url, notAFile, imported) =>
      if s.stage.Active? then FinishHop(r, s, curlOk, status, url, notAFile, imported) else s
    case Completes(location, next) => if s.stage.Answered? then Complete(r, s, location, next) else s
  }

  function Start(r: Request): Send {
    Send(AtPool, r.hasSink, Sink(0, 0, 0, false), false, 0, r.verb, r.body, r.url, [], 0)
  }

  function Run(r: Request, es: seq<Event>): Send {
    if es == [] then Start(r) else Apply(r, Run(r, es[..|es| - 1]), es[|es| - 1])
  }

  // ---------------------------------------------------------------- who owns the sink

  predicate StageHolds(g: Stage) {
    match g
    case Queued(sink) => sink
    case Posted(sink) => sink
    case Active(sink, _, _, _) => sink
    case Answered(reply) => reply.Replied? && reply.sink
    case _ => false
  }

  function One(b: bool): nat {
    if b then 1 else 0
  }

  /** How many pointers to the sink there are. */
  function Owners(s: Send): nat {
    One(s.held) + One(StageHolds(s.stage))
  }

  predicate Linear(r: Request, s: Send) {
    && Owners(s) + s.sink.aborts + s.sink.finishes == One(r.hasSink)
    && !s.sink.late
    && (s.stage.Done? ==> s.callbacks == 1 && Owners(s) == 0)
    && (!s.stage.Done? ==> s.callbacks == 0)
    && (s.held ==> s.stage.AtPool?)
    && (s.stage.Active? && s.stage.overLimit ==> !s.stage.sink)
  }

  /** A successful import is reported as one, and nothing else is; until a reply is on its way
      nothing has been settled. */
  predicate Truthful(r: Request, s: Send) {
    match s.stage
    case Answered(reply) =>
      && (s.sink.finishes > 0 ==> reply.Replied? && Successful(reply.status))
      && (reply.Replied? ==> s.sink.aborts == 0 && (r.hasSink ==> (reply.sink <==> !Successful(reply.status))))
    case Done(reply) =>
      && (s.sink.finishes > 0 ==> reply.Replied? && Successful(reply.status))
      && (r.hasSink && reply.Replied? && Successful(reply.status) ==> s.sink.finishes == 1)
    case _ => !Settled(s.sink)
  }

  predicate Owned(r: Request, s: Send) {
    Linear(r, s) && Truthful(r, s)
  }

  lemma DispatchOwned(r: Request, s: Send, e: Event)
    requires Owned(r, s) && e.Dispatches?
    ensures Owned(r, Apply(r, s, e))
  {
  }

  lemma TravelOwned(r: Request, s: Send, e: Event)
    requires Owned(r, s) && (e.Dequeued? || e.Picked? || e.Starts? || e.Interrupted?)
    ensures Owned(r, Apply(r, s, e))
  {
  }

  lemma BytesOwned(r: Request, s: Send, e: Event)
    requires Owned(r, s) && (e.StatusLine? || e.Writes?)
    ensures Owned(r, Apply(r, s, e))
  {
  }

  lemma FinishOwned(r: Request, s: Send, e: Event)
    requires Owned(r, s) && e.Finishes?
    ensures Owned(r, Apply(r, s, e))
  {
  }

  lemma CompleteOwned(r: Request, s: Send, e: Event)
    requires Owned(r, s) && e.Completes?
    ensures Owned(r, Apply(r, s, e))
  {
  }

  lemma {:induction false} RunOwned(r: Request, es: seq<Event>)
    ensures Owned(r, Run(r, es))
  {
    if es != [] {
      var s, e := Run(r, es[..|es| - 1]), es[|es| - 1];
      RunOwned(r, es[..|es| - 1]);
      match e
      case Cancels =>
      case Dispatches(_, _, _) => DispatchOwned(r, s, e);
      case StatusLine(_) => BytesOwned(r, s, e);
      case Writes(_, _, _, _) => BytesOwned(r, s, e);
      case Finishes(_, _, _, _, _) => FinishOwned(r, s, e);
      case Completes(_, _) => CompleteOwned(r, s, e);
      case _ => TravelOwned(r, s, e);
    }
  }

  /** Whatever mixture of redirects, retries, cancellation and shutdown a send goes through,
      its callback runs at most once. The sink has one owner until it is settled, is settled at
      most once and is not touched afterwards. When the callback has run, the sink has been
      finished if the caller got a success, and aborted otherwise. */
  lemma OneCallbackOneOwner(r: Request, es: seq<Event>)
    ensures var s := Run(r, es);
      && s.callbacks == One(s.stage.Done?)
      && Owners(s) == One(r.hasSink && !Settled(s.sink)) && s.sink.finishes + s.sink.aborts <= 1 && !s.sink.late
      && (s.stage.Done? && r.hasSink ==>
        var success := s.stage.reply.Replied? && Successful(s.stage.reply.status);
        s.sink.finishes == One(success) && s.sink.aborts == One(!success))
  {
    RunOwned(r, es);
  }

  // ---------------------------------------------------------------- what a send comes to

  lemma RunThen(r: Request, es: seq<Event>, e: Event)
    ensures Run(r, es + [e]) == Apply(r, Run(r, es), e)
  {
    assert (es + [e])[..|es|] == es;
  }

  /** The transfer that runs in this state went well: curl, the sink and the size limit had nothing
      against it, and if it was a success for the sink then the sink took it as a file. */
  predicate WentWell(s: Send, e: Event)
    requires s.stage.Active? && e.Finishes?
  {
    && e.curlOk && !s.stage.sinkError && !s.stage.overLimit
    && (s.stage.sink && 200 <= e.status <= 299 ==> !e.notAFile && e.imported)
  }

  /** What the end of a transfer means: a transfer that went well is answered with the status and the
      URL curl reports, and its sink is finished by a status from 200 to 299 and handed back by any
      other. One that did not is answered with a failure, and its sink is aborted. */
  lemma FinishDecides(r: Request, es: seq<Event>, e: Event)
    requires Run(r, es).stage.Active? && e.Finishes?
    ensures var s, s' := Run(r, es), Run(r, es + [e]);
      var well, success := WentWell(s, e), 200 <= e.status <= 299;
      && s'.stage == Answered(if well then Replied(e.status, e.url, s.stage.sink && !success) else Failed)
      && s'.sink.finishes == One(s.stage.sink && well && success)
      && s'.sink.aborts == One(s.stage.sink && !well)
      && s'.sink.bytes == s.sink.bytes && s'.callbacks == 0 && s'.hops == s.hops && s'.cancelled == s.cancelled
  {
    RunOwned(r, es);
    RunThen(r, es, e);
  }

  /** The event ends a transfer into the sink, with success and with nothing against it. */
  predicate Imports(s: Send, e: Event) {
    e.Finishes? && s.stage.Active? && s.stage.sink && WentWell(s, e) && 200 <= e.status <= 299
  }

  lemma ImportStep(r: Request, s: Send, e: Event)
    requires Owned(r, s)
    ensures Apply(r, s, e).sink.finishes == 1 <==> s.sink.finishes == 1 || Imports(s, e)
  {
    if !(e.Finishes? && s.stage.Active?) {
      OnlyFinishFinishes(r, s, e);
    }
  }

  ghost predicate Imported(r: Request, es: seq<Event>) {
    exists n :: 0 <= n < |es| && Imports(Run(r, es[..n]), es[n])
  }

  lemma ImportedNext(r: Request, es: seq<Event>)
    requires es != []
    ensures var m := |es| - 1;
      Imported(r, es) <==> Imported(r, es[..m]) || Imports(Run(r, es[..m]), es[m])
  {
    var m := |es| - 1;
    assert forall n :: 0 <= n < m ==> es[..m][..n] == es[..n] && es[..m][n] == es[n];
    if Imported(r, es[..m]) {
      var n :| 0 <= n < m && Imports(Run(r, es[..m][..n]), es[..m][n]);
      assert Imports(Run(r, es[..n]), es[n]);
    }
  }

  /** A file is imported exactly when some transfer of the send went well with a success status. */
  lemma {:induction false} ImportedExactly(r: Request, es: seq<Event>)
    ensures Run(r, es).sink.finishes == 1 <==> Imported(r, es)
  {
    if es != [] {
      var m := |es| - 1;
      ImportedExactly(r, es[..m]);
      ImportedNext(r, es);
      RunOwned(r, es[..m]);
      ImportStep(r, Run(r, es[..m]), es[m]);
    }
  }

  lemma OnlyFinishFinishes(r: Request, s: Send, e: Event)
    requires !(e.Finishes? && s.stage.Active?)
    ensures Apply(r, s, e).sink.finishes == s.sink.finishes
  {
  }

  /** The n-th event ends a transfer well, with this status and URL. */
  predicate Reports(r: Request, es: seq<Event>, n: nat, status: int, url: nat)
    requires n < |es|
  {
    var s := Run(r, es[..n]);
    es[n].Finishes? && s.stage.Active? && WentWell(s, es[n]) && es[n].status == status && es[n].url == url
  }

  predicate Told(s: Send, status: int, url: nat) {
    (s.stage.Answered? || s.stage.Done?) && s.stage.reply.Replied? &&
    s.stage.reply.status == status && s.stage.reply.url == url
  }

  /** The caller is never told a status that no transfer of the send ended well with. */
  lemma {:induction false} ToldWhatCurlSaid(r: Request, es: seq<Event>, status: int, url: nat)
    requires Told(Run(r, es), status, url)
    ensures exists n :: 0 <= n < |es| && Reports(r, es, n, status, url)
  {
    var m := |es| - 1;
    var before, e := es[..m], es[m];
    assert es == before + [e];
    if e.Finishes? && Run(r, before).stage.Active? {
      FinishDecides(r, before, e);
      assert Reports(r, es, m, status, url);
    } else {
      ReplyStands(r, Run(r, before), e, status, url);
      ToldWhatCurlSaid(r, before, status, url);
      var n :| 0 <= n < |before| && Reports(r, before, n, status, url);
      assert before[..n] == es[..n] && before[n] == es[n];
      assert Reports(r, es, n, status, url);
    }
  }

  lemma ReplyStands(r: Request, s: Send, e: Event, status: int, url: nat)
    requires !(e.Finishes? && s.stage.Active?) && Told(Apply(r, s, e), status, url)
    ensures Told(s, status, url)
  {
  }

  /** What a chunk of the body does: under a success status it goes to the sink, where there is one,
      and a refusal is remembered; under any other status the sink does not see it. Without a sink
      only running over the limit is remembered. */
  lemma WriteDecides(r: Request, es: seq<Event>, e: Event)
    requires Run(r, es).stage.Active? && e.Writes?
    ensures var s, s' := Run(r, es), Run(r, es + [e]);
      var a, success := s.stage, 200 <= s.stage.status <= 299;
      && s'.stage.Active? && s'.stage.sink == a.sink && s'.stage.status == a.status
      && s'.sink.bytes == s.sink.bytes + (if a.sink && success then e.size else 0)
      && (s'.stage.sinkError <==> if a.sink && success && !e.accepted then e.message else a.sinkError)
      && (s'.stage.overLimit <==> a.overLimit || (!a.sink && e.tooLarge))
  {
    RunOwned(r, es);
    RunThen(r, es, e);
  }

  /** What becomes of a hop on its way: a cancelled send, an invalid URL and a stopped pool are answered
      at once, a stopped lane fails the hop, and otherwise it is queued with the sink. */
  lemma DispatchDecides(r: Request, es: seq<Event>, e: Event)
    requires Run(r, es).stage.AtPool? && e.Dispatches?
    ensures var s, s' := Run(r, es), Run(r, es + [e]);
      && (s.cancelled || !e.validUrl || !e.laneFound ==> s'.stage == Done(Failed) && s'.callbacks == 1)
      && (!s.cancelled && e.validUrl && e.laneFound ==>
            s'.stage == (if e.laneStopped then Answered(Failed) else Queued(r.hasSink)))
      && s'.sink.aborts == One(r.hasSink && !s'.stage.Queued?) && s'.sink.bytes == s.sink.bytes
  {
    RunOwned(r, es);
    RunThen(r, es, e);
  }

  /** What becomes of an answered hop. A failure is delivered. A 429 asks again with the same sink. A
      followed redirect goes to the next URL. Anything else is delivered, with the sink aborted if
      it came back. */
  lemma CompleteDecides(r: Request, es: seq<Event>, e: Event)
    requires Run(r, es).stage.Answered? && e.Completes?
    ensures var s, s' := Run(r, es), Run(r, es + [e]);
      var reply := s.stage.reply;
      if reply.Failed? then s'.stage == Done(Failed) && s'.callbacks == 1 && s'.sink == s.sink
      else
        var again := reply.status == 429;
        var onward := !again && (301 <= reply.status <= 303 || 307 <= reply.status <= 308) && r.follow && e.location &&
          |s.hops| < r.maxRedirects && e.next.Some?;
        && (again || onward ==>
              s'.stage.AtPool? && s'.held == reply.sink && s'.sink == s.sink && s'.callbacks == 0)
        && (again ==> s'.url == s.url && s'.hops == s.hops && s'.verb == s.verb && s'.body == s.body)
        && (onward ==> s'.url == e.next.value && s'.hops == s.hops + [Hop(reply.url, reply.status)])
        && (!again && !onward ==>
              s'.stage == Done(reply) && s'.callbacks == 1 && s'.hops == s.hops &&
              s'.sink == if reply.sink then Abort(s.sink) else s.sink)
  {
    RunOwned(r, es);
    RedirectTrail(r, es);
    RunThen(r, es, e);
  }

  /** From every state in which the pool is about to send, a hop that is not cancelled and that the
      server answers with success ends the send: the caller is called once and told so, and the
      sink, if there is one, holds the body and is finished. */
  lemma DownloadSucceeds(r: Request, es: seq<Event>, status: int, size: nat, url: nat, next: Option<nat>)
    requires var s := Run(r, es); s.stage.AtPool? && !s.cancelled && 200 <= status <= 299
    ensures var s := Run(r, es);
      var t := WholeHop(r, s, status, size, url, false, next);
      && t.stage == Done(Replied(status, url, false)) && t.callbacks == 1
      && t.sink.finishes == One(r.hasSink) && t.sink.aborts == 0
      && t.sink.bytes == s.sink.bytes + if r.hasSink then size else 0
  {
    var s := Run(r, es);
    RunOwned(r, es);
    var posted := Apply(r, Apply(r, s, Dispatches(true, true, false)), Picked);
    assert posted == s.(held := false, stage := Posted(s.held));
    var active := Apply(r, Apply(r, posted, Starts(true)), StatusLine(status));
    assert active == s.(held := false, stage := Active(s.held, status, false, false));
    HopEnds(r, active, s.held, status, size, url, next);
  }

  lemma HopEnds(r: Request, s: Send, holds: bool, status: int, size: nat, url: nat, next: Option<nat>)
    requires s.stage == Active(holds, status, false, false) && !s.held && 200 <= status <= 299
    requires !Settled(s.sink) && s.callbacks == 0
    ensures var written := Apply(r, s, Writes(size, true, false, false));
      var t := Apply(r, Apply(r, written, Finishes(true, status, url, false, true)), Completes(false, next));
      && t.stage == Done(Replied(status, url, false)) && t.callbacks == 1
      && t.sink.finishes == One(holds) && t.sink.aborts == 0
      && t.sink.bytes == s.sink.bytes + if holds then size else 0
  {
    var written := Apply(r, s, Writes(size, true, false, false));
    assert written.stage == s.stage;
  }

  /** Cancelling is for good: a send cancelled while no transfer of it runs never runs one again. */
  lemma {:induction false} CancelStops(r: Request, es: seq<Event>, more: seq<Event>)
    requires !Run(r, es).stage.Active?
    ensures Idle(Run(r, es + [Cancels] + more))
  {
    RunThen(r, es, Cancels);
    assert (es + [Cancels] + more)[..|es| + 1] == es + [Cancels];
    CancelledStartsNothing(r, es + [Cancels] + more, |es| + 1);
  }

  /** A hop that is dropped on its way, or interrupted in its transfer, fails and aborts its sink. */
  lemma DroppedIsFailed(r: Request, es: seq<Event>, e: Event)
    requires var s := Run(r, es);
      || (e.Dequeued? && s.stage.Queued?) || (e.Interrupted? && s.stage.Active?)
      || (e.Starts? && s.stage.Posted? && (s.cancelled || !e.curlReady))
    ensures var s' := Run(r, es + [e]);
      s'.stage == Answered(Failed) && s'.sink.aborts == One(r.hasSink) && s'.sink.finishes == 0
  {
    RunOwned(r, es);
    RunThen(r, es, e);
  }

  // ---------------------------------------------------------------- redirects

  /** The verb after following redirects with these statuses, as RFC 9110 section 15.4 lets a
      client do: 301, 302 and 303 turn everything but HEAD into GET, 307 and 308 keep it. */
  function VerbAfter(verb: Verb, hops: seq<Hop>): Verb {
    if verb != Head && (exists i :: 0 <= i < |hops| && 301 <= hops[i].status <= 303) then Get else verb
  }

  predicate Path(r: Request, verb: Verb, body: bool, hops: seq<Hop>) {
    && |hops| <= r.maxRedirects
    && (hops != [] ==> r.follow)
    && (forall i :: 0 <= i < |hops| ==> 301 <= hops[i].status <= 303 || 307 <= hops[i].status <= 308)
    && verb == VerbAfter(r.verb, hops)
    && (body <==> r.body && forall i :: 0 <= i < |hops| ==> hops[i].status >= 307)
  }

  lemma PathGrows(r: Request, verb: Verb, body: bool, hops: seq<Hop>, h: Hop)
    requires Path(r, verb, body, hops) && |hops| < r.maxRedirects && r.follow && IsRedirect(h.status)
    ensures Path(r, Rewritten(verb, h.status), body && !Rewrites(h.status), hops + [h])
  {
    var longer := hops + [h];
    assert longer[|hops|] == h && forall i :: 0 <= i < |hops| ==> longer[i] == hops[i];
  }

  predicate Trail(r: Request, s: Send) {
    |s.hops| == s.redirects && Path(r, s.verb, s.body, s.hops)
  }

  predicate SameTrail(s: Send, t: Send) {
    s.hops == t.hops && s.redirects == t.redirects && s.verb == t.verb && s.body == t.body
  }

  lemma OnlyRedirectsChangeTrail(r: Request, s: Send, e: Event)
    requires e.Completes? && s.stage.Answered? && s.stage.reply.Replied? ==>
               s.stage.reply.status == 429 || !Follows(r, s, s.stage.reply.status, e.location) || e.next.None?
    ensures SameTrail(s, Apply(r, s, e))
  {
  }

  lemma TrailStep(r: Request, s: Send, e: Event)
    requires Trail(r, s)
    ensures Trail(r, Apply(r, s, e))
  {
    if e.Completes? && s.stage.Answered? && s.stage.reply.Replied? && s.stage.reply.status != 429 &&
       Follows(r, s, s.stage.reply.status, e.location) && e.next.Some?
    {
      var reply := s.stage.reply;
      PathGrows(r, s.verb, s.body, s.hops, Hop(reply.url, reply.status));
      var s' := Complete(r, s, e.location, e.next);
      assert Trail(r, s');
    } else {
      OnlyRedirectsChangeTrail(r, s, e);
    }
  }

  /** Recorded hops are the redirects followed, never more than allowed, and they alone decide
      the verb and whether the body is still sent. */
  lemma {:induction false} RedirectTrail(r: Request, es: seq<Event>)
    ensures Trail(r, Run(r, es))
  {
    if es != [] {
      RedirectTrail(r, es[..|es| - 1]);
      TrailStep(r, Run(r, es[..|es| - 1]), es[|es| - 1]);
    }
  }

  /** One hop from dispatch to its answer, when curl reads this status and then this much body. */
  function WholeHop(r: Request, s: Send, status: int, size: nat, url: nat, location: bool, next: Option<nat>): Send {
    var posted := Apply(r, Apply(r, s, Dispatches(true, true, false)), Picked);
    var active := Apply(r, Apply(r, posted, Starts(true)), StatusLine(status));
    var answered :=
      Apply(r, Apply(r, active, Writes(size, true, false, false)), Finishes(true, status, url, false, true));
    Apply(r, answered, Completes(location, next))
  }

  /** A hop the server did not answer with success comes back with the sink as it was. */
  lemma HopReturns(r: Request, s: Send, status: int, size: nat, url: nat, location: bool, next: Option<nat>)
    requires s.stage.AtPool? && !s.cancelled && !Successful(status)
    ensures WholeHop(r, s, status, size, url, location, next) ==
            Complete(r, s.(held := false, stage := Answered(Replied(status, url, s.held))), location, next)
  {
    var posted := Apply(r, Apply(r, s, Dispatches(true, true, false)), Picked);
    assert posted == s.(held := false, stage := Posted(s.held));
    var active := Apply(r, Apply(r, posted, Starts(true)), StatusLine(status));
    assert active == s.(held := false, stage := Active(s.held, status, false, false));
    assert Apply(r, active, Writes(size, true, false, false)) == active;
  }

  /** Being told 429 changes nothing about the send: it is back where it was before the hop,
      sink, trail and all, whatever the error page said. */
  lemma RetryStartsOver(r: Request, s: Send, size: nat, url: nat, location: bool, next: Option<nat>)
    requires s.stage.AtPool? && !s.cancelled
    ensures WholeHop(r, s, 429, size, url, location, next) == s
  {
    HopReturns(r, s, 429, size, url, location, next);
  }

  /** Following a redirect keeps the sink, records where the answer came from and asks the new
      URL next. */
  lemma RedirectMovesOn(r: Request, s: Send, status: int, size: nat, url: nat, next: nat)
    requires s.stage.AtPool? && !s.cancelled
    requires r.follow && IsRedirect(status) && s.redirects < r.maxRedirects
    ensures var t := WholeHop(r, s, status, size, url, true, Some(next));
      && t.stage.AtPool? && t.held == s.held && t.sink == s.sink && t.url == next
      && t.hops == s.hops + [Hop(url, status)] && t.callbacks == s.callbacks
      && (t.verb == s.verb || (t.verb == Get && Rewrites(status) && s.verb != Head))
  {
    HopReturns(r, s, status, size, url, true, Some(next));
  }

  predicate Idle(s: Send) {
    s.cancelled && !s.stage.Active?
  }

  lemma IdleStep(r: Request, s: Send, e: Event)
    requires Idle(s)
    ensures Idle(Apply(r, s, e))
  {
  }

  /** A send that is cancelled while no transfer of it runs never starts another one, neither
      from the queue nor for a redirect or a retry. */
  lemma {:induction false} CancelledStartsNothing(r: Request, es: seq<Event>, n: nat)
    requires n <= |es| && Idle(Run(r, es[..n]))
    ensures Idle(Run(r, es))
  {
    if n == |es| {
      assert es[..n] == es;
    } else {
      var m := |es| - 1;
      assert es[..m][..n] == es[..n];
      CancelledStartsNothing(r, es[..m], n);
      IdleStep(r, Run(r, es[..m]), es[m]);
    }
  }

  // ---------------------------------------------------------------- untouched until the last hop

  /** curl's part: the status line of a transfer comes before its body, and the status asked
      for at the end is the one that was read. */
  predicate Plausible(s: Send, e: Event) {
    match e
    case StatusLine(_) => s.sink.bytes == 0
    case Finishes(_, status, _, _, _) => s.stage.Active? ==> s.stage.status == status
    case _ => true
  }

  predicate PlausibleRun(r: Request, es: seq<Event>) {
    forall i :: 0 <= i < |es| ==> Plausible(Run(r, es[..i]), es[i])
  }

  predicate Untouched(r: Request, s: Send) {
    Owners(s) == 1 && s.sink.bytes > 0 ==> s.stage.Active? && !Preserving(r, s.stage.status)
  }

  lemma UntouchedStep(r: Request, s: Send, e: Event)
    requires Owned(r, s) && Untouched(r, s) && Plausible(s, e)
    ensures Untouched(r, Apply(r, s, e))
  {
  }

  /** Only a successful final hop delivers bytes: whenever the sink is anywhere but in such a
      transfer and still open, nothing has been written to it. */
  lemma {:induction false} SinkIsUntouched(r: Request, es: seq<Event>)
    requires PlausibleRun(r, es)
    ensures Untouched(r, Run(r, es))
  {
    if es != [] {
      var n := |es| - 1;
      assert forall i :: 0 <= i < n ==> es[..n][..i] == es[..i] && es[..n][i] == es[i];
      SinkIsUntouched(r, es[..n]);
      RunOwned(r, es[..n]);
      assert Plausible(Run(r, es[..n]), es[n]);
      UntouchedStep(r, Run(r, es[..n]), es[n]);
    }
  }

  // ---------------------------------------------------------------- the exchange object

  /** The exchange with the hop request it has out. */
  class Exchange {
    const request: Request
    var stage: Stage
    var held: bool
    var sink: Sink
    var cancelled: bool
    var callbacks: nat
    var verb: Verb
    var body: bool
    var url: nat
    var hops: seq<Hop>
    var redirects: nat

    ghost function Value(): Send
      reads this
    {
      Send(stage, held, sink, cancelled, callbacks, verb, body, url, hops, redirects)
    }

    constructor (request: Request)
      ensures this.request == request && Value() == Start(request)
    {
      this.request := request;
      stage, held, sink := AtPool, request.hasSink, Sink(0, 0, 0, false);
      cancelled, callbacks := false, 0;
      verb, body, url := request.verb, request.body, request.url;
      hops, redirects := [], 0;
    }

    method CallBack(reply: Reply)
      modifies this
      ensures Value() == Deliver(old(Value()), reply)
    {
      stage, held := Done(reply), false;
      callbacks := callbacks + 1;
    }

    method DispatchHop(validUrl: bool, laneFound: bool, laneStopped: bool)
      modifies this
      ensures Value() == Dispatch(old(Value()), validUrl, laneFound, laneStopped)
    {
      if cancelled || !validUrl || !laneFound {
        if held {
          sink := Abort(sink);
        }
        CallBack(Failed);
        return;
      }
      var moved := held;
      held := false;
      if laneStopped {
        if moved {
          sink := Abort(sink);
        }
        stage := Answered(Failed);
        return;
      }
      stage := Queued(moved);
    }

    method WriteChunk(size: nat, accepted: bool, message: bool, tooLarge: bool)
      requires stage.Active?
      modifies this
      ensures Value() == WriteBytes(request, old(Value()), size, accepted, message, tooLarge)
    {
      if stage.sink && Preserving(request, stage.status) {
        return;
      }
      if stage.sink {
        sink := Write(sink, size);
        if !accepted {
          stage := stage.(sinkError := message);
        }
        return;
      }
      if tooLarge {
        stage := stage.(overLimit := true);
      }
    }

    method FinishTransfer(curlOk: bool, status: int, finalUrl: nat, notAFile: bool, imported: bool)
      requires stage.Active?
      modifies this
      ensures Value() == FinishHop(request, old(Value()), curlOk, status, finalUrl, notAFile, imported)
    {
      var result := Failed;
      if stage.sinkError {
        if stage.sink {
          sink := Abort(sink);
        }
      } else if stage.overLimit {
      } else if !curlOk {
        if stage.sink {
          sink := Abort(sink);
        }
      } else if stage.sink && Preserving(request, status) {
        result := Replied(status, finalUrl, true);
      } else if stage.sink && notAFile {
        sink := Abort(sink);
      } else if stage.sink {
        sink := Finish(sink, imported);
        if imported {
          result := Replied(status, finalUrl, false);
        } else {
          sink := Abort(sink);
        }
      } else {
        result := Replied(status, finalUrl, false);
      }
      stage := Answered(result);
    }

    method CompleteHop(location: bool, next: Option<nat>)
      requires stage.Answered?
      modifies this
      ensures Value() == Complete(request, old(Value()), location, next)
    {
      var reply := stage.reply;
      if reply.Failed? {
        CallBack(reply);
        return;
      }
      held := reply.sink;
      if reply.status == 429 {
        stage := AtPool;
        return;
      }
      var follow := request.follow && IsRedirect(reply.status) && location && redirects < request.maxRedirects;
      if !follow || next.None? {
        if held {
          sink := Abort(sink);
        }
        CallBack(reply);
        return;
      }
      FollowRedirect(reply, next.value);
    }

    method FollowRedirect(reply: Reply, next: nat)
      requires reply.Replied?
      modifies this
      ensures Value() == Redirected(old(Value()), reply, next)
    {
      hops := hops + [Hop(reply.url, reply.status)];
      redirects := redirects + 1;
      if reply.status == 301 || reply.status == 302 || reply.status == 303 {
        if verb != Head {
          verb := Get;
        }
        body := false;
      }
      url := next;
      stage := AtPool;
    }
  }
}
