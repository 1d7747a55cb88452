/** The request pacing of one download lane: a fixed cadence, exponential backoff after
    failures, and pauses a host asks for. Times and durations are integers in
    nanoseconds on the steady clock; each operation is one region under the policy's mutex. */
module LanePolicy {
  import opened Common

  const SECOND := 1_000_000_000
  const MAX_TIME := 0x7fff_ffff_ffff_ffff
  const MAX_FAILURES := 0xffff_ffff

  datatype Rate = Rate(requests: nat, seconds: nat)

  datatype Settings = Settings(rate: Option<Rate>, errorBackoff: nat)

  datatype Policy = Policy(
    base: nat,
    interval: nat,
    maximum: nat,
    errorBackoff: nat,
    nextRequest: int,
    backoffUntil: int,
    failures: nat,
    generation: nat)

  function Min(a: int, b: int): int {
    if b < a then b else a
  }

  function Max(a: int, b: int): int {
    if a < b then b else a
  }

  /** None when the rate has a zero in it, which the source rejects. */
  function IntervalFor(rate: Rate): Option<nat> {
    if rate.requests == 0 || rate.seconds == 0 then None
    else Some(Max(rate.seconds * SECOND / rate.requests, 1))
  }

  function BaseOf(settings: Settings): Option<nat> {
    if settings.rate.None? then Some(0) else IntervalFor(settings.rate.value)
  }

  // ---------------------------------------------------------------- operations

  predicate Granted(p: Policy, now: int) {
    p.nextRequest <= now
  }

  function Claim(p: Policy, now: int): Policy {
    if !Granted(p, now) then p
    else
      var following := p.nextRequest + p.interval;
      p.(nextRequest := if following > now then following else now + p.interval)
  }

  function Widen(p: Policy): Policy {
    var widened := if p.interval == 0 then SECOND else p.interval * 2;
    p.(interval := Min(p.maximum, Max(p.base, widened)),
       failures := if p.failures == MAX_FAILURES then p.failures else p.failures + 1)
  }

  predicate Opens(p: Policy, now: int) {
    p.backoffUntil <= now
  }

  function Pause(p: Policy, cooldown: nat, now: int): Policy {
    var until := Max(p.backoffUntil, now + Min(cooldown, MAX_TIME - now));
    p.(backoffUntil := until, nextRequest := Max(p.nextRequest, until))
  }

  function OpenPause(p: Policy, now: int): (Policy, nat) {
    if Opens(p, now) then
      var w := Widen(p);
      (w, Max(w.interval, w.errorBackoff))
    else (p, 0)
  }

  function Fail(p: Policy, now: int): Policy {
    var (w, cooldown) := OpenPause(p, now);
    Pause(w, cooldown, now)
  }

  /** retry: the seconds a Retry-After header asked for, when it had one that parses. */
  function Limit(p: Policy, retry: Option<nat>, now: int): Policy {
    var (w, cooldown) := OpenPause(p, now);
    Pause(w, if retry.Some? then Max(w.base, Min(retry.value, MAX_TIME / SECOND) * SECOND) else cooldown, now)
  }

  function Reset(p: Policy): Policy {
    p.(interval := p.base, nextRequest := 0, backoffUntil := 0, failures := 0, generation := p.generation + 1)
  }

  function Configure(p: Policy, base: nat, errorBackoff: nat): Policy {
    Policy(base, base, p.maximum, errorBackoff, 0, 0, 0, p.generation + 1)
  }

  // ---------------------------------------------------------------- runs

  datatype Event =
    | Claims(now: int)
    | Fails(now: int)
    | Limits(retry: Option<nat>, now: int)
    | Resets
    | Configures(base: nat, errorBackoff: nat)

  function Apply(p: Policy, e: Event): Policy {
    match e
    case Claims(now) => Claim(p, now)
    case Fails(now) => Fail(p, now)
    case Limits(retry, now) => Limit(p, retry, now)
    case Resets => Reset(p)
    case Configures(base, errorBackoff) => Configure(p, base, errorBackoff)
  }

  function Run(p: Policy, es: seq<Event>): Policy {
    if es == [] then p else Apply(Run(p, es[..|es| - 1]), es[|es| - 1])
  }

  /** The times at which the claims of a run were granted, in order. */
  function Grants(p: Policy, es: seq<Event>): seq<int> {
    if es == [] then []
    else
      var n := |es| - 1;
      Grants(p, es[..n]) +
      (if es[n].Claims? && Granted(Run(p, es[..n]), es[n].now) then [es[n].now] else [])
  }

  /** How many failures and limits of a run found no pause open. */
  function Openings(p: Policy, es: seq<Event>): nat {
    if es == [] then 0
    else
      var n := |es| - 1;
      Openings(p, es[..n]) +
      (if (es[n].Fails? || es[n].Limits?) && Opens(Run(p, es[..n]), es[n].now) then 1 else 0)
  }

  predicate Steady(es: seq<Event>) {
    forall i :: 0 <= i < |es| ==> !es[i].Resets? && !es[i].Configures?
  }

  // ---------------------------------------------------------------- pauses hold

  /** No slot before the end of a pause, and never a shorter interval than configured
      (or than the ceiling, when that is shorter still). */
  predicate Sane(p: Policy) {
    && p.backoffUntil <= p.nextRequest
    && Min(p.base, p.maximum) <= p.interval
  }

  lemma {:induction false} RunSane(p: Policy, es: seq<Event>)
    requires Sane(p)
    ensures Sane(Run(p, es)) && Run(p, es).maximum == p.maximum
  {
    if es != [] {
      RunSane(p, es[..|es| - 1]);
    }
  }

  /** Whatever happened before, a claim is never granted while a pause is open. */
  lemma {:induction false} NoGrantInPause(p: Policy, es: seq<Event>, now: int)
    requires Sane(p)
    requires Granted(Run(p, es), now)
    ensures Run(p, es).backoffUntil <= now
  {
    RunSane(p, es);
  }

  /** A failure or limit inside an open pause widens nothing and never ends it sooner. */
  lemma OpenPauseAbsorbs(p: Policy, e: Event)
    requires e.Fails? || e.Limits?
    requires !Opens(p, e.now)
    ensures Apply(p, e).interval == p.interval && Apply(p, e).failures == p.failures
    ensures Apply(p, e).backoffUntil >= p.backoffUntil
    ensures e.Fails? || e.retry.None? ==> Apply(p, e).backoffUntil == Max(p.backoffUntil, Min(e.now, MAX_TIME))
  {
  }

  /** How long a fresh failure stops the lane, and what a Retry-After puts in its place. */
  lemma FreshPause(p: Policy, retry: Option<nat>, now: int)
    requires Opens(p, now) && now <= MAX_TIME
    ensures Fail(p, now).backoffUntil == Min(MAX_TIME, now + Max(Widen(p).interval, p.errorBackoff))
    ensures retry.Some? && retry.value <= MAX_TIME / SECOND ==>
      Limit(p, retry, now).backoffUntil == Min(MAX_TIME, now + Max(p.base, retry.value * SECOND))
    ensures retry.None? ==> Limit(p, retry, now) == Fail(p, now)
  {
  }

  /** A Retry-After sets the end of the pause by itself, whether or not one is open, and can only put
      it off. */
  lemma HostNamesThePause(p: Policy, retry: nat, now: int)
    requires now <= MAX_TIME && retry <= MAX_TIME / SECOND
    ensures Limit(p, Some(retry), now).backoffUntil ==
      Max(p.backoffUntil, Min(MAX_TIME, now + Max(p.base, retry * SECOND)))
  {
  }

  /** A reset is a configuration with the settings the policy has. From either, every claim at a time
      from the clock's epoch on is granted at once, and the backoff starts from the base interval. */
  lemma FreshStart(p: Policy, base: nat, errorBackoff: nat, now: nat)
    ensures Reset(p) == Configure(p, p.base, p.errorBackoff)
    ensures var q := Configure(p, base, errorBackoff);
      && Sane(q) && q.interval == q.base == base && q.failures == 0 && q.generation != p.generation
      && Grants(q, [Claims(now)]) == [now] && Opens(q, now)
  {
    assert [Claims(now)][..0] == [];
  }

  /** The interval is the exact spacing of the configured rate, rounded down, but never zero. */
  lemma RateInterval(rate: Rate)
    ensures IntervalFor(rate).Some? <==> rate.requests > 0 && rate.seconds > 0
    ensures IntervalFor(rate).Some? ==>
      var i := IntervalFor(rate).value;
      i > 0 && rate.seconds * SECOND < (i + 1) * rate.requests &&
      (i * rate.requests <= rate.seconds * SECOND || i == 1)
  {
    if rate.requests > 0 && rate.seconds > 0 {
      Quotient(rate.seconds * SECOND, rate.requests);
    }
  }

  lemma Quotient(a: nat, b: nat)
    requires b > 0
    ensures (a / b) * b <= a < (a / b + 1) * b && 2 * b == b + b
  {
    assert a == (a / b) * b + a % b;
  }

  // ---------------------------------------------------------------- spacing

  lemma StepUp(n: int, m: int)
    ensures (n + 1) * m == n * m + m
  {
  }

  lemma NotNegative(a: nat, b: nat)
    ensures a * b >= 0
  {
  }

  /** The slot after n grants lies more than the whole cadence behind each of them. */
  ghost predicate Spaced(p: Policy, grants: seq<int>, m: nat) {
    && (forall i :: 0 <= i < |grants| ==> p.nextRequest - grants[i] > (|grants| - 1 - i) * m)
    && (forall i, j :: 0 <= i < j < |grants| ==> grants[j] - grants[i] > (j - i - 1) * m)
  }

  lemma GrantSpaced(p: Policy, grants: seq<int>, m: nat, now: int)
    requires Spaced(p, grants, m) && m <= p.interval && 0 < p.interval
    requires Granted(p, now)
    ensures Spaced(Claim(p, now), grants + [now], m)
  {
    var p', g' := Claim(p, now), grants + [now];
    assert p'.nextRequest >= p.nextRequest + p.interval && p'.nextRequest > now;
    forall i | 0 <= i < |grants|
      ensures p'.nextRequest - g'[i] > (|g'| - 1 - i) * m
    {
      StepUp(|grants| - 1 - i, m);
    }
  }

  /** Any n + 1 consecutive grants span strictly more than n - 1 intervals: late claims keep
      the cadence and idle time banks no burst. It needs no order among the callers' clocks. */
  lemma {:induction false} RunSpaced(p: Policy, es: seq<Event>)
    requires Sane(p) && Steady(es) && 0 < Min(p.base, p.maximum)
    ensures Run(p, es).base == p.base && Run(p, es).maximum == p.maximum
    ensures Spaced(Run(p, es), Grants(p, es), Min(p.base, p.maximum))
  {
    if es != [] {
      var n := |es| - 1;
      var q := Run(p, es[..n]);
      RunSpaced(p, es[..n]);
      RunSane(p, es[..n]);
      if es[n].Claims? && Granted(q, es[n].now) {
        GrantSpaced(q, Grants(p, es[..n]), Min(p.base, p.maximum), es[n].now);
      } else {
        assert Grants(p, es) == Grants(p, es[..n]);
        assert Run(p, es).nextRequest >= q.nextRequest;
      }
    }
  }

  lemma GrantsAreSpaced(p: Policy, es: seq<Event>, i: nat, j: nat)
    requires Sane(p) && Steady(es) && 0 < Min(p.base, p.maximum)
    requires i < j < |Grants(p, es)|
    ensures Grants(p, es)[i] < Grants(p, es)[j]
    ensures Grants(p, es)[j] - Grants(p, es)[i] > (j - i - 1) * Min(p.base, p.maximum)
  {
    RunSpaced(p, es);
    NotNegative(j - i - 1, Min(p.base, p.maximum));
  }

  // ---------------------------------------------------------------- cadence

  lemma RunThen(p: Policy, es: seq<Event>, e: Event)
    ensures Run(p, es + [e]) == Apply(Run(p, es), e)
    ensures Grants(p, es + [e]) ==
      Grants(p, es) + if e.Claims? && Granted(Run(p, es), e.now) then [e.now] else []
  {
    assert (es + [e])[..|es|] == es;
  }

  /** A claim is granted exactly when its slot is due. Less than an interval after the slot it leaves
      the next slot one interval after that slot, so that lateness does not add up; later than that
      it starts the cadence afresh, so that no slots are banked. A refused claim changes nothing. */
  lemma ClaimLaw(p: Policy, es: seq<Event>, now: int)
    ensures var q, q' := Run(p, es), Run(p, es + [Claims(now)]);
      && (Grants(p, es + [Claims(now)]) == Grants(p, es) + [now] <==> q.nextRequest <= now)
      && (now < q.nextRequest ==> q' == q && Grants(p, es + [Claims(now)]) == Grants(p, es))
      && (q.nextRequest <= now < q.nextRequest + q.interval ==> q'.nextRequest == q.nextRequest + q.interval)
      && (q.nextRequest + q.interval <= now ==> q'.nextRequest == now + q.interval)
      && q' == q.(nextRequest := q'.nextRequest)
  {
    RunThen(p, es, Claims(now));
  }

  predicate OnlyClaims(es: seq<Event>) {
    forall i :: 0 <= i < |es| ==> es[i].Claims?
  }

  /** No claim of the run comes a whole interval or more after its slot. */
  predicate Prompt(p: Policy, es: seq<Event>) {
    forall i :: 0 <= i < |es| && es[i].Claims? ==>
      es[i].now < Run(p, es[..i]).nextRequest + Run(p, es[..i]).interval
  }

  /** Prompt claims keep the cadence exactly: after any number of them the next slot is as many
      intervals on as claims were granted, however late within their slots they came. */
  lemma {:induction false} CadenceIsKept(p: Policy, es: seq<Event>)
    requires OnlyClaims(es) && Prompt(p, es)
    ensures Run(p, es).nextRequest == p.nextRequest + |Grants(p, es)| * p.interval
    ensures Run(p, es).interval == p.interval
  {
    if es != [] {
      var n := |es| - 1;
      assert forall i :: 0 <= i < n ==> es[..n][..i] == es[..i];
      CadenceIsKept(p, es[..n]);
      assert es[..n] + [es[n]] == es;
      ClaimLaw(p, es[..n], es[n].now);
      StepUp(|Grants(p, es[..n])|, p.interval);
    }
  }

  /** The k-th event of the run is its last granted claim. */
  predicate LastGrant(p: Policy, es: seq<Event>, k: nat)
    requires k < |es|
  {
    && es[k].Claims? && Granted(Run(p, es[..k]), es[k].now)
    && forall i :: k < i < |es| ==> !(es[i].Claims? && Granted(Run(p, es[..i]), es[i].now))
  }

  ghost predicate GrantBounds(p: Policy, es: seq<Event>) {
    exists k: nat :: k < |es| && LastGrant(p, es, k) &&
      Run(p, es).nextRequest <= es[k].now + Run(p, es[..k]).interval
  }

  /** Nothing holds a request up but the lane's own cadence and its pauses: in every run without
      reset or reconfiguration the next slot is where it began, at the end of the pause, or at most
      the interval of the last grant after that grant. */
  lemma {:induction false} SlotIsExplained(p: Policy, es: seq<Event>)
    requires Steady(es)
    ensures Run(p, es).nextRequest == p.nextRequest || Run(p, es).nextRequest == Run(p, es).backoffUntil
      || GrantBounds(p, es)
  {
    if es != [] {
      var n := |es| - 1;
      var q, q' := Run(p, es[..n]), Run(p, es);
      SlotIsExplained(p, es[..n]);
      if es[n].Claims? && Granted(q, es[n].now) {
        assert LastGrant(p, es, n);
      } else {
        assert q'.nextRequest == q.nextRequest || q'.nextRequest == q'.backoffUntil;
        if GrantBounds(p, es[..n]) && q'.nextRequest == q.nextRequest {
          GrantStillBounds(p, es);
        } else if q.nextRequest == q.backoffUntil {
          assert q'.nextRequest == q'.backoffUntil;
        }
      }
    }
  }

  lemma GrantStillBounds(p: Policy, es: seq<Event>)
    requires es != [] && GrantBounds(p, es[..|es| - 1])
    requires var n := |es| - 1; !(es[n].Claims? && Granted(Run(p, es[..n]), es[n].now))
    requires Run(p, es).nextRequest == Run(p, es[..|es| - 1]).nextRequest
    ensures GrantBounds(p, es)
  {
    var n := |es| - 1;
    var k: nat :| k < n && LastGrant(p, es[..n], k) &&
      Run(p, es[..n]).nextRequest <= es[..n][k].now + Run(p, es[..n][..k]).interval;
    assert es[..n][..k] == es[..k];
    StillLast(p, es, k);
  }

  lemma StillLast(p: Policy, es: seq<Event>, k: nat)
    requires es != [] && k < |es| - 1 && LastGrant(p, es[..|es| - 1], k)
    requires var n := |es| - 1; !(es[n].Claims? && Granted(Run(p, es[..n]), es[n].now))
    ensures LastGrant(p, es, k)
  {
    var n := |es| - 1;
    forall i | k <= i < n
      ensures es[..n][..i] == es[..i] && es[..n][i] == es[i]
    {
    }
    assert es[..n][..k] == es[..k];
    forall i | k < i < |es|
      ensures !(es[i].Claims? && Granted(Run(p, es[..i]), es[i].now))
    {
      assert i < n ==> es[..n][..i] == es[..i] && es[..n][i] == es[i];
    }
  }

  // ---------------------------------------------------------------- backoff

  function Pow2(n: nat): (r: nat)
    ensures r > 0
  {
    if n == 0 then 1 else 2 * Pow2(n - 1)
  }

  /** The interval after k pauses, from the configured one: doubling from it, or from one
      second on an unthrottled lane, up to the ceiling. */
  function Backoff(base: nat, maximum: nat, k: nat): nat {
    if k == 0 then base
    else if base == 0 then Min(maximum, SECOND * Pow2(k - 1))
    else Min(maximum, base * Pow2(k))
  }

  lemma Doubles(a: nat, k: nat)
    ensures a * Pow2(k + 1) == 2 * (a * Pow2(k))
    ensures a * Pow2(k) >= a
  {
    assert Pow2(k + 1) == 2 * Pow2(k);
    assert a * Pow2(k) == a + a * (Pow2(k) - 1);
  }

  lemma WidenStep(p: Policy, k: nat)
    requires 0 < p.maximum && p.interval == Backoff(p.base, p.maximum, k)
    ensures Widen(p).interval == Backoff(p.base, p.maximum, k + 1)
  {
    if p.base == 0 {
      if k > 0 {
        Doubles(SECOND, k - 1);
      }
    } else {
      Doubles(p.base, k);
    }
  }

  /** In every run without reset or reconfiguration the interval and the failure count
      depend only on how many failures found no pause open. */
  lemma {:induction false} BackoffLaw(p: Policy, es: seq<Event>)
    requires 0 < p.maximum && Steady(es)
    requires p.interval == p.base && p.failures == 0
    ensures Run(p, es).interval == Backoff(p.base, p.maximum, Openings(p, es))
    ensures Run(p, es).failures == Min(MAX_FAILURES, Openings(p, es))
    ensures Run(p, es).base == p.base && Run(p, es).maximum == p.maximum
  {
    if es != [] {
      var n := |es| - 1;
      BackoffLaw(p, es[..n]);
      WidenStep(Run(p, es[..n]), Openings(p, es[..n]));
    }
  }

  // ---------------------------------------------------------------- the policy object

  class SharedPolicy {
    var base: nat
    var interval: nat
    const maximum: nat
    var errorBackoff: nat
    var nextRequest: int
    var backoffUntil: int
    var failures: nat
    var generation: nat

    ghost function Value(): Policy
      reads this
    {
      Policy(base, interval, maximum, errorBackoff, nextRequest, backoffUntil, failures, generation)
    }

    /** A ceiling of zero is rejected by the source, as is a rate with a zero in it. */
    constructor (maximum: nat, base: nat, errorBackoff: nat)
      requires 0 < maximum
      ensures Value() == Configure(Policy(0, 0, maximum, 0, 0, 0, 0, 0), base, errorBackoff)
      ensures Sane(Value())
    {
      this.maximum := maximum;
      this.base, interval, this.errorBackoff := base, base, errorBackoff;
      nextRequest, backoffUntil, failures, generation := 0, 0, 0, 1;
    }

    method ConfigureSettings(settings: Settings) returns (accepted: bool)
      modifies this
      ensures accepted == BaseOf(settings).Some?
      ensures Value() ==
              if accepted then Configure(old(Value()), BaseOf(settings).value, settings.errorBackoff) else old(Value())
    {
      var wanted := 0;
      accepted := true;
      if settings.rate.Some? {
        var found := IntervalFor(settings.rate.value);
        if found.None? {
          return false;
        }
        wanted := found.value;
      }
      base, interval, errorBackoff := wanted, wanted, settings.errorBackoff;
      nextRequest, backoffUntil, failures := 0, 0, 0;
      generation := generation + 1;
    }

    /** None when the slot was claimed, otherwise how long to wait for it. */
    method TryClaim(now: int) returns (wait: Option<int>)
      modifies this
      ensures Value() == Claim(old(Value()), now)
      ensures wait.None? <==> old(nextRequest) <= now
      ensures wait.None? ==>
        nextRequest == if now < old(nextRequest) + interval then old(nextRequest) + interval else now + interval
      ensures wait.Some? ==> wait.value == old(nextRequest) - now
    {
      if nextRequest > now {
        return Some(nextRequest - now);
      }
      var following := nextRequest + interval;
      nextRequest := if following > now then following else now + interval;
      return None;
    }

    method WidenInterval()
      modifies this
      ensures Value() == Widen(old(Value()))
    {
      var widened := if interval == 0 then SECOND else interval * 2;
      interval := Min(maximum, Max(base, widened));
      if failures != MAX_FAILURES {
        failures := failures + 1;
      }
    }

    method OpenFreshPause(now: int) returns (cooldown: nat)
      modifies this
      ensures (Value(), cooldown) == OpenPause(old(Value()), now)
    {
      if now < backoffUntil {
        return 0;
      }
      WidenInterval();
      cooldown := Max(interval, errorBackoff);
    }

    method ExtendPause(cooldown: nat, now: int)
      modifies this
      ensures Value() == Pause(old(Value()), cooldown, now)
    {
      backoffUntil := Max(backoffUntil, now + Min(cooldown, MAX_TIME - now));
      nextRequest := Max(nextRequest, backoffUntil);
    }

    method Limited(retry: Option<nat>, now: int) returns (remaining: int)
      modifies this
      ensures Value() == Limit(old(Value()), retry, now)
      ensures remaining == backoffUntil - now
    {
      var cooldown := OpenFreshPause(now);
      if retry.Some? {
        var bounded := Min(retry.value, MAX_TIME / SECOND);
        cooldown := Max(base, bounded * SECOND);
      }
      ExtendPause(cooldown, now);
      remaining := backoffUntil - now;
    }

    method Failed(now: int)
      modifies this
      ensures Value() == Fail(old(Value()), now)
    {
      var cooldown := OpenFreshPause(now);
      ExtendPause(cooldown, now);
    }

    method ResetBackoff()
      modifies this
      ensures Value() == Reset(old(Value()))
    {
      interval := base;
      nextRequest, backoffUntil, failures := 0, 0, 0;
      generation := generation + 1;
    }
  }
}
