/** gateway/gateway.py: a budget behind a semaphore, with retries, shared by any number of
    concurrent callers. */
module GatewayProtocol {
  import opened Wrappers
  import opened Behaviours

  datatype Limits = Limits(budget: nat, maxRetries: nat, maxConcurrency: nat)

  /** Where a call is suspended: on the semaphore (with or without its permit yet), in the
      provider, in the back-off sleep; or how it ended. */
  datatype Phase =
    | Queued
    | Granted
    | Calling
    | BackingOff
    | Answered
    | Refused
    | GaveUp
    | Raised
    | CancelledCall

  /** `attempts` counts its provider calls, `failures` those that failed or timed out. */
  datatype Caller = Caller(phase: Phase, attempts: nat, failures: nat)

  datatype Gateway = Gateway(limits: Limits, used: nat, permits: nat, providerCalls: nat, callers: seq<Caller>)

  datatype Action =
    | Arrive
    | Grant(i: nat)
    | Admit(i: nat)
    | Respond(i: nat)
    | Fail(i: nat)
    | Crash(i: nat)
    | Retry(i: nat)
    | Cancel(i: nat)

  predicate HoldsPermit(p: Phase) { p.Granted? || p.Calling? || p.BackingOff? }

  predicate Over(p: Phase) { p.Answered? || p.Refused? || p.GaveUp? || p.Raised? || p.CancelledCall? }

  /** The caller's new state, returning its permit if the call is over. */
  function Set(g: Gateway, i: nat, c: Caller): Gateway
    requires i < |g.callers|
  {
    var back := if HoldsPermit(g.callers[i].phase) && Over(c.phase) && g.permits > 0 then 1 else 0;
    g.(callers := g.callers[i := c], permits := g.permits - back)
  }

  /** The budget check and the first provider call, with no suspension in between. */
  function AdmitStretch(g: Gateway, i: nat): Gateway
    requires i < |g.callers|
  {
    if g.used >= g.limits.budget then Set(g, i, g.callers[i].(phase := Refused))
    else Set(g, i, g.callers[i].(phase := Calling, attempts := g.callers[i].attempts + 1))
           .(used := g.used + 1, providerCalls := g.providerCalls + 1)
  }

  /** A provider error or timeout: give up after the last attempt, else back off. */
  function FailStretch(g: Gateway, i: nat): Gateway
    requires i < |g.callers|
  {
    var c := g.callers[i];
    var failed := c.(failures := c.failures + 1);
    Set(g, i, if c.attempts == g.limits.maxRetries + 1 then failed.(phase := GaveUp) else failed.(phase := BackingOff))
  }

  predicate At(g: Gateway, i: nat, p: Phase) { i < |g.callers| && g.callers[i].phase == p }

  function Step(g: Gateway, a: Action): Option<Gateway> {
    match a
    case Arrive => Some(g.(callers := g.callers + [Caller(Queued, 0, 0)]))
    case Grant(i) =>
      if At(g, i, Queued) && g.permits < g.limits.maxConcurrency
      then Some(g.(permits := g.permits + 1, callers := g.callers[i := g.callers[i].(phase := Granted)])) else None
    case Admit(i) => if At(g, i, Granted) then Some(AdmitStretch(g, i)) else None
    case Respond(i) => if At(g, i, Calling) then Some(Set(g, i, g.callers[i].(phase := Answered))) else None
    case Fail(i) => if At(g, i, Calling) then Some(FailStretch(g, i)) else None
    case Crash(i) => if At(g, i, Calling) then Some(Set(g, i, g.callers[i].(phase := Raised))) else None
    case Retry(i) =>
      if At(g, i, BackingOff)
      then Some(Set(g, i, g.callers[i].(phase := Calling, attempts := g.callers[i].attempts + 1))
                  .(providerCalls := g.providerCalls + 1))
      else None
    case Cancel(i) =>
      if i < |g.callers| && !Over(g.callers[i].phase)
      then Some(Set(g, i, g.callers[i].(phase := CancelledCall))) else None
  }

  ghost predicate Init(g: Gateway) { g == Gateway(g.limits, 0, 0, 0, []) }

  ghost predicate Next(g: Gateway, h: Gateway) { exists a :: Step(g, a) == Some(h) }

  ghost predicate InRun(g: Gateway) { Reachable((x: Gateway) => Init(x), (x: Gateway, y: Gateway) => Next(x, y), g) }

  // --- sums over the callers --------------------------------------------------------------------

  function Total(f: Caller -> nat, cs: seq<Caller>): nat {
    if |cs| == 0 then 0 else Total(f, cs[..|cs| - 1]) + f(cs[|cs| - 1])
  }

  lemma {:induction false} TotalSet(f: Caller -> nat, cs: seq<Caller>, i: nat, c: Caller)
    requires i < |cs|
    ensures Total(f, cs[i := c]) + f(cs[i]) == Total(f, cs) + f(c)
  {
    var n := |cs| - 1;
    if i == n {
      assert cs[i := c][..n] == cs[..n];
    } else {
      TotalSet(f, cs[..n], i, c);
      assert cs[i := c][..n] == cs[..n][i := c];
    }
  }

  lemma TotalAppend(f: Caller -> nat, cs: seq<Caller>, c: Caller)
    ensures Total(f, cs + [c]) == Total(f, cs) + f(c)
  {
    assert (cs + [c])[..|cs|] == cs;
  }

  lemma {:induction false} TotalAtMost(f: Caller -> nat, h: Caller -> nat, cs: seq<Caller>, k: nat)
    requires forall i | 0 <= i < |cs| :: f(cs[i]) <= h(cs[i]) * k
    ensures Total(f, cs) <= Total(h, cs) * k
  {
    if |cs| > 0 {
      var n := |cs| - 1;
      TotalAtMost(f, h, cs[..n], k);
      assert (Total(h, cs[..n]) + h(cs[n])) * k == Total(h, cs[..n]) * k + h(cs[n]) * k;
    }
  }

  lemma {:induction false} TotalLow(f: Caller -> nat, h: Caller -> nat, cs: seq<Caller>)
    requires forall i | 0 <= i < |cs| :: f(cs[i]) <= h(cs[i])
    ensures Total(f, cs) <= Total(h, cs)
  {
    if |cs| > 0 { TotalLow(f, h, cs[..|cs| - 1]); }
  }

  const PERMIT: Caller -> nat := (c: Caller) => if HoldsPermit(c.phase) then 1 else 0
  const IN_FLIGHT: Caller -> nat := (c: Caller) => if c.phase.Calling? then 1 else 0
  const ADMITTED: Caller -> nat := (c: Caller) => if c.attempts > 0 then 1 else 0
  const ATTEMPTS: Caller -> nat := (c: Caller) => c.attempts

  /** One call's own bookkeeping. */
  ghost predicate Consistent(c: Caller, k: nat) {
    && c.attempts <= k + 1 && c.failures <= c.attempts
    && match c.phase
       case Queued => c.attempts == 0
       case Granted => c.attempts == 0
       case Calling => c.attempts == c.failures + 1
       case BackingOff => c.attempts == c.failures && 0 < c.attempts <= k
       case Answered => c.attempts == c.failures + 1
       case Refused => c.attempts == 0
       case GaveUp => c.attempts == c.failures == k + 1
       case _ => true
  }

  ghost predicate Inv(g: Gateway) {
    && g.permits == Total(PERMIT, g.callers) <= g.limits.maxConcurrency
    && g.used == Total(ADMITTED, g.callers) <= g.limits.budget
    && g.providerCalls == Total(ATTEMPTS, g.callers)
    && (forall i | 0 <= i < |g.callers| :: Consistent(g.callers[i], g.limits.maxRetries))
    && (forall i | 0 <= i < |g.callers| :: g.callers[i].phase.Refused? ==> g.used == g.limits.budget)
  }

  lemma SetTotals(cs: seq<Caller>, i: nat, c: Caller)
    requires i < |cs|
    ensures Total(PERMIT, cs[i := c]) + PERMIT(cs[i]) == Total(PERMIT, cs) + PERMIT(c)
    ensures Total(ADMITTED, cs[i := c]) + ADMITTED(cs[i]) == Total(ADMITTED, cs) + ADMITTED(c)
    ensures Total(ATTEMPTS, cs[i := c]) + ATTEMPTS(cs[i]) == Total(ATTEMPTS, cs) + ATTEMPTS(c)
  {
    TotalSet(PERMIT, cs, i, c);
    TotalSet(ADMITTED, cs, i, c);
    TotalSet(ATTEMPTS, cs, i, c);
  }

  lemma ArriveKeeps(g: Gateway)
    requires Inv(g)
    ensures Inv(Step(g, Arrive).value)
  {
    var c := Caller(Queued, 0, 0);
    TotalAppend(PERMIT, g.callers, c);
    TotalAppend(ADMITTED, g.callers, c);
    TotalAppend(ATTEMPTS, g.callers, c);
  }

  lemma StepKeeps(g: Gateway, a: Action)
    requires Inv(g) && Step(g, a).Some?
    ensures Inv(Step(g, a).value)
  {
    hide Total;
    if a.Arrive? {
      ArriveKeeps(g);
    } else {
      SetTotals(g.callers, a.i, Step(g, a).value.callers[a.i]);
    }
  }

  lemma Always(g: Gateway)
    requires InRun(g)
    ensures Inv(g)
  {
    hide Inv, Init;
    forall x: Gateway, y: Gateway | Inv(x) && Next(x, y) ensures Inv(y) {
      var a :| Step(x, a) == Some(y);
      StepKeeps(x, a);
    }
    forall x: Gateway | Init(x) ensures Inv(x) { InitHolds(x); }
    Invariant((x: Gateway) => Init(x), (x: Gateway, y: Gateway) => Next(x, y), (x: Gateway) => Inv(x), g);
  }

  lemma InitHolds(g: Gateway)
    requires Init(g)
    ensures Inv(g)
  {
  }

  // --- bounds over every interleaving -------------------------------------------------------------

  /** Admissions never exceed the budget, calls in flight never exceed the concurrency limit, and
      provider calls never exceed the attempts the admissions allow. */
  lemma Bounds(g: Gateway)
    requires InRun(g)
    ensures g.used == Total(ADMITTED, g.callers) <= g.limits.budget
    ensures Total(IN_FLIGHT, g.callers) <= g.limits.maxConcurrency
    ensures g.providerCalls == Total(ATTEMPTS, g.callers) <= g.used * (g.limits.maxRetries + 1)
    ensures g.providerCalls <= g.limits.budget * (g.limits.maxRetries + 1)
  {
    hide InRun, Total;
    Always(g);
    TotalLow(IN_FLIGHT, PERMIT, g.callers);
    var k := g.limits.maxRetries + 1;
    forall i | 0 <= i < |g.callers| ensures ATTEMPTS(g.callers[i]) <= ADMITTED(g.callers[i]) * k {
      assert Consistent(g.callers[i], g.limits.maxRetries);
    }
    TotalAtMost(ATTEMPTS, ADMITTED, g.callers, k);
    Scale(g.used, g.limits.budget, k);
  }

  lemma {:induction false} Scale(a: nat, b: nat, k: nat)
    requires a <= b
    ensures a * k <= b * k
    decreases b - a
  {
    if a < b { Scale(a + 1, b, k); assert (a + 1) * k == a * k + k; }
  }

  /** A refusal happens only with the budget exactly used up by admissions; a call that gave up
      made every attempt it was allowed, and all of them failed; an answered one failed at all
      attempts but its last. */
  lemma OutcomesExplained(g: Gateway, i: nat)
    requires InRun(g) && i < |g.callers|
    ensures var c := g.callers[i];
      && (c.phase.Refused? ==> c.attempts == 0 && Total(ADMITTED, g.callers) == g.limits.budget)
      && (c.phase.GaveUp? ==> c.attempts == c.failures == g.limits.maxRetries + 1)
      && (c.phase.Answered? ==> c.attempts == c.failures + 1)
  {
    hide InRun, Total;
    Always(g);
    assert Consistent(g.callers[i], g.limits.maxRetries);
  }

  /** Permits are never lost, cancellation included: once every call is over the semaphore is
      back to its full value, and until then a queued call can get a permit as soon as fewer than
      the limit are held. */
  lemma PermitsReturn(g: Gateway, i: nat)
    requires InRun(g)
    ensures g.permits == Total(PERMIT, g.callers)
    ensures (forall j | 0 <= j < |g.callers| :: Over(g.callers[j].phase)) ==> g.permits == 0
    ensures At(g, i, Queued) ==> (Step(g, Grant(i)).Some? <==> Total(PERMIT, g.callers) < g.limits.maxConcurrency)
  {
    hide InRun, Total;
    Always(g);
    if forall j | 0 <= j < |g.callers| :: Over(g.callers[j].phase) {
      NoneHeld(g.callers);
    }
  }

  lemma {:induction false} NoneHeld(cs: seq<Caller>)
    requires forall j | 0 <= j < |cs| :: Over(cs[j].phase)
    ensures Total(PERMIT, cs) == 0
  {
    if |cs| > 0 { NoneHeld(cs[..|cs| - 1]); }
  }

  // --- one call by itself ---------------------------------------------------------------------------

  /** The attempt among the first n that answers, if any: attempts after it are never made. */
  function FirstAnswer<R>(outcomes: nat -> Option<R>, n: nat): Option<nat> {
    if n == 0 then None else
      var earlier := FirstAnswer(outcomes, n - 1);
      if earlier.Some? then earlier else if outcomes(n - 1).Some? then Some(n - 1) else None
  }

  lemma {:induction false} FirstAnswerMeans<R>(outcomes: nat -> Option<R>, n: nat)
    ensures var f := FirstAnswer(outcomes, n);
      && (f.None? <==> forall k: nat | k < n :: outcomes(k).None?)
      && (f.Some? ==> f.value < n && outcomes(f.value).Some? && forall k: nat | k < f.value :: outcomes(k).None?)
  {
    if n > 0 { FirstAnswerMeans(outcomes, n - 1); }
  }

  class ModelGateway {
    const budget: nat
    const maxRetries: nat
    var used: nat

    constructor (budget: nat, maxRetries: nat)
      ensures this.budget == budget && this.maxRetries == maxRetries && used == 0
    {
      this.budget, this.maxRetries, used := budget, maxRetries, 0;
    }

    /** `complete` with its permit in hand. `outcomes(k)` is what the provider would give the
        k-th attempt; None for an error or timeout. */
    method Complete<R>(outcomes: nat -> Option<R>) returns (response: Option<R>, calls: nat)
      modifies this
      ensures used == if old(used) < budget then old(used) + 1 else old(used)
      ensures old(used) >= budget ==> response == None && calls == 0
      ensures old(used) < budget ==>
        match FirstAnswer(outcomes, maxRetries + 1)
        case Some(k) => response == outcomes(k) && calls == k + 1
        case None => response == None && calls == maxRetries + 1
    {
      calls, response := 0, None;
      if used >= budget { return; }
      used := used + 1;
      for attempt := 0 to maxRetries + 1
        invariant used == old(used) + 1
        invariant calls == attempt && response == None && FirstAnswer(outcomes, attempt) == None
      {
        calls := calls + 1;
        response := outcomes(attempt);
        if response.Some? {
          FirstAnswerKept(outcomes, attempt + 1, maxRetries + 1);
          return;
        }
      }
    }
  }

  lemma {:induction false} FirstAnswerKept<R>(outcomes: nat -> Option<R>, n: nat, m: nat)
    requires n <= m && FirstAnswer(outcomes, n).Some?
    ensures FirstAnswer(outcomes, m) == FirstAnswer(outcomes, n)
    decreases m - n
  {
    if n < m { FirstAnswerKept(outcomes, n, m - 1); }
  }

  // --- what each stretch must do ------------------------------------------------------------------------

  /** A call that has its permit is let through while the budget lasts, and then it calls the
      provider at once; afterwards it is refused and its permit goes back. */
  lemma AdmitIs(g: Gateway, i: nat)
    requires InRun(g) && At(g, i, Granted)
    ensures Step(g, Admit(i)).Some?
    ensures var h := Step(g, Admit(i)).value;
      if g.used < g.limits.budget then
        && h.used == g.used + 1 && h.providerCalls == g.providerCalls + 1 && h.permits == g.permits
        && h.callers == g.callers[i := Caller(Calling, 1, 0)]
      else
        && h.used == g.used && h.providerCalls == g.providerCalls && h.permits == g.permits - 1
        && h.callers == g.callers[i := Caller(Refused, 0, 0)]
  {
    hide InRun, Total;
    Always(g);
    assert Consistent(g.callers[i], g.limits.maxRetries);
    HolderCounted(g.callers, i);
  }

  /** After an error or a timeout the call backs off, and then calls the provider again, as long as it
      has failed at most max_retries times; once more and it gives up. A crash ends it at once. */
  lemma FailIs(g: Gateway, i: nat)
    requires InRun(g) && At(g, i, Calling)
    ensures Step(g, Fail(i)).Some? && Step(g, Crash(i)).Some? && Step(g, Respond(i)).Some?
    ensures var c, h := g.callers[i], Step(g, Fail(i)).value;
      && h.used == g.used && h.providerCalls == g.providerCalls
      && if c.failures < g.limits.maxRetries then
           && h.permits == g.permits && h.callers == g.callers[i := Caller(BackingOff, c.attempts, c.failures + 1)]
           && Step(h, Retry(i)).Some? && Step(h, Retry(i)).value.providerCalls == g.providerCalls + 1
           && Step(h, Retry(i)).value.callers == g.callers[i := Caller(Calling, c.attempts + 1, c.failures + 1)]
         else h.permits == g.permits - 1 && h.callers == g.callers[i := Caller(GaveUp, c.attempts, c.failures + 1)]
    ensures var h := Step(g, Crash(i)).value;
      h.callers == g.callers[i := g.callers[i].(phase := Raised)] && h.permits == g.permits - 1 && h.used == g.used && h.providerCalls == g.providerCalls
    ensures var h := Step(g, Respond(i)).value;
      h.callers == g.callers[i := g.callers[i].(phase := Answered)] && h.permits == g.permits - 1 && h.used == g.used && h.providerCalls == g.providerCalls
  {
    hide InRun, Total;
    Always(g);
    assert Consistent(g.callers[i], g.limits.maxRetries);
    HolderCounted(g.callers, i);
  }

  lemma {:induction false} HolderCounted(cs: seq<Caller>, i: nat)
    requires i < |cs| && HoldsPermit(cs[i].phase)
    ensures Total(PERMIT, cs) > 0
  {
    if i < |cs| - 1 { HolderCounted(cs[..|cs| - 1], i); }
  }

  /** A cancelled call is over, whatever it was doing, and keeps no permit. */
  lemma CancelIs(g: Gateway, i: nat)
    requires InRun(g) && i < |g.callers| && !Over(g.callers[i].phase)
    ensures Step(g, Cancel(i)).Some?
    ensures var h := Step(g, Cancel(i)).value;
      && h.callers == g.callers[i := g.callers[i].(phase := CancelledCall)] && h.used == g.used && h.providerCalls == g.providerCalls
      && h.permits == g.permits - (if HoldsPermit(g.callers[i].phase) then 1 else 0)
  {
    hide InRun, Total;
    Always(g);
    if HoldsPermit(g.callers[i].phase) { HolderCounted(g.callers, i); }
  }
}
