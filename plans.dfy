/**
 * A plan is the list of server round trips (and client-side throws) an
 * operation decides on before making any of them. Carrying a plan out stops at
 * the first request the server refuses or the first exception the client
 * throws; the effects of the requests before it stay.
 */
module Plans {
  import opened Errors
  import opened Remote

  /** One step of a plan: a request that ends in ExecuteQuery, an exception the client throws, or nothing. */
  datatype Step = Request(call: Call, effect: Effect) | Raise(error: Exception) | Skip

  datatype Executed = Executed(effects: seq<Effect>, outcome: Outcome, state: SiteState)

  predicate Accepted(site: Site, step: Step)
  {
    step.Skip? || (step.Request? && step.call !in site.faults)
  }

  /** The exception a step that is not accepted ends the run with. */
  function Refusal(site: Site, step: Step): Exception
    requires !Accepted(site, step)
  {
    if step.Raise? then step.error else site.FaultOf(step.call)
  }

  /** A run that resumes after the effects `done`. */
  function After(done: seq<Effect>, y: Executed): Executed
  {
    Executed(done + y.effects, y.outcome, y.state)
  }

  /** Carrying the steps out in order from state s, stopping at the first one that is not accepted. */
  function Execute(site: Site, s: SiteState, steps: seq<Step>): (x: Executed)
    ensures |x.effects| <= |steps|
    decreases |steps|
  {
    if |steps| == 0 then Executed([], Pass, s)
    else if !Accepted(site, steps[0]) then Executed([], Throw(Refusal(site, steps[0])), s)
    else if steps[0].Skip? then Execute(site, s, steps[1..])
    else After([steps[0].effect], Execute(site, site.Apply(s, steps[0].effect), steps[1..]))
  }

  /** The effects of the requests among the steps, in order. */
  function Requested(steps: seq<Step>): seq<Effect>
    decreases |steps|
  {
    if |steps| == 0 then []
    else (if steps[0].Request? then [steps[0].effect] else []) + Requested(steps[1..])
  }

  /** The state a run leaves the site in is the replay of the effects it recorded. */
  lemma {:induction false} ExecuteReplays(site: Site, s: SiteState, steps: seq<Step>)
    ensures Execute(site, s, steps).state == site.Replay(s, Execute(site, s, steps).effects)
    decreases |steps|
  {
    if |steps| > 0 && Accepted(site, steps[0]) {
      if steps[0].Skip? {
        ExecuteReplays(site, s, steps[1..]);
      } else {
        var s1 := site.Apply(s, steps[0].effect);
        ExecuteReplays(site, s1, steps[1..]);
        var es := Execute(site, s, steps).effects;
        assert es[0] == steps[0].effect && es[1..] == Execute(site, s1, steps[1..]).effects;
      }
    }
  }

  /** When every step is accepted the run succeeds with every requested effect, in order. */
  lemma {:induction false} ExecuteAllAccepted(site: Site, s: SiteState, steps: seq<Step>)
    requires forall i :: 0 <= i < |steps| ==> Accepted(site, steps[i])
    ensures Execute(site, s, steps).outcome == Pass
    ensures Execute(site, s, steps).effects == Requested(steps)
    decreases |steps|
  {
    if |steps| > 0 {
      var s1 := if steps[0].Request? then site.Apply(s, steps[0].effect) else s;
      ExecuteAllAccepted(site, s1, steps[1..]);
    }
  }

  /** The first step that is not accepted ends the run with its exception, after the effects of the steps before it. */
  lemma {:induction false} ExecuteStopsAtFirstRefusal(site: Site, s: SiteState, steps: seq<Step>, k: nat)
    requires k < |steps| && !Accepted(site, steps[k])
    requires forall i :: 0 <= i < k ==> Accepted(site, steps[i])
    ensures Execute(site, s, steps).outcome == Throw(Refusal(site, steps[k]))
    ensures Execute(site, s, steps).effects == Requested(steps[..k])
    decreases k
  {
    if k > 0 {
      var s1 := if steps[0].Request? then site.Apply(s, steps[0].effect) else s;
      ExecuteStopsAtFirstRefusal(site, s1, steps[1..], k - 1);
      assert steps[..k][1..] == steps[1..][..k - 1];
    }
  }

  /** Running two plans one after the other is running their concatenation. */
  lemma {:induction false} ExecuteAppend(site: Site, s: SiteState, a: seq<Step>, b: seq<Step>)
    ensures Execute(site, s, a + b) ==
      var x := Execute(site, s, a);
      if x.outcome.Throw? then x else After(x.effects, Execute(site, x.state, b))
    decreases |a|
  {
    if |a| == 0 {
      assert a + b == b;
    } else {
      assert (a + b)[0] == a[0];
      if Accepted(site, a[0]) {
        assert (a + b)[1..] == a[1..] + b;
        var s1 := if a[0].Request? then site.Apply(s, a[0].effect) else s;
        ExecuteAppend(site, s1, a[1..], b);
      }
    }
  }

  lemma AppendAssoc(a: seq<Effect>, b: seq<Effect>, c: seq<Effect>)
    ensures (a + b) + c == a + (b + c)
  {
  }

  /** A single step. */
  lemma ExecuteSingle(site: Site, s: SiteState, step: Step)
    ensures Execute(site, s, [step]) ==
      if !Accepted(site, step) then Executed([], Throw(Refusal(site, step)), s)
      else if step.Skip? then Executed([], Pass, s)
      else Executed([step.effect], Pass, site.Apply(s, step.effect))
  {
    assert [step][1..] == [];
  }

  /** A plan followed by one more request: the request is made only when the plan passed. */
  lemma ExecuteThenRequest(site: Site, s: SiteState, a: seq<Step>, call: Call, effect: Effect)
    ensures var xa := Execute(site, s, a);
      Execute(site, s, a + [Request(call, effect)]) ==
        if xa.outcome.Throw? then xa
        else if call in site.faults then Executed(xa.effects, Throw(site.FaultOf(call)), xa.state)
        else Executed(xa.effects + [effect], Pass, site.Apply(xa.state, effect))
  {
    ExecuteAppend(site, s, a, [Request(call, effect)]);
    ExecuteSingle(site, Execute(site, s, a).state, Request(call, effect));
  }

  /** A plan whose first part throws ends there. */
  lemma ExecuteThrowFirst(site: Site, s: SiteState, a: seq<Step>, b: seq<Step>)
    requires Execute(site, s, a).outcome.Throw?
    ensures Execute(site, s, a + b) == Execute(site, s, a)
  {
    ExecuteAppend(site, s, a, b);
  }

  /** A plan whose first part passes goes on with the second from where the first left the site. */
  lemma ExecutePassFirst(site: Site, s: SiteState, a: seq<Step>, b: seq<Step>)
    requires Execute(site, s, a).outcome.Pass?
    ensures Execute(site, s, a + b) == After(Execute(site, s, a).effects, Execute(site, Execute(site, s, a).state, b))
  {
    ExecuteAppend(site, s, a, b);
  }

  /** The step when b holds, and nothing otherwise. */
  function StepIf(b: bool, step: Step): Step
  {
    if b then step else Skip
  }

  // ---------------------------------------------------------------------------
  // Performing a step

  /** One request when b holds, and nothing otherwise. */
  method RequestIf(site: Site, b: bool, call: Call, effect: Effect) returns (o: Outcome)
    modifies site
    ensures var x := Execute(site, old(site.state), [StepIf(b, Request(call, effect))]);
      o == x.outcome && site.state == x.state && site.history == old(site.history) + x.effects
  {
    ExecuteSingle(site, site.state, StepIf(b, Request(call, effect)));
    o := Pass;
    if b {
      o := site.Perform(call, effect);
    }
  }
}
