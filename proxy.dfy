/** ProxyMachine::Proxy: a wrapper whose `method_missing` checks that the
    target has the method, runs the global and per-method before callbacks,
    delegates exactly once, runs the per-method and global after callbacks,
    and returns the first truthy of (after_all result, after result,
    delegated result). */
module ProxyMachine {
  import opened RubyValues
  import opened Callbacks

  /** A public method of the target: Ruby code run against the target's
      state with the call's arguments and the block the caller gave, if any. */
  type MethodBody<!S> = (S, seq<Value>, Option<ProcBody<S>>) -> Step<S>

  /** The method table of a target. */
  type Methods<!S> = map<string, MethodBody<S>>

  /** The wrapped target. Its state changes in place; the caller that built
      the proxy may still hold it. */
  class Target<S> {
    var state: S
    const methods: Methods<S>

    constructor (state0: S, methods: Methods<S>)
      ensures state == state0 && this.methods == methods
    {
      state := state0;
      this.methods := methods;
    }
  }

  /** Calling the target directly, with no proxy in between: the method
      gets the caller's block, and a method the target does not have
      raises NoMethodError. */
  function Send<S>(methods: Methods<S>, state: S, name: string, args: seq<Value>,
                   block: Option<ProcBody<S>>): Step<S>
  {
    if name in methods then methods[name](state, args, block) else Threw(state, NoMethodError(name))
  }

  /** The four callback slots a proxy reads on every call. */
  datatype Slots<!S> = Slots(before: Callback<S>, beforeAll: Callback<S>,
                             after: Callback<S>, afterAll: Callback<S>)

  /** No callbacks at all: what a proxy built with `calls = nil` holds. */
  function NoCallbacks<S>(): Slots<S> {
    Slots(Absent, Absent, Absent, Absent)
  }

  /** `calls[key]` on a callbacks hash: nil for a missing key. */
  function Lookup<S>(calls: map<Key, Callback<S>>, key: Key): Callback<S> {
    if key in calls then calls[key] else Absent
  }

  /** The slots `initialize` reads from `calls`: nil when `calls` is nil,
      otherwise the entries under :before, :before_all, :after and
      :after_all. */
  function SlotsOf<S>(calls: Option<map<Key, Callback<S>>>): Slots<S> {
    match calls
    case None => NoCallbacks()
    case Some(m) => Slots(Lookup(m, Before), Lookup(m, BeforeAll), Lookup(m, After), Lookup(m, AfterAll))
  }

  /** Lines 30-32: the after_all result if truthy, else the after result if
      truthy, else the delegated result. A nil or false callback result
      never replaces the delegated one. */
  function Choose(resultAfterAll: Value, resultAfter: Value, result: Value): (r: Value)
    ensures r == resultAfterAll || r == resultAfter || r == result
    ensures r != result ==> Truthy(r)
    ensures Truthy(resultAfterAll) ==> r == resultAfterAll
    ensures !Truthy(resultAfterAll) && Truthy(resultAfter) ==> r == resultAfter
    ensures !Truthy(resultAfterAll) && !Truthy(resultAfter) ==> r == result
    ensures Truthy(r) <==> Truthy(resultAfterAll) || Truthy(resultAfter) || Truthy(result)
  {
    if Truthy(resultAfterAll) then resultAfterAll
    else if Truthy(resultAfter) then resultAfter
    else result
  }

  /** What one call leaves behind: the target's state, the proxy's @result
      field, and the answer (or exception) the caller gets. */
  datatype Outcome<S> = Outcome(state: S, result: Value, response: Result<Value>)

  /** The whole `method_missing` pipeline on values: the reference the
      imperative Proxy.MethodMissing is proved against. An exception ends
      the call where it is raised, keeping the effects made so far; @result
      changes only once the delegated call has returned. There is no block:
      `method_missing` declares none, and the delegated call passes none. */
  function Pipeline<S>(slots: Slots<S>, methods: Methods<S>, state: S, result: Value,
                       name: string, args: seq<Value>): Outcome<S>
  {
    if name !in methods then Outcome(state, result, Err(NoMethodError(name)))
    else
      match ExecuteCall(slots.beforeAll, name, state, [])
      case Threw(s1, e1) => Outcome(s1, result, Err(e1))
      case Done(s1, _) =>
        match ExecuteCall(slots.before, name, s1, [])
        case Threw(s2, e2) => Outcome(s2, result, Err(e2))
        case Done(s2, _) =>
          match methods[name](s2, args, None)
          case Threw(s3, e3) => Outcome(s3, result, Err(e3))
          case Done(s3, delegated) =>
            match ExecuteCall(slots.after, name, s3, [delegated])
            case Threw(s4, e4) => Outcome(s4, delegated, Err(e4))
            case Done(s4, resultAfter) =>
              match ExecuteCall(slots.afterAll, name, s4, [delegated])
              case Threw(s5, e5) => Outcome(s5, delegated, Err(e5))
              case Done(s5, resultAfterAll) =>
                Outcome(s5, delegated, Ok(Choose(resultAfterAll, resultAfter, delegated)))
  }

  /** The proxy object. The target and the four slots are fixed at
      construction; @symbol and @result are scratch fields every call
      overwrites. */
  class Proxy<S> {
    const target: Target<S>
    const before: Callback<S>
    const beforeAll: Callback<S>
    const after: Callback<S>
    const afterAll: Callback<S>
    var symbol: Option<string>
    var result: Value

    /** The slots this proxy was built with. */
    function Configured(): Slots<S> {
      Slots(before, beforeAll, after, afterAll)
    }

    /** `initialize(object, calls = nil)`. */
    constructor (target: Target<S>, calls: Option<map<Key, Callback<S>>>)
      ensures this.target == target
      ensures Configured() == SlotsOf(calls)
      ensures symbol == None && result == Nil
    {
      this.target := target;
      match calls {
        case None =>
          before, beforeAll, after, afterAll := Absent, Absent, Absent, Absent;
        case Some(m) =>
          before := Lookup(m, Before);
          beforeAll := Lookup(m, BeforeAll);
          after := Lookup(m, After);
          afterAll := Lookup(m, AfterAll);
      }
      symbol := None;
      result := Nil;
    }

    /** `method_missing(symbol, *args)`: every call the proxy does not
      answer itself. The caller may give a block, but `method_missing`
      declares no `&block`, so it never reaches the target. */
    method MethodMissing(name: string, args: seq<Value>, block: Option<ProcBody<S>>) returns (r: Result<Value>)
      modifies this, target
      ensures symbol == Some(name)
      ensures Outcome(target.state, result, r)
              == Pipeline(Configured(), target.methods, old(target.state), old(result), name, args)
    {
      symbol := Some(name);
      var methodName := name;
      if methodName !in target.methods {
        return Err(NoMethodError(methodName));
      }

      var step := ExecuteCall(beforeAll, symbol.value, target.state, []);
      target.state := step.state;
      if step.Threw? {
        return Err(step.error);
      }
      step := ExecuteCall(before, symbol.value, target.state, []);
      target.state := step.state;
      if step.Threw? {
        return Err(step.error);
      }

      step := target.methods[methodName](target.state, args, None);
      target.state := step.state;
      if step.Threw? {
        return Err(step.error);
      }
      result := step.value;

      var resultAfter := ExecuteCall(after, symbol.value, target.state, [result]);
      target.state := resultAfter.state;
      if resultAfter.Threw? {
        return Err(resultAfter.error);
      }
      var resultAfterAll := ExecuteCall(afterAll, symbol.value, target.state, [result]);
      target.state := resultAfterAll.state;
      if resultAfterAll.Threw? {
        return Err(resultAfterAll.error);
      }

      if Truthy(resultAfterAll.value) {
        return Ok(resultAfterAll.value);
      }
      if Truthy(resultAfter.value) {
        return Ok(resultAfter.value);
      }
      return Ok(result);
    }

    /** `proxied_class?`: answered by the proxy itself, never delegated. */
    method ProxiedClass() returns (b: bool)
      ensures b
    {
      b := true;
    }
  }

  /** When every phase returns, the call runs before_all on the original
      state, before on its result, the delegated method on that, and the
      after callbacks on the delegated result; the caller gets the chosen
      value and @result holds the delegated one. */
  lemma PipelineReturns<S>(slots: Slots<S>, methods: Methods<S>, state: S, result: Value,
                           name: string, args: seq<Value>,
                           s1: S, v1: Value, s2: S, v2: Value, s3: S, delegated: Value,
                           s4: S, resultAfter: Value, s5: S, resultAfterAll: Value)
    requires name in methods
    requires ExecuteCall(slots.beforeAll, name, state, []) == Done(s1, v1)
    requires ExecuteCall(slots.before, name, s1, []) == Done(s2, v2)
    requires methods[name](s2, args, None) == Done(s3, delegated)
    requires ExecuteCall(slots.after, name, s3, [delegated]) == Done(s4, resultAfter)
    requires ExecuteCall(slots.afterAll, name, s4, [delegated]) == Done(s5, resultAfterAll)
    ensures Pipeline(slots, methods, state, result, name, args)
            == Outcome(s5, delegated, Ok(Choose(resultAfterAll, resultAfter, delegated)))
  {
  }

  /** A name the target does not have raises NoMethodError before any
      callback runs and before any delegation: the target and @result are
      untouched. */
  lemma UnknownMethodRejected<S>(slots: Slots<S>, methods: Methods<S>, state: S, result: Value,
                                 name: string, args: seq<Value>)
    requires name !in methods
    ensures Pipeline(slots, methods, state, result, name, args)
            == Outcome(state, result, Err(NoMethodError(name)))
  {
  }

  /** A before_all callback that raises ends the call: before, the
      delegated method and the after callbacks never run (whatever they
      are), the target keeps what before_all did, @result is untouched. */
  lemma BeforeAllFailureSkipsDelegation<S>(slots: Slots<S>, methods: Methods<S>, state: S, result: Value,
                                           name: string, args: seq<Value>, s1: S, e: Error,
                                           b: Callback<S>, a: Callback<S>, aa: Callback<S>, other: MethodBody<S>)
    requires name in methods
    requires ExecuteCall(slots.beforeAll, name, state, []) == Threw(s1, e)
    ensures Pipeline(slots, methods, state, result, name, args) == Outcome(s1, result, Err(e))
    ensures Pipeline(slots.(before := b, after := a, afterAll := aa), methods[name := other], state, result, name, args)
            == Outcome(s1, result, Err(e))
  {
  }

  /** A before callback that raises ends the call: the delegated method and
      the after callbacks never run, the target keeps what the before
      callbacks did, and @result is untouched. */
  lemma BeforeFailureSkipsDelegation<S>(slots: Slots<S>, methods: Methods<S>, state: S, result: Value,
                                        name: string, args: seq<Value>, s1: S, v1: Value, s2: S, e: Error,
                                        a: Callback<S>, aa: Callback<S>, other: MethodBody<S>)
    requires name in methods
    requires ExecuteCall(slots.beforeAll, name, state, []) == Done(s1, v1)
    requires ExecuteCall(slots.before, name, s1, []) == Threw(s2, e)
    ensures Pipeline(slots, methods, state, result, name, args) == Outcome(s2, result, Err(e))
    ensures Pipeline(slots.(after := a, afterAll := aa), methods[name := other], state, result, name, args)
            == Outcome(s2, result, Err(e))
  {
  }

  /** A delegated call that raises ends the call: neither after callback
      runs (whatever they are), the target keeps what the method did before
      raising, and @result keeps its old value. */
  lemma DelegationFailureSkipsAfter<S>(slots: Slots<S>, methods: Methods<S>, state: S, result: Value,
                                       name: string, args: seq<Value>, s1: S, v1: Value, s2: S, v2: Value,
                                       s3: S, e: Error, a: Callback<S>, aa: Callback<S>)
    requires name in methods
    requires ExecuteCall(slots.beforeAll, name, state, []) == Done(s1, v1)
    requires ExecuteCall(slots.before, name, s1, []) == Done(s2, v2)
    requires methods[name](s2, args, None) == Threw(s3, e)
    ensures Pipeline(slots.(after := a, afterAll := aa), methods, state, result, name, args)
            == Outcome(s3, result, Err(e))
  {
  }

  /** An after callback that raises ends the call: after_all never runs
      (whatever it is), and @result already holds the delegated value. */
  lemma AfterFailureSkipsAfterAll<S>(slots: Slots<S>, methods: Methods<S>, state: S, result: Value,
                                     name: string, args: seq<Value>, s1: S, v1: Value, s2: S, v2: Value,
                                     s3: S, delegated: Value, s4: S, e: Error, aa: Callback<S>)
    requires name in methods
    requires ExecuteCall(slots.beforeAll, name, state, []) == Done(s1, v1)
    requires ExecuteCall(slots.before, name, s1, []) == Done(s2, v2)
    requires methods[name](s2, args, None) == Done(s3, delegated)
    requires ExecuteCall(slots.after, name, s3, [delegated]) == Threw(s4, e)
    ensures Pipeline(slots.(afterAll := aa), methods, state, result, name, args)
            == Outcome(s4, delegated, Err(e))
  {
  }

  /** With no callbacks the proxy is transparent for a call without a
      block: the target ends in the state, and the caller gets the answer,
      of calling the target directly; @result holds the delegated value
      whenever the call returned. */
  lemma NoCallbacksIsTransparent<S>(methods: Methods<S>, state: S, result: Value,
                                    name: string, args: seq<Value>)
    ensures var out := Pipeline(NoCallbacks(), methods, state, result, name, args);
            var direct := Send(methods, state, name, args, None);
            out.state == direct.state &&
            (direct.Done? ==> out.response == Ok(direct.value) && out.result == direct.value) &&
            (direct.Threw? ==> out.response == Err(direct.error) && out.result == result)
  {
  }

  /** The caller gets either the delegated value or a truthy callback
      result, and only for a method the target has. */
  lemma ResponseIsDelegatedOrTruthy<S>(slots: Slots<S>, methods: Methods<S>, state: S, result: Value,
                                      name: string, args: seq<Value>)
    ensures var out := Pipeline(slots, methods, state, result, name, args);
            out.response.Ok? ==> name in methods && (out.response.value == out.result || Truthy(out.response.value))
  {
  }

  /** A global after_all Proc that always answers the same truthy value
      decides every successful call, whatever the per-method after
      callback answered. */
  lemma AfterAllTruthyWins<S>(slots: Slots<S>, methods: Methods<S>, state: S, result: Value,
                              name: string, args: seq<Value>, c: Value)
    requires slots.afterAll.Proc? && Truthy(c)
    requires forall s, a :: slots.afterAll.call(s, a) == Done(s, c)
    ensures var out := Pipeline(slots, methods, state, result, name, args);
            out.response.Ok? ==> out.response.value == c
  {
  }

  /** With an after_all slot that never answers truthy, a per-method after
      Proc that always answers the same truthy value decides every
      successful call, whatever the delegated result. */
  lemma AfterTruthyWins<S>(slots: Slots<S>, methods: Methods<S>, state: S, result: Value,
                           name: string, args: seq<Value>, c: Value)
    requires slots.after.Proc? && Truthy(c)
    requires forall s, a :: slots.after.call(s, a) == Done(s, c)
    requires forall s, a :: ExecuteCall(slots.afterAll, name, s, a).Done? ==>
                              !Truthy(ExecuteCall(slots.afterAll, name, s, a).value)
    ensures var out := Pipeline(slots, methods, state, result, name, args);
            out.response.Ok? ==> out.response.value == c
  {
    if name in methods {
      match ExecuteCall(slots.beforeAll, name, state, [])
      case Threw(_, _) =>
      case Done(s1, _) =>
        match ExecuteCall(slots.before, name, s1, [])
        case Threw(_, _) =>
        case Done(s2, _) =>
          match methods[name](s2, args, None)
          case Threw(_, _) =>
          case Done(s3, delegated) =>
            assert ExecuteCall(slots.after, name, s3, [delegated]) == Done(s3, c);
            var last := ExecuteCall(slots.afterAll, name, s3, [delegated]);
            if last.Done? {
              assert !Truthy(last.value);
            }
    }
  }

  /** An after_all Proc that leaves the target alone and answers nil or
      false changes nothing: the call behaves as with no after_all slot. */
  lemma FalsyAfterAllDefers<S>(slots: Slots<S>, methods: Methods<S>, state: S, result: Value,
                               name: string, args: seq<Value>, c: Value)
    requires slots.afterAll.Proc? && !Truthy(c)
    requires forall s, a :: slots.afterAll.call(s, a) == Done(s, c)
    ensures Pipeline(slots, methods, state, result, name, args)
            == Pipeline(slots.(afterAll := Absent), methods, state, result, name, args)
  {
  }

  /** What before callbacks return is thrown away: two before_all Procs
      with the same effect on the target give the same call, whatever
      values they answer. */
  lemma BeforeResultsIgnored<S>(slots: Slots<S>, f: ProcBody<S>, methods: Methods<S>, state: S, result: Value,
                                name: string, args: seq<Value>)
    requires slots.beforeAll.Proc?
    requires forall s, a :: f(s, a).Done? && slots.beforeAll.call(s, a).Done?
    requires forall s, a :: f(s, a).state == slots.beforeAll.call(s, a).state
    ensures Pipeline(slots, methods, state, result, name, args)
            == Pipeline(slots.(beforeAll := Proc(f)), methods, state, result, name, args)
  {
  }

  /** One call of a sequence made on the same proxy, with the block the
      caller gives, if any. */
  datatype Call<!S> = Call(name: string, args: seq<Value>, block: Option<ProcBody<S>>)

  /** A sequence of calls through one proxy: the target's state and
      @result carry over from each call to the next, and an exception
      ends only its own call. */
  function Session<S>(slots: Slots<S>, methods: Methods<S>, state: S, result: Value,
                      calls: seq<Call<S>>): (end: (S, seq<Result<Value>>))
    ensures |end.1| == |calls|
    decreases |calls|
  {
    if calls == [] then (state, [])
    else
      var out := Pipeline(slots, methods, state, result, calls[0].name, calls[0].args);
      var rest := Session(slots, methods, out.state, out.result, calls[1..]);
      (rest.0, [out.response] + rest.1)
  }

  /** A session is its first call followed by the session of the rest,
      started from where the first call left the target and @result. */
  lemma SessionStep<S>(slots: Slots<S>, methods: Methods<S>, state: S, result: Value, c: Call<S>, rest: seq<Call<S>>)
    ensures var out := Pipeline(slots, methods, state, result, c.name, c.args);
            var tail := Session(slots, methods, out.state, out.result, rest);
            Session(slots, methods, state, result, [c] + rest) == (tail.0, [out.response] + tail.1)
  {
    assert ([c] + rest)[1..] == rest;
  }

  /** A session is the chain of its calls: when call i takes the target
      from `states[i]` and @result from `results[i]` to the next ones and
      answers `responses[i]`, the session ends in the last state and
      answers `responses`. */
  lemma {:induction false} SessionChains<S>(slots: Slots<S>, methods: Methods<S>, calls: seq<Call<S>>,
                                            states: seq<S>, results: seq<Value>, responses: seq<Result<Value>>)
    requires |states| == |calls| + 1 && |results| == |calls| + 1 && |responses| == |calls|
    requires forall i :: 0 <= i < |calls| ==>
               Pipeline(slots, methods, states[i], results[i], calls[i].name, calls[i].args)
               == Outcome(states[i + 1], results[i + 1], responses[i])
    ensures Session(slots, methods, states[0], results[0], calls) == (states[|calls|], responses)
    decreases |calls|
  {
    if calls != [] {
      var n := |calls|;
      forall i | 0 <= i < n - 1
        ensures Pipeline(slots, methods, states[1..][i], results[1..][i], calls[1..][i].name, calls[1..][i].args)
                == Outcome(states[1..][i + 1], results[1..][i + 1], responses[1..][i])
      {
        assert states[1..][i] == states[i + 1] && results[1..][i] == results[i + 1] && calls[1..][i] == calls[i + 1];
      }
      SessionChains(slots, methods, calls[1..], states[1..], results[1..], responses[1..]);
      assert [responses[0]] + responses[1..] == responses;
    }
  }

  /** The same sequence of calls made on the target directly. */
  function SendAll<S>(methods: Methods<S>, state: S, calls: seq<Call<S>>): (end: (S, seq<Result<Value>>))
    ensures |end.1| == |calls|
  {
    if calls == [] then (state, [])
    else
      var step := Send(methods, state, calls[0].name, calls[0].args, calls[0].block);
      var rest := SendAll(methods, step.state, calls[1..]);
      (rest.0, [if step.Done? then Ok(step.value) else Err(step.error)] + rest.1)
  }

  /** The same calls with every block dropped. */
  function WithoutBlocks<S>(calls: seq<Call<S>>): seq<Call<S>>
    decreases |calls|
  {
    if calls == [] then [] else [calls[0].(block := None)] + WithoutBlocks(calls[1..])
  }

  /** A proxy with no callbacks answers any sequence of calls, failed ones
      included, as its target answers the same calls made directly without
      their blocks: the proxy drops every block it is given. */
  lemma {:induction false} NoCallbacksSessionIsTransparent<S>(methods: Methods<S>, state: S, result: Value,
                                                              calls: seq<Call<S>>)
    ensures Session(NoCallbacks(), methods, state, result, calls) == SendAll(methods, state, WithoutBlocks(calls))
    decreases |calls|
  {
    if calls != [] {
      var out := Pipeline(NoCallbacks(), methods, state, result, calls[0].name, calls[0].args);
      NoCallbacksIsTransparent(methods, state, result, calls[0].name, calls[0].args);
      NoCallbacksSessionIsTransparent(methods, out.state, out.result, calls[1..]);
      assert WithoutBlocks(calls)[1..] == WithoutBlocks(calls[1..]);
    }
  }
}
