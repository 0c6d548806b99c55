/** Callback slots and how the proxy turns one into a call: `get_executor`,
    `execute_call`, `proc?` and `class?` of ProxyMachine::Proxy. */
module Callbacks {
  import opened RubyValues

  /** A Proc or lambda: called with the target and the phase arguments;
      it returns a value and may change the target. */
  type ProcBody<!S> = (S, seq<Value>) -> Step<S>

  /** Any Ruby value that can sit where the proxy looks for a callback.
      `S` is the state of the target the callbacks act on. */
  datatype Callback<!S> =
    | Absent                                  // nil
    | Flag(b: bool)                           // true or false
    | Proc(call: ProcBody<S>)                 // a Proc or lambda
    | Performer(construct: ProcBody<S>,       // a Class: `new(*args)` gives an instance ...
                perform: (S, Value) -> Step<S>) // ... that is then sent `call` with no arguments
    | Table(entries: map<string, Callback<S>>) // a Hash keyed by method symbol
    | Other                                   // an object whose `[]` rejects a Symbol (a Module, a plain Object)

  /** The keys of a callbacks hash the proxy and the configuration builder use. */
  datatype Key = AllowDinamic | AvoidOriginalExecution | Before | BeforeAll | After | AfterAll

  /** `if container`: everything except nil and false. */
  predicate IsTruthy<S>(c: Callback<S>) {
    !(c.Absent? || (c.Flag? && !c.b))
  }

  /** `proc?`: `block and block.class == Proc`. */
  predicate IsProc<S>(c: Callback<S>)
    ensures IsProc(c) ==> IsTruthy(c)
  {
    c.Proc?
  }

  /** `class?`: `param and param.class == Class`. */
  predicate IsClass<S>(c: Callback<S>)
    ensures IsClass(c) ==> IsTruthy(c) && !IsProc(c)
  {
    c.Performer?
  }

  /** `get_executor`: a falsy slot gives nil, a Proc or a Class is used for
      every method, and anything else is indexed by the current call's
      symbol: a Hash gives nil for a missing key, and an object whose `[]`
      rejects a Symbol raises. */
  function GetExecutor<S>(container: Callback<S>, symbol: string): (r: Result<Callback<S>>)
    ensures !IsTruthy(container) ==> r == Ok(Absent)
    ensures IsProc(container) || IsClass(container) ==> r == Ok(container)
    ensures r.Err? <==> IsTruthy(container) && !IsProc(container) && !IsClass(container) && !container.Table?
    ensures r.Err? ==> r.error == NotIndexable
    ensures container.Table? ==>
              r == Ok(if symbol in container.entries then container.entries[symbol] else Absent)
    ensures r.Ok? && r.value != container && IsTruthy(r.value) ==>
              container.Table? && symbol in container.entries && r.value == container.entries[symbol]
  {
    if !IsTruthy(container) then Ok(Absent)
    else if IsProc(container) || IsClass(container) then Ok(container)
    else match container
      case Table(entries) => Ok(if symbol in entries then entries[symbol] else Absent)
      case _ => Err(NotIndexable)
  }

  /** A performer: instantiate with the phase arguments, then `call` the
      instance; an exception in the constructor means `call` never runs. */
  function Instantiate<S>(construct: ProcBody<S>, perform: (S, Value) -> Step<S>,
                          state: S, args: seq<Value>): Step<S>
  {
    match construct(state, args)
    case Threw(s, e) => Threw(s, e)
    case Done(s, instance) => perform(s, instance)
  }

  /** `execute_call`: resolve the slot for `symbol`, then call a Proc with
      the phase arguments, instantiate and call a Class, and treat any
      other executor as a no-op returning nil. */
  function ExecuteCall<S>(container: Callback<S>, symbol: string, state: S, args: seq<Value>): (r: Step<S>)
    ensures !IsTruthy(container) ==> r == Done(state, Nil)
    ensures container.Proc? ==> r == container.call(state, args)
    ensures container.Performer? ==> r == Instantiate(container.construct, container.perform, state, args)
    ensures container.Table? && symbol !in container.entries ==> r == Done(state, Nil)
    ensures GetExecutor(container, symbol).Err? ==> r == Threw(state, NotIndexable)
  {
    match GetExecutor(container, symbol)
    case Err(e) => Threw(state, e)
    case Ok(executor) =>
      if IsProc(executor) then executor.call(state, args)
      else if IsClass(executor) then Instantiate(executor.construct, executor.perform, state, args)
      else Done(state, Nil)
  }

  /** A Class whose `new` raises never gets `call`: the outcome is the
      constructor's exception, whatever `call` would have done. */
  lemma FailedConstructorSkipsCall<S>(construct: ProcBody<S>, perform: (S, Value) -> Step<S>,
                                      state: S, args: seq<Value>)
    requires construct(state, args).Threw?
    ensures forall other: (S, Value) -> Step<S> {:trigger Instantiate(construct, other, state, args)} ::
              Instantiate(construct, other, state, args) == Instantiate(construct, perform, state, args)
    ensures Instantiate(construct, perform, state, args) == construct(state, args)
  {
  }

  /** Only a Proc or a Class ever runs: any other executor leaves the
      target as it was and yields nil. */
  lemma InertExecutorIsNoOp<S>(container: Callback<S>, symbol: string, state: S, args: seq<Value>)
    requires GetExecutor(container, symbol).Ok?
    requires !IsProc(GetExecutor(container, symbol).value) && !IsClass(GetExecutor(container, symbol).value)
    ensures ExecuteCall(container, symbol, state, args) == Done(state, Nil)
  {
  }

  /** A Hash slot runs exactly the entry stored under the current symbol,
      as that entry would run if it were the whole slot. */
  lemma TableRunsEntryForSymbol<S>(entries: map<string, Callback<S>>, symbol: string, state: S, args: seq<Value>)
    requires symbol in entries && (entries[symbol].Proc? || entries[symbol].Performer?)
    ensures forall other :: ExecuteCall(Table(entries), symbol, state, args)
                            == ExecuteCall(entries[symbol], other, state, args)
  {
  }

  /** A Proc or Class slot applies to every method alike. */
  lemma DirectSlotIgnoresSymbol<S>(container: Callback<S>, symbol: string, other: string, state: S, args: seq<Value>)
    requires IsProc(container) || IsClass(container)
    ensures ExecuteCall(container, symbol, state, args) == ExecuteCall(container, other, state, args)
  {
  }
}
