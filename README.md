# proxy_machine interception core, in Dafny

This project models the interception core of the Ruby library proxy_machine.
It has two parts. `ProxyMachine::Proxy` wraps a target object and sends every
call it does not answer itself through `method_missing`. `ProxyMachine::Config`
is the builder that fills the callbacks hash a proxy is built from.

A call through the proxy goes through these steps in order:

1. It records the call's symbol in `@symbol`.
2. It raises `NoMethodError` if the target does not list the method.
3. It runs the global `before_all` slot and then the per-method `before` slot.
   Both get only the target.
4. It delegates exactly once and keeps the answer in `@result`. The
   delegated call gets the caller's arguments but never the caller's block:
   `method_missing` declares no `&block`, so a block given to the proxy is
   dropped.
5. It runs the per-method `after` slot and then the global `after_all` slot.
   Both get the target and the delegated result.
6. It answers with the `after_all` result if that is truthy, else the `after`
   result if truthy, else the delegated result.

A slot is resolved by `get_executor`:

- `nil` or `false` means no callback.
- A Proc or a Class applies to every method.
- Anything else is indexed by the current symbol. A Hash gives nil for a
  missing key. The other truthy slot shapes modelled are `true` and an
  object whose `[]` rejects a Symbol (a Module, a plain Object); indexing
  either raises.

`execute_call` then handles the executor:

- A Proc is called with the phase arguments.
- A Class is instantiated with those arguments, and the new instance is sent
  `call` with no arguments.
- Any other value does nothing and gives nil.

Files:

- `ruby_values.dfy` (module `RubyValues`): result values, Ruby truthiness (only
  nil and false are falsy), exceptions, and `Step`. A `Step` is what running
  Ruby code against the target gives: the target's state afterwards, plus a
  value or an exception.
- `callbacks.dfy` (module `Callbacks`): the shapes a callback slot can take, and
  `proc?`, `class?`, `get_executor` and `execute_call`.
- `proxy.dfy` (module `ProxyMachine`):
  - the target as a class with mutable state and a fixed method table;
  - the proxy as a class with fixed target and slots and the scratch fields
    `symbol` and `result`;
  - `Pipeline`, the value-level reference for `method_missing`, which
    `Proxy.MethodMissing` is proved against;
  - `Session`, a sequence of calls on one proxy;
  - lemmas about the pipeline.
- `config.dfy` (module `ProxyConfig`): the `Config` class and its setters. Each
  setter is proved against `Write`, a pure one-key update. `Replay` is a
  sequence of setter calls.
- `scenarios.dfy` (module `ProxyScenarios`): the behaviour the repository's
  tests describe, stated on concrete targets. These include an Array with
  `reverse` and `max`, a target that logs events to record phase order, and
  an object with `@count` whose `before_all` is a performer class.

Exceptions are values: a `Step` or `Result` is either a value or an error.
When a callback or the delegated call raises, the call ends there. The
target keeps every change made before that point. `@result` changes only
after the delegated call has returned.

The tests in `spec/standalone_spec.rb` and `spec/entire_class_spec.rb`
exercise features that `lib/proxy_machine/proxy.rb` does not implement:
regex pattern lists, handler chains, `allow_dinamic`, avoided delegation,
and callbacks that get the method name and arguments. This model follows
the code. In particular:

- `Config` stores `:allow_dinamic` and `:avoid_original_execution`, but the
  proxy never reads them (`ProxyConfig.FlagsDoNotReachProxy`).
- Callbacks get only the target, or the target and the delegated result.

## Model

| member | source | states |
|---|---|---|
| `Callbacks.IsProc` | lib/proxy_machine/proxy.rb:52-54 | a value taken for a Proc executor is always truthy (the `block and` guard) |
| `Callbacks.IsClass` | lib/proxy_machine/proxy.rb:56-58 | a value taken for a Class executor is truthy and is never also taken for a Proc |
| `Callbacks.GetExecutor` | lib/proxy_machine/proxy.rb:45-50 | a falsy slot gives nil; a Proc or Class slot is itself the executor; a Hash gives exactly the entry under the current symbol, or nil when the symbol is missing; the only error is indexing one of the other modelled truthy shapes, and it is a not-indexable error |
| `Callbacks.ExecuteCall` | lib/proxy_machine/proxy.rb:38-43 | a nil slot is a no-op returning nil; a Proc slot is called with the phase arguments; a Class slot is instantiated and then called; a Hash without the current symbol is a no-op returning nil; a slot that cannot be indexed raises the not-indexable error with the target untouched |
| `Callbacks.FailedConstructorSkipsCall` | lib/proxy_machine/proxy.rb:42 | when a Class executor's constructor raises, `call` never runs: the outcome is the constructor's, whatever `call` would do |
| `Callbacks.InertExecutorIsNoOp` | lib/proxy_machine/proxy.rb:41-43 | an executor that is neither a Proc nor a Class leaves the target unchanged and yields nil |
| `Callbacks.TableRunsEntryForSymbol` | lib/proxy_machine/proxy.rb:48 | a Hash slot runs exactly the Proc or Class stored under the current symbol, as that entry would run on its own |
| `Callbacks.DirectSlotIgnoresSymbol` | lib/proxy_machine/proxy.rb:47 | a Proc or Class slot behaves the same for every method name |
| `ProxyMachine.Choose` | lib/proxy_machine/proxy.rb:30-32 | the answer is one of the three results; a truthy after_all result wins; with after_all falsy, a truthy after result wins; with both falsy the delegated result is returned; any answer other than the delegated result is truthy |
| `ProxyMachine.Proxy.constructor` | lib/proxy_machine/proxy.rb:5-15 | the proxy holds the given target, its slots are those `calls` gives, and it starts with nil `@symbol` and `@result` |
| `ProxyMachine.Proxy.MethodMissing` | lib/proxy_machine/proxy.rb:17-33 | `@symbol` becomes the call's name; the target's new state, the new `@result` and the answer are exactly those of `Pipeline` on the old state |
| `ProxyMachine.Proxy.ProxiedClass` | lib/proxy_machine/proxy.rb:35 | `proxied_class?` is answered by the proxy itself: always true, and the target is not called |
| `ProxyMachine.PipelineReturns` | lib/proxy_machine/proxy.rb:22-32 | when every phase returns: before_all runs on the original state and before on its result; the delegated method runs on that; after and after_all get the delegated result; the caller gets the chosen value and `@result` holds the delegated one |
| `ProxyMachine.UnknownMethodRejected` | lib/proxy_machine/proxy.rb:18-20 | a name the target lacks raises NoMethodError(name) before any callback or delegation; the target and `@result` are untouched |
| `ProxyMachine.BeforeAllFailureSkipsDelegation` | lib/proxy_machine/proxy.rb:22-28 | a before_all callback that raises ends the call with its exception: the target keeps what before_all did, `@result` is untouched, and the outcome is the same whatever the before and after slots and the delegated method are |
| `ProxyMachine.BeforeFailureSkipsDelegation` | lib/proxy_machine/proxy.rb:23-28 | a before callback that raises ends the call with its exception: the target keeps what the before callbacks did, `@result` is untouched, and the outcome is the same whatever the after slots and the delegated method are |
| `ProxyMachine.DelegationFailureSkipsAfter` | lib/proxy_machine/proxy.rb:25-28 | a delegated method that raises ends the call with its exception: neither after callback runs, whatever they are, the target keeps what the method did, and `@result` keeps its old value |
| `ProxyMachine.AfterFailureSkipsAfterAll` | lib/proxy_machine/proxy.rb:25-28 | an after callback that raises ends the call with its exception: after_all never runs, whatever it is, and `@result` already holds the delegated value |
| `ProxyMachine.NoCallbacksIsTransparent` | lib/proxy_machine/proxy.rb:5-33 | with no callbacks, one call through the proxy leaves the target as the direct call without a block does, answers as it does, and stores the delegated value in `@result` |
| `ProxyMachine.ResponseIsDelegatedOrTruthy` | lib/proxy_machine/proxy.rb:30-32 | a successful answer is for a method the target has, and is either the delegated result or a truthy callback result |
| `ProxyMachine.AfterAllTruthyWins` | lib/proxy_machine/proxy.rb:28-30 | an after_all Proc that always answers the same truthy value decides every successful call, whatever the after callback answered |
| `ProxyMachine.AfterTruthyWins` | lib/proxy_machine/proxy.rb:27-31 | with an after_all slot that never answers truthy, an after Proc that always answers the same truthy value decides every successful call |
| `ProxyMachine.FalsyAfterAllDefers` | lib/proxy_machine/proxy.rb:28-32 | an after_all Proc that leaves the target alone and answers nil or false makes the call identical to one with no after_all slot |
| `ProxyMachine.BeforeResultsIgnored` | lib/proxy_machine/proxy.rb:22-23 | what a before_all callback returns is discarded; only its effect on the target matters |
| `ProxyMachine.SessionStep` | lib/proxy_machine/proxy.rb:17-33 | a sequence of calls is its first call followed by the rest, started from the target state and `@result` that the first call left |
| `ProxyMachine.SessionChains` | lib/proxy_machine/proxy.rb:17-33 | if each call of a sequence, taken on its own, goes from one state and `@result` to the next and gives its answer, the whole sequence ends in the last state and gives those answers in order |
| `ProxyMachine.NoCallbacksSessionIsTransparent` | lib/proxy_machine/proxy.rb:5-33 | over any sequence of calls, failed ones included, a proxy with no callbacks gives the same final target state and the same answers as calling the target directly with every block dropped |
| `ProxyConfig.ParamsOrBlock` | lib/proxy_machine/config.rb:25-27 | a truthy explicit argument is stored; otherwise the block is stored, as a Proc, or nil when no block is given; with a block given, the stored value is always truthy; a falsy stored value is nil |
| `ProxyConfig.Write` | lib/proxy_machine/config.rb:13-35 | one setter writes exactly one key: that key holds the stored value, the key set grows by at most that key, and every other key is unchanged |
| `ProxyConfig.ReplayKeepsUnwrittenKeys` | lib/proxy_machine/config.rb:13-35 | over any sequence of setter calls, a key none of them writes keeps its entry, or stays absent |
| `ProxyConfig.ReplayLastWriteWins` | lib/proxy_machine/config.rb:13-35 | over any sequence of setter calls, the last call that writes a key decides its value; a later `before`, `after`, `before_all`, ... overwrites an earlier one |
| `ProxyConfig.ReplayLookup` | lib/proxy_machine/config.rb:13-35 | after any sequence of setter calls, reading a key gives what the last call writing it stored, or the earlier entry when no call writes it |
| `ProxyConfig.ConfiguredSlots` | lib/proxy_machine/proxy.rb:5-15 | a proxy built from a fresh Config after any sequence of setter calls gets, in each slot, the value the last call to that slot's setter stored, or nil |
| `ProxyConfig.FlagsDoNotReachProxy` | lib/proxy_machine/proxy.rb:9-14 | setting `:allow_dinamic` or `:avoid_original_execution` leaves the slots a proxy is built with unchanged |
| `ProxyConfig.Config.constructor` | lib/proxy_machine/config.rb:5-7 | a new Config has an empty callbacks hash |
| `ProxyConfig.Config.AllowDinamic` | lib/proxy_machine/config.rb:13-15 | only `:allow_dinamic` changes, and it now holds the boolean |
| `ProxyConfig.Config.AvoidOriginalExecution` | lib/proxy_machine/config.rb:17-19 | only `:avoid_original_execution` changes, and it now holds the boolean |
| `ProxyConfig.Config.Before` | lib/proxy_machine/config.rb:21-23 | only `:before` changes, and it now holds the argument |
| `ProxyConfig.Config.BeforeAll` | lib/proxy_machine/config.rb:25-27 | only `:before_all` changes, and it now holds the argument if truthy, otherwise the block |
| `ProxyConfig.Config.After` | lib/proxy_machine/config.rb:29-31 | only `:after` changes, and it now holds the argument |
| `ProxyConfig.Config.AfterAll` | lib/proxy_machine/config.rb:33-35 | only `:after_all` changes, and it now holds the argument if truthy, otherwise the block |
| `ProxyScenarios.BeforeCallbackIsObserved` | spec/proxy_spec.rb:17-24 | for every array, a `before :reverse` callback that appends 50 is seen by the delegated `reverse`: the answer starts with 50, and the caller's array keeps the new element |
| `ProxyScenarios.ProxySpecReverseExample` | spec/proxy_spec.rb:17-24 | through the proxy, `reverse` on [1, 2, 3] with the before callback answers [50, 3, 2, 1], and the array becomes [1, 2, 3, 50] |
| `ProxyScenarios.SharedArrayClient` | spec/proxy_spec.rb:17-24 | a client that builds the proxy over its own array sees `proxied_class?` true, gets [50, 3, 2, 1] from `reverse`, and finds its array changed to [1, 2, 3, 50] by the before callback |
| `ProxyScenarios.AfterCallbackScalesReverse` | spec/proxy_spec.rb:26-33 | for every array, an `after :reverse` callback that multiplies by 4 replaces the answer with the reversed array scaled by 4; the array and `@result` keep what the real `reverse` left |
| `ProxyScenarios.AfterCallbackReplacesResult` | spec/proxy_spec.rb:26-33 | an `after :reverse` callback that multiplies by 4 turns the answer into [12, 8, 4]; the array and `@result` keep what the real call left |
| `ProxyScenarios.AfterAllHasTheLastWord` | spec/proxy_spec.rb:62-75 | an `after_all` that multiplies Integer results by 10 makes `max` of [1, 2, 3] answer 30, whatever a per-method after callback answers |
| `ProxyScenarios.PhaseOrder` | lib/proxy_machine/proxy.rb:22-28 | the logged order is before_all, before, one delegated call with the caller's arguments, after, after_all; before callbacks get no extra arguments, and after callbacks get the delegated result |
| `ProxyScenarios.TapLosesItsBlock` | lib/proxy_machine/proxy.rb:17-25 | `tap` with a block that appends 50, called directly, runs the block and answers the grown array; through a proxy without callbacks the block is dropped, `tap` raises LocalJumpError and the array is unchanged |
| `ProxyScenarios.CounterCall` | spec/entire_class_spec.rb:196-202 | with a counter performer as before_all, on any target whose methods only read, each call first raises `@count` (from nil to 0, otherwise by one) and then answers with the real method's result on the new count |
| `ProxyScenarios.CounterSessionCounts` | spec/entire_class_spec.rb:233-244 | over any sequence of calls to methods of a read-only target, with a counter performer as before_all, `@count` ends one higher per call and call number i answers what the real method answers on the starting count plus i + 1 |
| `ProxyScenarios.CounterPerformerSession` | spec/entire_class_spec.rb:233-244 | from a nil `@count`, the calls count, to_s, count, display, count answer 0, the string, 2, nil, 4, because every call, `count` included, runs the performer first |

## Left out

- ProxyMachine.NoCallbacksIsTransparent: holds only for calls without a
  block. `method_missing` (lib/proxy_machine/proxy.rb:17) declares no
  `&block` and `send` (line 25) passes none, so a block given to the proxy
  never reaches the target (`ProxyScenarios.TapLosesItsBlock`). Errors are
  identified by class and method name only: the proxy's
  `NoMethodError.new(method)` (line 20) and the NoMethodError Ruby raises
  for a direct call of a missing method are the same value in the model,
  though in Ruby they differ in message and in `name`. It also
  does not cover targets with their own `method_missing`, as in
  spec/standalone_spec.rb:185-188 and spec/entire_class_spec.rb:162. Such a
  target answers names it does not list, while the proxy raises
  NoMethodError for them, so the proxy is not transparent there.
- ProxyMachine.NoCallbacksSessionIsTransparent: compares with the direct
  calls with every block dropped, for the same reason. Its failed calls
  match only up to the error's class and method name, as above, and it
  has the same gap for targets with their own `method_missing`.
- Callbacks.GetExecutor: indexing is modelled only for Hash slots and for
  objects whose `[]` rejects a Symbol. Other Ruby objects whose `[]`
  accepts a Symbol are not modelled as slots: a Method or a Struct, and
  under Ruby 1.8 (which the model assumes) an Array, an Integer or a
  String, which convert the Symbol to an Integer. An Array slot such as the
  pattern list `before_all [[/^get_/, lambda ...], ...]` of
  spec/entire_class_spec.rb:103-106 then indexes to nil, so in Ruby the
  slot silently does nothing on each call; the model has no Array slot
  shape and cannot express it.
- Aliasing is not modelled. Results are immutable values, separate from
  the target's state. So a result that is the target itself, an after
  callback that changes the result in place (and with it `@result`), and
  effects on objects other than the target cannot be expressed.
- `Config#apply!` (lib/proxy_machine/config.rb:9-11) is not modelled. It
  evaluates a DSL block with `instance_exec`. A sequence of setter calls
  stands for such a block (`ProxyConfig.Replay`).
- `proxy_for` and `auto_proxy` (lib/kernel.rb) are not modelled. The second
  redefines `self.new` on a class at run time. The proxy's constructor is
  the only entry point modelled.
- The `BasicObject` shim and `require` wiring in lib/proxy_machine.rb are not
  modelled. The `object` and `symbol` files it loads, where `proxied?` and
  `original_object` presumably live, are not part of this model.
- Ruby reflection is abstract. `@object.methods.member?` is membership in a
  method table, and `send` is a call through that table. The model uses one
  string type for symbols and method names: Ruby 1.8's `methods` returned
  strings. Private methods, `respond_to?` and singleton methods added at run
  time are not modelled.
- Re-entrant calls are not modelled. Callbacks are functions of the target's
  state, so a callback that calls back into the same proxy cannot be
  expressed. In Ruby such a call would overwrite `@symbol` and `@result` in
  the middle of the outer call.
- Arity checks are not modelled. In Ruby, a lambda or a performer
  constructor given the wrong number of arguments raises ArgumentError.
- Callbacks hashes are modelled as keyed by the six known symbols and, per
  method, by the method name. Hashes with default values or default procs,
  string keys, and a `calls` argument that is not a Hash are not modelled.
- Values returned by the target and by callbacks are limited to nil,
  booleans, integers, strings and arrays. An object is modelled by the
  state it carries.
- The features the code does not implement are not modelled: regex pattern
  lists, handler chains, `allow_dinamic`, avoided delegation, and callbacks
  that get the method name and arguments.
