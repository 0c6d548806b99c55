/** The proxy's documented behaviour on concrete targets: a Ruby Array
    wrapped with before, after and after_all callbacks, an event log that
    records the order of the phases, and a counter object with a performer
    class as its before_all callback. */
module ProxyScenarios {
  import opened RubyValues
  import opened Callbacks
  import opened ProxyMachine

  /** `Array#reverse`. */
  function Reverse(xs: seq<int>): seq<int>
    decreases |xs|
  {
    if xs == [] then [] else Reverse(xs[1..]) + [xs[0]]
  }

  lemma {:induction false} ReverseAppend(xs: seq<int>, x: int)
    ensures Reverse(xs + [x]) == [x] + Reverse(xs)
    decreases |xs|
  {
    if xs != [] {
      assert (xs + [x])[1..] == xs[1..] + [x];
      ReverseAppend(xs[1..], x);
    }
  }

  lemma ReverseOneTwoThree()
    ensures Reverse([1, 2, 3]) == [3, 2, 1]
  {
    assert [1, 2, 3][1..] == [2, 3];
    assert [2, 3][1..] == [3];
  }

  /** An Array target offering `reverse`; the array itself is its state. */
  function ArrayMethods(): Methods<seq<int>> {
    map["reverse" := (s: seq<int>, a: seq<Value>, b: Option<ProcBody<seq<int>>>) => Done(s, IntArray(Reverse(s)))]
  }

  /** `before :reverse => lambda {|obj| obj << 50 }`. */
  function AppendFifty(): Callback<seq<int>> {
    Table(map["reverse" := Proc(AppendFiftyBody())])
  }

  /** `lambda {|obj| obj << 50 }`: appends 50 and answers the array. */
  function AppendFiftyBody(): ProcBody<seq<int>> {
    (s: seq<int>, a: seq<Value>) => Done(s + [50], IntArray(s + [50]))
  }

  /** The before callback appends 50 and answers the grown array. */
  lemma AppendFiftyStep(xs: seq<int>)
    ensures ExecuteCall(AppendFifty(), "reverse", xs, []) == Done(xs + [50], IntArray(xs + [50]))
  {
    assert GetExecutor(AppendFifty(), "reverse") == Ok(AppendFifty().entries["reverse"]);
  }

  /** `reverse` on the grown array puts 50 first. */
  lemma ReverseGrownStep(xs: seq<int>, args: seq<Value>)
    ensures "reverse" in ArrayMethods()
    ensures ArrayMethods()["reverse"](xs + [50], args, None) == Done(xs + [50], IntArray([50] + Reverse(xs)))
  {
    ReverseAppend(xs, 50);
  }

  /** A before callback's change to the target is what the delegated call
      sees: for every array, `reverse` through the proxy starts with 50, and
      the caller's array keeps the appended element. */
  lemma {:induction false} BeforeCallbackIsObserved(xs: seq<int>, result: Value, args: seq<Value>)
    ensures Pipeline(Slots(AppendFifty(), Absent, Absent, Absent), ArrayMethods(), xs, result, "reverse", args)
            == Outcome(xs + [50], IntArray([50] + Reverse(xs)), Ok(IntArray([50] + Reverse(xs))))
  {
    var slots := Slots(AppendFifty(), Absent, Absent, Absent);
    var grown := xs + [50];
    var reversed := IntArray([50] + Reverse(xs));
    InertExecutorIsNoOp(slots.beforeAll, "reverse", xs, []);
    AppendFiftyStep(xs);
    ReverseGrownStep(xs, args);
    InertExecutorIsNoOp(slots.after, "reverse", grown, [reversed]);
    InertExecutorIsNoOp(slots.afterAll, "reverse", grown, [reversed]);
    PipelineReturns(slots, ArrayMethods(), xs, result, "reverse", args,
                    xs, Nil, grown, IntArray(grown), grown, reversed, grown, Nil, grown, Nil);
  }

  /** The example in the proxy's tests: [1, 2, 3] with the before callback
      answers [50, 3, 2, 1] and becomes [1, 2, 3, 50]. */
  lemma ProxySpecReverseExample(result: Value)
    ensures Pipeline(Slots(AppendFifty(), Absent, Absent, Absent), ArrayMethods(), [1, 2, 3], result, "reverse", [])
            == Outcome([1, 2, 3, 50], IntArray([50, 3, 2, 1]), Ok(IntArray([50, 3, 2, 1])))
  {
    BeforeCallbackIsObserved([1, 2, 3], result, []);
    ReverseExampleLists();
  }

  lemma ReverseExampleLists()
    ensures [50] + Reverse([1, 2, 3]) == [50, 3, 2, 1]
    ensures [1, 2, 3] + [50] == [1, 2, 3, 50]
  {
    ReverseOneTwoThree();
  }

  /** The caller that built the proxy still holds the array, and sees the
      element the before callback appended; `proxied_class?` is answered by
      the proxy itself. */
  method SharedArrayClient() returns (marked: bool, answer: Result<Value>, seen: seq<int>)
    ensures marked
    ensures answer == Ok(IntArray([50, 3, 2, 1]))
    ensures seen == [1, 2, 3, 50]
  {
    var shared := new Target([1, 2, 3], ArrayMethods());
    var proxy := new Proxy(shared, Some(map[Before := AppendFifty()]));
    assert proxy.Configured() == Slots(AppendFifty(), Absent, Absent, Absent);
    marked := proxy.ProxiedClass();
    ProxySpecReverseExample(Nil);
    answer := proxy.MethodMissing("reverse", [], None);
    seen := shared.state;
  }

  /** `result.collect {|e| e * k }` on an Array of Integers. */
  function Scale(v: Value, k: int): Value {
    if v.Array? then Array(ScaleItems(v.items, k)) else v
  }

  function ScaleItems(items: seq<Value>, k: int): seq<Value>
    decreases |items|
  {
    if items == [] then []
    else [if items[0].Int? then Int(items[0].n * k) else items[0]] + ScaleItems(items[1..], k)
  }

  lemma {:induction false} ScaleIntArray(xs: seq<int>, k: int)
    ensures Scale(IntArray(xs), k) == IntArray(seq(|xs|, i requires 0 <= i < |xs| => xs[i] * k))
    decreases |xs|
  {
    if xs != [] {
      ScaleIntArray(xs[1..], k);
      assert IntArray(xs).items[1..] == IntArray(xs[1..]).items;
    }
  }

  /** `after :reverse => lambda {|obj, result| result.collect {|e| e * 4} }`. */
  function TimesFour(): Callback<seq<int>> {
    Table(map["reverse" := Proc((s: seq<int>, a: seq<Value>) => Done(s, if |a| == 1 then Scale(a[0], 4) else Nil))])
  }

  /** The after callback scales the delegated Array by 4. */
  lemma TimesFourStep(xs: seq<int>, delegated: Value)
    ensures ExecuteCall(TimesFour(), "reverse", xs, [delegated]) == Done(xs, Scale(delegated, 4))
  {
    assert GetExecutor(TimesFour(), "reverse") == Ok(TimesFour().entries["reverse"]);
  }

  /** For every array, the after result replaces the delegated one: the
      caller gets the reversed array scaled by 4, while the target and
      @result keep what the real `reverse` left. */
  lemma {:induction false} AfterCallbackScalesReverse(xs: seq<int>, result: Value)
    ensures Pipeline(Slots(Absent, Absent, TimesFour(), Absent), ArrayMethods(), xs, result, "reverse", [])
            == Outcome(xs, IntArray(Reverse(xs)), Ok(Scale(IntArray(Reverse(xs)), 4)))
  {
    var slots := Slots(Absent, Absent, TimesFour(), Absent);
    var reversed := IntArray(Reverse(xs));
    InertExecutorIsNoOp(slots.beforeAll, "reverse", xs, []);
    InertExecutorIsNoOp(slots.before, "reverse", xs, []);
    assert "reverse" in ArrayMethods();
    assert ArrayMethods()["reverse"](xs, [], None) == Done(xs, reversed);
    TimesFourStep(xs, reversed);
    InertExecutorIsNoOp(slots.afterAll, "reverse", xs, [reversed]);
    PipelineReturns(slots, ArrayMethods(), xs, result, "reverse", [],
                    xs, Nil, xs, Nil, xs, reversed, xs, Scale(reversed, 4), xs, Nil);
  }

  lemma TimesFourOnReversed()
    ensures Scale(IntArray([3, 2, 1]), 4) == IntArray([12, 8, 4])
  {
    ScaleIntArray([3, 2, 1], 4);
    assert seq(3, i requires 0 <= i < 3 => [3, 2, 1][i] * 4) == [12, 8, 4];
  }

  /** A truthy after result replaces the delegated one: `reverse` of
      [1, 2, 3] through the proxy answers [12, 8, 4], and the target and
      @result keep what the real call left. */
  lemma AfterCallbackReplacesResult()
    ensures Pipeline(Slots(Absent, Absent, TimesFour(), Absent), ArrayMethods(), [1, 2, 3], Nil, "reverse", [])
            == Outcome([1, 2, 3], IntArray([3, 2, 1]), Ok(IntArray([12, 8, 4])))
  {
    AfterCallbackScalesReverse([1, 2, 3], Nil);
    ReverseOneTwoThree();
    TimesFourOnReversed();
  }

  /** `after_all lambda {|obj, result| result.class == Fixnum ? result * 10 : result }`.
      Every `Int` stands for a Fixnum-sized integer here; a Bignum, which
      the lambda would leave unchanged, is not modelled. */
  function TimesTenIfInteger(): Callback<seq<int>> {
    Proc((s: seq<int>, a: seq<Value>) =>
      Done(s, if |a| == 1 && a[0].Int? then Int(a[0].n * 10) else if |a| == 1 then a[0] else Nil))
  }

  /** An Array target offering `max` (nil for an empty array). */
  function MaxMethods(): Methods<seq<int>> {
    map["max" := (s: seq<int>, a: seq<Value>, b: Option<ProcBody<seq<int>>>) => Done(s, if s == [] then Nil else Int(Max(s)))]
  }

  function Max(xs: seq<int>): int
    requires xs != []
    decreases |xs|
  {
    if |xs| == 1 then xs[0] else if xs[0] >= Max(xs[1..]) then xs[0] else Max(xs[1..])
  }

  /** The global after_all callback has the last word: `max` of [1, 2, 3]
      through the proxy is 30, even when a per-method after callback also
      answers. */
  lemma AfterAllHasTheLastWord(afterResult: Value)
    ensures Pipeline(Slots(Absent, Absent,
                           Table(map["max" := Proc((s: seq<int>, a: seq<Value>) => Done(s, afterResult))]),
                           TimesTenIfInteger()),
                     MaxMethods(), [1, 2, 3], Nil, "max", []).response
            == Ok(Int(30))
  {
    assert Max([1, 2, 3]) == 3 by {
      assert [1, 2, 3][1..] == [2, 3];
      assert [2, 3][1..] == [3];
    }
  }

  /** What a recording target logs. */
  datatype Event = Ran(slot: string, args: seq<Value>) | Delegated(name: string, args: seq<Value>)

  /** A callback that logs which slot it sits in and the arguments it got. */
  function Recorder(slot: string): Callback<seq<Event>> {
    Proc((log: seq<Event>, a: seq<Value>) => Done(log + [Ran(slot, a)], Nil))
  }

  /** A target whose one method logs its call and answers `v`. */
  function RecordingMethods(name: string, v: Value): Methods<seq<Event>> {
    map[name := (log: seq<Event>, a: seq<Value>, b: Option<ProcBody<seq<Event>>>) => Done(log + [Delegated(name, a)], v)]
  }

  /** The phase order is fixed: before_all, before, exactly one delegated
      call with the caller's arguments, after, after_all. Before callbacks
      get only the target; after callbacks get the target and the
      delegated result. */
  lemma {:induction false} PhaseOrder(log: seq<Event>, result: Value, name: string, args: seq<Value>, v: Value)
    ensures Pipeline(Slots(Table(map[name := Recorder("before")]), Recorder("before_all"),
                           Table(map[name := Recorder("after")]), Recorder("after_all")),
                     RecordingMethods(name, v), log, result, name, args)
            == Outcome(log + [Ran("before_all", []), Ran("before", []), Delegated(name, args),
                              Ran("after", [v]), Ran("after_all", [v])],
                       v, Ok(v))
  {
    assert log + [Ran("before_all", [])] + [Ran("before", [])] + [Delegated(name, args)]
               + [Ran("after", [v])] + [Ran("after_all", [v])]
           == log + [Ran("before_all", []), Ran("before", []), Delegated(name, args),
                     Ran("after", [v]), Ran("after_all", [v])];
  }

  /** `def call; @object.count = @object.count ? @object.count + 1 : 0 end`
      on an object whose only state is @count: `+ 1` on a String or an
      Array raises TypeError, and `true` has no `+` at all. */
  function CountUp(count: Value, instance: Value): Step<Value> {
    if !Truthy(count) then Done(Int(0), Int(0))
    else if count.Int? then Done(Int(count.n + 1), Int(count.n + 1))
    else if count.Str? || count.Array? then Threw(count, Raised(Str("TypeError")))
    else Threw(count, NoMethodError("+"))
  }

  /** `before_all CounterPerformer`: the class is instantiated (which
      changes nothing) and then called, once per call through the proxy. */
  function CounterPerformer(): Callback<Value> {
    Performer((count: Value, a: seq<Value>) => Done(count, Nil), CountUp)
  }

  /** Stands for what the inherited `to_s` answers for the counter object
      (Ruby's also carries the object's address). */
  function ToS(): string { "#<RegisteredProxiedConstructed>" }

  /** An object with `attr_accessor :count` and the inherited `to_s` and
      `display`. */
  function CounterMethods(): Methods<Value> {
    map["count" := (count: Value, a: seq<Value>, b: Option<ProcBody<Value>>) => Done(count, count),
        "to_s" := (count: Value, a: seq<Value>, b: Option<ProcBody<Value>>) => Done(count, Str(ToS())),
        "display" := (count: Value, a: seq<Value>, b: Option<ProcBody<Value>>) => Done(count, Nil)]
  }

  /** A target whose methods only read its state: each returns and leaves
      the state as it was. */
  ghost predicate ReadsOnly(methods: Methods<Value>) {
    forall name, s, a :: name in methods ==>
      methods[name](s, a, None).Done? && methods[name](s, a, None).state == s
  }

  lemma CounterMethodsReadOnly()
    ensures ReadsOnly(CounterMethods())
  {
  }

  /** One call through a proxy whose before_all is the counter performer,
      on any target whose methods only read: @count goes up before the real
      method runs, and the real method's answer is the caller's. */
  lemma CounterCall(methods: Methods<Value>, count: Value, result: Value, name: string, args: seq<Value>)
    requires ReadsOnly(methods) && name in methods
    requires !Truthy(count) || count.Int?
    ensures var counted := if count.Int? then Int(count.n + 1) else Int(0);
            var answer := methods[name](counted, args, None).value;
            Pipeline(Slots(Absent, CounterPerformer(), Absent, Absent), methods, count, result, name, args)
            == Outcome(counted, answer, Ok(answer))
  {
    var slots := Slots(Absent, CounterPerformer(), Absent, Absent);
    var counted := if count.Int? then Int(count.n + 1) else Int(0);
    assert ExecuteCall(slots.beforeAll, name, count, []) == Done(counted, counted);
    var answer := methods[name](counted, args, None).value;
    assert methods[name](counted, args, None) == Done(counted, answer);
    PipelineReturns(slots, methods, count, result, name, args,
                    counted, counted, counted, Nil, counted, answer, counted, Nil, counted, Nil);
  }

  /** What the target's own method answers when @count is `n`. */
  function CounterAnswer(methods: Methods<Value>, c: Call<Value>, n: int): Result<Value> {
    if c.name !in methods then Err(NoMethodError(c.name))
    else match methods[c.name](Int(n), c.args, None)
      case Done(_, v) => Ok(v)
      case Threw(_, e) => Err(e)
  }

  /** What a counter session should answer: call number i (from 0) gets
      what the real method answers when @count is `first + i`. */
  function CounterAnswers(methods: Methods<Value>, calls: seq<Call<Value>>, first: int): (r: seq<Result<Value>>)
    ensures |r| == |calls|
    ensures forall i :: 0 <= i < |calls| ==> r[i] == CounterAnswer(methods, calls[i], first + i)
    decreases |calls|
  {
    if calls == [] then []
    else [CounterAnswer(methods, calls[0], first)] + CounterAnswers(methods, calls[1..], first + 1)
  }

  /** Over any sequence of calls through a proxy whose before_all is the
      counter performer, on any target whose methods only read, every call
      runs the performer first: @count ends one higher per call (nil counts
      as -1), and call number i answers what the real method answers on
      the starting count plus i + 1. */
  lemma {:induction false} CounterSessionCounts(methods: Methods<Value>, count: Value, result: Value, calls: seq<Call<Value>>)
    requires ReadsOnly(methods)
    requires !Truthy(count) || count.Int?
    requires forall i :: 0 <= i < |calls| ==> calls[i].name in methods
    ensures var first := if count.Int? then count.n + 1 else 0;
            Session(Slots(Absent, CounterPerformer(), Absent, Absent), methods, count, result, calls)
            == (if calls == [] then count else Int(first + |calls| - 1), CounterAnswers(methods, calls, first))
  {
    var slots := Slots(Absent, CounterPerformer(), Absent, Absent);
    var first := if count.Int? then count.n + 1 else 0;
    var states := CounterStates(count, first, |calls|);
    var results := ResultsAlong(result, CounterAnswers(methods, calls, first));
    var responses := CounterAnswers(methods, calls, first);
    forall i | 0 <= i < |calls|
      ensures Pipeline(slots, methods, states[i], results[i], calls[i].name, calls[i].args)
              == Outcome(states[i + 1], results[i + 1], responses[i])
    {
      assert methods[calls[i].name](Int(first + i), calls[i].args, None).state == Int(first + i);
      CounterLink(slots, methods, count, result, calls, first, states, results, responses, i);
    }
    SessionChains(slots, methods, calls, states, results, responses);
  }

  /** The @count a counter session passes through: the starting value,
      then `first`, `first + 1`, ... */
  function CounterStates(count: Value, first: int, n: nat): (r: seq<Value>)
    ensures |r| == n + 1 && r[0] == count
    ensures forall i :: 0 < i <= n ==> r[i] == Int(first + i - 1)
  {
    [count] + seq(n, i => Int(first + i))
  }

  /** The @result a session passes through: the starting value, then
      after each call that returned, what it returned. */
  function ResultsAlong(result: Value, responses: seq<Result<Value>>): (r: seq<Value>)
    ensures |r| == |responses| + 1 && r[0] == result
    ensures forall i :: 0 <= i < |responses| && responses[i].Ok? ==> r[i + 1] == responses[i].value
  {
    [result] + seq(|responses|, i requires 0 <= i < |responses| =>
                     match responses[i] case Ok(v) => v case Err(_) => Nil)
  }

  /** Call number i of a counter session, taken on its own: it needs only
      that the real method, run on the counted value, returns and leaves
      @count alone. */
  lemma {:induction false} CounterLink(slots: Slots<Value>, methods: Methods<Value>, count: Value, result: Value,
                                       calls: seq<Call<Value>>, first: int, states: seq<Value>, results: seq<Value>,
                                       responses: seq<Result<Value>>, i: nat)
    requires slots == Slots(Absent, CounterPerformer(), Absent, Absent)
    requires !Truthy(count) || count.Int?
    requires i < |calls| && calls[i].name in methods
    requires methods[calls[i].name](Int(first + i), calls[i].args, None).Done?
    requires methods[calls[i].name](Int(first + i), calls[i].args, None).state == Int(first + i)
    requires first == if count.Int? then count.n + 1 else 0
    requires states == CounterStates(count, first, |calls|)
    requires results == ResultsAlong(result, responses)
    requires responses == CounterAnswers(methods, calls, first)
    ensures Pipeline(slots, methods, states[i], results[i], calls[i].name, calls[i].args)
            == Outcome(states[i + 1], results[i + 1], responses[i])
  {
    CounterFacts(methods, count, result, calls, first, states, results, responses, i);
    var answer := methods[calls[i].name](Int(first + i), calls[i].args, None).value;
    CounterStep(slots, methods, states[i], results[i], calls[i].name, calls[i].args, first + i, answer);
  }

  /** Where call number i of a counter session starts and what it should
      answer, given that the real method, run on the counted value, returns. */
  lemma {:induction false} CounterFacts(methods: Methods<Value>, count: Value, result: Value,
                                       calls: seq<Call<Value>>, first: int, states: seq<Value>, results: seq<Value>,
                                       responses: seq<Result<Value>>, i: nat)
    requires !Truthy(count) || count.Int?
    requires i < |calls| && calls[i].name in methods
    requires methods[calls[i].name](Int(first + i), calls[i].args, None).Done?
    requires first == if count.Int? then count.n + 1 else 0
    requires states == CounterStates(count, first, |calls|)
    requires results == ResultsAlong(result, responses)
    requires responses == CounterAnswers(methods, calls, first)
    ensures var answer := methods[calls[i].name](Int(first + i), calls[i].args, None).value;
            && states[i + 1] == Int(first + i)
            && results[i + 1] == answer
            && responses[i] == Ok(answer)
            && if states[i].Int? then first + i == states[i].n + 1 else !Truthy(states[i]) && first + i == 0
  {
    var c := calls[i];
    var answer := methods[c.name](Int(first + i), c.args, None).value;
    assert CounterAnswer(methods, c, first + i) == Ok(answer);
    if i > 0 {
      assert states[i] == Int(first + i - 1);
    }
  }

  /** One call through the counter proxy, with the new @count and the
      answer named. */
  lemma CounterStep(slots: Slots<Value>, methods: Methods<Value>, count: Value, result: Value,
                    name: string, args: seq<Value>, n: int, answer: Value)
    requires slots == Slots(Absent, CounterPerformer(), Absent, Absent)
    requires name in methods
    requires if count.Int? then n == count.n + 1 else !Truthy(count) && n == 0
    requires methods[name](Int(n), args, None) == Done(Int(n), answer)
    ensures Pipeline(slots, methods, count, result, name, args) == Outcome(Int(n), answer, Ok(answer))
  {
    assert ExecuteCall(slots.beforeAll, name, count, []) == Done(Int(n), Int(n));
    PipelineReturns(slots, methods, count, result, name, args,
                    Int(n), Int(n), Int(n), Nil, Int(n), answer, Int(n), Nil, Int(n), Nil);
  }

  /** Every call through the proxy, the reader `count` included, runs the
      before_all performer first: starting from a nil @count, the calls
      count, to_s, count, display, count answer 0, the string, 2, nil, 4. */
  lemma CounterPerformerSession()
    ensures Session(Slots(Absent, CounterPerformer(), Absent, Absent), CounterMethods(), Nil, Nil,
                    [Call("count", [], None), Call("to_s", [], None), Call("count", [], None), Call("display", [], None), Call("count", [], None)])
            == (Int(4), [Ok(Int(0)), Ok(Str(ToS())), Ok(Int(2)), Ok(Nil), Ok(Int(4))])
  {
    var calls := [Call("count", [], None), Call("to_s", [], None), Call("count", [], None), Call("display", [], None), Call("count", [], None)];
    CounterMethodsReadOnly();
    CounterSessionCounts(CounterMethods(), Nil, Nil, calls);
    CounterMethodsAnswers(calls);
  }

  /** What the counter's own methods answer for the calls of the session
      above, @count going 0, 1, 2, 3, 4. */
  lemma CounterMethodsAnswers(calls: seq<Call<Value>>)
    requires calls == [Call("count", [], None), Call("to_s", [], None), Call("count", [], None), Call("display", [], None), Call("count", [], None)]
    ensures CounterAnswers(CounterMethods(), calls, 0) == [Ok(Int(0)), Ok(Str(ToS())), Ok(Int(2)), Ok(Nil), Ok(Int(4))]
  {
    var answers := CounterAnswers(CounterMethods(), calls, 0);
    assert answers[0] == Ok(Int(0));
    assert answers[1] == Ok(Str(ToS()));
    assert answers[2] == Ok(Int(2));
    assert answers[3] == Ok(Nil);
    assert answers[4] == Ok(Int(4));
  }

  /** `Object#tap` on an Array (`yield self; self`): the block gets the
      array, and the answer is the array as the block left it; with no
      block, `yield` raises LocalJumpError. */
  function TapMethods(): Methods<seq<int>> {
    map["tap" := Tap]
  }

  function Tap(s: seq<int>, a: seq<Value>, b: Option<ProcBody<seq<int>>>): Step<seq<int>> {
    match b
    case None => Threw(s, Raised(Str("LocalJumpError")))
    case Some(f) =>
      match f(s, [IntArray(s)])
      case Threw(s1, e) => Threw(s1, e)
      case Done(s1, _) => Done(s1, IntArray(s1))
  }

  /** A block given through the proxy never reaches the target: for every
      array, `tap { |a| a << 50 }` made directly appends 50 and answers the
      grown array, while the same call through a proxy with no callbacks
      raises LocalJumpError and leaves the array as it was. */
  lemma TapLosesItsBlock(xs: seq<int>, result: Value)
    ensures SendAll(TapMethods(), xs, [Call("tap", [], Some(AppendFiftyBody()))])
            == (xs + [50], [Ok(IntArray(xs + [50]))])
    ensures Session(NoCallbacks(), TapMethods(), xs, result, [Call("tap", [], Some(AppendFiftyBody()))])
            == (xs, [Err(Raised(Str("LocalJumpError")))])
  {
    assert [Ok(IntArray(xs + [50]))] + [] == [Ok(IntArray(xs + [50]))];
    var jumped: Result<Value> := Err(Raised(Str("LocalJumpError")));
    assert [jumped] + [] == [jumped];
  }
}
