/** ProxyMachine::Config: a builder whose setters each write one key of a
    callbacks hash, later handed to a Proxy as its `calls`. */
module ProxyConfig {
  import opened RubyValues
  import opened Callbacks
  import ProxyMachine

  /** One setter call on a Config, with its arguments. */
  datatype Directive<!S> =
    | SetAllowDinamic(flag: bool)
    | SetAvoidOriginalExecution(flag: bool)
    | SetBefore(hash: Callback<S>)
    | SetBeforeAll(params: Callback<S>, block: Option<ProcBody<S>>)
    | SetAfter(hash: Callback<S>)
    | SetAfterAll(params: Callback<S>, block: Option<ProcBody<S>>)

  /** The one key a setter writes. */
  function KeyOf<S>(d: Directive<S>): Key {
    match d
    case SetAllowDinamic(_) => AllowDinamic
    case SetAvoidOriginalExecution(_) => AvoidOriginalExecution
    case SetBefore(_) => Before
    case SetBeforeAll(_, _) => BeforeAll
    case SetAfter(_) => After
    case SetAfterAll(_, _) => AfterAll
  }

  /** `&block` as a value: the block as a Proc, or nil when none was given. */
  function BlockValue<S>(block: Option<ProcBody<S>>): Callback<S> {
    match block
    case None => Absent
    case Some(f) => Proc(f)
  }

  /** `params ? params : block`: an explicit truthy argument is kept,
      otherwise the block, or nil when there is none (nil or false as the
      argument are never stored). */
  function ParamsOrBlock<S>(params: Callback<S>, block: Option<ProcBody<S>>): (c: Callback<S>)
    ensures c == params || c == BlockValue(block)
    ensures IsTruthy(params) ==> c == params
    ensures block.Some? ==> IsTruthy(c)
    ensures !IsTruthy(params) ==> c == BlockValue(block)
    ensures !IsTruthy(c) ==> c == Absent
  {
    if IsTruthy(params) then params else BlockValue(block)
  }

  /** The value a setter stores under its key. */
  function Stored<S>(d: Directive<S>): Callback<S> {
    match d
    case SetAllowDinamic(b) => Flag(b)
    case SetAvoidOriginalExecution(b) => Flag(b)
    case SetBefore(h) => h
    case SetBeforeAll(p, blk) => ParamsOrBlock(p, blk)
    case SetAfter(h) => h
    case SetAfterAll(p, blk) => ParamsOrBlock(p, blk)
  }

  /** The effect of one setter on the callbacks hash: its own key now holds
      the stored value, and every other key is as it was. */
  function Write<S>(callbacks: map<Key, Callback<S>>, d: Directive<S>): (r: map<Key, Callback<S>>)
    ensures KeyOf(d) in r && r[KeyOf(d)] == Stored(d)
    ensures r.Keys == callbacks.Keys + {KeyOf(d)}
    ensures forall k :: k in callbacks && k != KeyOf(d) ==> r[k] == callbacks[k]
  {
    callbacks[KeyOf(d) := Stored(d)]
  }

  /** Setter calls made one after another on the same Config. */
  function Replay<S>(callbacks: map<Key, Callback<S>>, ds: seq<Directive<S>>): map<Key, Callback<S>>
    decreases |ds|
  {
    if ds == [] then callbacks else Replay(Write(callbacks, ds[0]), ds[1..])
  }

  /** A key no setter in the sequence writes keeps its entry (or its
      absence). */
  lemma {:induction false} ReplayKeepsUnwrittenKeys<S>(callbacks: map<Key, Callback<S>>,
                                                       ds: seq<Directive<S>>, k: Key)
    requires forall i :: 0 <= i < |ds| ==> KeyOf(ds[i]) != k
    ensures k in Replay(callbacks, ds) <==> k in callbacks
    ensures k in callbacks ==> Replay(callbacks, ds)[k] == callbacks[k]
    decreases |ds|
  {
    if ds != [] {
      ReplayKeepsUnwrittenKeys(Write(callbacks, ds[0]), ds[1..], k);
    }
  }

  /** The last setter call for a key decides it: a later `before`, `after`,
      `before_all`, ... overwrites an earlier one. */
  lemma {:induction false} ReplayLastWriteWins<S>(callbacks: map<Key, Callback<S>>,
                                                  ds: seq<Directive<S>>, i: nat)
    requires i < |ds|
    requires forall j :: i < j < |ds| ==> KeyOf(ds[j]) != KeyOf(ds[i])
    ensures KeyOf(ds[i]) in Replay(callbacks, ds)
    ensures Replay(callbacks, ds)[KeyOf(ds[i])] == Stored(ds[i])
    decreases |ds|
  {
    if i == 0 {
      forall j | 0 <= j < |ds[1..]| ensures KeyOf(ds[1..][j]) != KeyOf(ds[0]) {
        assert ds[1..][j] == ds[j + 1];
      }
      ReplayKeepsUnwrittenKeys(Write(callbacks, ds[0]), ds[1..], KeyOf(ds[0]));
    } else {
      assert ds[1..][i - 1] == ds[i];
      ReplayLastWriteWins(Write(callbacks, ds[0]), ds[1..], i - 1);
    }
  }

  /** The value the last setter for `k` in `ds` stores, if any writes it. */
  function LastWrite<S>(ds: seq<Directive<S>>, k: Key): Option<Callback<S>>
    decreases |ds|
  {
    if ds == [] then None
    else match LastWrite(ds[1..], k)
      case Some(c) => Some(c)
      case None => if KeyOf(ds[0]) == k then Some(Stored(ds[0])) else None
  }

  /** `calls[k]` after a sequence of setter calls: what the last setter for
      `k` stored, or the entry it had before when no setter writes it. */
  lemma {:induction false} ReplayLookup<S>(callbacks: map<Key, Callback<S>>, ds: seq<Directive<S>>, k: Key)
    ensures ProxyMachine.Lookup(Replay(callbacks, ds), k)
            == match LastWrite(ds, k)
               case Some(c) => c
               case None => ProxyMachine.Lookup(callbacks, k)
    decreases |ds|
  {
    if ds != [] {
      ReplayLookup(Write(callbacks, ds[0]), ds[1..], k);
    }
  }

  /** A slot of a proxy built from a fresh Config: what the last setter for
      its key stored, or nil when no setter wrote it. */
  function SlotFrom<S>(ds: seq<Directive<S>>, k: Key): Callback<S> {
    match LastWrite(ds, k)
    case Some(c) => c
    case None => Absent
  }

  /** From the configuration builder to the proxy: a proxy built from the
      callbacks of a fresh Config after the setter calls `ds` holds, in each
      of its four slots, what the last setter for that key stored. */
  lemma ConfiguredSlots<S>(ds: seq<Directive<S>>)
    ensures ProxyMachine.SlotsOf(Some(Replay(map[], ds)))
            == ProxyMachine.Slots(SlotFrom(ds, Before), SlotFrom(ds, BeforeAll),
                                  SlotFrom(ds, After), SlotFrom(ds, AfterAll))
  {
    ReplayLookup(map[], ds, Before);
    ReplayLookup(map[], ds, BeforeAll);
    ReplayLookup(map[], ds, After);
    ReplayLookup(map[], ds, AfterAll);
  }

  /** The proxy never reads :allow_dinamic or :avoid_original_execution:
      setting either leaves the slots a proxy is built with unchanged. */
  lemma FlagsDoNotReachProxy<S>(callbacks: map<Key, Callback<S>>, b: bool)
    ensures ProxyMachine.SlotsOf(Some(Write(callbacks, SetAllowDinamic(b))))
            == ProxyMachine.SlotsOf(Some(callbacks))
    ensures ProxyMachine.SlotsOf(Some(Write(callbacks, SetAvoidOriginalExecution(b))))
            == ProxyMachine.SlotsOf(Some(callbacks))
  {
  }

  /** The builder object behind `auto_proxy { ... }`. */
  class Config<S> {
    var callbacks: map<Key, Callback<S>>

    /** `initialize`: no callbacks yet. */
    constructor ()
      ensures callbacks == map[]
    {
      callbacks := map[];
    }

    /** `allow_dinamic(boolean)`. */
    method AllowDinamic(boolean: bool)
      modifies this
      ensures callbacks == Write(old(callbacks), SetAllowDinamic(boolean))
    {
      callbacks := callbacks[Key.AllowDinamic := Flag(boolean)];
    }

    /** `avoid_original_execution(boolean)`. */
    method AvoidOriginalExecution(boolean: bool)
      modifies this
      ensures callbacks == Write(old(callbacks), SetAvoidOriginalExecution(boolean))
    {
      callbacks := callbacks[Key.AvoidOriginalExecution := Flag(boolean)];
    }

    /** `before(hash)`. */
    method Before(hash: Callback<S>)
      modifies this
      ensures callbacks == Write(old(callbacks), SetBefore(hash))
    {
      callbacks := callbacks[Key.Before := hash];
    }

    /** `before_all(params = nil, &block)`. */
    method BeforeAll(params: Callback<S>, block: Option<ProcBody<S>>)
      modifies this
      ensures callbacks == Write(old(callbacks), SetBeforeAll(params, block))
    {
      callbacks := callbacks[Key.BeforeAll := ParamsOrBlock(params, block)];
    }

    /** `after(hash)`. */
    method After(hash: Callback<S>)
      modifies this
      ensures callbacks == Write(old(callbacks), SetAfter(hash))
    {
      callbacks := callbacks[Key.After := hash];
    }

    /** `after_all(params = nil, &block)`. */
    method AfterAll(params: Callback<S>, block: Option<ProcBody<S>>)
      modifies this
      ensures callbacks == Write(old(callbacks), SetAfterAll(params, block))
    {
      callbacks := callbacks[Key.AfterAll := ParamsOrBlock(params, block)];
    }
  }
}
