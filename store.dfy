/**
 * The `Store`: one live state snapshot, the root reducer, and an ordered list
 * of change listeners. Listeners are identifiers; calling one is recorded as a
 * `Notification` in a ghost log. An eventual action (a function the source
 * calls with bound `dispatch` and `getState`) is a script of steps: each step
 * dispatches something or reads the live state, and what it reads is recorded
 * in a ghost log of observations.
 */
module Stores {
  import opened States
  import opened Reducers

  type ListenerId = nat

  /** What `dispatch` can be given. */
  datatype Dispatchable =
    | Immediate(action: Option<Action>)  // a plain action object; `None` is `null`
    | Eventual(script: seq<Step>)        // a function, run with `dispatch` and `getState`
    | Omitted                            // `undefined`

  /** One step of an eventual action: call the bound `dispatch`, or call `getState`. */
  datatype Step = Call(arg: Dispatchable) | Observe

  /** One call of a listener, with the state it was given. */
  datatype Notification = Notification(listener: ListenerId, state: State)

  /** The store's state together with everything the store has done so far. */
  datatype Trace = Trace(state: State, notified: seq<Notification>, observed: seq<State>, effects: seq<Effect>)

  /** The calls `onStateChanged` makes: every listener, in list order, with `s`. */
  function Notify(listeners: seq<ListenerId>, s: State): (ns: seq<Notification>)
    ensures |ns| == |listeners|
    ensures forall i :: 0 <= i < |listeners| ==> ns[i] == Notification(listeners[i], s)
  {
    if listeners == [] then [] else [Notification(listeners[0], s)] + Notify(listeners[1..], s)
  }

  /** `listeners.filter(l => l !== h)`. */
  function Without(listeners: seq<ListenerId>, h: ListenerId): (r: seq<ListenerId>)
    ensures h !in r
    ensures forall x :: x != h ==> multiset(r)[x] == multiset(listeners)[x]
  {
    if listeners == [] then []
    else
      assert listeners == [listeners[0]] + listeners[1..];
      if listeners[0] == h then Without(listeners[1..], h)
      else [listeners[0]] + Without(listeners[1..], h)
  }

  /** Filtering keeps the relative order of the remaining listeners. */
  lemma {:induction false} WithoutConcat(a: seq<ListenerId>, b: seq<ListenerId>, h: ListenerId)
    ensures Without(a + b, h) == Without(a, h) + Without(b, h)
  {
    if a == [] {
      assert a + b == b;
    } else {
      assert (a + b)[0] == a[0] && (a + b)[1..] == a[1..] + b;
      WithoutConcat(a[1..], b, h);
      if a[0] != h {
        assert Without(a + b, h) == [a[0]] + (Without(a[1..], h) + Without(b, h));
      }
    }
  }

  /** Removing a listener that is not registered changes nothing. */
  lemma {:induction false} WithoutAbsent(listeners: seq<ListenerId>, h: ListenerId)
    requires h !in listeners
    ensures Without(listeners, h) == listeners
  {
    if listeners != [] {
      WithoutAbsent(listeners[1..], h);
    }
  }

  /**
   * `dispatch(x)` on a store with root reducer `r` and listeners `listeners`,
   * starting from `t`: a plain action merges the reducer's result into the
   * state and then notifies every listener; `undefined` does nothing; an
   * eventual action runs its steps in order.
   */
  function Run(r: Reducer, listeners: seq<ListenerId>, t: Trace, x: Dispatchable): Trace
    decreases x, 1, 0
  {
    match x
    case Omitted => t
    case Immediate(a) =>
      var fragment := Reduce(r, Some(t.state), a);
      var next := Merge(t.state, fragment.state);
      Trace(next, t.notified + Notify(listeners, next), t.observed, t.effects + fragment.effects)
    case Eventual(_) => RunScript(r, listeners, t, x, 0)
  }

  /** The steps of eventual action `x` from step `i` on. */
  function RunScript(r: Reducer, listeners: seq<ListenerId>, t: Trace, x: Dispatchable, i: nat): Trace
    requires x.Eventual? && i <= |x.script|
    decreases x, 0, |x.script| - i
  {
    if i == |x.script| then t
    else
      assert x.script[i] in x.script;
      var t' := match x.script[i]
        case Observe => t.(observed := t.observed + [t.state])
        case Call(y) => Run(r, listeners, t, y);
      RunScript(r, listeners, t', x, i + 1)
  }

  /** The number of plain-action dispatches `dispatch(x)` performs, nested ones included. */
  function Dispatches(x: Dispatchable): nat
    decreases x, 1, 0
  {
    match x
    case Omitted => 0
    case Immediate(_) => 1
    case Eventual(_) => ScriptDispatches(x, 0)
  }

  function ScriptDispatches(x: Dispatchable, i: nat): nat
    requires x.Eventual? && i <= |x.script|
    decreases x, 0, |x.script| - i
  {
    if i == |x.script| then 0
    else
      assert x.script[i] in x.script;
      (match x.script[i] case Observe => 0 case Call(y) => Dispatches(y)) + ScriptDispatches(x, i + 1)
  }

  /**
   * A plain-action dispatch: keys the reducer's result holds take the result's
   * value, keys only in the old state keep theirs, and then every listener is
   * notified once, in list order, with the new state; `getState` reads are not
   * affected.
   */
  lemma ImmediateDispatch(r: Reducer, listeners: seq<ListenerId>, t: Trace, a: Option<Action>)
    ensures var fragment := Reduce(r, Some(t.state), a).state;
      var out := Run(r, listeners, t, Immediate(a));
      && out.state.Keys == t.state.Keys + fragment.Keys
      && (forall k :: k in fragment ==> out.state[k] == fragment[k])
      && (forall k :: k in t.state && k !in fragment ==> out.state[k] == t.state[k])
      && |out.notified| == |t.notified| + |listeners|
      && out.notified[..|t.notified|] == t.notified
      && (forall i :: 0 <= i < |listeners| ==> out.notified[|t.notified| + i] == Notification(listeners[i], out.state))
      && out.observed == t.observed
  {
  }

  /** Dispatching `undefined` changes nothing and notifies no one. */
  lemma UndefinedDispatch(r: Reducer, listeners: seq<ListenerId>, t: Trace)
    ensures Run(r, listeners, t, Omitted) == t
  {
  }

  /**
   * Every plain-action dispatch, nested ones included, notifies each listener
   * exactly once: the notification log grows by one entry per listener per
   * plain action.
   */
  lemma {:induction false} DispatchNotifications(r: Reducer, listeners: seq<ListenerId>, t: Trace, x: Dispatchable)
    ensures |Run(r, listeners, t, x).notified| == |t.notified| + |listeners| * Dispatches(x)
    decreases x, 1, 0
  {
    if x.Eventual? {
      ScriptNotifications(r, listeners, t, x, 0);
    }
  }

  lemma {:induction false} ScriptNotifications(r: Reducer, listeners: seq<ListenerId>, t: Trace, x: Dispatchable, i: nat)
    requires x.Eventual? && i <= |x.script|
    ensures |RunScript(r, listeners, t, x, i).notified| == |t.notified| + |listeners| * ScriptDispatches(x, i)
    decreases x, 0, |x.script| - i
  {
    if i < |x.script| {
      assert x.script[i] in x.script;
      match x.script[i] {
        case Observe =>
          ScriptNotifications(r, listeners, t.(observed := t.observed + [t.state]), x, i + 1);
        case Call(y) =>
          DispatchNotifications(r, listeners, t, y);
          ScriptNotifications(r, listeners, Run(r, listeners, t, y), x, i + 1);
          assert |listeners| * (Dispatches(y) + ScriptDispatches(x, i + 1))
              == |listeners| * Dispatches(y) + |listeners| * ScriptDispatches(x, i + 1);
      }
    }
  }

  /** How many calls of listener `h` the log `ns` records. */
  function Calls(ns: seq<Notification>, h: ListenerId): nat {
    if ns == [] then 0 else (if ns[0].listener == h then 1 else 0) + Calls(ns[1..], h)
  }

  /** Counting calls over a log that grew by appending. */
  lemma {:induction false} CallsConcat(a: seq<Notification>, b: seq<Notification>, h: ListenerId)
    ensures Calls(a + b, h) == Calls(a, h) + Calls(b, h)
  {
    if a != [] {
      assert (a + b)[0] == a[0] && (a + b)[1..] == a[1..] + b;
      CallsConcat(a[1..], b, h);
    } else {
      assert a + b == b;
    }
  }

  /** `onStateChanged` calls each listener as often as it is registered. */
  lemma {:induction false} NotifyCalls(listeners: seq<ListenerId>, s: State, h: ListenerId)
    ensures Calls(Notify(listeners, s), h) == multiset(listeners)[h]
  {
    if listeners != [] {
      NotifyCalls(listeners[1..], s, h);
      assert listeners == [listeners[0]] + listeners[1..];
    }
  }

  /**
   * Each listener `h` is called once per registration per plain-action
   * dispatch, nested ones included: a dispatch adds exactly
   * `multiset(listeners)[h] * Dispatches(x)` calls of `h` to the log, so a
   * listener registered once is called once per plain action and an
   * unregistered one never.
   */
  lemma {:induction false} DispatchCalls(r: Reducer, listeners: seq<ListenerId>, t: Trace, x: Dispatchable, h: ListenerId)
    ensures Calls(Run(r, listeners, t, x).notified, h) == Calls(t.notified, h) + multiset(listeners)[h] * Dispatches(x)
    decreases x, 1, 0
  {
    match x
    case Omitted =>
    case Immediate(a) =>
      var out := Run(r, listeners, t, x);
      NotifyCalls(listeners, out.state, h);
      CallsConcat(t.notified, Notify(listeners, out.state), h);
    case Eventual(_) =>
      ScriptCalls(r, listeners, t, x, 0, h);
  }

  lemma {:induction false} ScriptCalls(r: Reducer, listeners: seq<ListenerId>, t: Trace, x: Dispatchable, i: nat, h: ListenerId)
    requires x.Eventual? && i <= |x.script|
    ensures Calls(RunScript(r, listeners, t, x, i).notified, h) == Calls(t.notified, h) + multiset(listeners)[h] * ScriptDispatches(x, i)
    decreases x, 0, |x.script| - i
  {
    if i < |x.script| {
      assert x.script[i] in x.script;
      match x.script[i] {
        case Observe =>
          ScriptCalls(r, listeners, t.(observed := t.observed + [t.state]), x, i + 1, h);
        case Call(y) =>
          var mid := Run(r, listeners, t, y);
          DispatchCalls(r, listeners, t, y, h);
          ScriptCalls(r, listeners, mid, x, i + 1, h);
          assert RunScript(r, listeners, t, x, i) == RunScript(r, listeners, mid, x, i + 1);
          assert ScriptDispatches(x, i) == Dispatches(y) + ScriptDispatches(x, i + 1);
          Distribute(multiset(listeners)[h], Dispatches(y), ScriptDispatches(x, i + 1));
      }
    }
  }

  /** Kept apart so that the inductive step above does not reason about products itself. */
  lemma Distribute(n: nat, a: nat, b: nat)
    ensures n * (a + b) == n * a + n * b
  {
  }

  /** Every entry of `ns` from position `from` on is a call of one of `listeners`. */
  ghost predicate CallsOnly(ns: seq<Notification>, from: nat, listeners: seq<ListenerId>) {
    forall k :: from <= k < |ns| ==> ns[k].listener in listeners
  }

  /** Every call a dispatch makes goes to a listener registered when it started. */
  lemma {:induction false} DispatchOnlyListeners(r: Reducer, listeners: seq<ListenerId>, t: Trace, x: Dispatchable)
    ensures CallsOnly(Run(r, listeners, t, x).notified, |t.notified|, listeners)
    decreases x, 1, 0
  {
    match x
    case Omitted =>
    case Immediate(a) =>
      var out := Run(r, listeners, t, x);
      assert out.notified == t.notified + Notify(listeners, out.state);
    case Eventual(_) =>
      ScriptOnlyListeners(r, listeners, t, x, 0);
  }

  lemma {:induction false} ScriptOnlyListeners(r: Reducer, listeners: seq<ListenerId>, t: Trace, x: Dispatchable, i: nat)
    requires x.Eventual? && i <= |x.script|
    ensures CallsOnly(RunScript(r, listeners, t, x, i).notified, |t.notified|, listeners)
    decreases x, 0, |x.script| - i
  {
    if i < |x.script| {
      assert x.script[i] in x.script;
      match x.script[i] {
        case Observe =>
          ScriptOnlyListeners(r, listeners, t.(observed := t.observed + [t.state]), x, i + 1);
        case Call(y) =>
          var mid := Run(r, listeners, t, y);
          DispatchOnlyListeners(r, listeners, t, y);
          DispatchKeepsNotifications(r, listeners, t, y);
          ScriptKeepsNotifications(r, listeners, mid, x, i + 1);
          ScriptOnlyListeners(r, listeners, mid, x, i + 1);
          CallsOnlyConcat(RunScript(r, listeners, mid, x, i + 1).notified, mid.notified, |t.notified|, listeners);
      }
    }
  }

  /** Two stretches of a growing log that each call only `listeners` make one. */
  lemma CallsOnlyConcat(ns: seq<Notification>, prefix: seq<Notification>, from: nat, listeners: seq<ListenerId>)
    requires prefix <= ns && from <= |prefix|
    requires CallsOnly(prefix, from, listeners) && CallsOnly(ns, |prefix|, listeners)
    ensures CallsOnly(ns, from, listeners)
  {
    forall k | from <= k < |ns|
      ensures ns[k].listener in listeners
    {
      if k < |prefix| {
        assert ns[k] == prefix[k];
      }
    }
  }

  /**
   * After `unsubscribe(h)` no later dispatch, however nested, calls `h`: every
   * entry it adds to the log is for some other listener.
   */
  lemma RemovedNotNotified(r: Reducer, listeners: seq<ListenerId>, t: Trace, x: Dispatchable, h: ListenerId)
    ensures var out := Run(r, Without(listeners, h), t, x);
      forall k :: |t.notified| <= k < |out.notified| ==> out.notified[k].listener != h
  {
    DispatchOnlyListeners(r, Without(listeners, h), t, x);
  }

  /** Dispatching only ever appends to the notification log. */
  lemma {:induction false} DispatchKeepsNotifications(r: Reducer, listeners: seq<ListenerId>, t: Trace, x: Dispatchable)
    ensures t.notified <= Run(r, listeners, t, x).notified
    decreases x, 1, 0
  {
    if x.Eventual? {
      ScriptKeepsNotifications(r, listeners, t, x, 0);
    }
  }

  lemma {:induction false} ScriptKeepsNotifications(r: Reducer, listeners: seq<ListenerId>, t: Trace, x: Dispatchable, i: nat)
    requires x.Eventual? && i <= |x.script|
    ensures t.notified <= RunScript(r, listeners, t, x, i).notified
    decreases x, 0, |x.script| - i
  {
    if i < |x.script| {
      assert x.script[i] in x.script;
      match x.script[i] {
        case Observe =>
          ScriptKeepsNotifications(r, listeners, t.(observed := t.observed + [t.state]), x, i + 1);
        case Call(y) =>
          DispatchKeepsNotifications(r, listeners, t, y);
          ScriptKeepsNotifications(r, listeners, Run(r, listeners, t, y), x, i + 1);
      }
    }
  }

  /** No dispatch ever removes a top-level key of the state. */
  lemma {:induction false} DispatchKeepsKeys(r: Reducer, listeners: seq<ListenerId>, t: Trace, x: Dispatchable)
    ensures t.state.Keys <= Run(r, listeners, t, x).state.Keys
    decreases x, 1, 0
  {
    if x.Eventual? {
      ScriptKeepsKeys(r, listeners, t, x, 0);
    }
  }

  lemma {:induction false} ScriptKeepsKeys(r: Reducer, listeners: seq<ListenerId>, t: Trace, x: Dispatchable, i: nat)
    requires x.Eventual? && i <= |x.script|
    ensures t.state.Keys <= RunScript(r, listeners, t, x, i).state.Keys
    decreases x, 0, |x.script| - i
  {
    if i < |x.script| {
      assert x.script[i] in x.script;
      match x.script[i] {
        case Observe =>
          ScriptKeepsKeys(r, listeners, t.(observed := t.observed + [t.state]), x, i + 1);
        case Call(y) =>
          DispatchKeepsKeys(r, listeners, t, y);
          ScriptKeepsKeys(r, listeners, Run(r, listeners, t, y), x, i + 1);
      }
    }
  }

  /**
   * An eventual action that performs no plain-action dispatch, however deeply
   * nested, leaves the state, the notification log and the side-effect log as
   * they were: it can only read.
   */
  lemma {:induction false} QuietDispatch(r: Reducer, listeners: seq<ListenerId>, t: Trace, x: Dispatchable)
    requires Dispatches(x) == 0
    ensures var out := Run(r, listeners, t, x);
      out.state == t.state && out.notified == t.notified && out.effects == t.effects
    decreases x, 1, 0
  {
    if x.Eventual? {
      QuietScript(r, listeners, t, x, 0);
    }
  }

  lemma {:induction false} QuietScript(r: Reducer, listeners: seq<ListenerId>, t: Trace, x: Dispatchable, i: nat)
    requires x.Eventual? && i <= |x.script| && ScriptDispatches(x, i) == 0
    ensures var out := RunScript(r, listeners, t, x, i);
      out.state == t.state && out.notified == t.notified && out.effects == t.effects
    decreases x, 0, |x.script| - i
  {
    if i < |x.script| {
      assert x.script[i] in x.script;
      match x.script[i] {
        case Observe =>
          QuietScript(r, listeners, t.(observed := t.observed + [t.state]), x, i + 1);
        case Call(y) =>
          QuietDispatch(r, listeners, t, y);
          QuietScript(r, listeners, Run(r, listeners, t, y), x, i + 1);
      }
    }
  }

  /**
   * `getState` inside an eventual action reads the live state: read, dispatch a
   * plain action, read again, and the second read already sees that action's
   * result, which is also the state the store is left in.
   */
  lemma LiveRead(r: Reducer, listeners: seq<ListenerId>, t: Trace, a: Option<Action>)
    ensures var x := Eventual([Observe, Call(Immediate(a)), Observe]);
      var after := Run(r, listeners, t, Immediate(a)).state;
      Run(r, listeners, t, x).observed == t.observed + [t.state, after] && Run(r, listeners, t, x).state == after
  {
    var x := Eventual([Observe, Call(Immediate(a)), Observe]);
    var t1 := t.(observed := t.observed + [t.state]);
    var t2 := Run(r, listeners, t1, Immediate(a));
    var t3 := t2.(observed := t2.observed + [t2.state]);
    assert Run(r, listeners, t, x) == RunScript(r, listeners, t, x, 0);
    assert RunScript(r, listeners, t, x, 0) == RunScript(r, listeners, t1, x, 1);
    assert RunScript(r, listeners, t1, x, 1) == RunScript(r, listeners, t2, x, 2);
    assert RunScript(r, listeners, t2, x, 2) == RunScript(r, listeners, t3, x, 3) == t3;
    assert t2.state == Run(r, listeners, t, Immediate(a)).state;
    assert t2.observed == t1.observed;
  }

  /**
   * `getState` read right after a nested `dispatch` step of an eventual action
   * sees the state that dispatch left, and the rest of the script runs on from
   * there.
   */
  lemma ReadAfterDispatch(r: Reducer, listeners: seq<ListenerId>, t: Trace, x: Dispatchable, i: nat)
    requires x.Eventual? && i + 1 < |x.script| && x.script[i].Call? && x.script[i + 1].Observe?
    ensures var after := Run(r, listeners, t, x.script[i].arg);
      RunScript(r, listeners, t, x, i) == RunScript(r, listeners, after.(observed := after.observed + [after.state]), x, i + 2)
  {
    var after := Run(r, listeners, t, x.script[i].arg);
    assert RunScript(r, listeners, t, x, i) == RunScript(r, listeners, after, x, i + 1);
  }

  class Store {
    var state: State
    const reducer: Reducer
    var listeners: seq<ListenerId>
    ghost var notified: seq<Notification>
    ghost var observed: seq<State>
    ghost var effects: seq<Effect>

    ghost function Snapshot(): Trace
      reads this
    {
      Trace(state, notified, observed, effects)
    }

    /** A non-null initial state is used as it is; `null` defers to `reducer()`. */
    constructor(initialState: Option<State>, reducer: Reducer)
      ensures this.reducer == reducer
      ensures initialState.Some? ==> state == initialState.value && effects == []
      ensures initialState.None? ==> Reduction(state, effects) == Reduce(reducer, None, None)
      ensures listeners == [] && notified == [] && observed == []
    {
      var st, fired := initialState.GetOr(map[]), [];
      if initialState.None? {
        st, fired := RunReducer(reducer, None, None);
      }
      state := st;
      this.reducer := reducer;
      listeners := [];
      notified, observed, effects := [], [], fired;
    }

    method AddListener(handler: ListenerId)
      modifies this
      ensures listeners == old(listeners) + [handler]
      ensures Snapshot() == old(Snapshot())
    {
      listeners := listeners + [handler];
    }

    method RemoveListener(handler: ListenerId)
      modifies this
      ensures listeners == Without(old(listeners), handler)
      ensures Snapshot() == old(Snapshot())
    {
      listeners := Without(listeners, handler);
    }

    /** Calls every listener, in list order, with the current state. */
    method OnStateChanged()
      modifies this`notified
      ensures notified == old(notified) + Notify(listeners, state)
    {
      var i := 0;
      while i < |listeners|
        invariant 0 <= i <= |listeners|
        invariant notified == old(notified) + Notify(listeners[..i], state)
      {
        var current := GetState();
        notified := notified + [Notification(listeners[i], current)];
        i := i + 1;
        assert Notify(listeners[..i], state) == Notify(listeners[..i - 1], state) + [Notification(listeners[i - 1], state)];
      }
      assert listeners[..i] == listeners;
    }

    method GetState() returns (s: State)
      ensures s == state
    {
      s := state;
    }

    method Dispatch(x: Dispatchable)
      modifies this
      ensures Snapshot() == Run(reducer, old(listeners), old(Snapshot()), x)
      ensures listeners == old(listeners)
      decreases x
    {
      match x
      case Omitted =>
      case Immediate(a) =>
        var current := GetState();
        var fragment, fired := RunReducer(reducer, Some(current), a);
        effects := effects + fired;
        state := Merge(state, fragment);
        OnStateChanged();
      case Eventual(script) =>
        var i := 0;
        while i < |script|
          invariant 0 <= i <= |script|
          invariant listeners == old(listeners)
          invariant RunScript(reducer, listeners, Snapshot(), x, i) == Run(reducer, listeners, old(Snapshot()), x)
        {
          assert script[i] in script;
          match script[i] {
            case Observe =>
              var seen := GetState();
              observed := observed + [seen];
            case Call(y) =>
              Dispatch(y);
          }
          i := i + 1;
        }
    }
  }

  // ---------------------------------------------------------------------------
  // The store scenario of the source's tests

  const Counting := Action(Str("COUNTING"), Undefined)

  /** The state `{counter: n}`. */
  function Counter(n: int): State {
    map["counter" := Num(n)]
  }

  /** The tests build their states with `createState({counter: n})`; that is `Counter(n)`. */
  lemma CounterCreated(n: int)
    ensures CreateState([("counter", Num(n))]) == Counter(n)
  {
  }

  /** The test reducer: `counter` defaults to 1 and COUNTING increments it. */
  function Count(s: Option<State>, a: Option<Action>): State {
    var st := s.GetOr(Counter(1));
    if a.Some? && a.value.kind == Str("COUNTING") && "counter" in st && st["counter"].Num?
    then st["counter" := Num(st["counter"].n + 1)]
    else st
  }

  function CountingReducer(): Reducer {
    Custom(Count)
  }

  /** One COUNTING dispatch on a counter state increments it. */
  lemma CountingStep(n: int)
    ensures Merge(Counter(n), Reduce(CountingReducer(), Some(Counter(n)), Some(Counting)).state) == Counter(n + 1)
  {
    assert Counter(n)["counter" := Num(n + 1)] == Counter(n + 1);
    assert Merge(Counter(n), Counter(n + 1)) == Counter(n + 1);
  }

  /**
   * A store built with a null initial state starts at `reducer()`, counter 1; a
   * plain COUNTING dispatch takes it to 2; an eventual action then reads 2,
   * dispatches COUNTING and reads 3 straight away, and the store ends at 3.
   */
  method CounterScenario() returns (initial: State, afterPlain: State, afterEventual: State, ghost seen: seq<State>)
    ensures initial == Counter(1) && afterPlain == Counter(2) && afterEventual == Counter(3)
    ensures seen == [Counter(2), Counter(3)]
  {
    var store := new Store(None, CountingReducer());
    initial := store.GetState();
    store.Dispatch(Immediate(Some(Counting)));
    CountingStep(1);
    afterPlain := store.GetState();
    ghost var before := store.Snapshot();
    store.Dispatch(Eventual([Observe, Call(Immediate(Some(Counting))), Observe]));
    LiveRead(store.reducer, store.listeners, before, Some(Counting));
    CountingStep(2);
    seen := store.observed[|before.observed|..];
    afterEventual := store.GetState();
  }
}
