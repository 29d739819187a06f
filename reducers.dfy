/**
 * Reducer composition: the reducers returned by `createReducer` (a table of
 * handlers keyed by action type) and `combineReducers` (a tree of named
 * sub-reducers, one per slice of the state), and any other reducer function.
 *
 * A reducer is a datatype describing which closure the source builds; `Reduce`
 * is the specification of calling it and `RunReducer` the step-by-step
 * implementation of the closures' `forEach` loops. An optional side effect is
 * an identifier; calling it appends `Effect(id, state)` to a log.
 */
module Reducers {
  import opened States

  type EffectId = nat

  /** One call of a configured side effect, with the state it was given. */
  datatype Effect = Effect(id: EffectId, state: State)

  /** A handler of a `createReducer` table: `(state, action) => state`. */
  type Handler = (State, Action) -> State

  /** A table entry: the action type it answers to and its handler. */
  datatype Case = Case(kind: string, handler: Handler)

  /** A tree entry: the slice name and the sub-reducer owning that slice. */
  datatype Entry = Entry(key: string, reducer: Reducer)

  datatype Reducer =
    | Created(initial: State, cases: seq<Case>, sideEffect: Option<EffectId>)
    | Combined(entries: seq<Entry>, sideEffect: Option<EffectId>)
    | Custom(run: (Option<State>, Option<Action>) -> State)

  /** What calling a reducer yields: the new state and the side-effect calls made. */
  datatype Reduction = Reduction(state: State, effects: seq<Effect>)

  /** The calls an optional side effect makes when run once with `s`. */
  function Fire(sideEffect: Option<EffectId>, s: State): seq<Effect> {
    if sideEffect.Some? then [Effect(sideEffect.value, s)] else []
  }

  /** An action that the early return of a `createReducer` reducer lets through. */
  predicate HasType(a: Option<Action>) {
    a.Some? && Truthy(a.value.kind)
  }

  /** Object keys are distinct; the table's order is `Object.keys` order. */
  predicate DistinctKinds(cases: seq<Case>) {
    forall i, j :: 0 <= i < j < |cases| ==> cases[i].kind != cases[j].kind
  }

  predicate DistinctKeys(entries: seq<Entry>) {
    forall i, j :: 0 <= i < j < |entries| ==> entries[i].key != entries[j].key
  }

  /** The slice names of the tree entries from `i` on; `KeysFrom(entries, 0)` is every slice name. */
  function KeysFrom(entries: seq<Entry>, i: nat): set<string> {
    set j | i <= j < |entries| :: entries[j].key
  }

  /** The table loop: every case whose key strictly equals the action's type rewrites the state. */
  function ApplyCases(cases: seq<Case>, s: State, a: Action): State
  {
    if cases == [] then s
    else ApplyCases(cases[1..], if a.kind == Str(cases[0].kind) then cases[0].handler(s, a) else s, a)
  }

  /** `state.get(key)` handed to a sub-reducer: a nested map, or absent. */
  function SliceOf(s: State, key: string): (slice: Option<State>)
    ensures slice.Some? <==> key in s && s[key].Nested?
    ensures slice.Some? ==> s[key] == Nested(slice.value)
  {
    if key in s && s[key].Nested? then Some(s[key].fields) else None
  }

  /** Calling reducer `r` with an optional state and an optional action. */
  function Reduce(r: Reducer, s: Option<State>, a: Option<Action>): Reduction
    decreases r, 1, 0
  {
    match r
    case Custom(f) => Reduction(f(s, a), [])
    case Created(initial, cases, sideEffect) =>
      var st := s.GetOr(initial);
      if !HasType(a) then Reduction(st, [])
      else
        var res := ApplyCases(cases, st, a.value);
        Reduction(res, Fire(sideEffect, res))
    case Combined(entries, sideEffect) =>
      var composed := ReduceEntries(r, s.GetOr(map[]), a, 0);
      Reduction(composed.state, composed.effects + Fire(sideEffect, composed.state))
  }

  /** The tree loop from entry `i` on: each slice is replaced by its sub-reducer's result. */
  function ReduceEntries(r: Reducer, s: State, a: Option<Action>, i: nat): Reduction
    requires r.Combined? && i <= |r.entries|
    decreases r, 0, |r.entries| - i
  {
    if i == |r.entries| then Reduction(s, [])
    else
      var e := r.entries[i];
      assert e in r.entries;
      var sub := Reduce(e.reducer, SliceOf(s, e.key), a);
      var rest := ReduceEntries(r, s[e.key := Nested(sub.state)], a, i + 1);
      Reduction(rest.state, sub.effects + rest.effects)
  }

  /**
   * The side-effect calls the sub-reducers from entry `i` on make when each is
   * given its slice of `s`, in tree order: a reference definition that does not
   * thread the partially composed state.
   */
  function SubEffects(entries: seq<Entry>, s: State, a: Option<Action>, i: nat): seq<Effect>
    requires i <= |entries|
    decreases |entries| - i
  {
    if i == |entries| then []
    else Reduce(entries[i].reducer, SliceOf(s, entries[i].key), a).effects + SubEffects(entries, s, a, i + 1)
  }

  /**
   * Calls reducer `r`, running the `forEach` loops of the closures that
   * `createReducer` and `combineReducers` return.
   */
  method RunReducer(r: Reducer, s: Option<State>, a: Option<Action>) returns (out: State, effects: seq<Effect>)
    ensures Reduction(out, effects) == Reduce(r, s, a)
    decreases r, 1
  {
    match r
    case Custom(f) =>
      out, effects := f(s, a), [];
    case Created(initial, cases, sideEffect) =>
      out, effects := s.GetOr(initial), [];
      if !HasType(a) {
        return;
      }
      out := RunCases(cases, out, a.value);
      effects := Fire(sideEffect, out);
    case Combined(entries, sideEffect) =>
      out, effects := RunEntries(r, s.GetOr(map[]), a);
      effects := effects + Fire(sideEffect, out);
  }

  /** The loop of a `createReducer` closure over its table of cases. */
  method RunCases(cases: seq<Case>, s: State, a: Action) returns (out: State)
    ensures out == ApplyCases(cases, s, a)
  {
    out := s;
    var i := 0;
    while i < |cases|
      invariant 0 <= i <= |cases|
      invariant ApplyCases(cases[i..], out, a) == ApplyCases(cases, s, a)
    {
      assert cases[i..][1..] == cases[i + 1..];
      if a.kind == Str(cases[i].kind) {
        out := cases[i].handler(out, a);
      }
      i := i + 1;
    }
  }

  /** The loop of a `combineReducers` closure over its tree of sub-reducers. */
  method RunEntries(r: Reducer, s: State, a: Option<Action>) returns (out: State, effects: seq<Effect>)
    requires r.Combined?
    ensures Reduction(out, effects) == ReduceEntries(r, s, a, 0)
    decreases r, 0
  {
    out, effects := s, [];
    var i := 0;
    while i < |r.entries|
      invariant 0 <= i <= |r.entries|
      invariant var rest := ReduceEntries(r, out, a, i);
        Reduction(rest.state, effects + rest.effects) == ReduceEntries(r, s, a, 0)
    {
      var e := r.entries[i];
      assert e in r.entries;
      var sub, fired := RunReducer(e.reducer, SliceOf(out, e.key), a);
      ReduceEntriesUnfold(r, out, a, i, sub, fired);
      out := out[e.key := Nested(sub)];
      effects := effects + fired;
      i := i + 1;
    }
  }

  /** One turn of the tree loop, given what the entry's sub-reducer returned. */
  lemma ReduceEntriesUnfold(r: Reducer, s: State, a: Option<Action>, i: nat, sub: State, fired: seq<Effect>)
    requires r.Combined? && i < |r.entries|
    requires Reduction(sub, fired) == Reduce(r.entries[i].reducer, SliceOf(s, r.entries[i].key), a)
    ensures forall effects: seq<Effect> ::
      var rest := ReduceEntries(r, s[r.entries[i].key := Nested(sub)], a, i + 1);
      var whole := ReduceEntries(r, s, a, i);
      whole.state == rest.state && effects + whole.effects == (effects + fired) + rest.effects
  {
  }

  // ---------------------------------------------------------------------------
  // createReducer

  /** A case whose key equals the action's type is the one that rewrites the state. */
  lemma {:induction false} ApplyCasesMatch(cases: seq<Case>, s: State, a: Action, j: nat)
    requires DistinctKinds(cases)
    requires j < |cases| && a.kind == Str(cases[j].kind)
    ensures ApplyCases(cases, s, a) == cases[j].handler(s, a)
  {
    if j == 0 {
      ApplyCasesNoMatch(cases[1..], cases[0].handler(s, a), a);
    } else {
      assert cases[0].kind != cases[j].kind;
      ApplyCasesMatch(cases[1..], s, a, j - 1);
    }
  }

  /** A type matching no key leaves the state as it is. */
  lemma {:induction false} ApplyCasesNoMatch(cases: seq<Case>, s: State, a: Action)
    requires forall j :: 0 <= j < |cases| ==> a.kind != Str(cases[j].kind)
    ensures ApplyCases(cases, s, a) == s
  {
    if cases != [] {
      assert a.kind != Str(cases[0].kind);
      ApplyCasesNoMatch(cases[1..], s, a);
    }
  }

  /**
   * The reducer `createReducer(initial, cases, sideEffect)` returns: an absent
   * state defaults to `initial`; without an action or with a falsy type it is
   * the identity and calls no side effect; otherwise the case keyed by the type
   * (or none) decides the result, and the side effect is called exactly once
   * with that result.
   */
  lemma CreatedReducer(initial: State, cases: seq<Case>, sideEffect: Option<EffectId>, s: Option<State>, a: Option<Action>)
    requires DistinctKinds(cases)
    ensures var out := Reduce(Created(initial, cases, sideEffect), s, a);
      && (!HasType(a) ==> out == Reduction(s.GetOr(initial), []))
      && (HasType(a) ==> out.effects == Fire(sideEffect, out.state))
      && (forall j :: 0 <= j < |cases| && HasType(a) && a.value.kind == Str(cases[j].kind) ==>
            out.state == cases[j].handler(s.GetOr(initial), a.value))
      && (HasType(a) && (forall j :: 0 <= j < |cases| ==> a.value.kind != Str(cases[j].kind)) ==>
            out.state == s.GetOr(initial))
  {
    if HasType(a) {
      forall j | 0 <= j < |cases| && a.value.kind == Str(cases[j].kind)
        ensures ApplyCases(cases, s.GetOr(initial), a.value) == cases[j].handler(s.GetOr(initial), a.value)
      {
        ApplyCasesMatch(cases, s.GetOr(initial), a.value, j);
      }
      if forall j :: 0 <= j < |cases| ==> a.value.kind != Str(cases[j].kind) {
        ApplyCasesNoMatch(cases, s.GetOr(initial), a.value);
      }
    }
  }

  /** `reducer()` on a `createReducer` reducer returns the initial state exactly. */
  lemma CreatedDefault(initial: State, cases: seq<Case>, sideEffect: Option<EffectId>)
    ensures Reduce(Created(initial, cases, sideEffect), None, None) == Reduction(initial, [])
  {
  }

  // ---------------------------------------------------------------------------
  // combineReducers

  /**
   * The tree loop from entry `i` on adds exactly the remaining keys, and every
   * key outside them keeps its value.
   */
  lemma {:induction false} ReduceEntriesKeys(r: Reducer, s: State, a: Option<Action>, i: nat)
    requires r.Combined? && i <= |r.entries|
    ensures var out := ReduceEntries(r, s, a, i).state;
      && out.Keys == s.Keys + KeysFrom(r.entries, i)
      && (forall k :: k in s && k !in KeysFrom(r.entries, i) ==> out[k] == s[k])
    decreases |r.entries| - i
  {
    if i < |r.entries| {
      var e := r.entries[i];
      var s' := s[e.key := Nested(Reduce(e.reducer, SliceOf(s, e.key), a).state)];
      ReduceEntriesKeys(r, s', a, i + 1);
      assert ReduceEntries(r, s, a, i).state == ReduceEntries(r, s', a, i + 1).state;
      assert KeysFrom(r.entries, i) == {e.key} + KeysFrom(r.entries, i + 1);
    }
  }

  /**
   * The tree loop from entry `i` on, with distinct keys: each remaining key is
   * mapped to its sub-reducer's result on that key's slice of the state the loop
   * started from.
   */
  lemma {:induction false} ReduceEntriesState(r: Reducer, s: State, a: Option<Action>, i: nat)
    requires r.Combined? && i <= |r.entries| && DistinctKeys(r.entries)
    ensures var out := ReduceEntries(r, s, a, i).state;
      forall j :: i <= j < |r.entries| ==>
        && r.entries[j].key in out
        && out[r.entries[j].key] == Nested(Reduce(r.entries[j].reducer, SliceOf(s, r.entries[j].key), a).state)
    decreases |r.entries| - i
  {
    if i < |r.entries| {
      var e := r.entries[i];
      var s' := s[e.key := Nested(Reduce(e.reducer, SliceOf(s, e.key), a).state)];
      ReduceEntriesState(r, s', a, i + 1);
      ReduceEntriesKeys(r, s', a, i + 1);
      var out := ReduceEntries(r, s', a, i + 1).state;
      assert ReduceEntries(r, s, a, i).state == out;
      assert e.key !in KeysFrom(r.entries, i + 1);
      forall j | i < j < |r.entries|
        ensures SliceOf(s', r.entries[j].key) == SliceOf(s, r.entries[j].key)
      {
        assert r.entries[j].key != e.key;
      }
    }
  }

  /** The side effects of the tree loop from entry `i` on are the sub-reducers' own, in tree order. */
  lemma {:induction false} ReduceEntriesEffects(r: Reducer, s: State, a: Option<Action>, i: nat)
    requires r.Combined? && i <= |r.entries| && DistinctKeys(r.entries)
    ensures ReduceEntries(r, s, a, i).effects == SubEffects(r.entries, s, a, i)
    decreases |r.entries| - i
  {
    if i < |r.entries| {
      var e := r.entries[i];
      var sub := Reduce(e.reducer, SliceOf(s, e.key), a);
      var s' := s[e.key := Nested(sub.state)];
      ReduceEntriesEffects(r, s', a, i + 1);
      assert ReduceEntries(r, s, a, i).effects == sub.effects + ReduceEntries(r, s', a, i + 1).effects;
      forall j | i + 1 <= j < |r.entries|
        ensures SliceOf(s', r.entries[j].key) == SliceOf(s, r.entries[j].key)
      {
        assert r.entries[j].key != e.key;
      }
      SubEffectsSlices(r.entries, s, s', a, i + 1);
    }
  }

  /** The sub-reducers' effects do not depend on a slice none of them owns. */
  lemma {:induction false} SubEffectsSlices(entries: seq<Entry>, s: State, s': State, a: Option<Action>, i: nat)
    requires i <= |entries|
    requires forall j :: i <= j < |entries| ==> SliceOf(s, entries[j].key) == SliceOf(s', entries[j].key)
    ensures SubEffects(entries, s, a, i) == SubEffects(entries, s', a, i)
    decreases |entries| - i
  {
    if i < |entries| {
      SubEffectsSlices(entries, s, s', a, i + 1);
    }
  }

  /**
   * The reducer `combineReducers(entries, sideEffect)` returns: an absent state
   * starts from the empty map; afterwards every tree key holds its sub-reducer's
   * result on that key's old slice, every key outside the tree keeps its old
   * value, and the side effect is called exactly once, last, with the final
   * composed state.
   */
  lemma CombinedReducer(entries: seq<Entry>, sideEffect: Option<EffectId>, s: Option<State>, a: Option<Action>)
    requires DistinctKeys(entries)
    ensures var st := s.GetOr(map[]);
      var out := Reduce(Combined(entries, sideEffect), s, a);
      && out.state.Keys == st.Keys + KeysFrom(entries, 0)
      && (forall j :: 0 <= j < |entries| ==>
            out.state[entries[j].key] == Nested(Reduce(entries[j].reducer, SliceOf(st, entries[j].key), a).state))
      && (forall k :: k in st && k !in KeysFrom(entries, 0) ==> out.state[k] == st[k])
      && out.effects == SubEffects(entries, st, a, 0) + Fire(sideEffect, out.state)
  {
    ReduceEntriesKeys(Combined(entries, sideEffect), s.GetOr(map[]), a, 0);
    ReduceEntriesState(Combined(entries, sideEffect), s.GetOr(map[]), a, 0);
    ReduceEntriesEffects(Combined(entries, sideEffect), s.GetOr(map[]), a, 0);
  }

  /** The keys a combined reducer's result holds. */
  lemma CombinedKeys(entries: seq<Entry>, sideEffect: Option<EffectId>, s: Option<State>, a: Option<Action>)
    requires DistinctKeys(entries)
    ensures Reduce(Combined(entries, sideEffect), s, a).state.Keys == s.GetOr(map[]).Keys + KeysFrom(entries, 0)
  {
    CombinedReducer(entries, sideEffect, s, a);
  }

  /**
   * `reducer()` on a combined reducer has exactly the tree's keys, each holding
   * what its sub-reducer returns when called with no state and no action.
   */
  lemma CombinedDefault(entries: seq<Entry>, sideEffect: Option<EffectId>)
    requires DistinctKeys(entries)
    ensures var out := Reduce(Combined(entries, sideEffect), None, None).state;
      && out.Keys == KeysFrom(entries, 0)
      && forall j :: 0 <= j < |entries| ==> out[entries[j].key] == Nested(Reduce(entries[j].reducer, None, None).state)
  {
    CombinedReducer(entries, sideEffect, None, None);
  }

  /**
   * A slice whose `createReducer` sub-reducer has no case for the action keeps
   * its value, whatever the other sub-reducers do with the action.
   */
  lemma CombinedUnhandledSlice(entries: seq<Entry>, sideEffect: Option<EffectId>, s: State, a: Option<Action>, j: nat)
    requires DistinctKeys(entries) && j < |entries|
    requires entries[j].reducer.Created? && DistinctKinds(entries[j].reducer.cases)
    requires a.Some? ==> forall c :: 0 <= c < |entries[j].reducer.cases| ==> a.value.kind != Str(entries[j].reducer.cases[c].kind)
    requires entries[j].key in s && s[entries[j].key].Nested?
    ensures entries[j].key in Reduce(Combined(entries, sideEffect), Some(s), a).state
    ensures Reduce(Combined(entries, sideEffect), Some(s), a).state[entries[j].key] == s[entries[j].key]
  {
    CombinedReducer(entries, sideEffect, Some(s), a);
    var sub := entries[j].reducer;
    CreatedReducer(sub.initial, sub.cases, sub.sideEffect, SliceOf(s, entries[j].key), a);
  }

  /**
   * A slice whose `createReducer` sub-reducer has a case for the action holds
   * that case's result on the old slice.
   */
  lemma CombinedHandledSlice(entries: seq<Entry>, sideEffect: Option<EffectId>, s: State, a: Action, j: nat, c: nat)
    requires DistinctKeys(entries) && j < |entries|
    requires entries[j].reducer.Created? && DistinctKinds(entries[j].reducer.cases)
    requires c < |entries[j].reducer.cases| && a.kind == Str(entries[j].reducer.cases[c].kind) && Truthy(a.kind)
    requires entries[j].key in s && s[entries[j].key].Nested?
    ensures entries[j].key in Reduce(Combined(entries, sideEffect), Some(s), Some(a)).state
    ensures Reduce(Combined(entries, sideEffect), Some(s), Some(a)).state[entries[j].key]
         == Nested(entries[j].reducer.cases[c].handler(s[entries[j].key].fields, a))
  {
    CombinedReducer(entries, sideEffect, Some(s), Some(a));
    var sub := entries[j].reducer;
    CreatedReducer(sub.initial, sub.cases, sub.sideEffect, SliceOf(s, entries[j].key), Some(a));
  }

  // ---------------------------------------------------------------------------
  // The combined-reducer scenario of the source's tests

  /** The tests' handler: `state.set("value", action.payload)`. */
  function SetValue(s: State, a: Action): State {
    s["value" := a.payload]
  }

  /** The slice `{value: v}`. */
  function Slot(v: Value): State {
    map["value" := v]
  }

  /** The tests build their slices with `createState({value: v})`; that is `Slot(v)`. */
  lemma SlotCreated(v: Value)
    ensures CreateState([("value", v)]) == Slot(v)
  {
  }

  /** A slice reducer answering to its own action type and to a shared one. */
  function SliceReducer(own: string, both: string): Reducer {
    Created(Slot(Null), [Case(own, SetValue), Case(both, SetValue)], None)
  }

  /** `combineReducers({[k0]: slice0, [k1]: slice1})`. */
  function TwoSlices(k0: string, k1: string, own0: string, own1: string, both: string): Reducer {
    Combined([Entry(k0, SliceReducer(own0, both)), Entry(k1, SliceReducer(own1, both))], None)
  }

  function SlicePair(k0: string, k1: string, v0: Value, v1: Value): State {
    map[k0 := Nested(Slot(v0)), k1 := Nested(Slot(v1))]
  }

  /** A state with exactly the two slice keys, each holding a one-field slot. */
  lemma PairOf(k0: string, k1: string, out: State, v0: Value, v1: Value)
    requires k0 != k1 && out.Keys == {k0, k1}
    requires out[k0] == Nested(Slot(v0)) && out[k1] == Nested(Slot(v1))
    ensures out == SlicePair(k0, k1, v0, v1)
  {
    var expected := SlicePair(k0, k1, v0, v1);
    assert out.Keys == expected.Keys;
  }

  /** A slice whose reducer has no case for the action's type keeps its value. */
  lemma SliceKept(k0: string, k1: string, own0: string, own1: string, both: string, x: Value, y: Value, a: Action, j: nat)
    requires k0 != k1 && own0 != both && own1 != both && own0 != own1 && j < 2
    requires a.kind == Str(if j == 0 then own1 else own0)
    ensures var out := Reduce(TwoSlices(k0, k1, own0, own1, both), Some(SlicePair(k0, k1, x, y)), Some(a)).state;
      var key := if j == 0 then k0 else k1;
      key in out && out[key] == Nested(Slot(if j == 0 then x else y))
  {
    var entries := TwoSlices(k0, k1, own0, own1, both).entries;
    CombinedUnhandledSlice(entries, None, SlicePair(k0, k1, x, y), Some(a), j);
  }

  /** A slice whose reducer has a case for the action's type takes the payload. */
  lemma SliceSet(k0: string, k1: string, own0: string, own1: string, both: string, x: Value, y: Value, a: Action, j: nat)
    requires k0 != k1 && own0 != both && own1 != both && own0 != own1 && j < 2
    requires (a.kind == Str(if j == 0 then own0 else own1) || a.kind == Str(both)) && Truthy(a.kind)
    ensures var out := Reduce(TwoSlices(k0, k1, own0, own1, both), Some(SlicePair(k0, k1, x, y)), Some(a)).state;
      var key := if j == 0 then k0 else k1;
      key in out && out[key] == Nested(Slot(a.payload))
  {
    var entries := TwoSlices(k0, k1, own0, own1, both).entries;
    var c := if a.kind == Str(both) then 1 else 0;
    CombinedHandledSlice(entries, None, SlicePair(k0, k1, x, y), a, j, c);
    assert SetValue(Slot(if j == 0 then x else y), a) == Slot(a.payload);
  }

  /** One action on the two-slice reducer, given what becomes of each slice. */
  lemma TwoSlicesStep(k0: string, k1: string, own0: string, own1: string, both: string, x: Value, y: Value, a: Action, first: Value, second: Value)
    requires k0 != k1 && own0 != both && own1 != both && own0 != own1
    requires (a.kind == Str(own0) || a.kind == Str(own1) || a.kind == Str(both)) && Truthy(a.kind)
    requires first == if a.kind == Str(own1) then x else a.payload
    requires second == if a.kind == Str(own0) then y else a.payload
    ensures Reduce(TwoSlices(k0, k1, own0, own1, both), Some(SlicePair(k0, k1, x, y)), Some(a)).state == SlicePair(k0, k1, first, second)
  {
    var r := TwoSlices(k0, k1, own0, own1, both);
    var out := Reduce(r, Some(SlicePair(k0, k1, x, y)), Some(a)).state;
    assert KeysFrom(r.entries, 0) == {k0, k1} by {
      assert r.entries[0].key in KeysFrom(r.entries, 0) && r.entries[1].key in KeysFrom(r.entries, 0);
    }
    CombinedKeys(r.entries, None, Some(SlicePair(k0, k1, x, y)), Some(a));
    if a.kind == Str(own1) {
      SliceKept(k0, k1, own0, own1, both, x, y, a, 0);
    } else {
      SliceSet(k0, k1, own0, own1, both, x, y, a, 0);
    }
    if a.kind == Str(own0) {
      SliceKept(k0, k1, own0, own1, both, x, y, a, 1);
    } else {
      SliceSet(k0, k1, own0, own1, both, x, y, a, 1);
    }
    PairOf(k0, k1, out, first, second);
  }

  /**
   * The tests' `combineReducers({first, second})`: `reducer()` gives both slices
   * their initial `value: null`; FIRST_VALUE changes only `first`, SECOND_VALUE
   * only `second`, BOTH_VALUE both.
   */
  lemma CombinedScenario(x: Value, y: Value, v: Value)
    ensures var r := TwoSlices("first", "second", "FIRST_VALUE", "SECOND_VALUE", "BOTH_VALUE");
      && Reduce(r, None, None).state == SlicePair("first", "second", Null, Null)
      && Reduce(r, Some(SlicePair("first", "second", x, y)), Some(Action(Str("FIRST_VALUE"), v))).state == SlicePair("first", "second", v, y)
      && Reduce(r, Some(SlicePair("first", "second", x, y)), Some(Action(Str("SECOND_VALUE"), v))).state == SlicePair("first", "second", x, v)
      && Reduce(r, Some(SlicePair("first", "second", x, y)), Some(Action(Str("BOTH_VALUE"), v))).state == SlicePair("first", "second", v, v)
  {
    var k0, k1, own0, own1, both := "first", "second", "FIRST_VALUE", "SECOND_VALUE", "BOTH_VALUE";
    TwoSlicesDefault(k0, k1, own0, own1, both);
    TwoSlicesStep(k0, k1, own0, own1, both, x, y, Action(Str(own0), v), v, y);
    TwoSlicesStep(k0, k1, own0, own1, both, x, y, Action(Str(own1), v), x, v);
    TwoSlicesStep(k0, k1, own0, own1, both, x, y, Action(Str(both), v), v, v);
  }

  /** `reducer()` on the two-slice reducer: both slices hold `value: null`. */
  lemma TwoSlicesDefault(k0: string, k1: string, own0: string, own1: string, both: string)
    requires k0 != k1
    ensures Reduce(TwoSlices(k0, k1, own0, own1, both), None, None).state == SlicePair(k0, k1, Null, Null)
  {
    var r := TwoSlices(k0, k1, own0, own1, both);
    var out := Reduce(r, None, None).state;
    assert KeysFrom(r.entries, 0) == {k0, k1} by {
      assert r.entries[0].key in KeysFrom(r.entries, 0) && r.entries[1].key in KeysFrom(r.entries, 0);
    }
    CombinedDefault(r.entries, None);
    PairOf(k0, k1, out, Null, Null);
  }
}
