/**
 * The state values the store holds, as the Immutable.js maps of the source
 * present them: a state is a finite map from string keys to JavaScript values,
 * and a value may itself be a nested map (a slice of a combined state).
 */
module States {

  datatype Option<+T> = None | Some(value: T) {
    /** The value held, or `default` when absent (a JavaScript default parameter). */
    function GetOr(default: T): T {
      if Some? then value else default
    }
  }

  /** A JavaScript value as it can sit in a state map. Numbers are integers here. */
  datatype Value =
    | Undefined
    | Null
    | Bool(b: bool)
    | Num(n: int)
    | Str(s: string)
    | Nested(fields: map<string, Value>)

  /** An immutable state map (an Immutable.js `Map` with string keys). */
  type State = map<string, Value>

  /** JavaScript truthiness of a value; a map object is always truthy. */
  predicate Truthy(v: Value) {
    match v
    case Undefined => false
    case Null => false
    case Bool(b) => b
    case Num(n) => n != 0
    case Str(s) => s != ""
    case Nested(_) => true
  }

  /** An action object `{ type, payload }`; a missing `type` is `Undefined`. */
  datatype Action = Action(kind: Value, payload: Value)

  /**
   * Immutable.js `Map.merge`, a shallow top-level combine: every key of the
   * fragment takes the fragment's value, every key only in `s` keeps its value,
   * nested maps are replaced rather than merged.
   */
  function Merge(s: State, fragment: State): (r: State)
    ensures r.Keys == s.Keys + fragment.Keys
    ensures forall k :: k in fragment ==> r[k] == fragment[k]
    ensures forall k :: k in s && k !in fragment ==> r[k] == s[k]
  {
    s + fragment
  }

  /** Merging a state into itself changes nothing, and merging an empty fragment neither. */
  lemma MergeNeutral(s: State)
    ensures Merge(s, s) == s
    ensures Merge(s, map[]) == s
  {
  }

  /**
   * `createState` on a flat object: the object's fields, in enumeration order,
   * become the keys of a state map. Deep conversion of nested values is not
   * modelled; the values are taken as already converted.
   */
  function CreateState(fields: seq<(string, Value)>): (s: State)
    ensures forall i :: 0 <= i < |fields| ==> fields[i].0 in s
    ensures forall k :: k in s ==> exists i :: 0 <= i < |fields| && fields[i].0 == k
    ensures fields != [] ==> s[fields[|fields| - 1].0] == fields[|fields| - 1].1
  {
    if fields == [] then map[]
    else
      var last := fields[|fields| - 1];
      var before := CreateState(fields[..|fields| - 1]);
      assert forall k :: k in before ==> exists i :: 0 <= i < |fields| && fields[i].0 == k by {
        forall k | k in before ensures exists i :: 0 <= i < |fields| && fields[i].0 == k {
          var i :| 0 <= i < |fields| - 1 && fields[..|fields| - 1][i].0 == k;
          assert fields[i].0 == k;
        }
      }
      before[last.0 := last.1]
  }

  /** Each field of an object with distinct field names is found under its own key. */
  lemma {:induction false} CreateStateLookup(fields: seq<(string, Value)>, i: nat)
    requires i < |fields|
    requires forall p, q :: 0 <= p < q < |fields| ==> fields[p].0 != fields[q].0
    ensures CreateState(fields)[fields[i].0] == fields[i].1
  {
    if i < |fields| - 1 {
      var front := fields[..|fields| - 1];
      assert front[i] == fields[i];
      CreateStateLookup(front, i);
      assert fields[i].0 != fields[|fields| - 1].0;
    }
  }
}
