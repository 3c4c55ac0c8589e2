/** `Tree.Add`, the entry point that checks identifiers before they go into
    the prefix tree. It takes its arguments as `interface{}` values and works
    in one of two modes: one argument that must be a
    `map[string]interface{}` (map mode), or a string key and a value
    ((key, value) mode). Values are accepted only when their dynamic type is
    one of fourteen predeclared basic types.

    The trie behind `add` is not part of this model: a `Tree` is the log of
    the `add(key, value)` calls made on it. */
module Prefixtree {

  /** The predeclared basic types of Go. */
  datatype BasicKind =
    | Bool | String
    | Int | Int8 | Int16 | Int32 | Int64
    | Uint | Uint8 | Uint16 | Uint32 | Uint64 | Uintptr
    | Float32 | Float64 | Complex64 | Complex128

  /** The kinds of the other values a caller can pass. */
  datatype OtherKind = Slice | Array | OtherMap | Struct | Pointer | Func | Chan | Nil

  /** A Go value passed as `interface{}`. For a value of a predeclared basic
      type, `text` is the value itself when it is a string and its formatted
      form otherwise; a `map[string]interface{}` carries its entries; a value
      of a defined type (`type Celsius float64`, `time.Duration`) keeps its
      type's name and underlying type; any other value is known by its kind
      only. A type switch or a type assertion in Go matches the exact dynamic
      type, so `case float64` does not match a `Celsius`, and `.(string)`
      fails on a `type Key string`. */
  datatype Value =
    | Basic(kind: BasicKind, text: string)
    | StringMap(entries: map<string, Value>)
    | Defined(name: string, underlying: BasicKind, text: string)
    | Other(other: OtherKind)

  /** The errors `Add` returns, one per `fmt.Errorf`. The two "not supported"
      errors carry the offending value, whose type the message names. */
  datatype AddError =
    | NotAMap
    | UnsupportedMapValue(value: Value)
    | KeyNotString
    | UnsupportedValue(value: Value)
    | InvalidMode

  datatype Option<T> = None | Some(value: T)

  /** What one call of `Add` does: the `add` calls it makes, in order, and
      the error it returns (`None` for nil). */
  datatype Effect = Effect(added: seq<(string, Value)>, error: Option<AddError>)

  /** The value types `Add` accepts: bool, string, the ten predeclared
      integer types other than uintptr, float32 and float64, and no defined
      type, whatever its underlying type. */
  predicate Supported(v: Value) {
    v.Basic? && v.kind !in {Uintptr, Complex64, Complex128}
  }

  /** The key of (key, value) mode, when the first argument is a string. */
  function KeyOf(v: Value): (r: Option<string>)
    ensures r.Some? <==> v.Basic? && v.kind == String
    ensures r.Some? ==> r.value == v.text
  {
    if v.Basic? && v.kind == String then Some(v.text) else None
  }

  /** `order` lists the keys of m, each once: one order in which Go's
      `range` may visit the map. */
  predicate Enumerates(order: seq<string>, m: map<string, Value>) {
    (forall j :: 0 <= j < |order| ==> order[j] in m)
    && (forall k :: k in m ==> k in order)
    && (forall i, j :: 0 <= i < j < |order| ==> order[i] != order[j])
  }

  /** The iteration order only matters in map mode, and there it has to be
      an order Go may pick. */
  predicate OrderFits(input: seq<Value>, order: seq<string>) {
    |input| == 1 && input[0].StringMap? ==> Enumerates(order, input[0].entries)
  }

  /** The entries of m under the given keys, as `add` receives them. */
  function Pairs(m: map<string, Value>, keys: seq<string>): (r: seq<(string, Value)>)
    requires forall j :: 0 <= j < |keys| ==> keys[j] in m
    ensures |r| == |keys| && forall j :: 0 <= j < |keys| ==> r[j] == (keys[j], m[keys[j]])
  {
    seq(|keys|, j requires 0 <= j < |keys| => (keys[j], m[keys[j]]))
  }

  /** The map-mode loop over the keys in `order`: every supported value is
      added as it is met, and the first unsupported one stops the loop with
      an error, leaving the entries before it added. */
  function MapMode(m: map<string, Value>, order: seq<string>): Effect
    requires forall j :: 0 <= j < |order| ==> order[j] in m
    decreases |order|
  {
    if |order| == 0 then Effect([], None)
    else
      var v := m[order[0]];
      if !Supported(v) then Effect([], Some(UnsupportedMapValue(v)))
      else
        var rest := MapMode(m, order[1..]);
        Effect([(order[0], v)] + rest.added, rest.error)
  }

  /** One turn of the map-mode loop, at the i-th key of the order. */
  lemma MapModeAt(m: map<string, Value>, order: seq<string>, i: nat)
    requires i < |order| && forall j :: 0 <= j < |order| ==> order[j] in m
    ensures var v, r, rest := m[order[i]], MapMode(m, order[i..]), MapMode(m, order[i + 1..]);
      (Supported(v) ==> r == Effect([(order[i], v)] + rest.added, rest.error))
      && (!Supported(v) ==> r == Effect([], Some(UnsupportedMapValue(v))))
  {
    assert order[i..][1..] == order[i + 1..];
  }

  /** The whole of `Add`: dispatch on the number of arguments, then on the
      kinds of the arguments. */
  function AddOutcome(input: seq<Value>, order: seq<string>): Effect
    requires OrderFits(input, order)
  {
    if |input| == 1 then
      if !input[0].StringMap? then Effect([], Some(NotAMap))
      else MapMode(input[0].entries, order)
    else if |input| == 2 then
      match KeyOf(input[0])
      case None => Effect([], Some(KeyNotString))
      case Some(key) =>
        if Supported(input[1]) then Effect([(key, input[1])], None)
        else Effect([], Some(UnsupportedValue(input[1])))
    else Effect([], Some(InvalidMode))
  }

  /** A prefix tree, seen through the `add` calls it has received. */
  class Tree {
    var added: seq<(string, Value)>

    /** `new(Tree)`: an empty tree. */
    constructor ()
      ensures added == []
    {
      added := [];
    }

    /** Stands for the trie's own `add`, whose code is not part of this
        model: it records the call. */
    method Insert(key: string, value: Value)
      modifies this
      ensures added == old(added) + [(key, value)]
    {
      added := added + [(key, value)];
    }

    /** `Add(input...)`, with the order in which `range` visits a map taken
        as a parameter. It makes exactly the `add` calls `AddOutcome` lists
        and returns its error. */
    method Add(input: seq<Value>, order: seq<string>) returns (err: Option<AddError>)
      requires OrderFits(input, order)
      modifies this
      ensures added == old(added) + AddOutcome(input, order).added
      ensures err == AddOutcome(input, order).error
    {
      if |input| == 1 {
        if !input[0].StringMap? {
          return Some(NotAMap);
        }
        err := AddMap(input[0].entries, order);
        return;
      } else if |input| == 2 {
        var key := KeyOf(input[0]);
        if key.None? {
          return Some(KeyNotString);
        }
        if Supported(input[1]) {
          Insert(key.value, input[1]);
          return None;
        } else {
          return Some(UnsupportedValue(input[1]));
        }
      }
      return Some(InvalidMode);
    }

    /** The map-mode loop of `Add`, over the keys in the order `range`
        visits them. */
    method AddMap(inputMap: map<string, Value>, order: seq<string>) returns (err: Option<AddError>)
      requires forall j :: 0 <= j < |order| ==> order[j] in inputMap
      modifies this
      ensures added == old(added) + MapMode(inputMap, order).added
      ensures err == MapMode(inputMap, order).error
    {
      var i := 0;
      ghost var done := [];
      while i < |order|
        invariant 0 <= i <= |order|
        invariant added == old(added) + done
        invariant MapMode(inputMap, order).added == done + MapMode(inputMap, order[i..]).added
        invariant MapMode(inputMap, order).error == MapMode(inputMap, order[i..]).error
      {
        var k := order[i];
        var v := inputMap[k];
        MapModeAt(inputMap, order, i);
        if Supported(v) {
          Insert(k, v);
          done := done + [(k, v)];
        } else {
          return Some(UnsupportedMapValue(v));
        }
        i := i + 1;
      }
      return None;
    }
  }

  // ---------------------------------------------------------------------
  // What `Add` promises.

  /** Any number of arguments other than one or two is an error, and nothing
      is added. */
  lemma InvalidArity(input: seq<Value>, order: seq<string>)
    requires |input| != 1 && |input| != 2
    ensures AddOutcome(input, order) == Effect([], Some(InvalidMode))
  {
  }

  /** (key, value) mode with a key that is not a string is an error, and
      nothing is added. */
  lemma KeyMustBeString(input: seq<Value>, order: seq<string>)
    requires |input| == 2 && !(input[0].Basic? && input[0].kind == String)
    ensures AddOutcome(input, order) == Effect([], Some(KeyNotString))
  {
  }

  /** (key, value) mode with a string key: a supported value is added once
      and nil is returned; any other value is an error and nothing is
      added. */
  lemma PairMode(key: string, value: Value, order: seq<string>)
    ensures var r := AddOutcome([Basic(String, key), value], order);
      (Supported(value) ==> r == Effect([(key, value)], None))
      && (!Supported(value) ==> r == Effect([], Some(UnsupportedValue(value))))
  {
  }

  /** A value or a key of a defined type is refused in both modes, even when
      its underlying type is one `Add` accepts: Go's type switch and type
      assertion compare the exact type. */
  lemma DefinedTypesRefused(name: string, underlying: BasicKind, text: string, key: string, order: seq<string>)
    ensures AddOutcome([Basic(String, key), Defined(name, underlying, text)], order)
            == Effect([], Some(UnsupportedValue(Defined(name, underlying, text))))
    ensures AddOutcome([Defined(name, underlying, text), Basic(Int, "1")], order) == Effect([], Some(KeyNotString))
    ensures var m := map[key := Defined(name, underlying, text)];
      Enumerates(order, m) ==> AddOutcome([StringMap(m)], order).error == Some(UnsupportedMapValue(m[key]))
  {
    var m := map[key := Defined(name, underlying, text)];
    if Enumerates(order, m) {
      MapModeAddsEntries(m, order);
      DistinctKeys(m, order);
    }
  }

  /** Map mode with an argument that is not a `map[string]interface{}` (a
      struct, a slice, another map type, a basic value) is an error, and
      nothing is added. */
  lemma NotAStringMap(input: seq<Value>, order: seq<string>)
    requires |input| == 1 && !input[0].StringMap?
    ensures AddOutcome(input, order) == Effect([], Some(NotAMap))
  {
  }

  /** The map-mode loop adds entries of the map only, in the visiting order,
      with supported values, each under its own key; its error, if any,
      names an unsupported value of the map. */
  lemma {:induction false} MapModeAddsEntries(m: map<string, Value>, order: seq<string>)
    requires Enumerates(order, m)
    ensures var r := MapMode(m, order);
      |r.added| <= |order|
      && r.added == Pairs(m, order[..|r.added|])
      && (forall j :: 0 <= j < |r.added| ==> Supported(r.added[j].1))
      && (r.error.Some? ==> |r.added| < |order| && r.error == Some(UnsupportedMapValue(m[order[|r.added|]]))
                            && !Supported(m[order[|r.added|]]))
      && (r.error.None? ==> |r.added| == |order|)
  {
    MapModeFrom(m, order, 0);
  }

  /** `MapModeAddsEntries` for a suffix of the order, by induction on it. */
  lemma {:induction false} MapModeFrom(m: map<string, Value>, order: seq<string>, i: nat)
    requires i <= |order| && forall j :: 0 <= j < |order| ==> order[j] in m
    ensures var r := MapMode(m, order[i..]);
      |r.added| <= |order| - i
      && r.added == Pairs(m, order[i..i + |r.added|])
      && (forall j :: 0 <= j < |r.added| ==> Supported(r.added[j].1))
      && (r.error.Some? ==> |r.added| < |order| - i && r.error == Some(UnsupportedMapValue(m[order[i + |r.added|]]))
                            && !Supported(m[order[i + |r.added|]]))
      && (r.error.None? ==> |r.added| == |order| - i)
    decreases |order| - i
  {
    if i < |order| && Supported(m[order[i]]) {
      MapModeFrom(m, order, i + 1);
      assert order[i..][1..] == order[i + 1..];
      var rest := MapMode(m, order[i + 1..]);
      var n := |rest.added|;
      assert MapMode(m, order[i..]).added == [(order[i], m[order[i]])] + rest.added;
      assert Pairs(m, order[i..i + 1 + n]) == [(order[i], m[order[i]])] + Pairs(m, order[i + 1..i + 1 + n]);
    }
  }

  /** Map mode returns nil exactly when every value in the map is of a
      supported kind. */
  lemma MapModeNilIff(m: map<string, Value>, order: seq<string>)
    requires Enumerates(order, m)
    ensures AddOutcome([StringMap(m)], order).error.None? <==> forall k :: k in m ==> Supported(m[k])
  {
    MapModeAddsEntries(m, order);
    var r := MapMode(m, order);
    if r.error.None? {
      forall k | k in m ensures Supported(m[k]) {
        var j :| 0 <= j < |order| && order[j] == k;
        assert r.added[j] == (k, m[k]);
      }
    } else {
      var k := order[|r.added|];
      assert k in m && !Supported(m[k]);
    }
  }

  /** When map mode returns nil, every entry of the map was added exactly
      once, and nothing else was. */
  lemma MapModeAddsEachOnce(m: map<string, Value>, order: seq<string>)
    requires Enumerates(order, m) && AddOutcome([StringMap(m)], order).error.None?
    ensures var added := AddOutcome([StringMap(m)], order).added;
      |added| == |m|
      && (forall p :: p in added ==> p.0 in m && p.1 == m[p.0])
      && (forall k :: k in m ==> multiset(added)[(k, m[k])] == 1)
  {
    MapModeAddsEntries(m, order);
    var added := MapMode(m, order).added;
    assert added == Pairs(m, order);
    DistinctKeys(m, order);
    forall k | k in m ensures multiset(added)[(k, m[k])] == 1 {
      var j :| 0 <= j < |order| && order[j] == k;
      OnlyAt(added, j);
    }
  }

  /** A list of distinct keys is exactly as long as the map it enumerates. */
  lemma DistinctKeys(m: map<string, Value>, order: seq<string>)
    requires Enumerates(order, m)
    ensures |order| == |m|
  {
    var ks := set j | 0 <= j < |order| :: order[j];
    assert ks == m.Keys;
    IndexSetSize(order);
  }

  /** The distinct elements of a list form a set of its length. */
  lemma {:induction false} IndexSetSize(s: seq<string>)
    requires forall i, j :: 0 <= i < j < |s| ==> s[i] != s[j]
    ensures |set j | 0 <= j < |s| :: s[j]| == |s|
  {
    if |s| > 0 {
      var t := s[..|s| - 1];
      IndexSetSize(t);
      var ts := set j | 0 <= j < |t| :: t[j];
      assert (set j | 0 <= j < |s| :: s[j]) == ts + {s[|s| - 1]};
      assert s[|s| - 1] !in ts;
    }
  }

  /** In a list whose keys are distinct, the pair at index j occurs once. */
  lemma {:induction false} OnlyAt(s: seq<(string, Value)>, j: nat)
    requires j < |s| && forall a, b :: 0 <= a < b < |s| ==> s[a].0 != s[b].0
    ensures multiset(s)[s[j]] == 1
  {
    var n := |s| - 1;
    var t := s[..n];
    assert s == t + [s[n]];
    if j < n {
      OnlyAt(t, j);
      assert s[n] != s[j];
    }
  }

  /** Map mode is not atomic: when it returns an error, the entries visited
      before the unsupported value have already been added, in the
      visiting order, and the error names that value. */
  lemma MapModeNotAtomic(m: map<string, Value>, order: seq<string>)
    requires Enumerates(order, m) && AddOutcome([StringMap(m)], order).error.Some?
    ensures var r := AddOutcome([StringMap(m)], order); var n := |r.added|;
      n < |order|
      && r.added == Pairs(m, order[..n])
      && (forall j :: 0 <= j < n ==> Supported(m[order[j]]))
      && !Supported(m[order[n]])
      && r.error == Some(UnsupportedMapValue(m[order[n]]))
  {
    MapModeAddsEntries(m, order);
  }

  /** `MapModeNotAtomic` on one map: with a slice visited second, the first
      entry stays added. */
  lemma NotAtomicSample()
    ensures var m := map["number" := Basic(Int, "20"), "index" := Other(Slice)];
      AddOutcome([StringMap(m)], ["number", "index"])
      == Effect([("number", Basic(Int, "20"))], Some(UnsupportedMapValue(Other(Slice))))
  {
    var m := map["number" := Basic(Int, "20"), "index" := Other(Slice)];
    assert ["number", "index"][1..] == ["index"];
    assert MapMode(m, ["index"]) == Effect([], Some(UnsupportedMapValue(Other(Slice))));
  }

  // ---------------------------------------------------------------------
  // The cases of the repository's tests of `Add`.

  /** `Add("some_key", 380)` adds the pair and returns nil; `Add(3, 380)`
      and `Add("some_key", 380, "oups")` are errors that add nothing. */
  lemma PairSamples(order: seq<string>)
    ensures AddOutcome([Basic(String, "some_key"), Basic(Int, "380")], order)
            == Effect([("some_key", Basic(Int, "380"))], None)
    ensures AddOutcome([Basic(Int, "3"), Basic(Int, "380")], order) == Effect([], Some(KeyNotString))
    ensures AddOutcome([Basic(String, "some_key"), Basic(Int, "380"), Basic(String, "oups")], order)
            == Effect([], Some(InvalidMode))
  {
    PairMode("some_key", Basic(Int, "380"), order);
  }

  /** The map {"road": "Wellington", "number": 20} is added whole, in either
      order Go may visit it. */
  lemma MapSample(order: seq<string>)
    requires Enumerates(order, map["road" := Basic(String, "Wellington"), "number" := Basic(Int, "20")])
    ensures var m := map["road" := Basic(String, "Wellington"), "number" := Basic(Int, "20")];
      var r := AddOutcome([StringMap(m)], order);
      r.error == None && |r.added| == 2
      && ("road", Basic(String, "Wellington")) in r.added && ("number", Basic(Int, "20")) in r.added
  {
    var m := map["road" := Basic(String, "Wellington"), "number" := Basic(Int, "20")];
    MapModeNilIff(m, order);
    MapModeAddsEachOnce(m, order);
    assert multiset(AddOutcome([StringMap(m)], order).added)[("road", m["road"])] == 1;
    assert multiset(AddOutcome([StringMap(m)], order).added)[("number", m["number"])] == 1;
  }

  /** A map whose value is a slice, a `map[string]int` or a
      `map[string]interface{}` is refused. */
  lemma NestedSamples(order: seq<string>, inner: map<string, Value>)
    requires Enumerates(order, map["index" := Other(Slice)])
    ensures AddOutcome([StringMap(map["index" := Other(Slice)])], order).error.Some?
    ensures AddOutcome([StringMap(map["index" := Other(OtherMap)])], order)
            == Effect([], Some(UnsupportedMapValue(Other(OtherMap))))
    ensures Enumerates(order, map["index" := StringMap(inner)])
      ==> AddOutcome([StringMap(map["index" := StringMap(inner)])], order).error.Some?
  {
    var slice := map["index" := Other(Slice)];
    MapModeNilIff(slice, order);
    assert "index" in slice && !Supported(slice["index"]);
    var typed := map["index" := Other(OtherMap)];
    MapModeAddsEntries(typed, order);
    DistinctKeys(typed, order);
    var nested := map["index" := StringMap(inner)];
    if Enumerates(order, nested) {
      MapModeNilIff(nested, order);
      assert "index" in nested && !Supported(nested["index"]);
    }
  }
}
