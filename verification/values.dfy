/** Parameter values, the ordered parameter mapping of a scene, and how a
    mapping is written to and read back from a preset file (main.py:649,
    main.py:696-702). */
module Values {
  import opened Results

  /** A scene parameter or a JSON value. `List` is a Python list (a JSON
      array); `Vec` is a numpy array, which has `tolist()` and is what a JSON
      array becomes when a preset is loaded. */
  datatype Value =
    | Null
    | Bool(b: bool)
    | Int(i: int)
    | Num(r: real)
    | Str(s: string)
    | List(items: seq<Value>)
    | Vec(elems: seq<Value>)

  /** The value written to a preset file: `v.tolist()` when `v` has it,
      otherwise `v` itself (main.py:649). */
  function ToJson(v: Value): (j: Value)
    ensures !j.Vec?
    ensures v.Vec? ==> j == List(v.elems)
    ensures !v.Vec? ==> j == v
  {
    match v
    case Vec(elems) => List(elems)
    case _ => v
  }

  /** The value a loaded preset stores: a JSON array becomes a numpy array,
      anything else is kept (main.py:699-702). */
  function FromJson(j: Value): (v: Value)
    ensures !v.List?
    ensures j.List? ==> v == Vec(j.items)
    ensures !j.List? ==> v == j
  {
    match j
    case List(items) => Vec(items)
    case _ => j
  }

  /** What a parameter value is after it has been saved and loaded again. */
  function Reloaded(v: Value): Value {
    if v.List? then Vec(v.items) else v
  }

  lemma JsonRoundTrip(v: Value)
    ensures FromJson(ToJson(v)) == Reloaded(v)
    ensures v.Vec? ==> FromJson(ToJson(v)) == v
    ensures !v.List? ==> FromJson(ToJson(v)) == v
  {
  }

  lemma JsonRoundTripBack(j: Value)
    requires !j.Vec?
    ensures ToJson(FromJson(j)) == j
  {
  }

  // ---------------------------------------------------------------------
  // Ordered parameter mappings (a Python dict keeps insertion order, and the
  // edit mode presents the keys in that order).

  datatype Params = Params(keys: seq<string>, vals: map<string, Value>)

  ghost predicate Distinct(keys: seq<string>) {
    forall i, j :: 0 <= i < j < |keys| ==> keys[i] != keys[j]
  }

  /** `keys` lists every key of `vals` exactly once. */
  ghost predicate Valid(p: Params) {
    && Distinct(p.keys)
    && (forall k :: k in p.vals <==> k in p.keys)
  }

  const Empty := Params([], map[])

  /** `params.get(k)`. */
  function Get(p: Params, k: string): (r: Option<Value>)
    ensures r.Some? <==> k in p.vals
    ensures r.Some? ==> r.value == p.vals[k]
  {
    if k in p.vals then Some(p.vals[k]) else None
  }

  /** `params[k] = v`: an existing key keeps its place, a new key goes last. */
  function Put(p: Params, k: string, v: Value): (r: Params)
    ensures k in r.vals && r.vals[k] == v
    ensures forall j :: j != k ==> (j in r.vals <==> j in p.vals)
    ensures forall j :: j != k && j in p.vals ==> r.vals[j] == p.vals[j]
    ensures Valid(p) ==> Valid(r)
    ensures Valid(p) && k in p.vals ==> r.keys == p.keys
    ensures Valid(p) && k !in p.vals ==> r.keys == p.keys + [k]
  {
    if k in p.vals then Params(p.keys, p.vals[k := v])
    else Params(p.keys + [k], p.vals[k := v])
  }

  /** The JSON object written for a parameter mapping (main.py:649): same keys
      in the same order, every numpy array turned into a list. */
  function Serialise(p: Params): (obj: Params)
    ensures obj.keys == p.keys
    ensures obj.vals.Keys == p.vals.Keys
    ensures forall k :: k in obj.vals ==> obj.vals[k] == ToJson(p.vals[k])
    ensures Valid(p) ==> Valid(obj)
  {
    Params(p.keys, map k | k in p.vals :: ToJson(p.vals[k]))
  }

  /** Applies `src[k]` for each `k` of `ks` in turn, as the loop over
      `data.items()` does (main.py:698-702). */
  function ApplyAll(p: Params, ks: seq<string>, src: map<string, Value>): (r: Params)
    requires forall i :: 0 <= i < |ks| ==> ks[i] in src
    ensures forall k :: k in r.vals <==> k in p.vals || k in ks
    ensures forall k :: k in ks ==> r.vals[k] == FromJson(src[k])
    ensures forall k :: k in p.vals && k !in ks ==> r.vals[k] == p.vals[k]
    ensures Valid(p) ==> Valid(r)
    decreases |ks|
  {
    if ks == [] then p
    else
      assert forall k :: k in ks <==> k == ks[0] || k in ks[1..];
      ApplyAll(Put(p, ks[0], FromJson(src[ks[0]])), ks[1..], src)
  }

  /** Loading keeps the keys a mapping already had in their places and puts
      new keys after them. */
  lemma {:induction false} ApplyAllKeepsOrder(p: Params, ks: seq<string>, src: map<string, Value>)
    requires forall i :: 0 <= i < |ks| ==> ks[i] in src
    requires Valid(p)
    ensures KeysPrefix(p.keys, ApplyAll(p, ks, src).keys)
    decreases |ks|
  {
    if ks != [] {
      var p' := Put(p, ks[0], FromJson(src[ks[0]]));
      ApplyAllKeepsOrder(p', ks[1..], src);
      assert KeysPrefix(p.keys, p'.keys);
      PrefixTransitive(p.keys, p'.keys, ApplyAll(p', ks[1..], src).keys);
    }
  }

  predicate KeysPrefix(a: seq<string>, b: seq<string>) {
    |a| <= |b| && b[..|a|] == a
  }

  lemma PrefixTransitive(a: seq<string>, b: seq<string>, c: seq<string>)
    requires KeysPrefix(a, b) && KeysPrefix(b, c)
    ensures KeysPrefix(a, c)
  {
    assert c[..|a|] == c[..|b|][..|a|];
  }

  /** Loads a preset object into a live parameter mapping: every key of the
      object is overwritten, every other key is left untouched. */
  function Load(into: Params, obj: Params): (r: Params)
    requires Valid(obj)
    ensures forall k :: k in r.vals <==> k in into.vals || k in obj.vals
    ensures forall k :: k in obj.vals ==> r.vals[k] == FromJson(obj.vals[k])
    ensures forall k :: k in into.vals && k !in obj.vals ==> r.vals[k] == into.vals[k]
    ensures Valid(into) ==> Valid(r)
  {
    ApplyAll(into, obj.keys, obj.vals)
  }

  /** Saving a mapping and loading it into any mapping restores every saved
      key (numpy arrays exactly, lists as arrays) and leaves the other keys
      alone. */
  lemma SaveLoadRoundTrip(saved: Params, live: Params)
    requires Valid(saved)
    ensures var r := Load(live, Serialise(saved));
            && (forall k :: k in r.vals <==> k in saved.vals || k in live.vals)
            && (forall k :: k in saved.vals ==> r.vals[k] == Reloaded(saved.vals[k]))
            && (forall k :: k in live.vals && k !in saved.vals ==> r.vals[k] == live.vals[k])
  {
    var r := Load(live, Serialise(saved));
    forall k | k in saved.vals ensures r.vals[k] == Reloaded(saved.vals[k]) {
      JsonRoundTrip(saved.vals[k]);
    }
  }
}
