/** State values as the plugin handles them: JavaScript values restricted to what a
    state tree and a JSON document can hold, with JavaScript truthiness, strict
    equality and the dotted-path `getValue` / `setValue` helpers of `@ngxs/store`. */
module Values {

  /** A JavaScript value. Numbers are integers; an object is the ordered list of its
      own properties (JavaScript keeps insertion order). */
  datatype Json =
    | Undefined
    | Null
    | Bool(b: bool)
    | Num(n: int)
    | Str(s: string)
    | Arr(items: seq<Json>)
    | Obj(props: seq<Property>)

  datatype Property = Property(name: string, value: Json)

  /** JavaScript truthiness: `undefined`, `null`, `false`, `0` and `''` are falsy,
      every array and every object is truthy. */
  predicate Truthy(v: Json)
    ensures v.Arr? || v.Obj? ==> Truthy(v)
    ensures v == Undefined || v == Null || v == Num(0) || v == Str("") ==> !Truthy(v)
  {
    match v
    case Undefined => false
    case Null => false
    case Bool(b) => b
    case Num(n) => n != 0
    case Str(s) => s != ""
    case Arr(_) => true
    case Obj(_) => true
  }

  /** `a === b`: primitives compare by value; an array or object is identical only to
      itself, and a value read from a state tree is never the very object written in
      a migration strategy, so the model never equates them. */
  predicate StrictEquals(a: Json, b: Json) {
    a == b && !a.Arr? && !a.Obj?
  }

  /** The names of a property list, in order. */
  function Names(props: seq<Property>): (names: seq<string>)
    ensures |names| == |props|
    ensures forall i :: 0 <= i < |props| ==> names[i] == props[i].name
  {
    if props == [] then [] else [props[0].name] + Names(props[1..])
  }

  /** `Object.keys(v)`: the own property names of an object, none for anything else. */
  function Keys(v: Json): seq<string> {
    if v.Obj? then Names(v.props) else []
  }

  /** The value of the first property called `name`, `undefined` when there is none. */
  function Lookup(props: seq<Property>, name: string): (x: Json)
    ensures name !in Names(props) ==> x == Undefined
  {
    if props == [] then Undefined
    else if props[0].name == name then props[0].value
    else Lookup(props[1..], name)
  }

  /** `v[name]` for one path segment: an object's property; anything else has none. */
  function Get(v: Json, name: string): Json {
    if v.Obj? then Lookup(v.props, name) else Undefined
  }

  /** `obj[name] = x` on a property list: an existing property keeps its place, a new
      one is appended; no other property changes. */
  function Put(props: seq<Property>, name: string, x: Json): (r: seq<Property>)
    ensures Lookup(r, name) == x
    ensures forall m :: m != name ==> Lookup(r, m) == Lookup(props, m)
  {
    if props == [] then [Property(name, x)]
    else if props[0].name == name then [Property(name, x)] + props[1..]
    else [props[0]] + Put(props[1..], name, x)
  }

  /** `Put` keeps the names in place and appends a new one at the end. */
  lemma {:induction false} PutNames(props: seq<Property>, name: string, x: Json)
    ensures Names(Put(props, name, x)) == if name in Names(props) then Names(props) else Names(props) + [name]
  {
    if props != [] && props[0].name != name {
      PutNames(props[1..], name, x);
      PutNamesStep(props, name, x);
    } else if props != [] {
      assert Put(props, name, x) == [Property(name, x)] + props[1..];
      assert Names(Put(props, name, x)) == [name] + Names(props[1..]);
    }
  }

  /** `Put` past a first property with another name. */
  lemma PutNamesStep(props: seq<Property>, name: string, x: Json)
    requires props != [] && props[0].name != name
    requires Names(Put(props[1..], name, x))
          == if name in Names(props[1..]) then Names(props[1..]) else Names(props[1..]) + [name]
    ensures Names(Put(props, name, x)) == if name in Names(props) then Names(props) else Names(props) + [name]
  {
    var head, tail := props[0], props[1..];
    assert Names(props) == [head.name] + Names(tail);
    assert Put(props, name, x) == [head] + Put(tail, name, x);
    assert Names(Put(props, name, x)) == [head.name] + Names(Put(tail, name, x));
    assert name in Names(props) <==> name in Names(tail);
  }

  /** The names of a property list are pairwise distinct, as in every JavaScript
      object. */
  predicate DistinctNames(props: seq<Property>) {
    forall i, j :: 0 <= i < j < |props| ==> props[i].name != props[j].name
  }

  /** Assigning a property keeps the names of an object pairwise distinct. */
  lemma PutKeepsNamesDistinct(props: seq<Property>, name: string, x: Json)
    requires DistinctNames(props)
    ensures DistinctNames(Put(props, name, x))
  {
    var r := Put(props, name, x);
    PutNames(props, name, x);
    assert forall i :: 0 <= i < |r| ==> r[i].name == Names(r)[i];
    assert forall i :: 0 <= i < |props| ==> props[i].name == Names(props)[i];
  }

  /** `s.split('.')`: never empty, no part contains a dot, and joining the parts with
      dots gives `s` back. */
  function Split(s: string): (parts: seq<string>)
    ensures |parts| >= 1
    ensures forall i :: 0 <= i < |parts| ==> '.' !in parts[i]
    ensures Join(parts) == s
  {
    if s == [] then [""]
    else if s[0] == '.' then [""] + Split(s[1..])
    else
      var rest := Split(s[1..]);
      [[s[0]] + rest[0]] + rest[1..]
  }

  /** `parts.join('.')`, the inverse of `Split`. */
  function Join(parts: seq<string>): string
    requires |parts| >= 1
  {
    if |parts| == 1 then parts[0] else parts[0] + "." + Join(parts[1..])
  }

  /** A string without dots is a single path segment. */
  lemma {:induction false} SplitPlain(s: string)
    requires '.' !in s
    ensures Split(s) == [s]
  {
    if s != [] {
      SplitPlain(s[1..]);
    }
  }

  /** Splitting `a.t` where `a` holds no dot peels off `a` as the first segment. */
  lemma {:induction false} SplitPrefix(a: string, t: string)
    requires '.' !in a
    ensures Split(a + "." + t) == [a] + Split(t)
  {
    if a == [] {
      assert a + "." + t == ['.'] + t;
      assert (['.'] + t)[1..] == t;
    } else {
      assert (a + "." + t)[1..] == a[1..] + "." + t;
      SplitPrefix(a[1..], t);
      assert [a[0]] + a[1..] == a;
    }
  }

  /** `Split` and `Join` are inverse on dot-free segments. */
  lemma {:induction false} SplitJoin(parts: seq<string>)
    requires |parts| >= 1
    requires forall i :: 0 <= i < |parts| ==> '.' !in parts[i]
    ensures Split(Join(parts)) == parts
  {
    if |parts| == 1 {
      SplitPlain(parts[0]);
    } else {
      SplitJoin(parts[1..]);
      SplitPrefix(parts[0], Join(parts[1..]));
      assert [parts[0]] + parts[1..] == parts;
    }
  }

  /** `getValue(v, path)` of `@ngxs/store` on a split path: each step is
      `acc && acc[part]`, so a falsy value stops the walk and is the result. */
  function GetPath(v: Json, path: seq<string>): (r: Json)
    ensures !Truthy(v) ==> r == v
    ensures Truthy(v) && |path| == 1 ==> r == Get(v, path[0])
    decreases |path|
  {
    if path == [] then v
    else if !Truthy(v) then v
    else GetPath(Get(v, path[0]), path[1..])
  }

  /** `getValue(v, key)`: the dotted key is split on `.` first. */
  function GetValue(v: Json, key: string): (r: Json)
    ensures !Truthy(v) ==> r == v
  {
    GetPath(v, Split(key))
  }

  /** `setValue(v, path, x)` of `@ngxs/store` on a split path: the tree is copied
      (`{ ...v }`), every intermediate step copies the value found there into a fresh
      object, and the last segment is assigned `x`. The result is always an object. */
  function SetPath(v: Json, path: seq<string>, x: Json): (r: Json)
    requires path != []
    ensures r.Obj?
    ensures v.Obj? ==> forall m :: m != path[0] ==> Get(r, m) == Get(v, m)
    decreases |path|
  {
    var base := if v.Obj? then v.props else [];
    if |path| == 1 then Obj(Put(base, path[0], x))
    else Obj(Put(base, path[0], SetPath(Lookup(base, path[0]), path[1..], x)))
  }

  /** `setValue(v, key, x)`: the dotted key is split on `.` first. */
  function SetValue(v: Json, key: string, x: Json): (r: Json)
    ensures r.Obj?
    ensures v.Obj? ==> forall m :: m != Split(key)[0] ==> Get(r, m) == Get(v, m)
  {
    SetPath(v, Split(key), x)
  }

  /** Get after set on the same path reads back what was set, whatever the tree. */
  lemma {:induction false} GetPathAfterSetPath(v: Json, path: seq<string>, x: Json)
    requires path != []
    ensures GetPath(SetPath(v, path, x), path) == x
    decreases |path|
  {
    var base := if v.Obj? then v.props else [];
    var r := SetPath(v, path, x);
    if |path| == 1 {
      assert Get(r, path[0]) == x;
      assert GetPath(r, path) == GetPath(x, path[1..]);
    } else {
      var inner := SetPath(Lookup(base, path[0]), path[1..], x);
      assert Get(r, path[0]) == inner;
      assert GetPath(r, path) == GetPath(inner, path[1..]);
      GetPathAfterSetPath(Lookup(base, path[0]), path[1..], x);
    }
  }

  /** `getValue(setValue(v, key, x), key) == x` for every key, including dotted ones. */
  lemma GetValueAfterSetValue(v: Json, key: string, x: Json)
    ensures GetValue(SetValue(v, key, x), key) == x
  {
    GetPathAfterSetPath(v, Split(key), x);
  }

  /** Setting a path of an object leaves every path that leaves it at the first
      segment as it was. */
  lemma SetPathFrame(v: Json, p: seq<string>, q: seq<string>, x: Json)
    requires v.Obj? && p != [] && q != [] && p[0] != q[0]
    ensures GetPath(SetPath(v, p, x), q) == GetPath(v, q)
  {
  }

  /** For a dot-free key, `setValue` on an object is a single property assignment:
      that property reads `x`, every other property is unchanged, and the key joins
      `Object.keys` at the end when it was not there before. */
  lemma SetValueTopLevel(v: Json, key: string, x: Json)
    requires v.Obj? && '.' !in key
    ensures Get(SetValue(v, key, x), key) == x
    ensures forall m :: m != key ==> Get(SetValue(v, key, x), m) == Get(v, m)
    ensures Keys(SetValue(v, key, x)) == if key in Keys(v) then Keys(v) else Keys(v) + [key]
  {
    SplitPlain(key);
    PutNames(v.props, key, x);
  }

  /** For a dot-free key, `setValue` on an object leaves property `m` alone. */
  lemma SetValueOther(v: Json, key: string, x: Json, m: string)
    requires v.Obj? && '.' !in key && m != key
    ensures Get(SetValue(v, key, x), m) == Get(v, m)
  {
    SplitPlain(key);
  }

  /** For a dot-free key, `getValue` is a single property read. */
  lemma GetValueTopLevel(v: Json, key: string)
    requires v.Obj? && '.' !in key
    ensures GetValue(v, key) == Get(v, key)
  {
    SplitPlain(key);
    assert GetPath(v, [key]) == GetPath(Get(v, key), []);
  }
}
