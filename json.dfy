/**
 * The JSON-like data tree a document holds, the '/'-separated paths that
 * address it, and the two things the document store does with it: write a
 * value at a path (a SetData transaction) and resolve a path (`resolveData`).
 */
module Json {
  import opened Wrappers

  datatype Value =
    | Null
    | Bool(b: bool)
    | Num(n: int)
    | Str(s: string)
    | List(items: seq<Value>)
    | Obj(fields: map<string, Value>)

  /** JavaScript truthiness of a value that is present. */
  predicate Truthy(v: Value) {
    match v
    case Null => false
    case Bool(b) => b
    case Num(n) => n != 0
    case Str(s) => s != ""
    case List(_) => true
    case Obj(_) => true
  }

  /** Truthiness of a value that may be `undefined`. */
  predicate Present(v: Option<Value>) {
    v.Some? && Truthy(v.value)
  }

  /** The keys and values `Object.keys` and object spreading see; only an
      object has any here. */
  function Fields(v: Option<Value>): map<string, Value> {
    if v.Some? && v.value.Obj? then v.value.fields else map[]
  }

  type Path = seq<string>

  /** `s.split("/")`: the pieces between separators, empty pieces kept. */
  function Split(s: string): (r: seq<string>)
    ensures |r| >= 1
  {
    if s == [] then [""]
    else
      var rest := Split(s[1..]);
      if s[0] == '/' then [""] + rest
      else
        assert s == [s[0]] + s[1..];
        [[s[0]] + rest[0]] + rest[1..]
  }

  /** A string without a separator is a single piece. */
  lemma {:induction false} SplitWhole(s: string)
    requires '/' !in s
    ensures Split(s) == [s]
  {
    if s != [] {
      assert s[0] != '/' && '/' !in s[1..];
      SplitWhole(s[1..]);
      assert [s[0]] + s[1..] == s;
    }
  }

  /** The segments of a data path: one leading '/' is dropped, and "" and "/"
      both name the root. */
  function DecodePath(p: string): Path {
    var q := if |p| > 0 && p[0] == '/' then p[1..] else p;
    if q == "" then [] else Split(q)
  }

  /** The value under key `k` of an object, `Null` where there is none. */
  function Child(v: Value, k: string): Value {
    if v.Obj? && k in v.fields then v.fields[k] else Null
  }

  /** The data tree after writing `v` at `path`: every object on the way is
      kept or created, and a non-object on the way is replaced by one. */
  function SetAt(root: Value, path: Path, v: Value): Value
    decreases |path|
  {
    if path == [] then v
    else
      var fields := if root.Obj? then root.fields else map[];
      Obj(fields[path[0] := SetAt(Child(root, path[0]), path[1..], v)])
  }

  /** What `resolveData` answers: the value found, and the part of the path
      that could not be followed. */
  datatype Resolution = Resolution(value: Option<Value>, remainder: Path)

  function Resolve(root: Value, path: Path): (r: Resolution)
    ensures r.value.None? <==> r.remainder != []
    decreases |path|
  {
    if path == [] then Resolution(Some(root), [])
    else if root.Obj? && path[0] in root.fields then Resolve(root.fields[path[0]], path[1..])
    else Resolution(None, path)
  }

  /** What is left unresolved is a suffix of the path: resolution stops at
      the first segment it cannot follow and reports the rest. */
  lemma {:induction false} RemainderIsSuffix(root: Value, path: Path)
    ensures var r := Resolve(root, path);
            |r.remainder| <= |path| && r.remainder == path[|path| - |r.remainder|..]
    decreases |path|
  {
    if path != [] && root.Obj? && path[0] in root.fields {
      var r := Resolve(root.fields[path[0]], path[1..]);
      RemainderIsSuffix(root.fields[path[0]], path[1..]);
      assert path[1..][|path[1..]| - |r.remainder|..] == path[|path| - |r.remainder|..];
    }
  }

  /** The children of the object found at `p`, none if there is no object. */
  function ChildrenAt(root: Value, p: Path): map<string, Value> {
    Fields(Resolve(root, p).value)
  }

  /** Two paths that part ways: neither is a prefix of the other. */
  predicate Diverge(p: Path, q: Path)
    decreases |p|
  {
    |p| > 0 && |q| > 0 && (p[0] != q[0] || Diverge(p[1..], q[1..]))
  }

  /** Splitting a joined path gives the pieces of both halves. */
  lemma {:induction false} SplitConcat(a: string, b: string)
    ensures Split(a + "/" + b) == Split(a) + Split(b)
    decreases |a|
  {
    if a == [] {
      assert a + "/" + b == ['/'] + b;
      SplitCons('/', b);
    } else {
      var c, a' := a[0], a[1..];
      SplitConcat(a', b);
      SplitConcatStep(c, a', b);
      assert a == [c] + a';
      assert a + "/" + b == [c] + (a' + "/" + b);
    }
  }

  /** The inductive step of `SplitConcat`: one more leading character. */
  lemma SplitConcatStep(c: char, a': string, b: string)
    requires Split(a' + "/" + b) == Split(a') + Split(b)
    ensures Split([c] + (a' + "/" + b)) == Split([c] + a') + Split(b)
  {
    var x := a' + "/" + b;
    SplitCons(c, x);
    SplitCons(c, a');
    PiecesStep(c, Split(x), Split(a'), Split(b));
  }

  /** The pieces after one more leading character, for a piece list that
      is `rest` followed by `tail`. */
  lemma PiecesStep(c: char, pieces: seq<string>, rest: seq<string>, tail: seq<string>)
    requires pieces == rest + tail && rest != []
    ensures (if c == '/' then [""] + pieces else [[c] + pieces[0]] + pieces[1..])
            == (if c == '/' then [""] + rest else [[c] + rest[0]] + rest[1..]) + tail
  {
    if c != '/' {
      assert pieces[0] == rest[0];
      assert pieces[1..] == rest[1..] + tail;
    }
  }

  /** One step of `Split`: a leading separator starts a new piece, any other
      character joins the first piece. */
  lemma SplitCons(c: char, t: string)
    ensures Split([c] + t) == if c == '/' then [""] + Split(t) else [[c] + Split(t)[0]] + Split(t)[1..]
  {
    var s := [c] + t;
    assert s[0] == c && s[1..] == t;
  }

  /** Three pieces without separators, joined, split back into those pieces. */
  lemma SplitThree(a: string, b: string, c: string)
    requires '/' !in a && '/' !in b && '/' !in c
    ensures Split(a + "/" + b + "/" + c) == [a, b, c]
  {
    SplitWhole(a);
    SplitWhole(b);
    SplitWhole(c);
    SplitConcat(a, b);
    SplitConcat(a + "/" + b, c);
  }

  /** The same, read as a data path. */
  lemma DecodeThree(a: string, b: string, c: string)
    requires a != "" && '/' !in a && '/' !in b && '/' !in c
    ensures DecodePath(a + "/" + b + "/" + c) == [a, b, c]
  {
    SplitThree(a, b, c);
    assert (a + "/" + b + "/" + c)[0] == a[0];
  }

  /** A path `a/b` whose first part does not start with '/' decodes to the
      segments of `a` followed by those of `b`. */
  lemma DecodeConcat(a: string, b: string)
    requires a != "" && a[0] != '/'
    ensures DecodePath(a + "/" + b) == Split(a) + Split(b)
  {
    SplitConcat(a, b);
  }

  /** Read-your-write: resolving the path just written gives the value written. */
  lemma {:induction false} ResolveSetAt(root: Value, path: Path, v: Value)
    ensures Resolve(SetAt(root, path, v), path) == Resolution(Some(v), [])
    decreases |path|
  {
    if path != [] {
      ResolveSetAt(Child(root, path[0]), path[1..], v);
    }
  }

  lemma ChildrenStep(root: Value, p: Path)
    requires p != []
    ensures ChildrenAt(root, p) == ChildrenAt(Child(root, p[0]), p[1..])
  {
    if !(root.Obj? && p[0] in root.fields) {
      assert Resolve(root, p).value == None;
      assert Child(root, p[0]) == Null;
      assert Fields(Resolve(Null, p[1..]).value) == map[];
    }
  }

  /** Writing `v` under key `k` of the object at `p` leaves that object with
      exactly its former children and `k` mapped to `v`. */
  lemma {:induction false} SetChild(root: Value, p: Path, k: string, v: Value)
    ensures Resolve(SetAt(root, p + [k], v), p) == Resolution(Some(Obj(ChildrenAt(root, p)[k := v])), [])
    decreases |p|
  {
    if p == [] {
      assert p + [k] == [k];
    } else {
      assert (p + [k])[0] == p[0];
      assert (p + [k])[1..] == p[1..] + [k];
      SetChild(Child(root, p[0]), p[1..], k, v);
      ChildrenStep(root, p);
    }
  }

  /** A write does not change what a path that parts ways with it resolves to. */
  lemma {:induction false} SetAtElsewhere(root: Value, p: Path, q: Path, v: Value)
    requires Diverge(p, q)
    ensures Resolve(SetAt(root, p, v), q).value == Resolve(root, q).value
    decreases |p|
  {
    if p[0] == q[0] {
      SetAtElsewhere(Child(root, p[0]), p[1..], q[1..], v);
    }
  }
}
