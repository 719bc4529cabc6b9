/**
  The document tree: a JSON value, read and written through paths the way
  lodash/fp's `get` and `set` do.  `Set` never changes its argument (values are
  immutable), creates missing intermediate nodes (an array when the next step
  is an index, an object otherwise) and replaces scalar intermediate nodes the
  same way.
 */
module Json {
  import opened Wrappers

  datatype Json =
    | JNull
    | JBool(b: bool)
    | JNum(n: int)
    | JStr(s: string)
    | JArr(items: seq<Json>)
    | JObj(fields: map<string, Json>)
  {
    /** lodash's `isObject`: arrays and objects. */
    predicate IsContainer() { JArr? || JObj? }
  }

  /** One step of a path: a property name or an array index. */
  datatype Seg = Key(name: string) | Idx(index: nat)

  type Path = seq<Seg>

  /** `{ Ref: id }`, a direct reference to another resource. */
  function Ref(id: string): Json {
    JObj(map["Ref" := JStr(id)])
  }

  /** JavaScript truthiness of a possibly missing value. */
  predicate Truthy(o: Option<Json>) {
    match o
    case None => false
    case Some(JNull) => false
    case Some(JBool(b)) => b
    case Some(JNum(n)) => n != 0
    case Some(JStr(s)) => s != ""
    case Some(_) => true
  }

  // ---------------------------------------------------------------- reading

  function Child(j: Json, s: Seg): Option<Json> {
    match s
    case Key(k) => if j.JObj? && k in j.fields then Some(j.fields[k]) else None
    case Idx(i) => if j.JArr? && i < |j.items| then Some(j.items[i]) else None
  }

  /** lodash `get`: the value at `p`, or `None` where a step is missing. */
  function Get(j: Json, p: Path): Option<Json>
    decreases |p|
  {
    if p == [] then Some(j)
    else
      match Child(j, p[0])
      case None => None
      case Some(c) => Get(c, p[1..])
  }

  /** Reading along `p + q` is reading `q` from the node at `p`. */
  lemma {:induction false} GetAppend(j: Json, p: Path, q: Path)
    ensures Get(j, p + q) == if Get(j, p).Some? then Get(Get(j, p).value, q) else None
    decreases |p|
  {
    if p == [] {
      assert p + q == q;
    } else {
      assert (p + q)[0] == p[0] && (p + q)[1..] == p[1..] + q;
      if Child(j, p[0]).Some? {
        GetAppend(Child(j, p[0]).value, p[1..], q);
      }
    }
  }

  // ---------------------------------------------------------------- writing

  /** The container lodash creates for a missing node, chosen by the next step. */
  function Fresh(s: Seg): Json {
    if s.Idx? then JArr([]) else JObj(map[])
  }

  /** The node a write descends into: the existing container, or a fresh one. */
  function Node(child: Option<Json>, rest: Path): Json {
    if child.Some? && child.value.IsContainer() then child.value
    else if rest == [] then JNull
    else Fresh(rest[0])
  }

  /** Writing past the end of an array leaves holes, which JSON renders as null. */
  function Put(items: seq<Json>, i: nat, x: Json): (r: seq<Json>)
    ensures |r| == if i < |items| then |items| else i + 1
    ensures r[i] == x
    ensures forall k :: 0 <= k < |items| && k != i ==> r[k] == items[k]
  {
    if i < |items| then items[i := x]
    else items + seq(i - |items|, _ => JNull) + [x]
  }

  /** lodash/fp `set(path, value, object)`: a copy of `j` with `v` at `p`. */
  function Set(j: Json, p: Path, v: Json): Json
    decreases |p|
  {
    if p == [] then v
    else
      var n := Set(Node(Child(j, p[0]), p[1..]), p[1..], v);
      match p[0]
      case Key(k) => if j.JObj? then JObj(j.fields[k := n]) else j
      case Idx(i) => if j.JArr? then JArr(Put(j.items, i, n)) else j
  }

  /**
    The writes that lodash performs as element or property writes: every step
    meets a container of the right kind (a key on an object, an index on an
    array at most one past its end), where missing and scalar nodes count as
    the fresh container that replaces them.
   */
  predicate CanSet(j: Json, p: Path)
    decreases |p|
  {
    p == [] ||
    ((match p[0]
      case Key(_) => j.JObj?
      case Idx(i) => j.JArr? && i <= |j.items|)
     && CanSet(Node(Child(j, p[0]), p[1..]), p[1..]))
  }

  predicate IsPrefix(a: Path, b: Path) {
    |a| <= |b| && b[..|a|] == a
  }

  /** Two paths neither of which lies on the other. */
  predicate Apart(p: Path, q: Path) {
    !IsPrefix(p, q) && !IsPrefix(q, p)
  }

  // ----------------------------------------------------------------- lemmas

  /** After a write, the path holds the written value. */
  lemma {:induction false} GetSetSame(j: Json, p: Path, v: Json)
    requires CanSet(j, p)
    ensures Get(Set(j, p, v), p) == Some(v)
    decreases |p|
  {
    if p != [] {
      var n := Set(Node(Child(j, p[0]), p[1..]), p[1..], v);
      GetSetSame(Node(Child(j, p[0]), p[1..]), p[1..], v);
      assert Child(Set(j, p, v), p[0]) == Some(n);
    }
  }

  lemma PrefixCons(s: Seg, a: Path, b: Path)
    ensures IsPrefix([s] + a, [s] + b) <==> IsPrefix(a, b)
  {
    if IsPrefix(a, b) {
      assert ([s] + b)[..|[s] + a|] == [s] + b[..|a|];
    }
    if IsPrefix([s] + a, [s] + b) {
      assert b[..|a|] == ([s] + b)[..|[s] + a|][1..];
    }
  }

  /** A fresh container has nothing below it. */
  lemma GetFreshNone(s: Seg, q: Path)
    requires q != []
    ensures Get(Fresh(s), q) == None
  {
  }

  /** A write changes nothing at any path apart from the written one. */
  lemma {:induction false} GetSetOther(j: Json, p: Path, v: Json, q: Path)
    requires CanSet(j, p)
    requires Apart(p, q)
    ensures Get(Set(j, p, v), q) == Get(j, q)
    decreases |p|
  {
    assert p != [] && q != [] by {
      assert IsPrefix([], q) && IsPrefix([], p);
    }
    var rest := p[1..];
    var c := Child(j, p[0]);
    var node := Node(c, rest);
    var n := Set(node, rest, v);
    if q[0] == p[0] {
      ChildSetSame(j, p, v);
      PrefixCons(p[0], rest, q[1..]);
      PrefixCons(p[0], q[1..], rest);
      assert p == [p[0]] + rest && q == [p[0]] + q[1..];
      GetSetOther(node, rest, v, q[1..]);
      if !(c.Some? && c.value.IsContainer()) {
        assert rest != [] && q[1..] != [] by {
          assert IsPrefix([], q[1..]) && IsPrefix([], rest);
        }
        GetFreshNone(rest[0], q[1..]);
      }
    } else {
      ChildSetOther(j, p, v, q[0]);
    }
  }

  /** A write descends into the child its first step names. */
  lemma ChildSetSame(j: Json, p: Path, v: Json)
    requires CanSet(j, p) && p != []
    ensures Child(Set(j, p, v), p[0]) == Some(Set(Node(Child(j, p[0]), p[1..]), p[1..], v))
  {
  }

  /** A write leaves every other child of the root as it was. */
  lemma ChildSetOther(j: Json, p: Path, v: Json, s: Seg)
    requires CanSet(j, p) && p != [] && s != p[0]
    ensures Child(Set(j, p, v), s) == Child(j, s)
  {
  }

  /** Writing below a container yields a container of the same kind. */
  lemma SetKeepsContainer(j: Json, p: Path, v: Json)
    requires j.IsContainer() && p != []
    ensures Set(j, p, v).IsContainer()
    ensures Set(j, p, v).JObj? == j.JObj?
  {
  }

  /** The last write to a path wins: writing twice is writing once. */
  lemma {:induction false} SetSetSame(j: Json, p: Path, v1: Json, v2: Json)
    ensures Set(Set(j, p, v1), p, v2) == Set(j, p, v2)
    decreases |p|
  {
    if p != [] {
      var rest := p[1..];
      var node := Node(Child(j, p[0]), rest);
      var n1 := Set(node, rest, v1);
      var n2 := Set(node, rest, v2);
      var once := Set(j, p, v1);
      SetSetSame(node, rest, v1, v2);
      if rest != [] {
        SetKeepsContainer(node, rest, v1);
      }
      match p[0]
      case Key(k) =>
        if j.JObj? {
          assert Child(once, p[0]) == Some(n1);
          assert Set(once, p, v2) == JObj(j.fields[k := n1][k := n2]);
          OverwriteKey(j.fields, k, n1, n2);
        }
      case Idx(i) =>
        if j.JArr? {
          var items1 := Put(j.items, i, n1);
          assert Child(once, p[0]) == Some(n1);
          assert Set(once, p, v2) == JArr(Put(items1, i, n2));
          PutPut(j.items, i, n1, n2);
        }
    }
  }

  /** Two writes to one index of an array equal the second alone. */
  lemma PutPut(items: seq<Json>, i: nat, x: Json, y: Json)
    ensures Put(Put(items, i, x), i, y) == Put(items, i, y)
  {
    var a := Put(Put(items, i, x), i, y);
    var b := Put(items, i, y);
    assert |a| == |b|;
    forall k | 0 <= k < |a|
      ensures a[k] == b[k]
    {
      if k != i && k >= |items| {
        assert Put(items, i, x)[k] == JNull;
      }
    }
  }

  /** Writing at `p + q` changes the node at `p` exactly as writing `q` into it. */
  lemma {:induction false} GetSetBelow(j: Json, p: Path, q: Path, v: Json)
    requires Get(j, p).Some?
    requires q == [] || Get(j, p).value.IsContainer()
    ensures Get(Set(j, p + q, v), p) == Some(Set(Get(j, p).value, q, v))
    decreases |p|
  {
    if p != [] {
      var c := Child(j, p[0]).value;
      assert Get(j, p) == Get(c, p[1..]);
      assert (p + q)[0] == p[0] && (p + q)[1..] == p[1..] + q;
      var rest := p[1..] + q;
      if p[1..] != [] {
        assert c.IsContainer();
      }
      assert Set(Node(Some(c), rest), rest, v) == Set(c, rest, v);
      GetSetBelow(c, p[1..], q, v);
      var n := Set(c, rest, v);
      assert Child(Set(j, p + q, v), p[0]) == Some(n);
      assert Get(Set(j, p + q, v), p) == Get(n, p[1..]);
    } else {
      assert p + q == q;
    }
  }

  /** Every path apart from `p` reads the same in `before` and `after`. */
  ghost predicate OnlyChangedAt(before: Json, after: Json, p: Path) {
    forall q :: Apart(p, q) ==> Get(after, q) == Get(before, q)
  }

  /** Two paths that differ at some step are apart. */
  lemma ApartAt(p: Path, q: Path, i: nat)
    requires i < |p| && i < |q| && p[i] != q[i]
    ensures Apart(p, q)
  {
    assert |p| <= |q| ==> q[..|p|][i] == q[i];
    assert |q| <= |p| ==> p[..|q|][i] == p[i];
  }

  /** A write puts `v` at `p` and changes nothing elsewhere. */
  lemma SetOnlyChanges(j: Json, p: Path, v: Json)
    requires CanSet(j, p)
    ensures Get(Set(j, p, v), p) == Some(v)
    ensures OnlyChangedAt(j, Set(j, p, v), p)
  {
    GetSetSame(j, p, v);
    forall q | Apart(p, q) ensures Get(Set(j, p, v), q) == Get(j, q) {
      GetSetOther(j, p, v, q);
    }
  }

  lemma PrefixOfExtension(p: Path, more: Path, q: Path)
    ensures IsPrefix(p + more, q) ==> IsPrefix(p, q)
    ensures IsPrefix(q, p + more) ==> IsPrefix(q, p) || IsPrefix(p, q)
  {
    if IsPrefix(p + more, q) {
      assert q[..|p|] == (p + more)[..|p|];
    }
    if IsPrefix(q, p + more) {
      if |q| <= |p| {
        assert p[..|q|] == (p + more)[..|q|];
      } else {
        assert q[..|p|] == (p + more)[..|p|];
      }
    }
  }

  /** A path apart from `p` is apart from everything below `p`. */
  lemma ApartExtend(p: Path, more: Path, q: Path)
    requires Apart(p, q)
    ensures Apart(p + more, q)
  {
    PrefixOfExtension(p, more, q);
  }

  /** A write below an existing node is possible when it is possible from that node. */
  lemma {:induction false} CanSetBelow(j: Json, p: Path, q: Path)
    requires Get(j, p).Some? && CanSet(Get(j, p).value, q)
    ensures CanSet(j, p + q)
    decreases |p|
  {
    if p == [] {
      assert p + q == q;
    } else {
      var c := Child(j, p[0]).value;
      var rest := p[1..] + q;
      assert (p + q)[0] == p[0] && (p + q)[1..] == rest;
      assert Get(j, p) == Get(c, p[1..]);
      if p[1..] == [] {
        assert p[1..] + q == q;
      }
      CanSetBelow(c, p[1..], q);
      if rest != [] {
        assert c.IsContainer();
      }
      assert Node(Some(c), rest) == c || rest == [];
    }
  }

  /** Two writes to different keys commute; stated over any map so that literal keys cost nothing. */
  lemma SwapKeys(m: map<string, Json>, a: string, b: string, x: Json, y: Json)
    requires a != b
    ensures m[a := x][b := y] == m[b := y][a := x]
  {
  }

  /** A second write to a key replaces the first. */
  lemma OverwriteKey(m: map<string, Json>, a: string, x: Json, y: Json)
    ensures m[a := x][a := y] == m[a := y]
  {
  }

  // ----------------------------------------------------------------- leaves

  /** A value `flat` does not open: a scalar or an empty container. */
  predicate IsLeaf(j: Json) {
    match j
    case JArr(items) => items == []
    case JObj(fields) => fields == map[]
    case _ => true
  }

  /**
    The values the `flat` library lists for a value nested inside a tree:
    non-empty containers are opened, anything else is one leaf.
   */
  function Leaves(j: Json): set<Json>
    decreases j, 1
  {
    if j.IsContainer() && ChildLeaves(j) != {} then ChildLeaves(j) else {j}
  }

  /** The leaves of everything directly below `j`. */
  function ChildLeaves(j: Json): set<Json>
    decreases j, 0
  {
    match j
    case JObj(fields) => set k, x | k in fields && x in Leaves(fields[k]) :: x
    case JArr(items) => set i, x | 0 <= i < |items| && x in Leaves(items[i]) :: x
    case _ => {}
  }

  /**
    The values of `flat(j)` at the root.  The library lists the properties of
    `Object.keys(j)`: the leaves below a container, the characters of a
    string, nothing for a number or a boolean.  It throws on `null` and
    `undefined`, hence the precondition.
   */
  function Flat(j: Json): set<Json>
    requires !j.JNull?
  {
    match j
    case JStr(s) => set i | 0 <= i < |s| :: JStr([s[i]])
    case JArr(_) => ChildLeaves(j)
    case JObj(_) => ChildLeaves(j)
    case _ => {}
  }

  /** Every leaf `flat` lists is reached from the root by a path and is a leaf. */
  lemma {:induction false} LeavesReachable(j: Json, x: Json)
    requires x in Leaves(j)
    ensures IsLeaf(x)
    ensures exists q :: Get(j, q) == Some(x)
    decreases j
  {
    if j.IsContainer() && ChildLeaves(j) != {} {
      var q := ChildLeafReachable(j, x);
    } else {
      assert x == j;
      assert Get(j, []) == Some(j);
      ChildLeavesNonEmpty(j);
    }
  }

  /** The path below `j` that reaches a listed leaf. */
  lemma {:induction false} ChildLeafReachable(j: Json, x: Json) returns (q: Path)
    requires x in ChildLeaves(j)
    ensures IsLeaf(x)
    ensures q != [] && Get(j, q) == Some(x)
    decreases j, 0
  {
    match j
    case JObj(fields) =>
      var k :| k in fields && x in Leaves(fields[k]);
      LeavesReachable(fields[k], x);
      var r :| Get(fields[k], r) == Some(x);
      q := [Key(k)] + r;
      assert q[0] == Key(k) && q[1..] == r;
    case JArr(items) =>
      var i :| 0 <= i < |items| && x in Leaves(items[i]);
      LeavesReachable(items[i], x);
      var r :| Get(items[i], r) == Some(x);
      q := [Idx(i)] + r;
      assert q[0] == Idx(i) && q[1..] == r;
  }

  /** A container with something in it has leaves below it. */
  lemma ChildLeavesNonEmpty(j: Json)
    ensures !IsLeaf(j) ==> ChildLeaves(j) != {}
  {
    match j
    case JObj(fields) =>
      if fields != map[] {
        var k :| k in fields;
        LeavesNonEmpty(fields[k]);
        var y :| y in Leaves(fields[k]);
        assert y in ChildLeaves(j);
      }
    case JArr(items) =>
      if items != [] {
        LeavesNonEmpty(items[0]);
        var y :| y in Leaves(items[0]);
        assert y in ChildLeaves(j);
      }
    case _ =>
  }

  lemma LeavesNonEmpty(j: Json)
    ensures Leaves(j) != {}
  {
    assert j in Leaves(j) || ChildLeaves(j) != {};
  }

  /** Conversely, every leaf reached by a path is listed. */
  lemma {:induction false} ReachableLeaves(j: Json, q: Path, x: Json)
    requires Get(j, q) == Some(x) && IsLeaf(x)
    ensures x in Leaves(j)
    ensures q != [] ==> x in ChildLeaves(j)
    decreases |q|
  {
    if q == [] {
      assert x == j;
      assert ChildLeaves(j) == {};
    } else {
      var c := Child(j, q[0]).value;
      ReachableLeaves(c, q[1..], x);
      match q[0]
      case Key(k) => assert c == j.fields[k];
      case Idx(i) => assert c == j.items[i];
    }
  }
}
