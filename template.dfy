/**
  The template's `Resources` object.  A JavaScript object keeps its keys in
  insertion order, and `findKey`, `fp.entries` and `Object.assign` depend on
  that order, so the object is modelled as its list of entries.
 */
module Template {
  import opened Wrappers
  import opened Json

  /** One property of a resources object: a logical id and its resource. */
  datatype Entry = Entry(id: string, resource: Json)

  /** A JavaScript object of resources, as its entries in key order. */
  type Resources = seq<Entry>

  /** `{ [id]: resource }`, the one-key objects the plugin builds. */
  function Single(id: string, resource: Json): Resources {
    [Entry(id, resource)]
  }

  /** A JavaScript object never holds a key twice. */
  ghost predicate UniqueIds(rs: Resources) {
    forall i, j :: 0 <= i < j < |rs| ==> rs[i].id != rs[j].id
  }

  function Ids(rs: Resources): set<string> {
    set i | 0 <= i < |rs| :: rs[i].id
  }

  lemma IdsCons(e: Entry, t: Resources)
    ensures Ids([e] + t) == {e.id} + Ids(t)
  {
    var s := [e] + t;
    forall k | k in Ids(s) ensures k in {e.id} + Ids(t) {
      var i :| 0 <= i < |s| && s[i].id == k;
      if i > 0 {
        assert s[i] == t[i - 1];
      }
    }
    forall k | k in {e.id} + Ids(t) ensures k in Ids(s) {
      if k != e.id {
        var i :| 0 <= i < |t| && t[i].id == k;
        assert s[i + 1] == t[i];
      } else {
        assert s[0] == e;
      }
    }
  }

  /** `obj[id]`. */
  function Lookup(rs: Resources, id: string): Option<Json> {
    if rs == [] then None
    else if rs[0].id == id then Some(rs[0].resource)
    else Lookup(rs[1..], id)
  }

  lemma {:induction false} LookupIds(rs: Resources, id: string)
    ensures Lookup(rs, id).Some? <==> id in Ids(rs)
    ensures Lookup(rs, id).Some? ==> Entry(id, Lookup(rs, id).value) in rs
  {
    if rs != [] {
      LookupIds(rs[1..], id);
      assert Ids(rs) == {rs[0].id} + Ids(rs[1..]);
    }
  }

  lemma {:induction false} LookupUnique(rs: Resources, e: Entry)
    requires UniqueIds(rs) && e in rs
    ensures Lookup(rs, e.id) == Some(e.resource)
  {
    if rs[0] != e {
      LookupUnique(rs[1..], e);
    }
  }

  lemma {:induction false} UniqueCons(e: Entry, t: Resources)
    ensures UniqueIds([e] + t) <==> e.id !in Ids(t) && UniqueIds(t)
  {
    var s := [e] + t;
    if e.id in Ids(t) {
      var i :| 0 <= i < |t| && t[i].id == e.id;
      assert s[0].id == s[i + 1].id;
    }
    if UniqueIds(s) {
      forall i, j | 0 <= i < j < |t| ensures t[i].id != t[j].id {
        assert s[i + 1].id != s[j + 1].id;
      }
    }
    if e.id !in Ids(t) && UniqueIds(t) {
      forall i, j | 0 <= i < j < |s| ensures s[i].id != s[j].id {
        if i == 0 {
          assert s[j].id == t[j - 1].id;
        } else {
          assert s[i].id == t[i - 1].id && s[j].id == t[j - 1].id;
        }
      }
    }
  }

  /** `obj[id] = v`: an existing key keeps its place, a new key goes last. */
  function SetKey(rs: Resources, id: string, v: Json): Resources {
    if rs == [] then [Entry(id, v)]
    else if rs[0].id == id then [Entry(id, v)] + rs[1..]
    else [rs[0]] + SetKey(rs[1..], id, v)
  }

  /** After `obj[id] = v` the key holds `v` and every other key what it held. */
  lemma {:induction false} SetKeyLookup(rs: Resources, id: string, v: Json, other: string)
    ensures Lookup(SetKey(rs, id, v), other) == if other == id then Some(v) else Lookup(rs, other)
  {
    if rs != [] && rs[0].id != id {
      SetKeyLookup(rs[1..], id, v, other);
      assert ([rs[0]] + SetKey(rs[1..], id, v))[1..] == SetKey(rs[1..], id, v);
    }
  }

  /** The keys already there keep their places; a new key is appended. */
  lemma {:induction false} SetKeyPlaces(rs: Resources, id: string, v: Json)
    ensures var r := SetKey(rs, id, v);
      && |rs| <= |r| <= |rs| + 1
      && (forall i :: 0 <= i < |rs| ==> r[i].id == rs[i].id)
      && (forall i :: 0 <= i < |rs| && rs[i].id != id ==> r[i] == rs[i])
      && (|r| == |rs| + 1 ==> r[|rs|] == Entry(id, v))
  {
    if rs != [] && rs[0].id != id {
      SetKeyPlaces(rs[1..], id, v);
    }
  }

  /** The keys become the old ones plus `id`, still distinct; the only new entry is `id: v`. */
  lemma {:induction false} SetKeyIds(rs: Resources, id: string, v: Json)
    ensures var r := SetKey(rs, id, v);
      && Ids(r) == Ids(rs) + {id}
      && (UniqueIds(rs) ==> UniqueIds(r))
      && (forall e :: e in r ==> e in rs || e == Entry(id, v))
  {
    if rs == [] {
      assert Ids([Entry(id, v)]) == {id} by { IdsCons(Entry(id, v), []); }
    } else {
      var r := SetKey(rs, id, v);
      assert rs == [rs[0]] + rs[1..];
      IdsCons(rs[0], rs[1..]);
      UniqueCons(rs[0], rs[1..]);
      if rs[0].id == id {
        IdsCons(Entry(id, v), rs[1..]);
        UniqueCons(Entry(id, v), rs[1..]);
      } else {
        var tail := SetKey(rs[1..], id, v);
        SetKeyIds(rs[1..], id, v);
        IdsCons(rs[0], tail);
        UniqueCons(rs[0], tail);
      }
    }
  }

  /** The value the last entry of `s` named `id` carries. */
  function Assigned(s: Resources, id: string): Option<Json> {
    if s == [] then None
    else
      var later := Assigned(s[1..], id);
      if later.Some? then later
      else if s[0].id == id then Some(s[0].resource)
      else None
  }

  /** `Object.assign(target, source)`: the source's keys in order, later ones winning. */
  function Assign(target: Resources, source: Resources): Resources
    decreases |source|
  {
    if source == [] then target
    else Assign(SetKey(target, source[0].id, source[0].resource), source[1..])
  }

  /** The keys of `Object.assign(target, source)` are those of both, still distinct, and each entry comes from one of them. */
  lemma {:induction false} AssignIds(target: Resources, source: Resources)
    ensures var r := Assign(target, source);
      && Ids(r) == Ids(target) + Ids(source)
      && (UniqueIds(target) ==> UniqueIds(r))
      && (forall e :: e in r ==> e in target || e in source)
    decreases |source|
  {
    if source != [] {
      var step := SetKey(target, source[0].id, source[0].resource);
      SetKeyIds(target, source[0].id, source[0].resource);
      AssignIds(step, source[1..]);
      assert source == [source[0]] + source[1..];
      IdsCons(source[0], source[1..]);
      forall e | e in Assign(step, source[1..]) ensures e in target || e in source {
        if e in source[1..] {
          var n :| 0 <= n < |source[1..]| && source[1..][n] == e;
          assert source[n + 1] == e;
        }
      }
    }
  }

  /** After `Object.assign(target, source)` a key holds the source's last value for it, or else the target's. */
  lemma {:induction false} AssignLookup(target: Resources, source: Resources, id: string)
    ensures Lookup(Assign(target, source), id)
         == if Assigned(source, id).Some? then Assigned(source, id) else Lookup(target, id)
    decreases |source|
  {
    if source != [] {
      var step := SetKey(target, source[0].id, source[0].resource);
      SetKeyLookup(target, source[0].id, source[0].resource, id);
      AssignLookup(step, source[1..], id);
    }
  }

  /** The target's keys keep their places, and those the source does not name keep their values. */
  lemma {:induction false} AssignKeepsPlaces(target: Resources, source: Resources)
    ensures var r := Assign(target, source);
      && |target| <= |r|
      && (forall i :: 0 <= i < |target| ==> r[i].id == target[i].id)
      && (forall i :: 0 <= i < |target| && target[i].id !in Ids(source) ==> r[i] == target[i])
    decreases |source|
  {
    if source != [] {
      var step := SetKey(target, source[0].id, source[0].resource);
      SetKeyPlaces(target, source[0].id, source[0].resource);
      AssignKeepsPlaces(step, source[1..]);
      assert source == [source[0]] + source[1..];
      IdsCons(source[0], source[1..]);
    }
  }

  /** The value the last source that names `id` carries. */
  function AssignedAll(sources: seq<Resources>, id: string): Option<Json> {
    if sources == [] then None
    else
      var later := AssignedAll(sources[1..], id);
      if later.Some? then later else Assigned(sources[0], id)
  }

  function IdsAll(sources: seq<Resources>): set<string> {
    set i, k | 0 <= i < |sources| && k in Ids(sources[i]) :: k
  }

  lemma IdsAllCons(sources: seq<Resources>)
    requires sources != []
    ensures IdsAll(sources) == Ids(sources[0]) + IdsAll(sources[1..])
  {
    forall k | k in IdsAll(sources) ensures k in Ids(sources[0]) + IdsAll(sources[1..]) {
      var i :| 0 <= i < |sources| && k in Ids(sources[i]);
      if i > 0 {
        assert k in Ids(sources[1..][i - 1]);
      }
    }
    forall k | k in IdsAll(sources[1..]) ensures k in IdsAll(sources) {
      var i :| 0 <= i < |sources[1..]| && k in Ids(sources[1..][i]);
      assert k in Ids(sources[i + 1]);
    }
  }

  lemma {:induction false} IdsAllAppend(a: seq<Resources>, b: seq<Resources>)
    ensures IdsAll(a + b) == IdsAll(a) + IdsAll(b)
  {
    forall k | k in IdsAll(a + b) ensures k in IdsAll(a) + IdsAll(b) {
      var i :| 0 <= i < |a + b| && k in Ids((a + b)[i]);
      if i >= |a| {
        assert (a + b)[i] == b[i - |a|];
      }
    }
    forall k | k in IdsAll(a) + IdsAll(b) ensures k in IdsAll(a + b) {
      if k in IdsAll(a) {
        var i :| 0 <= i < |a| && k in Ids(a[i]);
        assert (a + b)[i] == a[i];
      } else {
        var i :| 0 <= i < |b| && k in Ids(b[i]);
        assert (a + b)[|a| + i] == b[i];
      }
    }
  }

  /** `Object.assign(target, ...sources)`. */
  function AssignAll(target: Resources, sources: seq<Resources>): Resources
    decreases |sources|
  {
    if sources == [] then target
    else AssignAll(Assign(target, sources[0]), sources[1..])
  }

  /** The keys of `Object.assign(target, ...sources)` are those of all of them, still distinct, and each entry comes from one of them. */
  lemma {:induction false} AssignAllIds(target: Resources, sources: seq<Resources>)
    ensures var r := AssignAll(target, sources);
      && Ids(r) == Ids(target) + IdsAll(sources)
      && (UniqueIds(target) ==> UniqueIds(r))
      && (forall e :: e in r ==> e in target || exists i :: 0 <= i < |sources| && e in sources[i])
    decreases |sources|
  {
    if sources != [] {
      IdsAllCons(sources);
      var step := Assign(target, sources[0]);
      AssignIds(target, sources[0]);
      AssignAllIds(step, sources[1..]);
      forall e | e in AssignAll(step, sources[1..]) && e !in target
        ensures exists i :: 0 <= i < |sources| && e in sources[i]
      {
        if e !in sources[0] {
          var i :| 0 <= i < |sources[1..]| && e in sources[1..][i];
          assert e in sources[i + 1];
        }
      }
    }
  }

  /** The target's keys keep their places, and those no source names keep their values. */
  lemma {:induction false} AssignAllKeepsPlaces(target: Resources, sources: seq<Resources>)
    ensures var r := AssignAll(target, sources);
      && |target| <= |r|
      && (forall i :: 0 <= i < |target| ==> r[i].id == target[i].id)
      && (forall i :: 0 <= i < |target| && target[i].id !in IdsAll(sources) ==> r[i] == target[i])
    decreases |sources|
  {
    if sources != [] {
      IdsAllCons(sources);
      var step := Assign(target, sources[0]);
      AssignKeepsPlaces(target, sources[0]);
      AssignAllKeepsPlaces(step, sources[1..]);
    }
  }

  /** After `Object.assign(target, ...sources)` a key holds the last value the sources give it, or else the target's. */
  lemma {:induction false} AssignAllLookup(target: Resources, sources: seq<Resources>, id: string)
    ensures Lookup(AssignAll(target, sources), id)
         == if AssignedAll(sources, id).Some? then AssignedAll(sources, id) else Lookup(target, id)
    decreases |sources|
  {
    if sources != [] {
      var step := Assign(target, sources[0]);
      AssignLookup(target, sources[0], id);
      AssignAllLookup(step, sources[1..], id);
    }
  }

  /** `pickBy(keep, rs)`: the entries whose resource passes `keep`, in order. */
  function PickBy(rs: Resources, keep: Json -> bool): (r: Resources)
    ensures forall e :: e in r <==> e in rs && keep(e.resource)
    ensures |r| <= |rs|
    ensures UniqueIds(rs) ==> UniqueIds(r)
  {
    if rs == [] then []
    else
      var tail := PickBy(rs[1..], keep);
      if keep(rs[0].resource) then
        assert forall e :: e in tail ==> e in rs[1..];
        [rs[0]] + tail
      else tail
  }

  /** `findKey(found, rs)`: the first key whose resource passes `found`. */
  function FindKey(rs: Resources, found: Json -> bool): (r: Option<string>)
    ensures r.Some? ==> exists i :: 0 <= i < |rs| && rs[i].id == r.value && found(rs[i].resource)
                                    && forall k :: 0 <= k < i ==> !found(rs[k].resource)
    ensures r.None? <==> forall e :: e in rs ==> !found(e.resource)
  {
    if rs == [] then None
    else if found(rs[0].resource) then Some(rs[0].id)
    else
      var r := FindKey(rs[1..], found);
      assert r.Some? ==> exists i :: 0 <= i < |rs| && rs[i].id == r.value && found(rs[i].resource)
                                     && forall k :: 0 <= k < i ==> !found(rs[k].resource) by {
        if r.Some? {
          var i :| 0 <= i < |rs[1..]| && rs[1..][i].id == r.value && found(rs[1..][i].resource)
                   && forall k :: 0 <= k < i ==> !found(rs[1..][k].resource);
          assert rs[i + 1].id == r.value && forall k :: 0 <= k < i + 1 ==> !found(rs[k].resource);
        }
      }
      r
  }

  /**
    When every source is drawn from one object, merging them into an empty
    object keeps each drawn entry: the only entry with its key is itself.
   */
  lemma AssignAllKeepsDrawn(rs: Resources, sources: seq<Resources>, i: nat, e: Entry)
    requires UniqueIds(rs)
    requires forall j, x :: 0 <= j < |sources| && x in sources[j] ==> x in rs
    requires i < |sources| && e in sources[i]
    ensures e in AssignAll([], sources)
  {
    var r := AssignAll([], sources);
    AssignAllIds([], sources);
    var n :| 0 <= n < |sources[i]| && sources[i][n] == e;
    assert e.id in Ids(sources[i]);
    assert e.id in IdsAll(sources);
    var k :| 0 <= k < |r| && r[k].id == e.id;
    assert r[k] in r;
    var j :| 0 <= j < |sources| && r[k] in sources[j];
    LookupUnique(rs, e);
    LookupUnique(rs, r[k]);
  }
}
