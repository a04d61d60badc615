/**
 * What rebuilding the merged parameters into a tree guarantees: when no
 * dotted name is a prefix of another, every merged value can be read back at
 * its dotted path, and without dots the tree is the flat object itself.
 */
module ObjectTree {
  import opened Wrappers
  import opened Props
  import opened Json
  import opened Dotted
  import opened Params
  import opened PathTemplate

  /** Neither path is a prefix of the other (equal paths are prefixes of each other). */
  predicate Diverge(p: seq<string>, q: seq<string>)
  {
    !(p <= q) && !(q <= p)
  }

  /** The dotted names of `flat` pairwise diverge once split. */
  predicate PathsDiverge(flat: Props<Value>)
  {
    forall i, j :: 0 <= i < j < |flat| ==> Diverge(Split(flat[i].0), Split(flat[j].0))
  }

  /** No step on the way to `p` is a truthy primitive, so putting at `p` cannot raise. */
  predicate Open(t: Props<Value>, p: seq<string>)
  {
    forall n :: 1 <= n < |p| ==>
      GetPath(t, p[..n]).None? || GetPath(t, p[..n]).value.Obj? || !Truthy(GetPath(t, p[..n]).value)
  }

  /** Two objects that agree on the first name agree on every path through it. */
  lemma GetPathSameHead(t: Props<Value>, u: Props<Value>, q: seq<string>)
    requires |q| >= 1 && Get(t, q[0]) == Get(u, q[0])
    ensures GetPath(t, q) == GetPath(u, q)
  {
  }

  /** Below an empty object nothing is found. */
  lemma GetPathEmpty(q: seq<string>)
    requires |q| >= 1
    ensures GetPath([], q) == None
  {
  }

  /** A put along a path of two or more names replaces the first name's object by the inner put's result and nothing else. */
  lemma PutHead(t: Props<Value>, p: seq<string>, v: Value)
    requires |p| >= 2 && Put(t, p, v).Some?
    ensures Put(Child(t, p[0]), p[1..], v).Some?
    ensures Get(Put(t, p, v).value, p[0]) == Some(Obj(Put(Child(t, p[0]), p[1..], v).value))
    ensures forall k :: k != p[0] ==> Get(Put(t, p, v).value, k) == Get(t, k)
  {
  }

  /** Reading through an object one name deep. */
  lemma GetPathStep(t: Props<Value>, q: seq<string>, c: Props<Value>)
    requires |q| >= 2 && Get(t, q[0]) == Some(Obj(c))
    ensures GetPath(t, q) == GetPath(c, q[1..])
  {
  }

  /** Below the child `Put` works in, a path reads as it read in `t`. */
  lemma GetPathChild(t: Props<Value>, q: seq<string>)
    requires |q| >= 2
    ensures GetPath(t, q) == GetPath(Child(t, q[0]), q[1..])
  {
    if Get(t, q[0]).None? || !Get(t, q[0]).value.Obj? {
      GetPathEmpty(q[1..]);
    }
  }

  /** Paths that diverge and share their first name diverge after it. */
  lemma DivergeTail(p: seq<string>, q: seq<string>)
    requires |p| >= 1 && |q| >= 1 && p[0] == q[0] && Diverge(p, q)
    ensures |p| >= 2 && |q| >= 2
    ensures Diverge(p[1..], q[1..])
  {
    assert p[..1] == q[..1];
    assert p == [p[0]] + p[1..] && q == [q[0]] + q[1..];
  }

  /** Putting at `p` leaves every path that diverges from `p` as it was. */
  lemma {:induction false} PutKeepsDiverging(t: Props<Value>, p: seq<string>, v: Value, q: seq<string>)
    requires |p| >= 1 && Put(t, p, v).Some? && Diverge(p, q)
    ensures GetPath(Put(t, p, v).value, q) == GetPath(t, q)
    decreases |p|
  {
    var r := Put(t, p, v).value;
    assert |q| >= 1;
    if q[0] != p[0] {
      if |p| >= 2 {
        PutHead(t, p, v);
      }
      GetPathSameHead(r, t, q);
    } else {
      DivergeTail(p, q);
      PutHead(t, p, v);
      var child := Child(t, p[0]);
      var c := Put(child, p[1..], v).value;
      PutKeepsDiverging(child, p[1..], v, q[1..]);
      GetPathStep(r, q, c);
      GetPathChild(t, q);
    }
  }

  /** A one-name path reads that property. */
  lemma GetPathSingle(t: Props<Value>, q: seq<string>)
    requires |q| == 1
    ensures GetPath(t, q) == Get(t, q[0])
  {
  }

  /** Every proper prefix of the path put at holds an object afterwards. */
  lemma {:induction false} PutPrefixesAreObjects(t: Props<Value>, p: seq<string>, v: Value, n: nat)
    requires |p| >= 1 && Put(t, p, v).Some? && 1 <= n < |p|
    ensures GetPath(Put(t, p, v).value, p[..n]).Some? && GetPath(Put(t, p, v).value, p[..n]).value.Obj?
    decreases |p|
  {
    var r := Put(t, p, v).value;
    var q := p[..n];
    PutHead(t, p, v);
    var child := Child(t, p[0]);
    var c := Put(child, p[1..], v).value;
    assert q[0] == p[0];
    if n > 1 {
      PutPrefixesAreObjects(child, p[1..], v, n - 1);
      assert q[1..] == p[1..][..n - 1];
      GetPathStep(r, q, c);
    } else {
      GetPathSingle(r, q);
    }
  }

  /** Putting along an open path succeeds. */
  lemma {:induction false} PutOpenSucceeds(t: Props<Value>, p: seq<string>, v: Value)
    requires |p| >= 1 && Open(t, p)
    ensures Put(t, p, v).Some?
    decreases |p|
  {
    if |p| > 1 {
      var existing := Get(t, p[0]);
      assert GetPath(t, p[..1]) == existing by {
        assert p[..1] == [p[0]];
      }
      var child := Child(t, p[0]);
      forall n | 1 <= n < |p[1..]|
        ensures GetPath(child, p[1..][..n]).None? || GetPath(child, p[1..][..n]).value.Obj? || !Truthy(GetPath(child, p[1..][..n]).value)
      {
        assert p[..n + 1][0] == p[0] && p[..n + 1][1..] == p[1..][..n];
        GetPathChild(t, p[..n + 1]);
      }
      PutOpenSucceeds(child, p[1..], v);
    }
  }

  /** A put at `p` keeps every diverging path open. */
  lemma PutKeepsOpen(t: Props<Value>, p: seq<string>, v: Value, q: seq<string>)
    requires |p| >= 1 && Put(t, p, v).Some? && Diverge(p, q) && Open(t, q)
    ensures Open(Put(t, p, v).value, q)
  {
    var r := Put(t, p, v).value;
    forall n | 1 <= n < |q|
      ensures GetPath(r, q[..n]).None? || GetPath(r, q[..n]).value.Obj? || !Truthy(GetPath(r, q[..n]).value)
    {
      if Diverge(p, q[..n]) {
        PutKeepsDiverging(t, p, v, q[..n]);
      } else {
        assert n < |p| && q[..n] == p[..n];
        PutPrefixesAreObjects(t, p, v, n);
      }
    }
  }

  /** A put at `p` keeps every entry already placed at a path diverging from `p`. */
  lemma PutKeepsPlaced(t: Props<Value>, p: seq<string>, v: Value, done: Props<Value>)
    requires |p| >= 1 && Put(t, p, v).Some?
    requires forall i :: 0 <= i < |done| ==> Diverge(p, Split(done[i].0))
    requires forall i :: 0 <= i < |done| ==> GetPath(t, Split(done[i].0)) == Some(done[i].1)
    ensures forall i :: 0 <= i < |done| ==> GetPath(Put(t, p, v).value, Split(done[i].0)) == Some(done[i].1)
  {
    forall i | 0 <= i < |done|
      ensures GetPath(Put(t, p, v).value, Split(done[i].0)) == Some(done[i].1)
    {
      PutKeepsDiverging(t, p, v, Split(done[i].0));
    }
  }

  /** A put at `p` keeps every path diverging from `p` open. */
  lemma PutKeepsAllOpen(t: Props<Value>, p: seq<string>, v: Value, rest: Props<Value>)
    requires |p| >= 1 && Put(t, p, v).Some?
    requires forall i :: 0 <= i < |rest| ==> Diverge(p, Split(rest[i].0))
    requires forall i :: 0 <= i < |rest| ==> Open(t, Split(rest[i].0))
    ensures forall i :: 0 <= i < |rest| ==> Open(Put(t, p, v).value, Split(rest[i].0))
  {
    forall i | 0 <= i < |rest|
      ensures Open(Put(t, p, v).value, Split(rest[i].0))
    {
      PutKeepsOpen(t, p, v, Split(rest[i].0));
    }
  }

  /**
   * Inserting entries whose paths pairwise diverge succeeds, keeps what the
   * entries already inserted placed, and places every new entry.
   */
  lemma {:induction false} InsertPlaces(t: Props<Value>, done: Props<Value>, rest: Props<Value>)
    requires PathsDiverge(done + rest)
    requires forall i :: 0 <= i < |done| ==> GetPath(t, Split(done[i].0)) == Some(done[i].1)
    requires forall i :: 0 <= i < |rest| ==> Open(t, Split(rest[i].0))
    ensures Insert(t, rest).Some?
    ensures forall i :: 0 <= i < |done + rest| ==>
      GetPath(Insert(t, rest).value, Split((done + rest)[i].0)) == Some((done + rest)[i].1)
    decreases |rest|
  {
    if rest != [] {
      var all := done + rest;
      var (k, v) := rest[0];
      var p := Split(k);
      assert all[|done|] == rest[0];
      PutOpenSucceeds(t, p, v);
      var r := Put(t, p, v).value;
      forall i | 0 <= i < |done|
        ensures Diverge(p, Split(done[i].0))
      {
        assert all[i] == done[i];
      }
      PutKeepsPlaced(t, p, v, done);
      var tail := rest[1..];
      forall i | 0 <= i < |tail|
        ensures Diverge(p, Split(tail[i].0)) && Open(t, Split(tail[i].0))
      {
        assert all[|done| + 1 + i] == tail[i] && tail[i] == rest[i + 1];
      }
      PutKeepsAllOpen(t, p, v, tail);
      MoveHead(done, rest);
      InsertPlaces(r, done + [rest[0]], tail);
    }
  }

  /**
   * When no merged name's dotted path is a prefix of another's, the rebuild
   * succeeds and every merged value is read back at its dotted path.
   */
  lemma BuildTreePlacesEveryKey(flat: Props<Value>)
    requires PathsDiverge(flat)
    ensures BuildTree(flat).Some?
    ensures forall i :: 0 <= i < |flat| ==> GetPath(BuildTree(flat).value, Split(flat[i].0)) == Some(flat[i].1)
  {
    forall i | 0 <= i < |flat|
      ensures Open([], Split(flat[i].0))
    {
      forall n | 1 <= n < |Split(flat[i].0)|
        ensures GetPath([], Split(flat[i].0)[..n]).None?
      {
        GetPathEmpty(Split(flat[i].0)[..n]);
      }
    }
    assert [] + flat == flat;
    InsertPlaces([], [], flat);
  }

  /** A name of the tail of a key-unique list is not a name of its head part. */
  lemma FreshAfter(t: Props<Value>, rest: Props<Value>)
    requires UniqueKeys(t + rest) && rest != []
    ensures rest[0].0 !in Keys(t)
  {
    var all := t + rest;
    forall i | 0 <= i < |t|
      ensures Keys(t)[i] != rest[0].0
    {
      assert all[i] == t[i] && all[|t|] == rest[0];
    }
  }

  /** Moving the first entry of `rest` to the end of `t` keeps the concatenation. */
  lemma MoveHead(t: Props<Value>, rest: Props<Value>)
    requires rest != []
    ensures (t + [rest[0]]) + rest[1..] == t + rest
  {
    assert rest == [rest[0]] + rest[1..];
  }

  /** Without dots and without repeated names, inserting appends the entries as they are. */
  lemma {:induction false} InsertUndotted(t: Props<Value>, rest: Props<Value>)
    requires UniqueKeys(t + rest)
    requires forall i :: 0 <= i < |rest| ==> '.' !in rest[i].0
    ensures Insert(t, rest) == Some(t + rest)
    decreases |rest|
  {
    if rest != [] {
      var t' := t + [rest[0]];
      assert Insert(t, rest) == Insert(t', rest[1..]) by {
        var k, v := rest[0].0, rest[0].1;
        SplitUndotted(k);
        FreshAfter(t, rest);
        SetAbsentAppends(t, k, v);
        assert rest[0] == (k, v);
      }
      MoveHead(t, rest);
      InsertUndotted(t', rest[1..]);
    } else {
      assert t + rest == t;
    }
  }

  /** Rebuilding a flat object with no dotted names gives it back unchanged. */
  lemma BuildTreeUndotted(flat: Props<Value>)
    requires UniqueKeys(flat)
    requires forall i :: 0 <= i < |flat| ==> '.' !in flat[i].0
    ensures BuildTree(flat) == Some(flat)
  {
    assert [] + flat == flat;
    InsertUndotted([], flat);
  }

  /**
   * What the RPC receives: when the body's names are distinct and the merged
   * names' dotted paths do not overlap, the value at a merged name's dotted
   * path is the path capture if truthy, else the query value if truthy, else
   * the body's own field.
   */
  lemma ConvertedParamAtPath(body: Props<Value>, query: Option<Props<Value>>, params: Option<Props<Value>>, names: seq<string>, k: string)
    requires UniqueKeys(body)
    requires PathsDiverge(Merge(body, query, params, names))
    requires k in Keys(Merge(body, query, params, names))
    ensures BuildTree(Merge(body, query, params, names)).Some?
    ensures GetPath(BuildTree(Merge(body, query, params, names)).value, Split(k)) == Winner(body, query, params, names, k)
  {
    var flat := Merge(body, query, params, names);
    MergeKeepsKeys(body, query, params, names);
    var i :| 0 <= i < |flat| && Keys(flat)[i] == k;
    GetAt(flat, i);
    BuildTreePlacesEveryKey(flat);
    MergePrecedence(body, query, params, names, k);
  }

  /** A truthy path capture under a name the body lacks is appended after the body fields. */
  lemma CaptureAppended(body: Props<Value>, k: string, v: Value)
    requires k !in Keys(body) && Truthy(v)
    ensures Merge(body, None, Some([(k, v)]), [k]) == body + [(k, v)]
  {
    assert Overriding(Some([(k, v)]), k) == Some(v);
    SetAbsentAppends(body, k, v);
    assert MergeStep(body, None, Some([(k, v)]), k) == body + [(k, v)];
    assert [k][1..] == [];
  }

  /** Appending a fresh name without a dot to an object without dotted names still rebuilds to itself. */
  lemma AppendedUndotted(body: Props<Value>, k: string, v: Value)
    requires UniqueKeys(body) && k !in Keys(body)
    requires '.' !in k && forall i :: 0 <= i < |body| ==> '.' !in body[i].0
    ensures BuildTree(body + [(k, v)]) == Some(body + [(k, v)])
  {
    var flat := body + [(k, v)];
    forall i | 0 <= i < |flat|
      ensures '.' !in flat[i].0
    {
      if i < |body| {
        assert flat[i] == body[i];
      }
    }
    SetKeepsUniqueKeys(body, k, v);
    SetAbsentAppends(body, k, v);
    BuildTreeUndotted(flat);
  }

  /** A truthy capture under a fresh undotted name, merged into an undotted body, is appended and rebuilds unchanged. */
  lemma CaptureRebuilt(body: Props<Value>, k: string, v: Value, params: Props<Value>, names: seq<string>)
    requires UniqueKeys(body) && k !in Keys(body) && Truthy(v)
    requires '.' !in k && forall i :: 0 <= i < |body| ==> '.' !in body[i].0
    requires params == [(k, v)] && names == [k]
    ensures Merge(body, None, Some(params), names) == body + params
    ensures BuildTree(body + params) == Some(body + params)
  {
    CaptureAppended(body, k, v);
    AppendedUndotted(body, k, v);
  }

  /**
   * The merge of the `convertParams` test: body `{v1: true, v2: false}`,
   * path capture `name: "Cool"`, no query, candidate names `["name"]`; the
   * capture is added after the body fields and nothing is nested.
   */
  lemma ConvertParamsMerge(body: Props<Value>, params: Props<Value>, names: seq<string>)
    requires body == [("v1", Bool(true)), ("v2", Bool(false))]
    requires params == [("name", Str("Cool"))]
    requires names == ["name"]
    ensures Merge(body, None, Some(params), names) == body + params
    ensures BuildTree(body + params) == Some(body + params)
  {
    TestBodyNames(body);
    assert Truthy(Str("Cool")) && '.' !in "name";
    CaptureRebuilt(body, "name", Str("Cool"), params, names);
  }

  /** The same request with the names `getParamsList` finds in the template `/v1/hi/{name}`. */
  lemma ConvertParamsExample(url: string, body: Props<Value>, params: Props<Value>)
    requires url == "/v1/hi/" + "{name}"
    requires body == [("v1", Bool(true)), ("v2", Bool(false))]
    requires params == [("name", Str("Cool"))]
    ensures Merge(body, None, Some(params), QueryKeys(None) + Placeholders(url)) == body + params
    ensures BuildTree(body + params) == Some(body + params)
  {
    PlaceholdersSingleExample(url);
    var names := QueryKeys(None) + Placeholders(url);
    assert names == ["name"];
    ConvertParamsMerge(body, params, names);
  }

  /** The body of the `convertParams` test has two distinct names, neither dotted nor `name`. */
  lemma TestBodyNames(body: Props<Value>)
    requires body == [("v1", Bool(true)), ("v2", Bool(false))]
    ensures Keys(body) == ["v1", "v2"] && "name" !in Keys(body)
    ensures UniqueKeys(body)
    ensures forall i :: 0 <= i < |body| ==> '.' !in body[i].0
  {
    assert body[0].0 == "v1" && body[1].0 == "v2";
    assert "v1" != "name" && "v2" != "name" && "v1" != "v2" by {
      assert "v1"[0] != "name"[0];
    }
  }

  /** Putting at `a.k` in an empty tree creates the object `a` holding `k`. */
  lemma PutNestedInEmpty(a: string, k: string, x: Value)
    ensures Put([], [a, k], x) == Some([(a, Obj([(k, x)]))])
  {
    assert Child([], a) == [];
    assert [a, k][1..] == [k];
  }

  /** Putting at `a.ky` next to `a.kx` adds `ky` to the object `a`, after `kx`. */
  lemma PutNestedBeside(a: string, kx: string, ky: string, x: Value, y: Value)
    requires kx != ky
    ensures Put([(a, Obj([(kx, x)]))], [a, ky], y) == Some([(a, Obj([(kx, x), (ky, y)]))])
  {
    var t1 := [(a, Obj([(kx, x)]))];
    var c := [(kx, x), (ky, y)];
    assert Child(t1, a) == [(kx, x)];
    assert [a, ky][1..] == [ky];
    assert Put([(kx, x)], [ky], y) == Some(c) by {
      assert ky !in Keys([(kx, x)]);
      SetAbsentAppends([(kx, x)], ky, y);
      assert [(kx, x)] + [(ky, y)] == c;
    }
    assert Set(t1, a, Obj(c)) == [(a, Obj(c))] by {
      assert t1[1..] == [];
    }
  }

  /** Two dotted names under the same head, such as `a.x` and `a.y`, end up side by side in one nested object. */
  lemma SiblingsNest(flat: Props<Value>, a: string, kx: string, ky: string, x: Value, y: Value)
    requires '.' !in a && '.' !in kx && '.' !in ky && kx != ky
    requires flat == [(a + "." + kx, x), (a + "." + ky, y)]
    ensures BuildTree(flat) == Some([(a, Obj([(kx, x), (ky, y)]))])
  {
    SplitJoin([a, kx]);
    SplitJoin([a, ky]);
    assert Split(flat[0].0) == [a, kx];
    assert Split(flat[1].0) == [a, ky];
    var t1 := [(a, Obj([(kx, x)]))];
    var t2 := [(a, Obj([(kx, x), (ky, y)]))];
    PutNestedInEmpty(a, kx, x);
    PutNestedBeside(a, kx, ky, x, y);
    assert Insert([], flat) == Insert(t1, flat[1..]);
    assert Insert(t1, flat[1..]) == Insert(t2, []);
  }

  /**
   * A name that holds a truthy primitive and is also the head of a later
   * dotted name (`a` then `a.b`) makes the rebuild assign a property of a
   * primitive: the request fails with a `TypeError`.
   */
  lemma LeafThenNestedFails(flat: Props<Value>, a: string, b: string, x: Value, y: Value)
    requires '.' !in a && '.' !in b && Truthy(x) && !x.Obj?
    requires flat == [(a, x), (a + "." + b, y)]
    ensures BuildTree(flat) == None
  {
    SplitUndotted(a);
    SplitJoin([a, b]);
    assert Split(flat[1].0) == [a, b];
    var t1 := [(a, x)];
    assert Put([], [a], x) == Some(t1);
    assert Put(t1, [a, b], y) == None;
    assert Insert(t1, flat[1..]) == None;
  }
}
