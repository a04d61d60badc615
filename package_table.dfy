/**
 * The `clients` table and `getPkg`: a package name such as `foo.bar` names a
 * nested object `clients.foo.bar`, created on demand when services are
 * registered and looked up again for every request.
 */
module PackageTable {
  import opened Wrappers
  import opened Props
  import opened Dotted

  /**
   * A constructed gRPC client, known by where its constructor came from: the
   * definitions loaded from the `file`-th proto file, service `service`.
   */
  datatype Handle = Handle(file: nat, service: string)

  /**
   * An object of the table: a client instance or a plain `{}`, with its own
   * named properties (a client object can carry properties as well).
   */
  datatype Node = Node(client: Option<Handle>, children: Props<Node>)

  /** A fresh `{}`. */
  function Empty(): Node
  {
    Node(None, [])
  }

  /** `obj[name] || {}`: the property when present (objects are truthy), else `{}`. */
  function OrEmpty(c: Option<Node>): Node
  {
    if c.Some? then c.value else Empty()
  }

  /** `n[p0][p1]...`: the object reached along `path`, if every step exists. */
  function NodeAt(n: Node, path: seq<string>): Option<Node>
    decreases |path|
  {
    if path == [] then Some(n)
    else match Get(n.children, path[0])
      case None => None
      case Some(c) => NodeAt(c, path[1..])
  }

  /** `n[p0]...[pk][name] = v` on the object reached along `path`. */
  function SetAt(n: Node, path: seq<string>, name: string, v: Node): (r: Node)
    requires NodeAt(n, path).Some?
    ensures NodeAt(r, path) == Some(Node(NodeAt(n, path).value.client, Set(NodeAt(n, path).value.children, name, v)))
    ensures r.client == n.client
    decreases |path|
  {
    if path == [] then Node(n.client, Set(n.children, name, v))
    else
      var c := Get(n.children, path[0]).value;
      Node(n.client, Set(n.children, path[0], SetAt(c, path[1..], name, v)))
  }

  /** Two paths that start with the same name are prefixes of each other as their tails are. */
  lemma PrefixTail(a: seq<string>, b: seq<string>)
    requires a != [] && b != [] && a[0] == b[0]
    ensures a <= b <==> a[1..] <= b[1..]
  {
    assert a == [a[0]] + a[1..] && b == [b[0]] + b[1..];
  }

  /** Dropping the first name of a path extended by one name. */
  lemma SnocTail(p: seq<string>, x: string)
    requires p != []
    ensures (p + [x])[1..] == p[1..] + [x]
  {
  }

  /**
   * The assignment touches nothing else: every path that neither leads to the
   * assigned object nor passes through the assigned property reads as before.
   */
  lemma {:induction false} SetAtKeeps(n: Node, path: seq<string>, name: string, v: Node, q: seq<string>)
    requires NodeAt(n, path).Some?
    requires !(path + [name] <= q) && !(q <= path)
    ensures NodeAt(SetAt(n, path, name, v), q) == NodeAt(n, q)
    decreases |path|
  {
    var r := SetAt(n, path, name, v);
    assert q != [];
    if path == [] {
      assert q[0] != name;
    } else {
      var c := Get(n.children, path[0]).value;
      var c' := SetAt(c, path[1..], name, v);
      assert r == Node(n.client, Set(n.children, path[0], c'));
      if q[0] == path[0] {
        PrefixTail(path + [name], q);
        PrefixTail(q, path);
        SnocTail(path, name);
        SetAtKeeps(c, path[1..], name, v, q[1..]);
      }
    }
  }

  /** A walk along `p + q` is the walk along `p`, then along `q` from where it got to. */
  lemma {:induction false} NodeAtAppend(n: Node, p: seq<string>, q: seq<string>)
    requires NodeAt(n, p).Some?
    ensures NodeAt(n, p + q) == NodeAt(NodeAt(n, p).value, q)
    decreases |p|
  {
    if p == [] {
      assert p + q == q;
    } else {
      assert (p + q)[0] == p[0] && (p + q)[1..] == p[1..] + q;
      NodeAtAppend(Get(n.children, p[0]).value, p[1..], q);
    }
  }

  /** Below the assigned property the new value's own paths are read. */
  lemma SetAtBelow(n: Node, path: seq<string>, name: string, v: Node, w: seq<string>)
    requires NodeAt(n, path).Some?
    ensures NodeAt(SetAt(n, path, name, v), path + [name] + w) == NodeAt(v, w)
  {
    var r := SetAt(n, path, name, v);
    NodeAtSnoc(r, path, name);
    assert NodeAt(r, path + [name]) == Some(v);
    NodeAtAppend(r, path + [name], w);
  }

  /** Every object on the way to the assigned one is still there and keeps its client. */
  lemma {:induction false} SetAtKeepsPrefix(n: Node, path: seq<string>, name: string, v: Node, q: seq<string>)
    requires NodeAt(n, path).Some? && q <= path
    ensures NodeAt(n, q).Some? && NodeAt(SetAt(n, path, name, v), q).Some?
    ensures NodeAt(SetAt(n, path, name, v), q).value.client == NodeAt(n, q).value.client
    decreases |path|
  {
    var r := SetAt(n, path, name, v);
    if q != [] {
      var c := Get(n.children, path[0]).value;
      assert q[0] == path[0];
      assert q[1..] <= path[1..];
      assert Get(r.children, path[0]) == Some(SetAt(c, path[1..], name, v));
      SetAtKeepsPrefix(c, path[1..], name, v, q[1..]);
    }
  }

  /** One step of the creating walk: `obj[name] = obj[name] || {}` on the object at `path`. */
  function AddStep(n: Node, path: seq<string>, name: string): Node
    requires NodeAt(n, path).Some?
  {
    SetAt(n, path, name, OrEmpty(Get(NodeAt(n, path).value.children, name)))
  }

  /** The creating walk along `path`: every missing step becomes `{}`. */
  function Ensure(n: Node, path: seq<string>): (r: Node)
    ensures NodeAt(r, path).Some?
    ensures r.client == n.client
    decreases |path|
  {
    if path == [] then n
    else
      var c := OrEmpty(Get(n.children, path[0]));
      Node(n.client, Set(n.children, path[0], Ensure(c, path[1..])))
  }

  /** What `getPkg` returns: the object reached (with the path it lives at), `undefined`, or a thrown `TypeError`. */
  datatype Resolution = Found(path: seq<string>, node: Node) | Undefined | TypeError

  /**
   * How a missing package prints as a property name. The schema parser gives
   * a file without a `package` statement the package `null`, so
   * `client[pkg]` reads the property `"null"`.
   */
  const MissingPackage: string := "null"

  /** The property `client[pkg]` reads. */
  function FlatKey(pkg: Option<string>): string
  {
    if pkg.Some? then pkg.value else MissingPackage
  }

  /**
   * `getPkg(client, pkg, create)`: the property named by the whole package
   * when present; otherwise, when the package is missing, `pkg.split` throws;
   * otherwise the walk over the dotted parts, which with `create` makes every
   * missing step, and without it returns `undefined` when only the last step
   * is missing and throws when an earlier one is.
   */
  function ResolveSpec(root: Node, pkg: Option<string>, create: bool): (r: Resolution)
    ensures r.Found? ==> NodeAt(AfterResolve(root, pkg, create), r.path) == Some(r.node)
    ensures r.Found? ==> r.path == [FlatKey(pkg)] || (pkg.Some? && r.path == Split(pkg.value))
    ensures create ==> (r.TypeError? <==> pkg.None? && Get(root.children, MissingPackage).None?)
  {
    var key := FlatKey(pkg);
    if Get(root.children, key).Some? then Found([key], Get(root.children, key).value)
    else if pkg.None? then TypeError
    else
      var ls := Split(pkg.value);
      if create then Found(ls, NodeAt(Ensure(root, ls), ls).value)
      else if NodeAt(root, ls).Some? then Found(ls, NodeAt(root, ls).value)
      else if NodeAt(root, ls[..|ls| - 1]).Some? then Undefined
      else TypeError
  }

  /** The table after `getPkg`: only a creating walk past a missing flat key changes it. */
  function AfterResolve(root: Node, pkg: Option<string>, create: bool): Node
  {
    var key := FlatKey(pkg);
    if Get(root.children, key).Some? || pkg.None? || !create then root
    else Ensure(root, Split(pkg.value))
  }

  /** A whole package name that is already a property of the table is returned as it is, and nothing is created. */
  lemma FlatKeyHit(root: Node, pkg: Option<string>, create: bool)
    requires Get(root.children, FlatKey(pkg)).Some?
    ensures ResolveSpec(root, pkg, create) == Found([FlatKey(pkg)], Get(root.children, FlatKey(pkg)).value)
    ensures AfterResolve(root, pkg, create) == root
  {
  }

  /** A proto file without a package: `client[null]` is missing and `pkg.split` throws. */
  lemma MissingPackageThrows(root: Node, create: bool)
    requires Get(root.children, MissingPackage).None?
    ensures ResolveSpec(root, None, create) == TypeError
    ensures AfterResolve(root, None, create) == root
  {
  }

  /** Reading one more step. */
  lemma NodeAtSnoc(n: Node, p: seq<string>, x: string)
    ensures NodeAt(n, p + [x]) == if NodeAt(n, p).Some? then Get(NodeAt(n, p).value.children, x) else None
    decreases |p|
  {
    if p != [] {
      assert (p + [x])[0] == p[0] && (p + [x])[1..] == p[1..] + [x];
      var c := Get(n.children, p[0]);
      if c.Some? {
        NodeAtSnoc(c.value, p[1..], x);
      }
    }
  }

  /** Once a step is missing, every longer path is missing too. */
  lemma {:induction false} NodeAtMissingExtends(n: Node, p: seq<string>, q: seq<string>)
    requires NodeAt(n, p).None?
    ensures NodeAt(n, p + q).None?
    decreases |p|
  {
    assert p != [];
    assert (p + q)[0] == p[0] && (p + q)[1..] == p[1..] + q;
    var c := Get(n.children, p[0]);
    if c.Some? {
      NodeAtMissingExtends(c.value, p[1..], q);
    }
  }

  /** The creating walk, one step longer, is the shorter walk followed by one more step. */
  lemma {:induction false} EnsureSnoc(n: Node, p: seq<string>, x: string)
    ensures Ensure(n, p + [x]) == AddStep(Ensure(n, p), p, x)
    decreases |p|
  {
    if p == [] {
      assert [] + [x] == [x];
    } else {
      assert (p + [x])[0] == p[0] && (p + [x])[1..] == p[1..] + [x];
      var c := OrEmpty(Get(n.children, p[0]));
      var e1 := Ensure(c, p[1..]);
      EnsureSnoc(c, p[1..], x);
      var m := Ensure(n, p);
      assert Get(m.children, p[0]) == Some(e1);
      assert NodeAt(m, p) == NodeAt(e1, p[1..]);
      var w := OrEmpty(Get(NodeAt(m, p).value.children, x));
      assert AddStep(e1, p[1..], x) == SetAt(e1, p[1..], x, w);
      SetTwice(n.children, p[0], e1, SetAt(e1, p[1..], x, w));
    }
  }

  /** Creating along a path that already exists changes nothing. */
  lemma {:induction false} EnsureExisting(n: Node, p: seq<string>)
    requires NodeAt(n, p).Some?
    ensures Ensure(n, p) == n
    decreases |p|
  {
    if p != [] {
      var c := Get(n.children, p[0]).value;
      EnsureExisting(c, p[1..]);
      SetExisting(n.children, p[0]);
    }
  }

  /** Creating twice is creating once. */
  lemma EnsureIdempotent(n: Node, p: seq<string>)
    ensures Ensure(Ensure(n, p), p) == Ensure(n, p)
  {
    EnsureExisting(Ensure(n, p), p);
  }

  /** Creating never loses an object, and never replaces a client. */
  lemma {:induction false} EnsureKeeps(n: Node, p: seq<string>, q: seq<string>)
    requires NodeAt(n, q).Some?
    ensures NodeAt(Ensure(n, p), q).Some?
    ensures NodeAt(Ensure(n, p), q).value.client == NodeAt(n, q).value.client
    decreases |p|
  {
    if p != [] && q != [] {
      var e := Ensure(n, p);
      if q[0] == p[0] {
        var c := Get(n.children, p[0]).value;
        EnsureKeeps(c, p[1..], q[1..]);
        assert Get(e.children, q[0]) == Some(Ensure(c, p[1..]));
      } else {
        assert Get(e.children, q[0]) == Get(n.children, q[0]);
      }
    }
  }

  /** With `create`, a second `getPkg` finds what the first one made, and changes nothing more. */
  lemma ResolveCreateSettles(root: Node, pkg: Option<string>)
    requires ResolveSpec(root, pkg, true).Found?
    ensures AfterResolve(AfterResolve(root, pkg, true), pkg, true) == AfterResolve(root, pkg, true)
    ensures ResolveSpec(AfterResolve(root, pkg, true), pkg, true) == ResolveSpec(root, pkg, true)
    ensures ResolveSpec(AfterResolve(root, pkg, true), pkg, false) == ResolveSpec(root, pkg, true)
  {
    var key := FlatKey(pkg);
    if Get(root.children, key).None? {
      var ls := Split(pkg.value);
      EnsureIdempotent(root, ls);
      CreatedFlatKey(root, pkg.value);
    }
  }

  /**
   * After a creating walk past a missing flat key, the whole package name is a
   * property of the table only when it has no dot (the walk was that one step).
   */
  lemma CreatedFlatKey(root: Node, pkg: string)
    requires Get(root.children, pkg).None?
    ensures Get(Ensure(root, Split(pkg)).children, pkg).Some? ==> Split(pkg) == [pkg]
  {
    if '.' in pkg {
      assert '.' !in Split(pkg)[0];
    } else {
      SplitUndotted(pkg);
    }
  }

  /**
   * `getPkg(clients, pkg, true)[svc] = new Client(...)`: the service's client
   * replaces whatever property `svc` held; `None` when `getPkg` throws.
   */
  function Register(root: Node, pkg: Option<string>, svc: string, h: Handle): Option<Node>
  {
    match ResolveSpec(root, pkg, true)
    case Found(path, _) => Some(SetAt(AfterResolve(root, pkg, true), path, svc, Node(Some(h), [])))
    case _ => None
  }

  /**
   * `getPkg(clients, pkg, false)[svc]` as a request finds it: the client
   * registered for the service, or `None` when a step is missing or the
   * property is not a client (calling a method of it then throws).
   */
  function ClientFor(root: Node, pkg: Option<string>, svc: string): Option<Handle>
  {
    match ResolveSpec(root, pkg, false)
    case Found(_, n) => if Get(n.children, svc).Some? then Get(n.children, svc).value.client else None
    case _ => None
  }

  /** Without `create`, a found package is the object at the path it was found under. */
  lemma LookupFound(root: Node, pkg: string, path: seq<string>)
    requires path == [pkg] || path == Split(pkg)
    requires NodeAt(root, path).Some?
    requires Get(root.children, pkg).Some? ==> path == [pkg]
    ensures ResolveSpec(root, Some(pkg), false) == Found(path, NodeAt(root, path).value)
  {
  }

  /** After a service is registered under a package, a request for that package and service finds its client. */
  lemma RegisterThenFind(root: Node, pkg: string, svc: string, h: Handle)
    ensures Register(root, Some(pkg), svc, h).Some?
    ensures ClientFor(Register(root, Some(pkg), svc, h).value, Some(pkg), svc) == Some(h)
  {
    var r := ResolveSpec(root, Some(pkg), true);
    var e := AfterResolve(root, Some(pkg), true);
    var root' := SetAt(e, r.path, svc, Node(Some(h), []));
    if Get(root.children, pkg).None? {
      CreatedFlatKey(root, pkg);
      assert r.path == Split(pkg);
      assert Get(root'.children, pkg).Some? ==> r.path == [pkg] by {
        if r.path != [pkg] {
          assert Get(root'.children, pkg) == Get(e.children, pkg);
        }
      }
    }
    LookupFound(root', pkg, r.path);
  }

  /** Registering one service keeps the client of every other service of the same package. */
  lemma RegisterKeepsSiblings(root: Node, pkg: string, svc: string, other: string, h: Handle)
    requires other != svc
    requires ClientFor(root, Some(pkg), other).Some?
    ensures ClientFor(Register(root, Some(pkg), svc, h).value, Some(pkg), other) == ClientFor(root, Some(pkg), other)
  {
    var r := ResolveSpec(root, Some(pkg), true);
    var e := AfterResolve(root, Some(pkg), true);
    var root' := SetAt(e, r.path, svc, Node(Some(h), []));
    if Get(root.children, pkg).None? {
      EnsureExisting(root, Split(pkg));
      assert e == root;
      CreatedFlatKey(root, pkg);
      if r.path != [pkg] {
        assert Get(root'.children, pkg) == Get(e.children, pkg);
      }
    }
    LookupFound(root', pkg, r.path);
  }

  /**
   * Storing a service's client keeps every object of the table, and its
   * client, except under the property the new client is stored in: other
   * packages' clients in particular are untouched.
   */
  lemma RegisterKeepsClients(root: Node, pkg: Option<string>, svc: string, h: Handle, q: seq<string>)
    requires ResolveSpec(root, pkg, true).Found? && NodeAt(root, q).Some?
    requires !(ResolveSpec(root, pkg, true).path + [svc] <= q)
    ensures Register(root, pkg, svc, h).Some?
    ensures NodeAt(Register(root, pkg, svc, h).value, q).Some?
    ensures NodeAt(Register(root, pkg, svc, h).value, q).value.client == NodeAt(root, q).value.client
  {
    var path := ResolveSpec(root, pkg, true).path;
    var e := AfterResolve(root, pkg, true);
    if e != root {
      EnsureKeeps(root, Split(pkg.value), q);
    }
    if q <= path {
      SetAtKeepsPrefix(e, path, svc, Node(Some(h), []), q);
    } else {
      SetAtKeeps(e, path, svc, Node(Some(h), []), q);
    }
  }

  /**
   * `clients`: the table of constructed clients, filled while the routes are
   * registered and read back for every request.
   */
  class Directory {
    var root: Node

    constructor ()
      ensures root == Empty()
    {
      root := Empty();
    }

    /** The creating walk: `obj[name] = obj[name] || {}; obj = obj[name]` for each part. */
    method CreateWalk(ls: seq<string>)
      modifies this
      ensures root == Ensure(old(root), ls)
    {
      var i := 0;
      while i < |ls|
        invariant 0 <= i <= |ls|
        invariant root == Ensure(old(root), ls[..i])
      {
        assert ls[..i + 1] == ls[..i] + [ls[i]];
        EnsureSnoc(old(root), ls[..i], ls[i]);
        root := AddStep(root, ls[..i], ls[i]);
        i := i + 1;
      }
      assert ls[..i] == ls;
    }

    /** The reading walk: `obj = obj[name]` for each part, which throws once `obj` is `undefined`. */
    method LookupWalk(ls: seq<string>) returns (r: Resolution)
      requires |ls| >= 1
      ensures r.Found? <==> NodeAt(root, ls).Some?
      ensures r.Found? ==> r == Found(ls, NodeAt(root, ls).value)
      ensures r.Undefined? <==> NodeAt(root, ls).None? && NodeAt(root, ls[..|ls| - 1]).Some?
    {
      var i := 0;
      var obj: Option<Node> := Some(root);
      while i < |ls|
        invariant 0 <= i <= |ls|
        invariant obj == NodeAt(root, ls[..i])
        invariant i > 0 ==> NodeAt(root, ls[..i - 1]).Some?
      {
        if obj.None? {
          assert ls[..|ls| - 1] == ls[..i] + ls[i..|ls| - 1];
          NodeAtMissingExtends(root, ls[..i], ls[i..|ls| - 1]);
          assert ls == ls[..i] + ls[i..];
          NodeAtMissingExtends(root, ls[..i], ls[i..]);
          return TypeError;
        }
        assert ls[..i + 1] == ls[..i] + [ls[i]];
        NodeAtSnoc(root, ls[..i], ls[i]);
        obj := Get(obj.value.children, ls[i]);
        i := i + 1;
      }
      assert ls[..i] == ls;
      if obj.Some? {
        return Found(ls, obj.value);
      }
      return Undefined;
    }

    /** `getPkg(clients, pkg, create)`. */
    method GetPkg(pkg: Option<string>, create: bool) returns (r: Resolution)
      modifies this
      ensures r == ResolveSpec(old(root), pkg, create)
      ensures root == AfterResolve(old(root), pkg, create)
    {
      var key := FlatKey(pkg);
      var flat := Get(root.children, key);
      if flat.Some? {
        return Found([key], flat.value);
      }
      if pkg.None? {
        return TypeError;
      }
      var ls := Split(pkg.value);
      if create {
        CreateWalk(ls);
        return Found(ls, NodeAt(root, ls).value);
      }
      r := LookupWalk(ls);
    }

    /** Registering a service: stores its client under `clients[pkg...][svc]`; `false` when `getPkg` throws. */
    method AddClient(pkg: Option<string>, svc: string, h: Handle) returns (ok: bool)
      modifies this
      ensures ok == Register(old(root), pkg, svc, h).Some?
      ensures root == if ok then Register(old(root), pkg, svc, h).value else old(root)
    {
      var r := GetPkg(pkg, true);
      if !r.Found? {
        return false;
      }
      root := SetAt(root, r.path, svc, Node(Some(h), []));
      return true;
    }

    /** The client a request for service `svc` of package `pkg` calls, if any. */
    method ClientLookup(pkg: Option<string>, svc: string) returns (c: Option<Handle>)
      modifies this
      ensures c == ClientFor(old(root), pkg, svc)
      ensures root == old(root)
    {
      var r := GetPkg(pkg, false);
      c := None;
      if r.Found? {
        var s := Get(r.node.children, svc);
        if s.Some? {
          c := s.value.client;
        }
      }
    }
  }
}
