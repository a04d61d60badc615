/**
 * The middleware: building the router and the client table from the proto
 * files, and what one request through a registered route does.
 */
module Gateway {
  import opened Wrappers
  import opened Props
  import opened Json
  import opened Dotted
  import opened PathTemplate
  import opened Params
  import opened ObjectTree
  import opened PackageTable
  import opened Response
  import opened Routes

  /** One rpc of a service, with its `google.api.http` option if it has one. */
  datatype RpcMethod = RpcMethod(name: string, httpOption: Option<Value>)

  datatype Service = Service(name: string, methods: seq<RpcMethod>)

  /** What the middleware reads of one proto file: its package (absent when it declares none), its services, its sidecar document. */
  datatype ProtoFile = ProtoFile(pkg: Option<string>, services: seq<Service>, sidecar: Option<ServiceDoc>)

  /** `pkg + '.' + svc + '.' + m.name`, where a missing package prints as `null`. */
  function FullName(pkg: Option<string>, svc: string, m: string): string
  {
    FlatKey(pkg) + "." + svc + "." + m
  }

  /** The routes of one rpc: none when its rule is falsy, else one per supported verb with a template. */
  function MethodRoutes(doc: Option<ServiceDoc>, pkg: Option<string>, svc: string, m: RpcMethod): Option<seq<Route>>
  {
    var fullName := FullName(pkg, svc, m.name);
    var rule := ChooseRule(SidecarRule(doc, fullName), m.httpOption);
    if rule.None? || !Truthy(rule.value) then Some([])
    else RoutesFor(RuleFields(rule.value), SupportedMethods, pkg, svc, m.name)
  }

  /** An rpc with neither a sidecar rule nor a `google.api.http` option gets no route. */
  lemma NoRuleNoRoutes(doc: Option<ServiceDoc>, pkg: Option<string>, svc: string, m: RpcMethod)
    requires SidecarRule(doc, FullName(pkg, svc, m.name)).None? && m.httpOption.None?
    ensures MethodRoutes(doc, pkg, svc, m) == Some([])
  {
  }

  /** A sidecar rule for the rpc's full name is used whatever its inline option says. */
  lemma SidecarRuleWins(doc: Option<ServiceDoc>, pkg: Option<string>, svc: string, m: RpcMethod, rule: Props<Value>)
    requires SidecarRule(doc, FullName(pkg, svc, m.name)) == Some(rule)
    ensures MethodRoutes(doc, pkg, svc, m) == RoutesFor(rule, SupportedMethods, pkg, svc, m.name)
  {
  }

  /** Without a sidecar rule for the rpc's full name, a truthy inline option decides the routes. */
  lemma InlineOptionUsed(doc: Option<ServiceDoc>, pkg: Option<string>, svc: string, m: RpcMethod)
    requires SidecarRule(doc, FullName(pkg, svc, m.name)).None?
    requires m.httpOption.Some? && Truthy(m.httpOption.value)
    ensures MethodRoutes(doc, pkg, svc, m) == RoutesFor(RuleFields(m.httpOption.value), SupportedMethods, pkg, svc, m.name)
  {
  }

  /** The routes of the rpcs `ms` appended to `routes`, in order; `None` once one throws. */
  function MethodsFold(routes: seq<Route>, doc: Option<ServiceDoc>, pkg: Option<string>, svc: string, ms: seq<RpcMethod>): Option<seq<Route>>
    decreases |ms|
  {
    if ms == [] then Some(routes)
    else match MethodRoutes(doc, pkg, svc, ms[0])
      case None => None
      case Some(rs) => MethodsFold(routes + rs, doc, pkg, svc, ms[1..])
  }

  /** The client table and the routes registered so far. */
  datatype State = State(root: Node, routes: seq<Route>)

  /** One service of the `si`-th file: its client is stored, then its rpcs' routes are added. */
  function ServiceStep(st: State, si: nat, f: ProtoFile, s: Service): Option<State>
  {
    match Register(st.root, f.pkg, s.name, Handle(si, s.name))
    case None => None
    case Some(root) =>
      match MethodsFold(st.routes, f.sidecar, f.pkg, s.name, s.methods)
      case None => None
      case Some(routes) => Some(State(root, routes))
  }

  /** The services `ss` of the `si`-th file, in order. */
  function ServicesFold(st: State, si: nat, f: ProtoFile, ss: seq<Service>): Option<State>
    decreases |ss|
  {
    if ss == [] then Some(st)
    else match ServiceStep(st, si, f, ss[0])
      case None => None
      case Some(st') => ServicesFold(st', si, f, ss[1..])
  }

  /** The files `fs`, the first of them being the `si`-th. */
  function FilesFold(st: State, si: nat, fs: seq<ProtoFile>): Option<State>
    decreases |fs|
  {
    if fs == [] then Some(st)
    else match ServicesFold(st, si, fs[0], fs[0].services)
      case None => None
      case Some(st') => FilesFold(st', si + 1, fs[1..])
  }

  /**
   * The middleware built from `files`, or `None` when building it throws:
   * every sidecar is read before any service is registered, so one that
   * throws stops the build before anything is registered.
   */
  function BuildSpec(files: seq<ProtoFile>): Option<State>
  {
    if exists j :: 0 <= j < |files| && SidecarThrows(files[j].sidecar) then None
    else FilesFold(State(Empty(), []), 0, files)
  }

  /** A registered route: one of the supported verbs, at the Express form of its template. */
  predicate WellFormed(r: Route)
  {
    r.verb in SupportedMethods && r.path == ConvertUrl(r.template)
  }

  /** Every route one rpc gets is well formed. */
  lemma MethodRoutesWellFormed(doc: Option<ServiceDoc>, pkg: Option<string>, svc: string, m: RpcMethod)
    requires MethodRoutes(doc, pkg, svc, m).Some?
    ensures forall r :: r in MethodRoutes(doc, pkg, svc, m).value ==> WellFormed(r)
  {
    var fullName := FullName(pkg, svc, m.name);
    var rule := ChooseRule(SidecarRule(doc, fullName), m.httpOption);
    if rule.Some? && Truthy(rule.value) {
      var fields := RuleFields(rule.value);
      var rs := RoutesFor(fields, SupportedMethods, pkg, svc, m.name).value;
      RoutesForShape(fields, SupportedMethods, pkg, svc, m.name);
      forall r | r in rs
        ensures WellFormed(r)
      {
        var i :| 0 <= i < |rs| && rs[i] == r;
        EnabledIff(fields, SupportedMethods, r.verb);
      }
    }
  }

  lemma {:induction false} MethodsFoldWellFormed(routes: seq<Route>, doc: Option<ServiceDoc>, pkg: Option<string>, svc: string, ms: seq<RpcMethod>)
    requires forall r :: r in routes ==> WellFormed(r)
    requires MethodsFold(routes, doc, pkg, svc, ms).Some?
    ensures forall r :: r in MethodsFold(routes, doc, pkg, svc, ms).value ==> WellFormed(r)
    decreases |ms|
  {
    if ms != [] {
      MethodRoutesWellFormed(doc, pkg, svc, ms[0]);
      var rs := MethodRoutes(doc, pkg, svc, ms[0]).value;
      MethodsFoldWellFormed(routes + rs, doc, pkg, svc, ms[1..]);
    }
  }

  lemma {:induction false} ServicesFoldWellFormed(st: State, si: nat, f: ProtoFile, ss: seq<Service>)
    requires forall r :: r in st.routes ==> WellFormed(r)
    requires ServicesFold(st, si, f, ss).Some?
    ensures forall r :: r in ServicesFold(st, si, f, ss).value.routes ==> WellFormed(r)
    decreases |ss|
  {
    if ss != [] {
      MethodsFoldWellFormed(st.routes, f.sidecar, f.pkg, ss[0].name, ss[0].methods);
      ServicesFoldWellFormed(ServiceStep(st, si, f, ss[0]).value, si, f, ss[1..]);
    }
  }

  lemma {:induction false} FilesFoldWellFormed(st: State, si: nat, fs: seq<ProtoFile>)
    requires forall r :: r in st.routes ==> WellFormed(r)
    requires FilesFold(st, si, fs).Some?
    ensures forall r :: r in FilesFold(st, si, fs).value.routes ==> WellFormed(r)
    decreases |fs|
  {
    if fs != [] {
      ServicesFoldWellFormed(st, si, fs[0], fs[0].services);
      FilesFoldWellFormed(ServicesFold(st, si, fs[0], fs[0].services).value, si + 1, fs[1..]);
    }
  }

  /** Every route of a built middleware is registered for a supported verb at the Express form of its template. */
  lemma BuildRoutesWellFormed(files: seq<ProtoFile>)
    requires BuildSpec(files).Some?
    ensures forall r :: r in BuildSpec(files).value.routes ==> WellFormed(r)
  {
    FilesFoldWellFormed(State(Empty(), []), 0, files);
  }

  /** `a` followed by the routes of `r`, unless `r` threw. */
  function Combine(a: seq<Route>, r: Option<seq<Route>>): Option<seq<Route>>
  {
    if r.None? then None else Some(a + r.value)
  }

  /** The Express router: its routes in registration order. */
  class Router {
    var routes: seq<Route>

    constructor ()
      ensures routes == []
    {
      routes := [];
    }

    /** `router[verb](path, handler)` */
    method Add(r: Route)
      modifies this
      ensures routes == old(routes) + [r]
    {
      routes := routes + [r];
    }
  }

  /**
   * One pass of the verb loop, on the routes still to come from `verbs[i..]`:
   * a non-string truthy template throws, a string one adds its route, and a
   * falsy one adds nothing.
   */
  lemma VerbStep(added: seq<Route>, fields: Props<Value>, verbs: seq<string>, i: nat, pkg: Option<string>, svc: string, name: string)
    requires i < |verbs|
    ensures BadTemplate(fields, verbs[i]) ==> RoutesFor(fields, verbs[i..], pkg, svc, name).None?
    ensures var t := Get(fields, verbs[i]);
      t.Some? && t.value.Str? && Truthy(t.value) ==>
        Combine(added + [MakeRoute(verbs[i], t.value.s, pkg, svc, name, BodyField(fields))], RoutesFor(fields, verbs[i + 1..], pkg, svc, name))
        == Combine(added, RoutesFor(fields, verbs[i..], pkg, svc, name))
    ensures var t := Get(fields, verbs[i]);
      !(t.Some? && Truthy(t.value)) ==> RoutesFor(fields, verbs[i + 1..], pkg, svc, name) == RoutesFor(fields, verbs[i..], pkg, svc, name)
  {
    assert verbs[i..][0] == verbs[i] && verbs[i..][1..] == verbs[i + 1..];
    var t := Get(fields, verbs[i]);
    var rest := RoutesFor(fields, verbs[i + 1..], pkg, svc, name);
    if t.Some? && t.value.Str? && Truthy(t.value) && rest.Some? {
      var route := MakeRoute(verbs[i], t.value.s, pkg, svc, name, BodyField(fields));
      assert (added + [route]) + rest.value == added + ([route] + rest.value);
    }
  }

  /** `supportedMethods.forEach`: a route for each verb with a truthy template; a template that is not a string throws. */
  method AddVerbRoutes(router: Router, fields: Props<Value>, verbs: seq<string>, pkg: Option<string>, svc: string, name: string) returns (ok: bool)
    modifies router
    ensures ok == RoutesFor(fields, verbs, pkg, svc, name).Some?
    ensures ok ==> router.routes == old(router.routes) + RoutesFor(fields, verbs, pkg, svc, name).value
  {
    var bodyMap := BodyField(fields);
    ghost var added: seq<Route> := [];
    ghost var all := RoutesFor(fields, verbs, pkg, svc, name);
    assert verbs[0..] == verbs;
    assert all.Some? ==> [] + all.value == all.value;
    var i := 0;
    while i < |verbs|
      invariant 0 <= i <= |verbs|
      invariant router.routes == old(router.routes) + added
      invariant Combine(added, RoutesFor(fields, verbs[i..], pkg, svc, name)) == all
    {
      var verb := verbs[i];
      VerbStep(added, fields, verbs, i, pkg, svc, name);
      var t := Get(fields, verb);
      if t.Some? && Truthy(t.value) {
        if !t.value.Str? {
          return false;
        }
        var route := MakeRoute(verb, t.value.s, pkg, svc, name, bodyMap);
        router.Add(route);
        added := added + [route];
      }
      i := i + 1;
    }
    assert verbs[i..] == [];
    return true;
  }

  /** The routes of one rpc: the rule is chosen, and a truthy one gives its verbs' routes. */
  method AddMethodRoutes(router: Router, table: Props<Props<Value>>, ghost doc: Option<ServiceDoc>, pkg: Option<string>, svc: string, m: RpcMethod) returns (ok: bool)
    requires forall name :: Get(table, name) == SidecarRule(doc, name)
    modifies router
    ensures ok == MethodRoutes(doc, pkg, svc, m).Some?
    ensures ok ==> router.routes == old(router.routes) + MethodRoutes(doc, pkg, svc, m).value
  {
    var fullName := FullName(pkg, svc, m.name);
    var rule := ChooseRule(Get(table, fullName), m.httpOption);
    if rule.None? || !Truthy(rule.value) {
      assert router.routes == old(router.routes) + [];
      return true;
    }
    ok := AddVerbRoutes(router, RuleFields(rule.value), SupportedMethods, pkg, svc, m.name);
  }

  /** One service: its client is stored, then every rpc's routes are added in order. */
  method AddService(dir: Directory, router: Router, table: Props<Props<Value>>, si: nat, f: ProtoFile, s: Service) returns (ok: bool)
    requires forall name :: Get(table, name) == SidecarRule(f.sidecar, name)
    modifies dir, router
    ensures ok == ServiceStep(State(old(dir.root), old(router.routes)), si, f, s).Some?
    ensures ok ==> State(dir.root, router.routes) == ServiceStep(State(old(dir.root), old(router.routes)), si, f, s).value
  {
    ok := dir.AddClient(f.pkg, s.name, Handle(si, s.name));
    if !ok {
      return;
    }
    var j := 0;
    while j < |s.methods|
      invariant 0 <= j <= |s.methods|
      invariant dir.root == Register(old(dir.root), f.pkg, s.name, Handle(si, s.name)).value
      invariant MethodsFold(old(router.routes), f.sidecar, f.pkg, s.name, s.methods) == MethodsFold(router.routes, f.sidecar, f.pkg, s.name, s.methods[j..])
    {
      assert s.methods[j..][0] == s.methods[j] && s.methods[j..][1..] == s.methods[j + 1..];
      ok := AddMethodRoutes(router, table, f.sidecar, f.pkg, s.name, s.methods[j]);
      if !ok {
        return;
      }
      j := j + 1;
    }
    assert s.methods[j..] == [];
  }

  /** One proto file: each of its services in order. */
  method AddFile(dir: Directory, router: Router, table: Props<Props<Value>>, si: nat, f: ProtoFile) returns (ok: bool)
    requires forall name :: Get(table, name) == SidecarRule(f.sidecar, name)
    modifies dir, router
    ensures ok == ServicesFold(State(old(dir.root), old(router.routes)), si, f, f.services).Some?
    ensures ok ==> State(dir.root, router.routes) == ServicesFold(State(old(dir.root), old(router.routes)), si, f, f.services).value
  {
    var j := 0;
    while j < |f.services|
      invariant 0 <= j <= |f.services|
      invariant ServicesFold(State(old(dir.root), old(router.routes)), si, f, f.services) == ServicesFold(State(dir.root, router.routes), si, f, f.services[j..])
    {
      assert f.services[j..][0] == f.services[j] && f.services[j..][1..] == f.services[j + 1..];
      ok := AddService(dir, router, table, si, f, f.services[j]);
      if !ok {
        return;
      }
      j := j + 1;
    }
    assert f.services[j..] == [];
    return true;
  }

  /**
   * `middleware(protoFiles, ...)`: the sidecar rules of every file are read
   * first, then every file's services are registered in order; `ok` is
   * `false` when building throws.
   */
  method Build(files: seq<ProtoFile>) returns (ok: bool, dir: Directory, router: Router)
    ensures fresh(dir) && fresh(router)
    ensures ok == BuildSpec(files).Some?
    ensures ok ==> State(dir.root, router.routes) == BuildSpec(files).value
  {
    router := new Router();
    dir := new Directory();
    var tables: seq<Props<Props<Value>>> := [];
    var i := 0;
    while i < |files|
      invariant 0 <= i <= |files|
      invariant |tables| == i
      invariant dir.root == Empty() && router.routes == []
      invariant forall j :: 0 <= j < i ==> !SidecarThrows(files[j].sidecar)
      invariant forall j, name :: 0 <= j < i ==> Get(tables[j], name) == SidecarRule(files[j].sidecar, name)
    {
      var t := SidecarRules(files[i].sidecar);
      if t.None? {
        return false, dir, router;
      }
      tables := tables + [t.value];
      i := i + 1;
    }
    var si := 0;
    while si < |files|
      invariant 0 <= si <= |files|
      invariant fresh(dir) && fresh(router)
      invariant BuildSpec(files) == FilesFold(State(dir.root, router.routes), si, files[si..])
    {
      assert files[si..][0] == files[si] && files[si..][1..] == files[si + 1..];
      ok := AddFile(dir, router, tables[si], si, files[si]);
      if !ok {
        return;
      }
      si := si + 1;
    }
    assert files[si..] == [];
    return true, dir, router;
  }

  /** The rpc call a request makes: the client, the method's lower-camel-case name and the parameter tree. */
  datatype Call = Call(client: Handle, rpc: string, params: Props<Value>)

  /** How a request through a registered route ends. */
  datatype Outcome =
    | Answered(status: nat, body: Option<Value>)
      // the callback sent a response
    | Unanswered
      // finding the client threw inside `try`: the error is logged and no response is ever sent
    | HandlerThrew
      // `convertParams` threw before `try`: the router's error handling takes over
    | CallbackThrew
      // `convertBody` threw inside the callback: nothing is sent

  /** The parameter tree a request through `route` builds, with the regex's scan starting at `from`. */
  function TreeFor(route: Route, body: Props<Value>, query: Option<Props<Value>>, params: Option<Props<Value>>, from: nat): Option<Props<Value>>
  {
    BuildTree(Merge(body, query, params, QueryKeys(query) + ScanFrom(route.template, from)))
  }

  /** The call the request makes, if it gets that far. */
  function CallSpec(root: Node, route: Route, body: Props<Value>, query: Option<Props<Value>>, params: Option<Props<Value>>, from: nat): Option<Call>
  {
    var tree := TreeFor(route, body, query, params, from);
    var client := ClientFor(root, route.pkg, route.service);
    if tree.None? || client.None? then None
    else Some(Call(client.value, route.rpc, tree.value))
  }

  /** How the request ends, given what the rpc hands its callback. */
  function HandleSpec(root: Node, route: Route, body: Props<Value>, query: Option<Props<Value>>, params: Option<Props<Value>>, from: nat, result: RpcResult): Outcome
  {
    if TreeFor(route, body, query, params, from).None? then HandlerThrew
    else if ClientFor(root, route.pkg, route.service).None? then Unanswered
    else match Respond(result, route.bodyMap)
      case Sent(status, b) => Answered(status, b)
      case Thrown => CallbackThrew
  }

  /**
   * The handler of a route: parameters are merged into `req.body` and
   * rebuilt, the client is looked up, the rpc is called, and its callback
   * answers.
   */
  method HandleRequest(dir: Directory, re: PlaceholderRegex, req: Request, route: Route, result: RpcResult) returns (outcome: Outcome, call: Option<Call>)
    modifies dir, re, req
    ensures dir.root == old(dir.root)
    ensures re.lastIndex == 0
    ensures req.body == Merge(old(req.body), req.query, req.params, QueryKeys(req.query) + ScanFrom(route.template, old(re.lastIndex)))
    ensures call == CallSpec(old(dir.root), route, old(req.body), req.query, req.params, old(re.lastIndex))
    ensures outcome == HandleSpec(old(dir.root), route, old(req.body), req.query, req.params, old(re.lastIndex), result)
  {
    var tree := ConvertParams(req, re, route.template);
    if tree.None? {
      return HandlerThrew, None;
    }
    var c := dir.ClientLookup(route.pkg, route.service);
    if c.None? {
      return Unanswered, None;
    }
    call := Some(Call(c.value, route.rpc, tree.value));
    var reply := Respond(result, route.bodyMap);
    outcome := if reply.Sent? then Answered(reply.status, reply.body) else CallbackThrew;
  }

  /** A request that reaches its client calls the rpc, and the reply is the callback's. */
  lemma CallIffReached(root: Node, route: Route, body: Props<Value>, query: Option<Props<Value>>, params: Option<Props<Value>>, from: nat, result: RpcResult)
    ensures CallSpec(root, route, body, query, params, from).Some? <==>
      HandleSpec(root, route, body, query, params, from, result).Answered? || HandleSpec(root, route, body, query, params, from, result).CallbackThrew?
    ensures HandleSpec(root, route, body, query, params, from, result).Answered? ==>
      (HandleSpec(root, route, body, query, params, from, result).status == 500 <==> result.RpcError?)
  {
  }

  /**
   * What the rpc receives under a dotted name: when the body's names are
   * distinct and the merged names do not overlap as dotted paths, the path
   * capture if truthy, else the query value if truthy, else the body's field.
   */
  lemma CallCarriesParams(root: Node, route: Route, body: Props<Value>, query: Option<Props<Value>>, params: Option<Props<Value>>, from: nat, k: string)
    requires CallSpec(root, route, body, query, params, from).Some?
    requires UniqueKeys(body)
    requires PathsDiverge(Merge(body, query, params, QueryKeys(query) + ScanFrom(route.template, from)))
    requires k in Keys(Merge(body, query, params, QueryKeys(query) + ScanFrom(route.template, from)))
    ensures GetPath(CallSpec(root, route, body, query, params, from).value.params, Split(k)) ==
      Winner(body, query, params, QueryKeys(query) + ScanFrom(route.template, from), k)
  {
    ConvertedParamAtPath(body, query, params, QueryKeys(query) + ScanFrom(route.template, from), k);
  }
}
