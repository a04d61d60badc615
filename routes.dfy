/**
 * Which HTTP routes a gRPC method gets: its rule comes from the sidecar YAML
 * file when that names the method, else from the method's
 * `google.api.http` option; each supported verb the rule gives a template for
 * becomes a route at the template's Express form.
 */
module Routes {
  import opened Wrappers
  import opened Props
  import opened Json
  import opened PathTemplate

  /** `supportedMethods`, in the order their routes are registered. */
  const SupportedMethods: seq<string> := ["get", "put", "post", "delete", "patch"]

  /** `toLowerCase` on one character, for the ASCII letters. */
  function LowerChar(c: char): char
  {
    if 'A' <= c <= 'Z' then (c as int + 32) as char else c
  }

  /** `lowerFirstChar`: the first character lowered, the rest kept. */
  function LowerFirst(s: string): (r: string)
    ensures |r| == |s|
    ensures r != [] ==> !('A' <= r[0] <= 'Z')
    ensures s != [] && 'A' <= s[0] <= 'Z' ==> r[0] as int == s[0] as int + 32
    ensures s != [] && !('A' <= s[0] <= 'Z') ==> r[0] == s[0]
    ensures forall i :: 1 <= i < |s| ==> r[i] == s[i]
  {
    if s == [] then [] else [LowerChar(s[0])] + s[1..]
  }

  /** Lowering the first character twice is lowering it once. */
  lemma LowerFirstIdempotent(s: string)
    ensures LowerFirst(LowerFirst(s)) == LowerFirst(s)
  {
    if s != [] {
      assert LowerFirst(s)[1..] == s[1..];
    }
  }

  /** Only the case of the first letter changes: a name already in lower camel case is kept. */
  lemma LowerFirstKeepsLower(s: string)
    requires s != [] && !('A' <= s[0] <= 'Z')
    ensures LowerFirst(s) == s
  {
    assert s == [s[0]] + s[1..];
  }

  /** The selector of a sidecar rule, when it is a string. */
  function Selector(rule: Props<Value>): Option<string>
  {
    var v := Get(rule, "selector");
    if v.Some? && v.value.Str? then Some(v.value.s) else None
  }

  /** The last rule of `rs` whose selector is `name`: later rules overwrite earlier ones. */
  function LastRule(rs: seq<Props<Value>>, name: string): Option<Props<Value>>
    decreases |rs|
  {
    if rs == [] then None
    else if Selector(rs[|rs| - 1]) == Some(name) then Some(rs[|rs| - 1])
    else LastRule(rs[..|rs| - 1], name)
  }

  /** A sidecar rule with a selector is found by its selector. */
  lemma {:induction false} LastRuleFinds(rs: seq<Props<Value>>, i: nat)
    requires i < |rs| && Selector(rs[i]).Some?
    ensures LastRule(rs, Selector(rs[i]).value).Some?
    ensures Selector(LastRule(rs, Selector(rs[i]).value).value) == Selector(rs[i])
    decreases |rs|
  {
    if i < |rs| - 1 && Selector(rs[|rs| - 1]) != Selector(rs[i]) {
      LastRuleFinds(rs[..|rs| - 1], i);
    }
  }

  /** The rule found under a name is the last rule whose selector is that name. */
  lemma {:induction false} LastRuleIsLast(rs: seq<Props<Value>>, j: nat, name: string)
    requires j < |rs| && Selector(rs[j]) == Some(name)
    requires forall k :: j < k < |rs| ==> Selector(rs[k]) != Some(name)
    ensures LastRule(rs, name) == Some(rs[j])
    decreases |rs|
  {
    if j < |rs| - 1 {
      var init := rs[..|rs| - 1];
      assert init[j] == rs[j];
      forall k | j < k < |init|
        ensures Selector(init[k]) != Some(name)
      {
        assert init[k] == rs[k];
      }
      LastRuleIsLast(init, j, name);
    }
  }

  /** A name no rule selects finds nothing. */
  lemma {:induction false} LastRuleMisses(rs: seq<Props<Value>>, name: string)
    requires forall i :: 0 <= i < |rs| ==> Selector(rs[i]) != Some(name)
    ensures LastRule(rs, name).None?
    decreases |rs|
  {
    if rs != [] {
      LastRuleMisses(rs[..|rs| - 1], name);
    }
  }

  /**
   * The sidecar `.yaml` file next to a proto file, as loaded: `Blank` when it
   * loads as nothing (an empty document); otherwise its `type` and its
   * `http.rules` list, which is `None` when `http` or `http.rules` is missing.
   */
  datatype ServiceDoc = Blank | ServiceDoc(kind: string, rules: Option<seq<Value>>)

  /** The document describes a `google.api.Service`, whose rules are read. */
  predicate IsService(doc: Option<ServiceDoc>)
  {
    doc.Some? && doc.value.ServiceDoc? && doc.value.kind == "google.api.Service"
  }

  /**
   * Reading the sidecar throws: the `type` of a blank document, the
   * `http.rules` of a service document without them, or `'selector' in rule`
   * on a rule that is not an object.
   */
  predicate SidecarThrows(doc: Option<ServiceDoc>)
  {
    doc.Some? &&
      (doc.value.Blank? ||
       (IsService(doc) &&
        (doc.value.rules.None? ||
         exists k :: 0 <= k < |doc.value.rules.value| && !doc.value.rules.value[k].Obj?)))
  }

  /** The properties of each rule of a list, in order. */
  function RuleObjects(rs: seq<Value>): seq<Props<Value>>
  {
    seq(|rs|, k requires 0 <= k < |rs| => RuleFields(rs[k]))
  }

  /** The sidecar rule stored under `fullName` when reading `doc` does not throw. */
  function SidecarRule(doc: Option<ServiceDoc>, fullName: string): Option<Props<Value>>
  {
    if IsService(doc) && doc.value.rules.Some? then LastRule(RuleObjects(doc.value.rules.value), fullName) else None
  }

  /**
   * The rules of one proto file's sidecar, by selector: none without a file
   * or for a document of another type; otherwise each rule with a selector
   * is stored under it, a later one replacing an earlier one. `None` when
   * reading the document throws.
   */
  method SidecarRules(doc: Option<ServiceDoc>) returns (rules: Option<Props<Props<Value>>>)
    ensures rules.None? <==> SidecarThrows(doc)
    ensures rules.Some? && !IsService(doc) ==> rules.value == []
    ensures rules.Some? && IsService(doc) ==>
      doc.value.rules.Some? &&
      forall name :: Get(rules.value, name) == LastRule(RuleObjects(doc.value.rules.value), name)
  {
    if doc.None? {
      return Some([]);
    }
    if doc.value.Blank? {
      return None;
    }
    if doc.value.kind != "google.api.Service" {
      return Some([]);
    }
    if doc.value.rules.None? {
      return None;
    }
    var rs := doc.value.rules.value;
    ghost var objs := RuleObjects(rs);
    var table: Props<Props<Value>> := [];
    var i := 0;
    while i < |rs|
      invariant 0 <= i <= |rs|
      invariant forall k :: 0 <= k < i ==> rs[k].Obj?
      invariant forall name :: Get(table, name) == LastRule(objs[..i], name)
    {
      if !rs[i].Obj? {
        return None;
      }
      assert objs[..i + 1][..i] == objs[..i];
      var sel := Selector(rs[i].fields);
      if sel.Some? {
        table := Set(table, sel.value, rs[i].fields);
      }
      i := i + 1;
    }
    assert objs[..i] == objs;
    return Some(table);
  }

  /**
   * The method's rule, given what the sidecar stores under its full name
   * `pkg.Service.Method`: that rule when there is one, else the method's
   * `google.api.http` option.
   */
  function ChooseRule(stored: Option<Props<Value>>, option: Option<Value>): (r: Option<Value>)
    ensures stored.Some? ==> r == Some(Obj(stored.value))
    ensures stored.None? ==> r == option
  {
    if stored.Some? then Some(Obj(stored.value)) else option
  }

  /** The properties of a rule: an object's own, none for a primitive. */
  function RuleFields(rule: Value): Props<Value>
  {
    if rule.Obj? then rule.fields else []
  }

  /** `httpRule.body` when it is a string; otherwise the whole answer is sent. */
  function BodyField(fields: Props<Value>): Option<string>
  {
    var v := Get(fields, "body");
    if v.Some? && v.value.Str? then Some(v.value.s) else None
  }

  /**
   * A registered route: the verb, the Express path, the template it came
   * from (the handler uses it to find the parameter names), and what the
   * handler calls and how it shapes the answer.
   */
  datatype Route = Route(verb: string, path: string, template: string, pkg: Option<string>, service: string, rpc: string, bodyMap: Option<string>)

  /** The route `router[verb](convertUrl(template), ...)` registers for the rpc `name`. */
  function MakeRoute(verb: string, template: string, pkg: Option<string>, service: string, name: string, bodyMap: Option<string>): Route
  {
    Route(verb, ConvertUrl(template), template, pkg, service, LowerFirst(name), bodyMap)
  }

  /** The verbs of `verbs` the rule gives a truthy template for, in order. */
  function Enabled(fields: Props<Value>, verbs: seq<string>): seq<string>
    decreases |verbs|
  {
    if verbs == [] then []
    else
      var t := Get(fields, verbs[0]);
      (if t.Some? && Truthy(t.value) then [verbs[0]] else []) + Enabled(fields, verbs[1..])
  }

  /** A truthy template that is not a string: `convertUrl` calls `replace` on it and throws. */
  predicate BadTemplate(fields: Props<Value>, verb: string)
  {
    var t := Get(fields, verb);
    t.Some? && Truthy(t.value) && !t.value.Str?
  }

  /** The routes of one method for `verbs`, in order; `None` when a truthy template is not a string. */
  function RoutesFor(fields: Props<Value>, verbs: seq<string>, pkg: Option<string>, service: string, name: string): Option<seq<Route>>
    decreases |verbs|
  {
    if verbs == [] then Some([])
    else
      var rest := RoutesFor(fields, verbs[1..], pkg, service, name);
      var t := Get(fields, verbs[0]);
      if t.Some? && Truthy(t.value) then
        if !t.value.Str? || rest.None? then None
        else Some([MakeRoute(verbs[0], t.value.s, pkg, service, name, BodyField(fields))] + rest.value)
      else rest
  }

  /** Registering throws exactly when some verb's truthy template is not a string. */
  lemma {:induction false} RoutesForThrows(fields: Props<Value>, verbs: seq<string>, pkg: Option<string>, service: string, name: string)
    ensures RoutesFor(fields, verbs, pkg, service, name).None? <==> exists i :: 0 <= i < |verbs| && BadTemplate(fields, verbs[i])
    decreases |verbs|
  {
    if verbs != [] {
      RoutesForThrows(fields, verbs[1..], pkg, service, name);
      if BadTemplate(fields, verbs[0]) {
        assert RoutesFor(fields, verbs, pkg, service, name).None?;
      } else if RoutesFor(fields, verbs[1..], pkg, service, name).None? {
        var i :| 0 <= i < |verbs[1..]| && BadTemplate(fields, verbs[1..][i]);
        assert BadTemplate(fields, verbs[i + 1]);
      } else {
        forall i | 0 <= i < |verbs| ensures !BadTemplate(fields, verbs[i]) {
          if i > 0 {
            assert verbs[i] == verbs[1..][i - 1];
          }
        }
      }
    }
  }

  /** The `i`-th route is registered for `verb` at the Express form of the template `fields` gives it. */
  predicate RouteFor(r: Route, verb: string, fields: Props<Value>, pkg: Option<string>, service: string, name: string)
  {
    && r.verb == verb
    && Get(fields, r.verb) == Some(Str(r.template))
    && r.path == ConvertUrl(r.template)
    && r.rpc == LowerFirst(name)
    && r.pkg == pkg && r.service == service
    && r.bodyMap == BodyField(fields)
  }

  /**
   * When registering does not throw, there is one route per verb with a
   * truthy template, in the order of `verbs`, each at the Express form of its
   * template, calling the rpc under its lower-camel-case name.
   */
  lemma {:induction false} RoutesForShape(fields: Props<Value>, verbs: seq<string>, pkg: Option<string>, service: string, name: string)
    requires RoutesFor(fields, verbs, pkg, service, name).Some?
    ensures |RoutesFor(fields, verbs, pkg, service, name).value| == |Enabled(fields, verbs)|
    ensures forall i :: 0 <= i < |Enabled(fields, verbs)| ==>
      RouteFor(RoutesFor(fields, verbs, pkg, service, name).value[i], Enabled(fields, verbs)[i], fields, pkg, service, name)
    decreases |verbs|
  {
    if verbs != [] {
      var rs := RoutesFor(fields, verbs, pkg, service, name).value;
      var rest := RoutesFor(fields, verbs[1..], pkg, service, name);
      var es := Enabled(fields, verbs[1..]);
      var t := Get(fields, verbs[0]);
      assert rest.Some?;
      RoutesForShape(fields, verbs[1..], pkg, service, name);
      if t.Some? && Truthy(t.value) {
        assert Enabled(fields, verbs) == [verbs[0]] + es;
        forall i | 0 <= i < |Enabled(fields, verbs)|
          ensures RouteFor(rs[i], Enabled(fields, verbs)[i], fields, pkg, service, name)
        {
          if i > 0 {
            assert rs[i] == rest.value[i - 1];
            assert Enabled(fields, verbs)[i] == es[i - 1];
          }
        }
      } else {
        assert Enabled(fields, verbs) == es;
      }
    }
  }

  /** A verb gets a route exactly when it is one of the verbs and the rule's template for it is truthy. */
  lemma {:induction false} EnabledIff(fields: Props<Value>, verbs: seq<string>, v: string)
    ensures v in Enabled(fields, verbs) <==> v in verbs && Get(fields, v).Some? && Truthy(Get(fields, v).value)
    decreases |verbs|
  {
    if verbs != [] {
      EnabledIff(fields, verbs[1..], v);
      assert v in verbs <==> v == verbs[0] || v in verbs[1..];
    }
  }

  /** `lowerFirstChar('SayHello')` is `sayHello`, the name the generated client's method has. */
  lemma LowerFirstExample(s: string)
    requires s == "S" + "ayHello"
    ensures LowerFirst(s) == "s" + "ayHello"
  {
    assert s[1..] == "ayHello";
  }
}
