/**
 * The parameter merger: `getParamsList`, `convertParams` and
 * `putParamInObjectHierarchy`. Path captures win over query values, which win
 * over body fields, and only truthy values overwrite; the merged flat object
 * is then rebuilt into a tree by splitting every key on `.`.
 */
module Params {
  import opened Wrappers
  import opened Props
  import opened Json
  import opened Dotted
  import opened PathTemplate

  /**
   * The parts of an Express request the merger reads. `body` is the object
   * `convertParams` writes into (it is not copied first); `query` and `params`
   * may be absent.
   */
  class Request {
    var body: Props<Value>
    const query: Option<Props<Value>>
    const params: Option<Props<Value>>

    constructor (body: Props<Value>, query: Option<Props<Value>>, params: Option<Props<Value>>)
      ensures this.body == body && this.query == query && this.params == params
    {
      this.body := body;
      this.query := query;
      this.params := params;
    }
  }

  /** The keys of the query string, none when there is no `req.query`. */
  function QueryKeys(query: Option<Props<Value>>): seq<string>
  {
    if query.Some? then Keys(query.value) else []
  }

  /**
   * `getParamsList(req, url)`: the query keys, then every placeholder name the
   * shared regex finds from its current `lastIndex` on (from the start, since
   * every use leaves it at 0), duplicates kept.
   */
  method GetParamsList(query: Option<Props<Value>>, re: PlaceholderRegex, url: string) returns (out: seq<string>)
    modifies re
    ensures out == QueryKeys(query) + ScanFrom(url, old(re.lastIndex))
    ensures re.lastIndex == 0
  {
    out := QueryKeys(query);
    ghost var total := out + ScanFrom(url, re.lastIndex);
    var m := re.Exec(url);
    while m.Some?
      invariant m.Some? ==>
        && m.value.index < m.value.end == re.lastIndex <= |url|
        && total == out + [m.value.name] + ScanFrom(url, m.value.end)
      invariant m.None? ==> re.lastIndex == 0 && total == out
      decreases if m.Some? then |url| - m.value.index else 0
    {
      // The guard against an empty match that would not advance never fires:
      // a match spans at least `{`, one word character and `}`.
      assert m.value.index != re.lastIndex;
      ghost var rest := ScanFrom(url, re.lastIndex);
      out := out + [m.value.name];
      assert total == out + rest;
      m := re.Exec(url);
      if m.Some? {
        assert out + rest == out + [m.value.name] + ScanFrom(url, m.value.end);
      }
    }
  }

  /**
   * Two calls in a row see the same list: the first leaves `lastIndex` at 0,
   * so the second scans the whole template.
   */
  method GetParamsListRepeats(query: Option<Props<Value>>, re: PlaceholderRegex, url: string) returns (first: seq<string>, second: seq<string>)
    modifies re
    ensures second == QueryKeys(query) + Placeholders(url)
    ensures old(re.lastIndex) == 0 ==> first == second
  {
    first := GetParamsList(query, re, url);
    second := GetParamsList(query, re, url);
    ScanFromStart(url);
  }

  /** The first `getParamsList` test: query `tester=Cool` and `/v1/hi/{name}` list `tester`, then `name`. */
  lemma ParamsListSingleExample(query: Option<Props<Value>>, url: string)
    requires query == Some([("tester", Str("Cool"))])
    requires url == "/v1/hi/" + "{name}"
    ensures QueryKeys(query) + Placeholders(url) == ["tester", "name"]
  {
    PlaceholdersSingleExample(url);
    assert QueryKeys(query) == ["tester"];
  }

  /** The second `getParamsList` test: the query key, then `version`, `name` and `cool`. */
  lemma ParamsListManyExample(query: Option<Props<Value>>, url: string)
    requires query == Some([("tester", Str("Cool"))])
    requires url == "/" + ("{version}" + ("/hi/" + ("{name}" + ("/" + "{cool}"))))
    ensures QueryKeys(query) + Placeholders(url) == ["tester", "version", "name", "cool"]
  {
    PlaceholdersManyExample(url);
    assert QueryKeys(query) == ["tester"];
  }

  /** `src && src[p]`, when it is truthy: the value that overwrites `flat[p]`. */
  function Overriding(src: Option<Props<Value>>, p: string): Option<Value>
  {
    if src.None? then None
    else match Get(src.value, p)
      case Some(v) => if Truthy(v) then Some(v) else None
      case None => None
  }

  /** One candidate name: a truthy query value overwrites, then a truthy path capture overwrites that. */
  function MergeStep(flat: Props<Value>, query: Option<Props<Value>>, params: Option<Props<Value>>, p: string): Props<Value>
  {
    var afterQuery := if Overriding(query, p).Some? then Set(flat, p, Overriding(query, p).value) else flat;
    if Overriding(params, p).Some? then Set(afterQuery, p, Overriding(params, p).value) else afterQuery
  }

  /** The first loop of `convertParams`, over the candidate names in order. */
  function Merge(flat: Props<Value>, query: Option<Props<Value>>, params: Option<Props<Value>>, names: seq<string>): Props<Value>
    decreases |names|
  {
    if names == [] then flat
    else Merge(MergeStep(flat, query, params, names[0]), query, params, names[1..])
  }

  /**
   * The precedence rule stated on its own: for a candidate name, a truthy
   * path capture, else a truthy query value, else the body field; any other
   * name keeps the body's value (or stays absent).
   */
  function Winner(body: Props<Value>, query: Option<Props<Value>>, params: Option<Props<Value>>, names: seq<string>, k: string): Option<Value>
  {
    if k in names && Overriding(params, k).Some? then Overriding(params, k)
    else if k in names && Overriding(query, k).Some? then Overriding(query, k)
    else Get(body, k)
  }

  /** The merged object holds exactly the precedence rule's value under every name. */
  lemma {:induction false} MergePrecedence(body: Props<Value>, query: Option<Props<Value>>, params: Option<Props<Value>>, names: seq<string>, k: string)
    ensures Get(Merge(body, query, params, names), k) == Winner(body, query, params, names, k)
    decreases |names|
  {
    if names != [] {
      var next := MergeStep(body, query, params, names[0]);
      MergePrecedence(next, query, params, names[1..], k);
      assert k in names <==> k == names[0] || k in names[1..];
    }
  }

  /** One merge step keeps the body's keys in place and never duplicates a key. */
  lemma MergeStepKeepsKeys(flat: Props<Value>, query: Option<Props<Value>>, params: Option<Props<Value>>, p: string)
    ensures KeysExtend(flat, MergeStep(flat, query, params, p))
    ensures UniqueKeys(flat) ==> UniqueKeys(MergeStep(flat, query, params, p))
  {
    var afterQuery := if Overriding(query, p).Some? then Set(flat, p, Overriding(query, p).value) else flat;
    if Overriding(query, p).Some? {
      SetExtendsKeys(flat, p, Overriding(query, p).value);
      if UniqueKeys(flat) {
        SetKeepsUniqueKeys(flat, p, Overriding(query, p).value);
      }
    }
    if Overriding(params, p).Some? {
      SetExtendsKeys(afterQuery, p, Overriding(params, p).value);
      if UniqueKeys(afterQuery) {
        SetKeepsUniqueKeys(afterQuery, p, Overriding(params, p).value);
      }
    }
  }

  /** Body fields keep their places (new names are appended after them), and no name appears twice. */
  lemma {:induction false} MergeKeepsKeys(body: Props<Value>, query: Option<Props<Value>>, params: Option<Props<Value>>, names: seq<string>)
    ensures KeysExtend(body, Merge(body, query, params, names))
    ensures UniqueKeys(body) ==> UniqueKeys(Merge(body, query, params, names))
    decreases |names|
  {
    if names != [] {
      var next := MergeStep(body, query, params, names[0]);
      MergeStepKeepsKeys(body, query, params, names[0]);
      MergeKeepsKeys(next, query, params, names[1..]);
    }
  }

  /** `t[k] || {}` when `t[k]` is not a truthy primitive: the object found at `k`, or a new empty one. */
  function Child(t: Props<Value>, k: string): Props<Value>
  {
    var existing := Get(t, k);
    if existing.Some? && existing.value.Obj? then existing.value.fields else []
  }

  /**
   * `putParamInObjectHierarchy(path, t, v)` on an object value: walks `path`,
   * reusing an object found on the way and replacing a falsy value by `{}`,
   * then sets the last name. A truthy primitive on the way makes the source
   * assign a property of a primitive, a `TypeError` under strict mode: `None`.
   */
  function Put(t: Props<Value>, path: seq<string>, v: Value): (r: Option<Props<Value>>)
    requires |path| >= 1
    ensures r.Some? ==> GetPath(r.value, path) == Some(v)
    decreases |path|
  {
    if |path| == 1 then Some(Set(t, path[0], v))
    else
      var existing := Get(t, path[0]);
      if existing.Some? && Truthy(existing.value) && !existing.value.Obj? then None
      else
        match Put(Child(t, path[0]), path[1..], v)
        case None => None
        case Some(c) => Some(Set(t, path[0], Obj(c)))
  }

  /** The second loop of `convertParams`: every flat entry, in order, put at its dotted path. */
  function Insert(t: Props<Value>, entries: Props<Value>): Option<Props<Value>>
    decreases |entries|
  {
    if entries == [] then Some(t)
    else match Put(t, Split(entries[0].0), entries[0].1)
      case None => None
      case Some(t') => Insert(t', entries[1..])
  }

  /** The tree `convertParams` returns for a merged flat object, or `None` for the `TypeError`. */
  function BuildTree(flat: Props<Value>): Option<Props<Value>>
  {
    Insert([], flat)
  }

  /** One pass of the first loop of `convertParams`: a truthy query value, then a truthy path capture, is written to `req.body[p]`. */
  method MergeName(req: Request, p: string)
    modifies req
    ensures req.body == MergeStep(old(req.body), req.query, req.params, p)
  {
    var flat := req.body;
    var q := Overriding(req.query, p);
    if q.Some? {
      flat := Set(flat, p, q.value);
    }
    var c := Overriding(req.params, p);
    if c.Some? {
      flat := Set(flat, p, c.value);
    }
    req.body := flat;
  }

  /** The first loop of `convertParams`, over the candidate names in order. */
  method MergeInto(req: Request, names: seq<string>)
    modifies req
    ensures req.body == Merge(old(req.body), req.query, req.params, names)
  {
    var i := 0;
    while i < |names|
      invariant 0 <= i <= |names|
      invariant Merge(old(req.body), req.query, req.params, names) == Merge(req.body, req.query, req.params, names[i..])
    {
      MergeName(req, names[i]);
      assert names[i..][1..] == names[i + 1..];
      i := i + 1;
    }
  }

  /**
   * The second loop of `convertParams`: each merged entry, in order, is put at
   * its dotted path in a fresh tree; the first `TypeError` ends the request.
   */
  method Rebuild(flat: Props<Value>) returns (tree: Option<Props<Value>>)
    ensures tree == BuildTree(flat)
  {
    var t: Props<Value> := [];
    var j := 0;
    while j < |flat|
      invariant 0 <= j <= |flat|
      invariant BuildTree(flat) == Insert(t, flat[j..])
    {
      var (k, v) := flat[j];
      var r := Put(t, Split(k), v);
      if r.None? {
        return None;
      }
      assert flat[j..][1..] == flat[j + 1..];
      t := r.value;
      j := j + 1;
    }
    return Some(t);
  }

  /**
   * `convertParams(req, url)`: merges query values and path captures into
   * `req.body` in place, then returns the body rebuilt as a tree (`None` when
   * the rebuilding raises).
   */
  method ConvertParams(req: Request, re: PlaceholderRegex, url: string) returns (tree: Option<Props<Value>>)
    modifies req, re
    ensures re.lastIndex == 0
    ensures req.body == Merge(old(req.body), req.query, req.params, QueryKeys(req.query) + ScanFrom(url, old(re.lastIndex)))
    ensures tree == BuildTree(req.body)
  {
    var names := GetParamsList(req.query, re, url);
    MergeInto(req, names);
    tree := Rebuild(req.body);
  }
}
