/**
 * The path-template compiler: `convertUrl` and the module-level regular
 * expression `paramRegex = /{(\w+)}/g` that both it and `getParamsList` use.
 * Only a brace-enclosed run of one or more word characters is a placeholder,
 * so a dotted `{a.b}` is left as it is.
 */
module PathTemplate {
  import opened Wrappers

  /** `\w`: an ASCII letter, a digit or `_`. */
  predicate IsWordChar(c: char)
  {
    'a' <= c <= 'z' || 'A' <= c <= 'Z' || '0' <= c <= '9' || c == '_'
  }

  /** What `{(\w+)}` means, stated on its own: `s[i..e]` is `{`, one or more word characters, `}`. */
  predicate IsPlaceholder(s: string, i: nat, e: nat)
  {
    i + 3 <= e <= |s| && s[i] == '{' && s[e - 1] == '}' &&
    forall k :: i < k < e - 1 ==> IsWordChar(s[k])
  }

  /** The first index at or after `j` that does not hold a word character (or the end). */
  function WordRunEnd(s: string, j: nat): (e: nat)
    ensures j <= e
    decreases |s| - j
  {
    if j >= |s| || !IsWordChar(s[j]) then j else WordRunEnd(s, j + 1)
  }

  /** `\w+` is greedy: the run from `j` holds only word characters and stops at a non-word character or the end. */
  lemma {:induction false} WordRunEndSpec(s: string, j: nat)
    requires j <= |s|
    ensures WordRunEnd(s, j) <= |s|
    ensures WordRunEnd(s, j) < |s| ==> !IsWordChar(s[WordRunEnd(s, j)])
    ensures forall k :: j <= k < WordRunEnd(s, j) ==> IsWordChar(s[k])
    decreases |s| - j
  {
    if j < |s| && IsWordChar(s[j]) {
      WordRunEndSpec(s, j + 1);
    }
  }

  /**
   * Whether the regular expression matches starting exactly at `i`, and if so
   * the index just past the closing brace. The greedy `\w+` can only be
   * followed by `}` at the end of the maximal word run, so this is the only
   * candidate.
   */
  function MatchAt(s: string, i: nat): (r: Option<nat>)
    ensures r.Some? ==> i + 3 <= r.value <= |s| && s[i] == '{' && s[r.value - 1] == '}'
  {
    if i < |s| && s[i] == '{' then
      var j := WordRunEnd(s, i + 1);
      if j > i + 1 && j < |s| && s[j] == '}' then Some(j + 1)
      else
        None
    else None
  }

  /** What `MatchAt` finds is a match of the pattern. */
  lemma MatchAtSound(s: string, i: nat)
    ensures MatchAt(s, i).Some? ==> IsPlaceholder(s, i, MatchAt(s, i).value)
  {
    if i < |s| && s[i] == '{' {
      WordRunEndSpec(s, i + 1);
    }
  }

  /**
   * Conversely, wherever the pattern matches, `MatchAt` finds that match: the
   * scan misses no placeholder and sees each with its one possible end.
   */
  lemma MatchAtComplete(s: string, i: nat, e: nat)
    requires IsPlaceholder(s, i, e)
    ensures MatchAt(s, i) == Some(e)
  {
    WordRunEndSpec(s, i + 1);
    assert !IsWordChar(s[e - 1]);
  }

  /** The placeholder name a match covers. */
  function NameAt(s: string, i: nat, e: nat): string
    requires i + 3 <= e <= |s|
  {
    s[i + 1 .. e - 1]
  }

  /**
   * `url.replace(paramRegex, ':$1')`: each match, leftmost first, becomes
   * `:name`; after a match the search goes on from its end.
   */
  function ConvertUrl(url: string): string
    decreases |url|
  {
    if url == [] then ""
    else match MatchAt(url, 0)
      case Some(e) => ":" + NameAt(url, 0, e) + ConvertUrl(url[e..])
      case None => [url[0]] + ConvertUrl(url[1..])
  }

  /** The names repeated `paramRegex.exec` reports over a whole template, in order, duplicates kept. */
  function Placeholders(url: string): seq<string>
    decreases |url|
  {
    if url == [] then []
    else match MatchAt(url, 0)
      case Some(e) => [NameAt(url, 0, e)] + Placeholders(url[e..])
      case None => Placeholders(url[1..])
  }

  /** The names repeated `exec` calls report when the regular expression's `lastIndex` starts at `i`. */
  function ScanFrom(s: string, i: nat): seq<string>
    decreases |s| - i
  {
    if i >= |s| then []
    else match MatchAt(s, i)
      case Some(e) => [NameAt(s, i, e)] + ScanFrom(s, e)
      case None => ScanFrom(s, i + 1)
  }

  /** A template as the scan sees it: literal characters and placeholders. */
  datatype Piece = Char(c: char) | Param(name: string)

  function Parse(url: string): seq<Piece>
    decreases |url|
  {
    if url == [] then []
    else match MatchAt(url, 0)
      case Some(e) => [Param(NameAt(url, 0, e))] + Parse(url[e..])
      case None => [Char(url[0])] + Parse(url[1..])
  }

  /** The pieces written back in gRPC syntax, `{name}`. */
  function Original(ps: seq<Piece>): string
  {
    if ps == [] then ""
    else match ps[0]
      case Char(c) => [c] + Original(ps[1..])
      case Param(n) => "{" + n + "}" + Original(ps[1..])
  }

  /** The pieces written in Express syntax, `:name`. */
  function Express(ps: seq<Piece>): string
  {
    if ps == [] then ""
    else match ps[0]
      case Char(c) => [c] + Express(ps[1..])
      case Param(n) => ":" + n + Express(ps[1..])
  }

  /** The names of the placeholder pieces, in order. */
  function Names(ps: seq<Piece>): seq<string>
  {
    if ps == [] then []
    else match ps[0]
      case Char(_) => Names(ps[1..])
      case Param(n) => [n] + Names(ps[1..])
  }

  /** Every placeholder name is one or more word characters. */
  predicate WordNames(ps: seq<Piece>)
  {
    forall k :: 0 <= k < |ps| && ps[k].Param? ==>
      ps[k].name != [] && forall c :: c in ps[k].name ==> IsWordChar(c)
  }

  /** A match at the start is the text `{name}` with a name of word characters. */
  lemma PlaceholderText(s: string, e: nat)
    requires IsPlaceholder(s, 0, e)
    ensures s == "{" + NameAt(s, 0, e) + "}" + s[e..]
    ensures NameAt(s, 0, e) != [] && forall c :: c in NameAt(s, 0, e) ==> IsWordChar(c)
  {
    var n := NameAt(s, 0, e);
    assert s == s[..1] + s[1..e - 1] + s[e - 1..e] + s[e..];
    forall c | c in n ensures IsWordChar(c) {
      var k :| 0 <= k < |n| && n[k] == c;
      assert c == s[1 + k];
    }
  }

  /** Writing the parse back in gRPC syntax gives the template back. */
  lemma {:induction false} ParseRoundTrip(url: string)
    ensures Original(Parse(url)) == url
    decreases |url|
  {
    if url != [] {
      var ps := Parse(url);
      match MatchAt(url, 0)
      case Some(e) =>
        ParseRoundTrip(url[e..]);
        MatchAtSound(url, 0);
        PlaceholderText(url, e);
        assert ps[1..] == Parse(url[e..]);
      case None =>
        ParseRoundTrip(url[1..]);
        assert ps[1..] == Parse(url[1..]);
        assert url == [url[0]] + url[1..];
    }
  }

  /** Every placeholder the parse finds is named by one or more word characters. */
  lemma {:induction false} ParseWordNames(url: string)
    ensures WordNames(Parse(url))
    decreases |url|
  {
    if url != [] {
      var ps := Parse(url);
      match MatchAt(url, 0)
      case Some(e) =>
        ParseWordNames(url[e..]);
        MatchAtSound(url, 0);
        PlaceholderText(url, e);
        assert ps[1..] == Parse(url[e..]);
      case None =>
        ParseWordNames(url[1..]);
        assert ps[1..] == Parse(url[1..]);
    }
  }

  /** The Express pattern is the same parse with every placeholder written `:name`. */
  lemma {:induction false} ConvertIsExpressRendering(url: string)
    ensures ConvertUrl(url) == Express(Parse(url))
    ensures Placeholders(url) == Names(Parse(url))
    decreases |url|
  {
    if url != [] {
      var ps := Parse(url);
      match MatchAt(url, 0)
      case Some(e) =>
        ConvertIsExpressRendering(url[e..]);
        assert ps[1..] == Parse(url[e..]);
      case None =>
        ConvertIsExpressRendering(url[1..]);
        assert ps[1..] == Parse(url[1..]);
    }
  }

  /** Without placeholder pieces the two renderings agree. */
  lemma {:induction false} NoParamsSameRendering(ps: seq<Piece>)
    requires Names(ps) == []
    ensures Express(ps) == Original(ps)
  {
    if ps != [] {
      NoParamsSameRendering(ps[1..]);
    }
  }

  /**
   * `convertUrl` replaces every `{word}` placeholder by `:word` and changes
   * nothing else: there is one decomposition of the template into literal
   * characters and word-named placeholders that gives back the template in
   * gRPC syntax, gives the result in Express syntax, and lists exactly the
   * names `getParamsList` finds.
   */
  lemma ConvertUrlReplacesPlaceholders(url: string)
    ensures Original(Parse(url)) == url
    ensures WordNames(Parse(url))
    ensures ConvertUrl(url) == Express(Parse(url))
    ensures Placeholders(url) == Names(Parse(url))
  {
    ParseRoundTrip(url);
    ParseWordNames(url);
    ConvertIsExpressRendering(url);
  }

  /** A template without placeholders (dotted `{a.b}` ones included) comes back unchanged. */
  lemma NoPlaceholdersUnchanged(url: string)
    requires Placeholders(url) == []
    ensures ConvertUrl(url) == url
  {
    ConvertUrlReplacesPlaceholders(url);
    NoParamsSameRendering(Parse(url));
  }

  /** The word run starting at `j` is found the same in a suffix of `s` that still holds `j`. */
  lemma {:induction false} WordRunEndDrop(s: string, d: nat, j: nat)
    requires d <= j && d <= |s|
    ensures WordRunEnd(s, j) == d + WordRunEnd(s[d..], j - d)
    decreases |s| - j
  {
    if j < |s| {
      assert s[d..][j - d] == s[j];
      if IsWordChar(s[j]) {
        WordRunEndDrop(s, d, j + 1);
      }
    }
  }

  /** Whether the pattern matches at `j` depends only on the text from `j` on. */
  lemma MatchAtDrop(s: string, d: nat, j: nat)
    requires d <= j && d <= |s|
    ensures MatchAt(s, j) == if MatchAt(s[d..], j - d).Some? then Some(d + MatchAt(s[d..], j - d).value) else None
  {
    if j < |s| {
      assert s[d..][j - d] == s[j];
      if s[j] == '{' {
        WordRunEndDrop(s, d, j + 1);
        var w := WordRunEnd(s, j + 1);
        if w < |s| {
          assert s[d..][w - d] == s[w];
        }
      }
    }
  }

  /** Scanning from `i` on finds what scanning the suffix from `i` finds: in particular, from 0 it finds `Placeholders`. */
  lemma {:induction false} ScanFromSuffix(s: string, i: nat)
    requires i <= |s|
    ensures ScanFrom(s, i) == Placeholders(s[i..])
    decreases |s| - i
  {
    var u := s[i..];
    if i < |s| {
      MatchAtDrop(s, i, i);
      match MatchAt(s, i)
      case Some(e) =>
        ScanFromSuffix(s, e);
        assert u[e - i..] == s[e..];
        assert NameAt(u, 0, e - i) == NameAt(s, i, e);
      case None =>
        ScanFromSuffix(s, i + 1);
        assert u[1..] == s[i + 1..];
    } else {
      assert u == [];
    }
  }

  /** A scan from the start is the list of placeholders. */
  lemma ScanFromStart(s: string)
    ensures ScanFrom(s, 0) == Placeholders(s)
  {
    ScanFromSuffix(s, 0);
    assert s[0..] == s;
  }

  /** Positions where no match starts add nothing to the scan. */
  lemma {:induction false} ScanSkips(s: string, i: nat, j: nat)
    requires i <= j
    requires forall k :: i <= k < j ==> MatchAt(s, k).None?
    ensures ScanFrom(s, i) == ScanFrom(s, j) || (j > |s| && ScanFrom(s, i) == [])
    decreases j - i
  {
    if i < j && i < |s| {
      ScanSkips(s, i + 1, j);
    }
  }

  /** A match found by `exec` is the scan's next name. */
  datatype Match = Match(index: nat, name: string, end: nat)

  /** `paramRegex`, shared by every caller; its only state is `lastIndex`. */
  class PlaceholderRegex {
    var lastIndex: nat

    constructor ()
      ensures lastIndex == 0
    {
      lastIndex := 0;
    }

    /**
     * `paramRegex.exec(s)`: the leftmost match at or after `lastIndex`, which
     * then moves past it; when there is none, `null`, and `lastIndex` goes
     * back to 0.
     */
    method Exec(s: string) returns (m: Option<Match>)
      modifies this
      ensures m.Some? ==>
        && old(lastIndex) <= m.value.index
        && MatchAt(s, m.value.index) == Some(m.value.end)
        && m.value.name == NameAt(s, m.value.index, m.value.end)
        && lastIndex == m.value.end
        && forall k :: old(lastIndex) <= k < m.value.index ==> MatchAt(s, k).None?
      ensures m.None? ==>
        && lastIndex == 0
        && forall k :: old(lastIndex) <= k < |s| ==> MatchAt(s, k).None?
      ensures m.Some? ==> ScanFrom(s, old(lastIndex)) == [m.value.name] + ScanFrom(s, m.value.end)
      ensures m.None? ==> ScanFrom(s, old(lastIndex)) == []
    {
      var i := lastIndex;
      while i < |s|
        invariant old(lastIndex) <= i
        invariant forall k :: old(lastIndex) <= k < i ==> MatchAt(s, k).None?
        decreases |s| - i
      {
        var e := MatchAt(s, i);
        if e.Some? {
          ScanSkips(s, old(lastIndex), i);
          lastIndex := e.value;
          return Some(Match(i, NameAt(s, i, e.value), e.value));
        }
        i := i + 1;
      }
      if old(lastIndex) < |s| {
        ScanSkips(s, old(lastIndex), |s|);
      }
      lastIndex := 0;
      return None;
    }
  }

  /** A leading stretch without `{` is copied as it is. */
  lemma {:induction false} ConvertLiteralPrefix(a: string, rest: string)
    requires '{' !in a
    ensures ConvertUrl(a + rest) == a + ConvertUrl(rest)
    decreases |a|
  {
    if a == [] {
      assert a + rest == rest;
    } else {
      var s := a + rest;
      assert a == [a[0]] + a[1..];
      assert s[0] == a[0] && s[1..] == a[1..] + rest;
      assert MatchAt(s, 0).None?;
      ConvertLiteralPrefix(a[1..], rest);
    }
  }

  /** A leading stretch without `{` adds no name. */
  lemma {:induction false} ScanLiteralPrefix(a: string, rest: string)
    requires '{' !in a
    ensures Placeholders(a + rest) == Placeholders(rest)
    decreases |a|
  {
    if a == [] {
      assert a + rest == rest;
    } else {
      var s := a + rest;
      assert a == [a[0]] + a[1..];
      assert s[0] == a[0] && s[1..] == a[1..] + rest;
      assert MatchAt(s, 0).None?;
      ScanLiteralPrefix(a[1..], rest);
    }
  }

  /** A leading `{n}` with a word-character name `n` is a match that ends right after its `}`. */
  lemma PlaceholderPrefix(p: string, n: string, rest: string)
    requires p == "{" + n + "}"
    requires n != [] && forall k :: 0 <= k < |n| ==> IsWordChar(n[k])
    ensures MatchAt(p + rest, 0) == Some(|p|)
    ensures NameAt(p + rest, 0, |p|) == n && (p + rest)[|p|..] == rest
  {
    var s := p + rest;
    forall k | 0 < k < |p| - 1
      ensures IsWordChar(s[k])
    {
      assert s[k] == n[k - 1];
    }
    MatchAtComplete(s, 0, |p|);
  }

  /** A leading placeholder `p`, that is `{n}` with a word-character name `n`, becomes `q`, that is `:n`. */
  lemma ConvertPlaceholderPrefix(p: string, q: string, n: string, rest: string)
    requires p == "{" + n + "}" && q == ":" + n
    requires n != [] && forall k :: 0 <= k < |n| ==> IsWordChar(n[k])
    ensures ConvertUrl(p + rest) == q + ConvertUrl(rest)
  {
    PlaceholderPrefix(p, n, rest);
  }

  /** A leading placeholder `{n}` with a word-character name `n` reports `n`. */
  lemma ScanPlaceholderPrefix(p: string, n: string, rest: string)
    requires p == "{" + n + "}"
    requires n != [] && forall k :: 0 <= k < |n| ==> IsWordChar(n[k])
    ensures Placeholders(p + rest) == [n] + Placeholders(rest)
  {
    PlaceholderPrefix(p, n, rest);
  }

  /** The placeholders of the test templates, `{name}` and the rest, spelled out. */
  lemma TestPlaceholder(p: string, q: string, n: string)
    requires || (n == "name" && p == "{name}" && q == ":name")
             || (n == "version" && p == "{version}" && q == ":version")
             || (n == "cool" && p == "{cool}" && q == ":cool")
    ensures p == "{" + n + "}" && q == ":" + n
    ensures n != [] && forall k :: 0 <= k < |n| ==> IsWordChar(n[k])
  {
  }

  /** The first example the project's own tests check: `/v1/hi/{name}` becomes `/v1/hi/:name`. */
  lemma ConvertUrlSingleExample(url: string)
    requires url == "/v1/hi/" + "{name}"
    ensures ConvertUrl(url) == "/v1/hi/" + ":name"
  {
    assert "{name}" == "{name}" + "";
    assert ":name" == ":name" + "";
    TestPlaceholder("{name}", ":name", "name");
    ConvertPlaceholderPrefix("{name}", ":name", "name", "");
    ConvertLiteralPrefix("/v1/hi/", "{name}");
  }

  /** The names `getParamsList` finds in the first example: just `name`. */
  lemma PlaceholdersSingleExample(url: string)
    requires url == "/v1/hi/" + "{name}"
    ensures Placeholders(url) == ["name"]
  {
    assert "{name}" == "{name}" + "";
    TestPlaceholder("{name}", ":name", "name");
    ScanPlaceholderPrefix("{name}", "name", "");
    ScanLiteralPrefix("/v1/hi/", "{name}");
  }

  /** The second example the project's own tests check: every placeholder of `/{version}/hi/{name}/{cool}` is rewritten. */
  lemma ConvertUrlManyExample(url: string)
    requires url == "/" + ("{version}" + ("/hi/" + ("{name}" + ("/" + "{cool}"))))
    ensures ConvertUrl(url) == "/" + (":version" + ("/hi/" + (":name" + ("/" + ":cool"))))
  {
    var t4 := "/" + "{cool}";
    var t3 := "{name}" + t4;
    var t2 := "/hi/" + t3;
    var t1 := "{version}" + t2;
    assert "{cool}" == "{cool}" + "" && ":cool" == ":cool" + "";
    TestPlaceholder("{cool}", ":cool", "cool");
    ConvertPlaceholderPrefix("{cool}", ":cool", "cool", "");
    ConvertLiteralPrefix("/", "{cool}");
    TestPlaceholder("{name}", ":name", "name");
    ConvertPlaceholderPrefix("{name}", ":name", "name", t4);
    ConvertLiteralPrefix("/hi/", t3);
    TestPlaceholder("{version}", ":version", "version");
    ConvertPlaceholderPrefix("{version}", ":version", "version", t2);
    ConvertLiteralPrefix("/", t1);
  }

  /** The names of the second example, in template order. */
  lemma PlaceholdersManyExample(url: string)
    requires url == "/" + ("{version}" + ("/hi/" + ("{name}" + ("/" + "{cool}"))))
    ensures Placeholders(url) == ["version", "name", "cool"]
  {
    var t4 := "/" + "{cool}";
    var t3 := "{name}" + t4;
    var t2 := "/hi/" + t3;
    var t1 := "{version}" + t2;
    assert "{cool}" == "{cool}" + "";
    TestPlaceholder("{cool}", ":cool", "cool");
    ScanPlaceholderPrefix("{cool}", "cool", "");
    ScanLiteralPrefix("/", "{cool}");
    TestPlaceholder("{name}", ":name", "name");
    ScanPlaceholderPrefix("{name}", "name", t4);
    ScanLiteralPrefix("/hi/", t3);
    TestPlaceholder("{version}", ":version", "version");
    ScanPlaceholderPrefix("{version}", "version", t2);
    ScanLiteralPrefix("/", t1);
  }

  /** A dotted placeholder is not one: `{a.b}` has no match, and the template stays as it is. */
  lemma DottedPlaceholderKept(url: string)
    requires url == "/v1/" + "{a.b}"
    ensures Placeholders(url) == []
    ensures ConvertUrl(url) == url
  {
    var u := "{a.b}";
    assert IsWordChar(u[1]) && !IsWordChar(u[2]);
    assert WordRunEnd(u, 1) == 2;
    assert MatchAt(u, 0).None?;
    assert u[1..] == "a.b}" + "";
    ScanLiteralPrefix("a.b}", "");
    ScanLiteralPrefix("/v1/", u);
    NoPlaceholdersUnchanged(url);
  }
}
