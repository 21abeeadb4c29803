/**
 * `fServerRequestHandler.is_cgi` and `is_python` of test-server.py: whether a
 * request URL names a CGI script, and if so the `(dir, rest)` pair that
 * `run_cgi` later takes apart; and when one of the texts `is_cgi` logs on the
 * way makes `log_message` raise.
 */
module CgiPaths {
  import opened Wrappers
  import opened PyStr
  import opened PosixPath
  import opened PyFormat

  /** `cgi_directories` as inherited from `CGIHTTPRequestHandler`. */
  const CgiDirectories: seq<string> := ["/cgi-bin", "/htbin"]

  /** `re.sub("%", "%%", url)`. */
  function EscapePercent(s: string): string {
    ReplaceChar(s, '%', "%%")
  }

  // ---------------------------------------------------------------------
  // The four rules, in the order is_cgi tries them.
  // ---------------------------------------------------------------------

  /**
   * Rule 1 for one directory `x` (test-server.py:62-66): the unescaped URL
   * starts with `x`, and the escaped one ends there or has a `/` next.
   */
  predicate DirMatches(fullUrl: string, path: string, x: string) {
    Slice(fullUrl, 0, |x|) == x && (|path| <= |x| || path[|x|] == '/')
  }

  /** `(path[:i], path[i+1:])` for `i = len(x)`. */
  function DirInfo(path: string, x: string): (string, string) {
    (Slice(path, 0, |x|), Slice(path, |x| + 1, |path|))
  }

  /** Rule 1: the first directory in `dirs` that the URL falls under. */
  function DirRule(dirs: seq<string>, fullUrl: string): (r: Option<(string, string)>)
    ensures r.None? <==> forall k :: 0 <= k < |dirs| ==> !DirMatches(fullUrl, EscapePercent(fullUrl), dirs[k])
  {
    var path := EscapePercent(fullUrl);
    if |dirs| == 0 then None
    else if DirMatches(fullUrl, path, dirs[0]) then Some(DirInfo(path, dirs[0]))
    else
      var r := DirRule(dirs[1..], fullUrl);
      assert forall k :: 1 <= k < |dirs| ==> dirs[k] == dirs[1..][k - 1];
      r
  }

  /** `"/" + e` for each element, concatenated: what the scan loop collects in `dirpart`. */
  function DirPart(elements: seq<string>): string
    decreases |elements|
  {
    if |elements| == 0 then "" else DirPart(elements[..|elements| - 1]) + "/" + elements[|elements| - 1]
  }

  /** A path element naming a script. */
  predicate IsScript(element: string) {
    EndsWith(element, ".py")
  }

  /** The first element ending in `.py`. */
  function FirstScript(elements: seq<string>): (i: Option<nat>)
    ensures i.Some? ==> (i.value < |elements| && IsScript(elements[i.value])
      && forall j :: 0 <= j < i.value ==> !IsScript(elements[j]))
    ensures i.None? ==> forall j :: 0 <= j < |elements| ==> !IsScript(elements[j])
  {
    if |elements| == 0 then None
    else if IsScript(elements[0]) then Some(0)
    else match FirstScript(elements[1..])
      case None => None
      case Some(k) => Some(k + 1)
  }

  /** The first element ending in `.py` is the one `FirstScript` finds. */
  lemma {:induction false} FirstScriptIs(elements: seq<string>, i: nat)
    requires i < |elements| && IsScript(elements[i])
    requires forall j :: 0 <= j < i ==> !IsScript(elements[j])
    ensures FirstScript(elements) == Some(i)
    decreases i
  {
    if i > 0 {
      assert !IsScript(elements[0]);
      forall j | 0 <= j < i - 1 ensures !IsScript(elements[1..][j]) {
        assert elements[1..][j] == elements[j + 1];
      }
      FirstScriptIs(elements[1..], i - 1);
    }
  }

  /** Rule 4 (test-server.py:97-110) on the directory part of the path. */
  function ScanRule(pathDir: string, query: string): Option<(string, string)> {
    var elements := Split(pathDir, '/');
    match FirstScript(elements)
    case None => None
    case Some(i) => Some((DirPart(elements[..i]), Join(elements[i..], "/") + "?" + query))
  }

  /**
   * `cgi_info` as `is_cgi` computes it, for the URL `fullUrl` whose parsed
   * path and query are `urlPath` and `query`; `None` when `is_cgi` says False.
   */
  function CgiInfoOf(dirs: seq<string>, fullUrl: string, urlPath: string, query: string): Option<(string, string)> {
    var dirRule := DirRule(dirs, fullUrl);
    if dirRule.Some? then dirRule
    else if EndsWith(urlPath, ".py") then
      Some((Dirname(urlPath), Basename(urlPath) + "?" + query))
    else if EndsWith(Dirname(urlPath), ".py") then
      var dirpart := Dirname(Dirname(urlPath));
      Some((dirpart, urlPath[|dirpart|..] + "?" + query))
    else ScanRule(Dirname(urlPath), query)
  }

  // ---------------------------------------------------------------------
  // What the rules mean.
  // ---------------------------------------------------------------------

  lemma EscapePercentPrefix(x: string, rest: string)
    requires '%' !in x
    ensures EscapePercent(x + rest) == x + EscapePercent(rest)
  {
    ReplaceCharAppend(x, rest, '%', "%%");
    ReplaceCharAbsent(x, '%', "%%");
  }

  /**
   * Rule 1: the directory part is the configured directory itself (none of
   * them holds a `%`), and the rest is what follows it and its `/` in the
   * escaped URL.
   */
  lemma {:induction false} DirRuleMeaning(dirs: seq<string>, fullUrl: string)
    requires forall k :: 0 <= k < |dirs| ==> '%' !in dirs[k]
    requires DirRule(dirs, fullUrl).Some?
    ensures var (d, rest) := DirRule(dirs, fullUrl).value;
      && d in dirs && StartsWith(fullUrl, d)
      && StartsWith(EscapePercent(fullUrl), d)
      && rest == Slice(EscapePercent(fullUrl), |d| + 1, |EscapePercent(fullUrl)|)
  {
    var path := EscapePercent(fullUrl);
    var x := dirs[0];
    if DirMatches(fullUrl, path, x) {
      assert StartsWith(fullUrl, x) by {
        assert Slice(fullUrl, 0, |x|) == x;
      }
      assert StartsWith(path, x) by {
        assert fullUrl == x + fullUrl[|x|..];
        EscapePercentPrefix(x, fullUrl[|x|..]);
      }
      assert DirRule(dirs, fullUrl).value == (x, Slice(path, |x| + 1, |path|)) by {
        assert Slice(path, 0, |x|) == x;
      }
    } else {
      DirRuleMeaning(dirs[1..], fullUrl);
    }
  }

  /** The configured directories hold no `%`, so rule 1 on them means what `DirRuleMeaning` says. */
  lemma CgiDirectoriesHaveNoPercent()
    ensures forall k :: 0 <= k < |CgiDirectories| ==> '%' !in CgiDirectories[k]
  {
    assert CgiDirectories[0] == "/cgi-bin" && CgiDirectories[1] == "/htbin";
  }

  /**
   * A URL under `/cgi-bin/` takes rule 1, and what follows the directory
   * reaches `cgi_info` escaped: every `%` in it comes out doubled.
   */
  lemma CgiBinRule(r: string)
    ensures DirRule(CgiDirectories, "/cgi-bin/" + r) == Some(("/cgi-bin", EscapePercent(r)))
  {
    var x := "/cgi-bin";
    var u := "/cgi-bin/" + r;
    assert x == CgiDirectories[0];
    assert u == x + ("/" + r);
    EscapePercentPrefix(x, "/" + r);
    EscapePercentPrefix("/", r);
    var path := EscapePercent(u);
    assert path == x + "/" + EscapePercent(r);
    assert Slice(u, 0, |x|) == x;
    assert path[|x|] == '/';
    assert DirMatches(u, path, x);
    assert Slice(path, |x| + 1, |path|) == EscapePercent(r);
  }

  /** Rule 3: the directory part is a prefix of the path, and the two together give the path back. */
  lemma DotPyDirRule(dirs: seq<string>, fullUrl: string, urlPath: string, query: string)
    requires DirRule(dirs, fullUrl).None? && !EndsWith(urlPath, ".py") && EndsWith(Dirname(urlPath), ".py")
    ensures var (d, rest) := CgiInfoOf(dirs, fullUrl, urlPath, query).value;
      && |d| <= |urlPath|
      && rest == urlPath[|d|..] + "?" + query
      && d + urlPath[|d|..] == urlPath
      && d == Dirname(Dirname(urlPath))
  {
  }

  /** `Dirname` and `Basename` of `a/b` when `b` holds no `/` and `a` does not end in one. */
  lemma DirnameOfJoin(a: string, b: string)
    requires '/' !in b && |a| > 0 && a[|a| - 1] != '/'
    ensures Dirname(a + "/" + b) == a && Basename(a + "/" + b) == b
  {
    var p := a + "/" + b;
    forall j | |a| < j < |p| ensures p[j] != '/' {
      assert p[j] == b[j - |a| - 1];
    }
    assert p[|a|] == '/';
    assert RFind(p, '/') == |a|;
    var head := p[..|a| + 1];
    assert head == a + "/";
    assert head[|a|] == '/' && head[..|a|] == a;
    assert !AllChar(head, '/') by {
      assert head[|a| - 1] != '/';
    }
  }

  /**
   * Rule 4: `dirpart` and the script part rebuild the directory of the path:
   * when the script is not the first element, `dirpart` minus its leading `/`,
   * a `/`, and the rest are the whole directory.
   */
  lemma {:induction false} ScanRuleReconstructs(pathDir: string, query: string)
    requires ScanRule(pathDir, query).Some?
    ensures var (d, rest) := ScanRule(pathDir, query).value;
      var i := FirstScript(Split(pathDir, '/')).value;
      var script := Join(Split(pathDir, '/')[i..], "/");
      && rest == script + "?" + query
      && (i == 0 ==> d == "" && script == pathDir)
      && (i > 0 ==> |d| > 0 && d[1..] + "/" + script == pathDir)
  {
    var elements := Split(pathDir, '/');
    var i := FirstScript(elements).value;
    JoinSplit(pathDir, '/');
    assert elements == elements[..i] + elements[i..];
    if i == 0 {
      assert elements[i..] == elements;
    } else {
      JoinAppend(elements[..i], elements[i..], "/");
      DirPartIsJoin(elements[..i]);
    }
  }

  /** `DirPart` is `/` followed by the `/`-join of the elements. */
  lemma {:induction false} DirPartIsJoin(elements: seq<string>)
    requires |elements| > 0
    ensures |DirPart(elements)| > 0 && DirPart(elements)[1..] == Join(elements, "/")
    ensures DirPart(elements) == "/" + Join(elements, "/")
    decreases |elements|
  {
    var n := |elements|;
    if n == 1 {
      assert DirPart(elements) == DirPart([]) + "/" + elements[0];
    } else {
      var init := elements[..n - 1];
      DirPartIsJoin(init);
      assert elements == init + [elements[n - 1]];
      JoinAppend(init, [elements[n - 1]], "/");
    }
  }

  lemma SplitOfThree(s: string, x: string)
    requires '/' !in s && '/' !in x
    ensures Split("/" + s + "/" + x, '/') == ["", s, x]
  {
    var elements := ["", s, x];
    assert Join([s, x], "/") == s + "/" + Join([x], "/");
    assert Join(elements, "/") == "" + "/" + Join([s, x], "/");
    assert Join(elements, "/") == "/" + s + "/" + x;
    assert forall k :: 0 <= k < |elements| ==> '/' !in elements[k];
    SplitJoin(elements, '/');
  }

  /**
   * The scan keeps only the directory of the path: from `/s.py/x/y` (after
   * rule 3 passes over it) it takes `s.py/x`, and the last component `y` is
   * not part of `cgi_info`.
   */
  lemma ScanDropsLastComponent(s: string, x: string, y: string, query: string)
    requires |s| > 0 && |x| > 0 && '/' !in s && '/' !in x && '/' !in y
    requires IsScript(s)
    ensures ScanRule(Dirname("/" + s + "/" + x + "/" + y), query) == Some(("/", s + "/" + x + "?" + query))
  {
    var pathDir := "/" + s + "/" + x;
    assert "/" + s + "/" + x + "/" + y == pathDir + "/" + y;
    assert pathDir[|pathDir| - 1] == x[|x| - 1];
    DirnameOfJoin(pathDir, y);
    SplitOfThree(s, x);
    var elements := ["", s, x];
    assert Split(Dirname("/" + s + "/" + x + "/" + y), '/') == elements;
    assert !IsScript("");
    FirstScriptIs(elements, 1);
    assert FirstScript(elements) == Some(1);
    assert DirPart([""]) == DirPart([]) + "/" + "";
    assert elements[..1] == [""];
    assert DirPart(elements[..1]) == "/";
    assert elements[1..] == [s, x];
    assert Join([s, x], "/") == s + "/" + Join([x], "/");
    assert Join(elements[1..], "/") == s + "/" + x;
  }

  // ---------------------------------------------------------------------
  // The log lines of is_cgi.
  // ---------------------------------------------------------------------

  /** What `urlparse(self.path)` returns: the six fields its `str()` shows. */
  datatype Url = Url(scheme: string, netloc: string, path: string, params: string, query: string, fragment: string)

  /** `str(parts)`: the repr of the named tuple `ParseResult`. */
  function UrlRepr(u: Url): string {
    UrlReprHead(u) + Repr(u.path) + UrlReprTail(u)
  }

  /** The part of `str(parts)` before the path. */
  function UrlReprHead(u: Url): string {
    "ParseResult(scheme=" + Repr(u.scheme) + ", netloc=" + Repr(u.netloc) + ", path="
  }

  /** The part of `str(parts)` after the path. */
  function UrlReprTail(u: Url): string {
    ", params=" + Repr(u.params) + ", query=" + Repr(u.query) + ", fragment=" + Repr(u.fragment) + ")"
  }

  /** `str(self.cgi_info)`: the repr of a pair of strings. */
  function PairRepr(info: (string, string)): string {
    "(" + Repr(info.0) + ", " + Repr(info.1) + ")"
  }

  /** The text `log_message` gets at test-server.py:65: the URL with every `%` doubled. */
  function PathLog(fullUrl: string): string {
    "path=" + EscapePercent(fullUrl)
  }

  /** The text at test-server.py:77. */
  function PartsLog(u: Url): string {
    "parts=" + UrlRepr(u)
  }

  /** The text at test-server.py:83: the directory of the path, not escaped. */
  function DirnameLog(u: Url): string {
    "os.path.dirname(parts.path)=" + Dirname(u.path)
  }

  /** The text at test-server.py:80, 91 and 105. */
  function InfoLog(info: (string, string)): string {
    "cgi_info=" + PairRepr(info)
  }

  /**
   * Whether `is_cgi` raises: `log_message` applies `format % ()` to each text
   * it logs on the way, and one of them holds a `%` that is not a `%%`.  The
   * `cgi_info` line is reached only by a rule that found a script, and the
   * directory line only when rule 2 did not apply.
   */
  predicate IsCgiRaises(dirs: seq<string>, fullUrl: string, u: Url) {
    var info := CgiInfoOf(dirs, fullUrl, u.path, u.query);
    || FormatRaises(PathLog(fullUrl))
    || (&& DirRule(dirs, fullUrl).None?
        && (|| FormatRaises(PartsLog(u))
            || (!EndsWith(u.path, ".py") && FormatRaises(DirnameLog(u)))
            || (info.Some? && FormatRaises(InfoLog(info.value)))))
  }

  /** Whether `is_cgi` gets as far as assigning `self.cgi_info` (possibly raising just after). */
  predicate SetsCgiInfo(dirs: seq<string>, fullUrl: string, u: Url) {
    && CgiInfoOf(dirs, fullUrl, u.path, u.query).Some?
    && !FormatRaises(PathLog(fullUrl))
    && (|| DirRule(dirs, fullUrl).Some?
        || (!FormatRaises(PartsLog(u)) && (EndsWith(u.path, ".py") || !FormatRaises(DirnameLog(u)))))
  }

  lemma PathLogHasNoPercentPrefix()
    ensures '%' !in "path="
  {
  }

  /** The first log line never raises: that is what doubling every `%` (test-server.py:63-64) is for. */
  lemma PathLogNeverRaises(fullUrl: string)
    ensures !FormatRaises(PathLog(fullUrl))
  {
    PathLogHasNoPercentPrefix();
    PlainPrefix("path=", EscapePercent(fullUrl));
    DoubledNeverRaises(fullUrl);
  }

  /** Without a `%` in the path and the query, `cgi_info` has none either. */
  lemma InfoHasNoPercent(dirs: seq<string>, fullUrl: string, urlPath: string, query: string)
    requires DirRule(dirs, fullUrl).None? && '%' !in urlPath && '%' !in query
    requires CgiInfoOf(dirs, fullUrl, urlPath, query).Some?
    ensures var (d, rest) := CgiInfoOf(dirs, fullUrl, urlPath, query).value;
      '%' !in d && '%' !in rest
  {
    var pathDir := Dirname(urlPath);
    assert '%' !in pathDir by {
      assert pathDir == urlPath[..|pathDir|];
    }
    if EndsWith(urlPath, ".py") {
      var b := Basename(urlPath);
      assert b == urlPath[|urlPath| - |b|..];
    } else if EndsWith(pathDir, ".py") {
      var dirpart := Dirname(pathDir);
      assert dirpart == pathDir[..|dirpart|];
    } else {
      ScanRuleReconstructs(pathDir, query);
      var elements := Split(pathDir, '/');
      var i := FirstScript(elements).value;
      if i > 0 {
        DirPartIsJoin(elements[..i]);
      }
    }
  }

  lemma UrlHeadTextHasNoPercent()
    ensures '%' !in "parts=" && '%' !in "ParseResult(scheme=" && '%' !in ", netloc=" && '%' !in ", path="
  {
  }

  lemma UrlTailTextHasNoPercent()
    ensures '%' !in ", params=" && '%' !in ", query=" && '%' !in ", fragment=" && '%' !in ")"
  {
  }

  lemma InfoTextHasNoPercent()
    ensures '%' !in "os.path.dirname(parts.path)=" && '%' !in "cgi_info=" && '%' !in "(" && '%' !in ", "
  {
  }

  lemma PartsLogHasNoPercent(u: Url)
    requires '%' !in u.scheme && '%' !in u.netloc && '%' !in u.path
    requires '%' !in u.params && '%' !in u.query && '%' !in u.fragment
    ensures '%' !in PartsLog(u)
  {
    UrlHeadTextHasNoPercent();
    UrlTailTextHasNoPercent();
    ReprKeepsPercent(u.scheme);
    ReprKeepsPercent(u.netloc);
    ReprKeepsPercent(u.path);
    ReprKeepsPercent(u.params);
    ReprKeepsPercent(u.query);
    ReprKeepsPercent(u.fragment);
    assert '%' !in UrlReprHead(u);
    assert '%' !in UrlReprTail(u);
  }

  lemma InfoLogHasNoPercent(info: (string, string))
    requires '%' !in info.0 && '%' !in info.1
    ensures '%' !in InfoLog(info)
  {
    InfoTextHasNoPercent();
    ReprKeepsPercent(info.0);
    ReprKeepsPercent(info.1);
  }

  lemma DirnameLogHasNoPercent(u: Url)
    requires '%' !in u.path
    ensures '%' !in DirnameLog(u)
  {
    InfoTextHasNoPercent();
    assert Dirname(u.path) == u.path[..|Dirname(u.path)|];
  }

  /**
   * A URL whose parts hold no `%` logs nothing that raises, so `is_cgi`
   * answers as `CgiInfoOf` says.
   */
  lemma PercentFreeUrlNeverRaises(dirs: seq<string>, fullUrl: string, u: Url)
    requires '%' !in u.scheme && '%' !in u.netloc && '%' !in u.path
    requires '%' !in u.params && '%' !in u.query && '%' !in u.fragment
    ensures !IsCgiRaises(dirs, fullUrl, u)
    ensures SetsCgiInfo(dirs, fullUrl, u) <==> CgiInfoOf(dirs, fullUrl, u.path, u.query).Some?
  {
    PathLogNeverRaises(fullUrl);
    PartsLogHasNoPercent(u);
    PercentFreeNeverRaises(PartsLog(u));
    DirnameLogHasNoPercent(u);
    PercentFreeNeverRaises(DirnameLog(u));
    var info := CgiInfoOf(dirs, fullUrl, u.path, u.query);
    if DirRule(dirs, fullUrl).None? && info.Some? {
      InfoHasNoPercent(dirs, fullUrl, u.path, u.query);
      InfoLogHasNoPercent(info.value);
      PercentFreeNeverRaises(InfoLog(info.value));
    }
  }

  /**
   * When no directory matches, a `%` in the path followed, after any digits,
   * by a character that cannot end a `%%` (as in the percent-encoded space
   * of `/a%20b.py`) makes `is_cgi` raise at its `parts=` line, before
   * `cgi_info` is set, whichever rule would have matched.
   */
  lemma LonePercentInPathRaises(dirs: seq<string>, fullUrl: string, u: Url, a: string, width: string, c: char, b: string)
    requires DirRule(dirs, fullUrl).None?
    requires '%' !in u.scheme && '%' !in u.netloc && '%' !in a
    requires u.path == a + ("%" + (width + ([c] + b)))
    requires forall k :: 0 <= k < |width| ==> IsDigit(width[k])
    requires !InPercentLiteral(c)
    ensures FormatRaises(PartsLog(u))
    ensures IsCgiRaises(dirs, fullUrl, u) && !SetsCgiInfo(dirs, fullUrl, u)
  {
    UrlHeadTextHasNoPercent();
    ReprKeepsPercent(u.scheme);
    ReprKeepsPercent(u.netloc);
    var x := "parts=" + UrlReprHead(u);
    assert '%' !in x;
    ConcatAssoc("parts=", UrlReprHead(u) + Repr(u.path), UrlReprTail(u));
    ConcatAssoc("parts=", UrlReprHead(u), Repr(u.path));
    LonePercentInRepr(x, u.path, UrlReprTail(u), a, width, c, b);
  }

  /** No configured directory is a prefix of `/a%20b.py`. */
  lemma NoDirForEncodedScript()
    ensures DirRule(CgiDirectories, "/a%20b.py").None?
  {
    var u := "/a%20b.py";
    assert CgiDirectories[0] == "/cgi-bin" && CgiDirectories[1] == "/htbin";
    assert Slice(u, 0, 8)[1] == 'a';
    assert Slice(u, 0, 6)[1] == 'a';
  }

  lemma EncodedPathParts()
    ensures "/a%20b.py" == "/a" + ("%" + ("20" + (['b'] + ".py")))
    ensures EndsWith("/a%20b.py", ".py")
    ensures '%' !in "/a" && '%' !in "" && !InPercentLiteral('b')
    ensures forall k :: 0 <= k < |"20"| ==> IsDigit("20"[k])
  {
    assert "/a%20b.py"[6..] == ".py";
  }

  /**
   * `/a%20b.py` names a script by rule 2, yet `is_cgi` raises at the
   * `parts=` line: `%20b` is read as a conversion of width 20 that needs an
   * argument.
   */
  lemma EncodedScriptRaises()
    ensures var u := Url("", "", "/a%20b.py", "", "", "");
      && CgiInfoOf(CgiDirectories, "/a%20b.py", u.path, u.query).Some?
      && IsCgiRaises(CgiDirectories, "/a%20b.py", u)
      && !SetsCgiInfo(CgiDirectories, "/a%20b.py", u)
  {
    var u := Url("", "", "/a%20b.py", "", "", "");
    NoDirForEncodedScript();
    EncodedPathParts();
    LonePercentInPathRaises(CgiDirectories, "/a%20b.py", u, "/a", "20", 'b', ".py");
  }

  // ---------------------------------------------------------------------
  // is_python.
  // ---------------------------------------------------------------------

  /** `is_python(path)` (test-server.py:112-116). */
  predicate IsPython(path: string) {
    var ext := Lower(Splitext(path).1);
    ext == ".py" || ext == ".pyw"
  }

  /** Only a path ending in `.py` or `.pyw`, in any letter case, is Python. */
  lemma IsPythonSuffix(path: string)
    requires IsPython(path)
    ensures EndsWith(Lower(path), ".py") || EndsWith(Lower(path), ".pyw")
  {
    var (root, ext) := Splitext(path);
    LowerAppend(root, ext);
    var lp := Lower(path);
    assert lp == Lower(root) + Lower(ext);
    assert lp[|lp| - |Lower(ext)|..] == Lower(ext);
  }

  /** Lower-casing touches letters only, so an extension in lower case was one already. */
  lemma LowerKeepsExtension(e: string)
    requires |e| > 0 && Lower(e)[0] == '.' && '/' !in Lower(e) && '.' !in Lower(e)[1..]
    ensures e[0] == '.' && '/' !in e && '.' !in e[1..]
  {
    var le := Lower(e);
    forall k | 0 <= k < |e| ensures e[k] != '/' {
      assert le[k] != '/';
    }
    forall j | 0 <= j < |e| - 1 ensures e[1..][j] != '.' {
      assert le[1..][j] != '.' && le[1..][j] == le[j + 1];
      assert e[1..][j] == e[j + 1];
    }
  }

  /**
   * Conversely, any stem whose last component has something other than dots,
   * followed by `.py` or `.pyw` in any letter case, is Python.
   */
  lemma IsPythonOfStem(stem: string, ext: string)
    requires Lower(ext) == ".py" || Lower(ext) == ".pyw"
    requires !AllChar(Basename(stem), '.')
    ensures IsPython(stem + ext)
  {
    var le := Lower(ext);
    assert le[0] == '.' && '/' !in le && '.' !in le[1..];
    LowerKeepsExtension(ext);
    SplitextOfSuffix(stem, ext);
  }

  /** A component that is all dots before the extension is not a Python script: `.py` alone is a hidden file. */
  lemma HiddenFileIsNotPython()
    ensures !IsPython("/cgi-bin/.py")
  {
    var p := "/cgi-bin/.py";
    assert p[8] == '/' && p[9] == '.';
    assert RFind(p, '/') == 8;
    assert RFind(p, '.') == 9;
    assert Splitext(p) == (p, "");
  }

  // ---------------------------------------------------------------------
  // The handler object.
  // ---------------------------------------------------------------------

  class CgiHandler {
    /** `self.path`: the request URL as received. */
    const path: string
    const cgiDirectories: seq<string>
    /** `self.cgi_info`, absent until `is_cgi` has found a script. */
    var cgiInfo: Option<(string, string)>

    constructor (path: string)
      ensures this.path == path && cgiDirectories == CgiDirectories && cgiInfo.None?
    {
      this.path := path;
      cgiDirectories := CgiDirectories;
      cgiInfo := None;
    }

    /** The rule 4 loop: scan the elements of the directory for the script. */
    static method ScanForScript(pathDir: string, query: string) returns (found: Option<(string, string)>)
      ensures found == ScanRule(pathDir, query)
    {
      var dirpart := "";
      var elements := Split(pathDir, '/');
      var index := 0;
      while index < |elements|
        invariant 0 <= index <= |elements|
        invariant dirpart == DirPart(elements[..index])
        invariant forall j :: 0 <= j < index ==> !IsScript(elements[j])
      {
        if IsScript(elements[index]) {
          FirstScriptIs(elements, index);
          var rest := Join(elements[index..], "/");
          return Some((dirpart, rest + "?" + query));
        }
        assert elements[..index + 1][..index] == elements[..index];
        dirpart := dirpart + "/" + elements[index];
        index := index + 1;
      }
      return None;
    }

    /**
     * `is_cgi()` (test-server.py:46-110), given `urlparse(self.path)`.  Each
     * `log_message` call is the `FormatRaises` test of its text; `raised`
     * says that one of them raised, and then `found` is false.
     */
    method IsCgi(parts: Url) returns (found: bool, raised: bool)
      modifies this`cgiInfo
      ensures raised <==> IsCgiRaises(cgiDirectories, path, parts)
      ensures found <==> !raised && CgiInfoOf(cgiDirectories, path, parts.path, parts.query).Some?
      ensures cgiInfo == if SetsCgiInfo(cgiDirectories, path, parts)
                         then CgiInfoOf(cgiDirectories, path, parts.path, parts.query) else old(cgiInfo)
    {
      var escaped := EscapePercent(path);
      raised := FormatRaises("path=" + escaped);
      if raised {
        return false, true;
      }
      var k := 0;
      while k < |cgiDirectories|
        invariant 0 <= k <= |cgiDirectories|
        invariant DirRule(cgiDirectories[k..], path) == DirRule(cgiDirectories, path)
      {
        var x := cgiDirectories[k];
        if DirMatches(path, escaped, x) {
          cgiInfo := Some(DirInfo(escaped, x));
          return true, false;
        }
        assert cgiDirectories[k..][1..] == cgiDirectories[k + 1..];
        k := k + 1;
      }
      raised := FormatRaises("parts=" + UrlRepr(parts));
      if raised {
        return false, true;
      }
      if EndsWith(parts.path, ".py") {
        cgiInfo := Some((Dirname(parts.path), Basename(parts.path) + "?" + parts.query));
        raised := FormatRaises("cgi_info=" + PairRepr(cgiInfo.value));
        return !raised, raised;
      }
      var pathDir := Dirname(parts.path);
      raised := FormatRaises("os.path.dirname(parts.path)=" + pathDir);
      if raised {
        return false, true;
      }
      if EndsWith(pathDir, ".py") {
        var dirpart := Dirname(pathDir);
        var rest := parts.path[|dirpart|..];
        cgiInfo := Some((dirpart, rest + "?" + parts.query));
        raised := FormatRaises("cgi_info=" + PairRepr(cgiInfo.value));
        return !raised, raised;
      }
      var scanned := ScanForScript(pathDir, parts.query);
      if scanned.Some? {
        cgiInfo := scanned;
        raised := FormatRaises("cgi_info=" + PairRepr(cgiInfo.value));
        return !raised, raised;
      }
      return false, false;
    }
  }
}
