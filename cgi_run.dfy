/**
 * The pure parts of `run_cgi` in test-server.py: taking `cgi_info`'s rest
 * apart into script, extra path and query; the argument vector and the popen
 * command line; and the CGI environment with its `Accept` header and defaults.
 */
module CgiRun {
  import opened Wrappers
  import opened PyStr
  import opened PosixPath
  import opened CgiPaths

  // ---------------------------------------------------------------------
  // The split of `rest` (test-server.py:122-131).
  // ---------------------------------------------------------------------

  datatype CgiCall = CgiCall(script: string, extra: string, query: string)

  /** `rest.find('/')` and the split there. */
  function ScriptSplit(r: string, query: string): (c: CgiCall)
    ensures '/' !in c.script && (c.extra == "" || c.extra[0] == '/') && c.query == query
    ensures c.script + c.extra == r
  {
    var j := Find(r, '/');
    if j >= 0 then
      assert forall k :: 0 <= k < j ==> r[..j][k] == r[k];
      CgiCall(r[..j], r[j..], query)
    else CgiCall(r, "", query)
  }

  /** The query is after the last `?`; the script runs up to the first `/` before it. */
  function CgiSplit(rest: string): (c: CgiCall)
    ensures '/' !in c.script && '?' !in c.query
    ensures c.extra == "" || c.extra[0] == '/'
  {
    var i := RFind(rest, '?');
    if i >= 0 then
      var q := rest[i + 1..];
      assert '?' !in q by {
        assert forall k :: 0 <= k < |q| ==> q[k] == rest[i + 1 + k];
      }
      ScriptSplit(rest[..i], q)
    else ScriptSplit(rest, "")
  }

  /** The three parts put back together give `rest`. */
  lemma CgiSplitRecomposes(rest: string)
    ensures var c := CgiSplit(rest);
      rest == c.script + c.extra + (if '?' in rest then "?" + c.query else "")
  {
    var i := RFind(rest, '?');
    if i >= 0 {
      assert rest == rest[..i] + "?" + rest[i + 1..];
    }
  }

  /** Conversely, a script without `/`, an extra path starting with `/`, and a query without `?` come back out. */
  lemma CgiSplitOfParts(script: string, extra: string, query: string)
    requires '/' !in script && (extra == "" || extra[0] == '/') && '?' !in query
    ensures CgiSplit(script + extra + "?" + query) == CgiCall(script, extra, query)
  {
    var rest := script + extra + "?" + query;
    var n := |script + extra|;
    assert rest[n] == '?';
    forall k | n < k < |rest| ensures rest[k] != '?' {
      assert rest[k] == query[k - n - 1];
    }
    assert RFind(rest, '?') == n;
    var r := rest[..n];
    assert r == script + extra;
    if extra != "" {
      assert r[|script|] == '/';
      forall k | 0 <= k < |script| ensures r[k] != '/' {
        assert r[k] == script[k];
      }
      assert Find(r, '/') == |script|;
    } else {
      assert r == script;
    }
  }

  /**
   * With a `?` inside the query the split goes wrong: the query is only what
   * follows the last `?`, and the rest of it is taken as part of the script.
   */
  lemma QueryWithQuestionMark()
    ensures CgiSplit("a.py?x?y") == CgiCall("a.py?x", "", "y")
  {
    var script, query := "a.py?x", "y";
    assert script + "" + "?" + query == "a.py?x?y";
    assert CgiSplit(script + "" + "?" + query) == CgiCall(script, "", query) by {
      assert '/' !in script;
      CgiSplitOfParts(script, "", query);
    }
  }

  /** Rule 2 then the split: the script is the basename of the path, with no extra path. */
  lemma ScriptOfDotPyPath(dirs: seq<string>, fullUrl: string, urlPath: string, query: string)
    requires DirRule(dirs, fullUrl).None? && EndsWith(urlPath, ".py")
    requires '?' !in query && '?' !in Basename(urlPath)
    ensures CgiSplit(CgiInfoOf(dirs, fullUrl, urlPath, query).value.1) == CgiCall(Basename(urlPath), "", query)
  {
    CgiSplitOfParts(Basename(urlPath), "", query);
    assert Basename(urlPath) + "" + "?" + query == Basename(urlPath) + "?" + query;
  }

  lemma DirnameOfTopLevel(s: string)
    requires '/' !in s
    ensures Dirname("/" + s) == "/"
  {
    var d := "/" + s;
    assert d[0] == '/';
    forall j | 0 < j < |d| ensures d[j] != '/' {
      assert d[j] == s[j - 1];
    }
    assert RFind(d, '/') == 0;
    assert d[..1] == "/";
  }

  lemma EndsWithAfter(a: string, b: string, suffix: string)
    requires EndsWith(b, suffix)
    ensures EndsWith(a + b, suffix)
  {
    assert (a + b)[|a + b| - |suffix|..] == b[|b| - |suffix|..];
  }

  lemma NotDotPyAfterSlash(a: string, page: string)
    requires '/' !in page && !EndsWith(page, ".py")
    ensures !EndsWith(a + "/" + page, ".py")
  {
    var p := a + "/" + page;
    if |page| >= 3 {
      assert p[|p| - 3..] == page[|page| - 3..];
    } else if |p| >= 3 {
      assert p[|p| - 3..][2 - |page|] == '/';
    }
  }

  /** Rule 3 on `/s.py/page`: the directory part is `/` and the rest is `s.py/page`. */
  lemma TopLevelScriptDirInfo(dirs: seq<string>, fullUrl: string, s: string, page: string, query: string)
    requires DirRule(dirs, fullUrl).None?
    requires |s| > 0 && '/' !in s && IsScript(s)
    requires '/' !in page && !EndsWith(page, ".py")
    ensures CgiInfoOf(dirs, fullUrl, "/" + s + "/" + page, query) == Some(("/", s + "/" + page + "?" + query))
  {
    var urlPath := "/" + s + "/" + page;
    assert urlPath == ("/" + s) + "/" + page;
    assert ("/" + s)[|"/" + s| - 1] == s[|s| - 1];
    assert s[|s| - 1] == 'y';
    DirnameOfJoin("/" + s, page);
    NotDotPyAfterSlash("/" + s, page);
    EndsWithAfter("/", s, ".py");
    DirnameOfTopLevel(s);
    assert urlPath[1..] == s + "/" + page;
  }

  /** Rule 3 then the split on `/s.py/page`: script `s.py`, extra path `/page`. */
  lemma ScriptOfTopLevelScriptDir(s: string, page: string, query: string)
    requires '/' !in s && '/' !in page && '?' !in query
    ensures CgiSplit(s + "/" + page + "?" + query) == CgiCall(s, "/" + page, query)
  {
    var extra := "/" + page;
    var whole := s + "/" + page + "?" + query;
    assert whole == s + extra + "?" + query;
    assert extra[0] == '/';
    CgiSplitOfParts(s, extra, query);
  }

  /**
   * A `rest` that starts with `/` splits into an empty script name and keeps
   * all of itself as the extra path.  Rule 3 leaves such a `rest` one
   * directory down: for `/d/s.py/page` it is `/s.py/page`.
   */
  lemma NestedScriptDirGivesEmptyScript(rest: string, query: string)
    requires |rest| > 0 && rest[0] == '/' && '?' !in rest && '?' !in query
    ensures CgiSplit(rest + "?" + query) == CgiCall("", rest, query)
  {
    CgiSplitOfParts("", rest, query);
    assert "" + rest + "?" + query == rest + "?" + query;
  }

  // ---------------------------------------------------------------------
  // Arguments and command line (test-server.py:207-215, 252-260, 301-303).
  // ---------------------------------------------------------------------

  /** `query.replace('+', ' ')`. */
  function DecodedQuery(query: string): (d: string)
    ensures '+' !in d && |d| == |query|
    ensures '=' in d <==> '=' in query
    ensures forall i :: 0 <= i < |query| ==> d[i] == if query[i] == '+' then ' ' else query[i]
  {
    ReplaceCharRemoves(query, '+', " ");
    ReplaceCharKeeps(query, '+', " ", '=');
    ReplaceCharPointwise(query, '+', ' ');
    ReplaceChar(query, '+', " ")
  }

  /**
   * The argument vector: the script (or the script file, when the script
   * runs in-process) and then the decoded query, unless it holds an `=`.
   */
  function Argv(first: string, query: string): (argv: seq<string>)
    ensures |argv| == (if '=' in query then 1 else 2) && argv[0] == first
    ensures |argv| == 2 ==> argv[1] == DecodedQuery(query) && '+' !in argv[1] && '=' !in argv[1]
  {
    var decoded := DecodedQuery(query);
    [first] + (if '=' !in decoded then [decoded] else [])
  }

  /** `pythonw.exe` is run as `python.exe`: the `w` before `.exe` is dropped. */
  function Interpreter(interp: string): (r: string)
    ensures EndsWith(Lower(interp), "w.exe") ==> |r| == |interp| - 1 && r == interp[..|interp| - 5] + interp[|interp| - 4..]
    ensures !EndsWith(Lower(interp), "w.exe") ==> r == interp
  {
    if EndsWith(Lower(interp), "w.exe") then TailSliceBefore(interp, 5) + TailSlice(interp, 4) else interp
  }

  /** Any spelling of `w.exe` at the end loses its `w`, and only that: `pythonw.exe` runs as `python.exe`. */
  lemma InterpreterDropsW(stem: string, tail: string)
    requires |tail| == 5 && Lower(tail) == "w.exe"
    ensures Interpreter(stem + tail) == stem + tail[1..]
  {
    var x := stem + tail;
    LowerAppend(stem, tail);
    assert Lower(x)[|x| - 5..] == Lower(tail);
    assert x[..|x| - 5] == stem && x[|x| - 4..] == tail[1..];
  }

  /** Python's `s[:-k]` for `0 < k <= len(s)`. */
  function TailSliceBefore(s: string, k: nat): (r: string)
    requires 0 < k <= |s|
    ensures r == s[..|s| - k]
  {
    s[..|s| - k]
  }

  /** The command line handed to popen (test-server.py:252-260). */
  function PopenCmdline(scriptfile: string, interp: string, query: string): (cmd: string)
    ensures var base := if IsPython(scriptfile) then Interpreter(interp) + " -u \"" + scriptfile + "\"" else scriptfile;
      && StartsWith(cmd, base)
      && ('=' !in query && '"' !in query ==> cmd == base + " \"" + query + "\"")
      && ('=' in query || '"' in query ==> cmd == base)
  {
    var cmdline := if IsPython(scriptfile) then Interpreter(interp) + " -u \"" + scriptfile + "\"" else scriptfile;
    if '=' !in query && '"' !in query then cmdline + " \"" + query + "\"" else cmdline
  }

  /** The query appended to the command line can be read back out of its quotes. */
  lemma PopenQueryRecoverable(scriptfile: string, interp: string, query: string)
    requires '=' !in query && '"' !in query
    ensures var cmd := PopenCmdline(scriptfile, interp, query);
      && |cmd| >= |query| + 3
      && cmd[|cmd| - |query| - 3..] == " \"" + query + "\""
      && cmd[|cmd| - |query| - 1..|cmd| - 1] == query
  {
  }

  // ---------------------------------------------------------------------
  // The environment (test-server.py:163-204).
  // ---------------------------------------------------------------------

  /** `line[:1] in "\t\n\r "`: also true of an empty line. */
  predicate IsContinuation(line: string) {
    |line| == 0 || line[0] in {'\t', '\n', '\r', ' '}
  }

  /** What one raw `Accept` header line contributes to the list. */
  function AcceptItemsOf(line: string): (items: seq<string>)
    ensures |items| >= 1
  {
    if IsContinuation(line) then [Strip(line)] else Split(Slice(line, 7, |line|), ',')
  }

  /** The `accept` list after the loop over the raw header lines. */
  function AcceptItems(lines: seq<string>): (items: seq<string>)
    ensures |items| >= |lines|
    decreases |lines|
  {
    if |lines| == 0 then []
    else AcceptItems(lines[..|lines| - 1]) + AcceptItemsOf(lines[|lines| - 1])
  }

  /** The value a raw header line carries: stripped when it continues a header, after `Accept: ` otherwise. */
  function HeaderValue(line: string): string {
    if IsContinuation(line) then Strip(line) else Slice(line, 7, |line|)
  }

  lemma AcceptItemsOfJoin(line: string)
    ensures Join(AcceptItemsOf(line), ",") == HeaderValue(line)
  {
    if !IsContinuation(line) {
      JoinSplit(Slice(line, 7, |line|), ',');
    }
  }

  /**
   * Splitting on `,` and joining on `,` again loses nothing: `HTTP_ACCEPT` is
   * the header values joined by `,`.
   */
  lemma {:induction false} AcceptJoinsValues(lines: seq<string>)
    ensures Join(AcceptItems(lines), ",")
         == Join(seq(|lines|, i requires 0 <= i < |lines| => HeaderValue(lines[i])), ",")
    decreases |lines|
  {
    var values := seq(|lines|, i requires 0 <= i < |lines| => HeaderValue(lines[i]));
    if |lines| > 0 {
      var n := |lines|;
      var init := lines[..n - 1];
      var initValues := seq(|init|, i requires 0 <= i < |init| => HeaderValue(init[i]));
      AcceptItemsOfJoin(lines[n - 1]);
      assert values == initValues + [HeaderValue(lines[n - 1])];
      if n == 1 {
        assert AcceptItems(lines) == AcceptItemsOf(lines[0]);
      } else {
        AcceptJoinsValues(init);
        JoinAppend(AcceptItems(init), AcceptItemsOf(lines[n - 1]), ",");
        JoinAppend(initValues, [HeaderValue(lines[n - 1])], ",");
      }
    }
  }

  lemma AcceptItemsStep(lines: seq<string>, i: nat)
    requires i < |lines|
    ensures AcceptItems(lines[..i + 1]) == AcceptItems(lines[..i]) + AcceptItemsOf(lines[i])
  {
    assert lines[..i + 1][..i] == lines[..i];
  }

  /** The Accept loop (test-server.py:186-192). */
  method AssembleAccept(lines: seq<string>) returns (value: string)
    ensures value == Join(AcceptItems(lines), ",")
  {
    var accept: seq<string> := [];
    var i := 0;
    while i < |lines|
      invariant 0 <= i <= |lines|
      invariant accept == AcceptItems(lines[..i])
    {
      var line := lines[i];
      AcceptItemsStep(lines, i);
      if IsContinuation(line) {
        accept := accept + [Strip(line)];
      } else {
        accept := accept + Split(Slice(line, 7, |line|), ',');
      }
      i := i + 1;
    }
    assert lines[..i] == lines;
    value := Join(accept, ",");
  }

  /** `filter(None, cookies)`: the non-empty ones, in order. */
  function NonEmpty(xs: seq<string>): (r: seq<string>)
    ensures forall k :: 0 <= k < |r| ==> r[k] != "" && r[k] in xs
    ensures forall x :: x in xs && x != "" ==> x in r
    ensures |r| <= |xs|
  {
    if |xs| == 0 then []
    else (if xs[0] != "" then [xs[0]] else []) + NonEmpty(xs[1..])
  }

  /**
   * Filtering works header by header: it distributes over concatenation and
   * keeps a single header exactly when it is non-empty, so the kept headers
   * keep their order and their repetitions.
   */
  lemma {:induction false} NonEmptyAppend(a: seq<string>, b: seq<string>)
    ensures NonEmpty(a + b) == NonEmpty(a) + NonEmpty(b)
    ensures |a| == 1 ==> NonEmpty(a) == if a[0] == "" then [] else [a[0]]
    decreases |a|
  {
    if |a| == 0 {
      assert a + b == b;
    } else {
      assert (a + b)[1..] == a[1..] + b;
      NonEmptyAppend(a[1..], b);
      if |a| == 1 {
        assert a[1..] == [];
      }
    }
  }

  /** The variables `run_cgi` puts in the CGI environment. */
  datatype EnvVar =
    | ServerSoftware | ServerName | GatewayInterface | ServerProtocol | ServerPort
    | RequestMethod | PathInfo | PathTranslated | ScriptName | QueryString
    | RemoteHost | RemoteAddr | ContentType | ContentLength | HttpAccept
    | HttpUserAgent | HttpCookie

  /** The name each variable has in the environment. */
  function VarName(v: EnvVar): string {
    match v
    case ServerSoftware => "SERVER_SOFTWARE"
    case ServerName => "SERVER_NAME"
    case GatewayInterface => "GATEWAY_INTERFACE"
    case ServerProtocol => "SERVER_PROTOCOL"
    case ServerPort => "SERVER_PORT"
    case RequestMethod => "REQUEST_METHOD"
    case PathInfo => "PATH_INFO"
    case PathTranslated => "PATH_TRANSLATED"
    case ScriptName => "SCRIPT_NAME"
    case QueryString => "QUERY_STRING"
    case RemoteHost => "REMOTE_HOST"
    case RemoteAddr => "REMOTE_ADDR"
    case ContentType => "CONTENT_TYPE"
    case ContentLength => "CONTENT_LENGTH"
    case HttpAccept => "HTTP_ACCEPT"
    case HttpUserAgent => "HTTP_USER_AGENT"
    case HttpCookie => "HTTP_COOKIE"
  }

  /** The variables given an empty value when the request left them unset. */
  const DefaultKeys: seq<EnvVar> := [QueryString, RemoteHost, ContentLength, HttpUserAgent, HttpCookie]

  /** The value of `k` in `env`, `None` while it is unset. */
  function Get(env: map<EnvVar, string>, k: EnvVar): Option<string> {
    if k in env then Some(env[k]) else None
  }

  /** `k` is one of `DefaultKeys`. */
  predicate IsDefault(k: EnvVar) {
    k.QueryString? || k.RemoteHost? || k.ContentLength? || k.HttpUserAgent? || k.HttpCookie?
  }

  /** What the `setdefault` loop leaves for `k`: an empty value for an unset default variable. */
  function WithDefault(v: Option<string>, k: EnvVar): Option<string> {
    if v.None? && IsDefault(k) then Some("") else v
  }

  /** The `env.setdefault(k, "")` loop (test-server.py:202-204). */
  method SetDefaults(env: map<EnvVar, string>) returns (r: map<EnvVar, string>)
    ensures forall k :: Get(r, k) == WithDefault(Get(env, k), k)
    ensures forall k :: k in env ==> k in r && r[k] == env[k]
    ensures forall k :: IsDefault(k) ==> k in r
    ensures forall k :: k in r && k !in env ==> IsDefault(k) && r[k] == ""
  {
    r := env;
    var i := 0;
    while i < |DefaultKeys|
      invariant 0 <= i <= |DefaultKeys|
      invariant forall k :: Get(r, k) == if Get(env, k).None? && k in DefaultKeys[..i] then Some("") else Get(env, k)
    {
      if DefaultKeys[i] !in r {
        r := r[DefaultKeys[i] := ""];
      }
      assert DefaultKeys[..i + 1] == DefaultKeys[..i] + [DefaultKeys[i]];
      i := i + 1;
    }
    assert DefaultKeys[..i] == DefaultKeys;
    assert forall k :: k in DefaultKeys <==> IsDefault(k);
    forall k ensures (k in env ==> k in r && r[k] == env[k]) && (IsDefault(k) ==> k in r)
      && (k in r && k !in env ==> IsDefault(k) && r[k] == "") {
      assert Get(r, k) == WithDefault(Get(env, k), k);
    }
  }

  /**
   * What `run_cgi` reads from the server, the connection and the request
   * headers to build the environment; `urllib.unquote` and `translate_path`
   * are applied by the caller.
   */
  datatype CgiContext = CgiContext(
    serverSoftware: string,   // self.version_string()
    serverName: string,
    serverProtocol: string,
    serverPort: string,       // str(self.server.server_port)
    command: string,
    urlQuery: string,         // parts.query
    unquotedPath: string,     // urllib.unquote(parts.path)
    translatedPath: string,   // self.translate_path(unquoted path)
    host: string,             // self.address_string()
    clientAddr: string,       // self.client_address[0]
    typeHeader: Option<string>,
    contentType: string,      // self.headers.type
    contentLength: string,    // "" when the header is absent
    acceptLines: seq<string>, // getallmatchingheaders('accept')
    userAgent: string,        // "" when the header is absent
    cookies: seq<string>)

  /** What the server part (test-server.py:160-175) sets each variable to, `None` for those it leaves unset. */
  function ServerValue(ctx: CgiContext, scriptName: string, k: EnvVar): Option<string> {
    match k
    case ServerSoftware => Some(ctx.serverSoftware)
    case ServerName => Some(ctx.serverName)
    case GatewayInterface => Some("CGI/1.1")
    case ServerProtocol => Some(ctx.serverProtocol)
    case ServerPort => Some(ctx.serverPort)
    case RequestMethod => Some(ctx.command)
    case PathInfo => Some(ctx.unquotedPath)
    case PathTranslated => Some(ctx.translatedPath)
    case ScriptName => Some(scriptName)
    case QueryString => if ctx.urlQuery != "" then Some(ctx.urlQuery) else None
    case RemoteHost => if ctx.host != ctx.clientAddr then Some(ctx.host) else None
    case RemoteAddr => Some(ctx.clientAddr)
    case _ => None
  }

  method ServerEnv(ctx: CgiContext, scriptName: string) returns (env: map<EnvVar, string>)
    ensures forall k :: Get(env, k) == ServerValue(ctx, scriptName, k)
  {
    env := map[];
    env := env[ServerSoftware := ctx.serverSoftware];
    env := env[ServerName := ctx.serverName];
    env := env[GatewayInterface := "CGI/1.1"];
    env := env[ServerProtocol := ctx.serverProtocol];
    env := env[ServerPort := ctx.serverPort];
    env := env[RequestMethod := ctx.command];
    env := env[PathInfo := ctx.unquotedPath];
    env := env[PathTranslated := ctx.translatedPath];
    env := env[ScriptName := scriptName];
    if ctx.urlQuery != "" {
      env := env[QueryString := ctx.urlQuery];
    }
    if ctx.host != ctx.clientAddr {
      env := env[RemoteHost := ctx.host];
    }
    env := env[RemoteAddr := ctx.clientAddr];
  }

  /**
   * What the header part (test-server.py:179-200) makes of a variable that had
   * value `v`, given the assembled `accept` and the joined `cookie`, `None`
   * when no cookie is left.
   */
  function HeaderSet(v: Option<string>, ctx: CgiContext, accept: string, cookie: Option<string>, k: EnvVar)
    : Option<string>
  {
    match k
    case ContentType => Some(ctx.typeHeader.GetOr(ctx.contentType))
    case ContentLength => if ctx.contentLength != "" then Some(ctx.contentLength) else v
    case HttpAccept => Some(accept)
    case HttpUserAgent => if ctx.userAgent != "" then Some(ctx.userAgent) else v
    case HttpCookie => if cookie.Some? then cookie else v
    case _ => v
  }

  method HeaderEnv(env: map<EnvVar, string>, ctx: CgiContext, accept: string, cookie: Option<string>)
    returns (r: map<EnvVar, string>)
    ensures forall k :: Get(r, k) == HeaderSet(Get(env, k), ctx, accept, cookie, k)
  {
    r := env;
    if ctx.typeHeader.None? {
      r := r[ContentType := ctx.contentType];
    } else {
      r := r[ContentType := ctx.typeHeader.value];
    }
    if ctx.contentLength != "" {
      r := r[ContentLength := ctx.contentLength];
    }
    r := r[HttpAccept := accept];
    if ctx.userAgent != "" {
      r := r[HttpUserAgent := ctx.userAgent];
    }
    if cookie.Some? {
      r := r[HttpCookie := cookie.value];
    }
  }

  /**
   * What each variable holds once the environment is complete, given the
   * assembled Accept value `accept` and the joined cookie header `cookie`.
   */
  function FinalValue(ctx: CgiContext, scriptName: string, accept: string, cookie: string, k: EnvVar): string {
    match k
    case ServerSoftware => ctx.serverSoftware
    case ServerName => ctx.serverName
    case GatewayInterface => "CGI/1.1"
    case ServerProtocol => ctx.serverProtocol
    case ServerPort => ctx.serverPort
    case RequestMethod => ctx.command
    case PathInfo => ctx.unquotedPath
    case PathTranslated => ctx.translatedPath
    case ScriptName => scriptName
    case QueryString => ctx.urlQuery
    case RemoteHost => if ctx.host != ctx.clientAddr then ctx.host else ""
    case RemoteAddr => ctx.clientAddr
    case ContentType => ctx.typeHeader.GetOr(ctx.contentType)
    case ContentLength => ctx.contentLength
    case HttpAccept => accept
    case HttpUserAgent => ctx.userAgent
    case HttpCookie => cookie
  }

  /** The three stages set every variable, to its final value. */
  lemma StagesGiveFinalValue(ctx: CgiContext, scriptName: string, accept: string, cookie: Option<string>,
                             k: EnvVar)
    ensures WithDefault(HeaderSet(ServerValue(ctx, scriptName, k), ctx, accept, cookie, k), k)
         == Some(FinalValue(ctx, scriptName, accept, cookie.GetOr(""), k))
  {
  }

  /** The three stages of the `env` dictionary, once the Accept value and the cookie header are known. */
  method EnvFrom(ctx: CgiContext, scriptName: string, accept: string, cookie: Option<string>)
    returns (env: map<EnvVar, string>)
    ensures forall k :: k in env && env[k] == FinalValue(ctx, scriptName, accept, cookie.GetOr(""), k)
  {
    var server := ServerEnv(ctx, scriptName);
    var headers := HeaderEnv(server, ctx, accept, cookie);
    env := SetDefaults(headers);
    forall k ensures k in env && env[k] == FinalValue(ctx, scriptName, accept, cookie.GetOr(""), k) {
      StagesGiveFinalValue(ctx, scriptName, accept, cookie, k);
      assert Get(env, k) == WithDefault(Get(headers, k), k);
      assert Get(headers, k) == HeaderSet(Get(server, k), ctx, accept, cookie, k);
    }
  }

  /**
   * The `env` dictionary of `run_cgi` (test-server.py:160-204), keyed by
   * `VarName`: every variable is set, to its `FinalValue`.
   */
  method BuildEnv(ctx: CgiContext, scriptName: string) returns (env: map<EnvVar, string>)
    ensures forall k :: k in env && env[k] == FinalValue(ctx, scriptName, Join(AcceptItems(ctx.acceptLines), ","),
                                                         Join(NonEmpty(ctx.cookies), ", "), k)
  {
    var accept := AssembleAccept(ctx.acceptLines);
    var co := NonEmpty(ctx.cookies);
    var cookie := if co != [] then Some(Join(co, ", ")) else None;
    assert cookie.GetOr("") == Join(co, ", ");
    env := EnvFrom(ctx, scriptName, accept, cookie);
  }
}
