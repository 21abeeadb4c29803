/**
 * `req_class` of lcserver.py: the per-request output buffer.  The output is a
 * list of strings (`html`) printed line by line at the end, a `message`
 * accumulated for the footer, and a flag so that the page header goes out once.
 */
module LcRequest {
  import opened PyStr

  const HtmlHeader := "Content-type: text/html\n\n"
  const MessageTitle := "<h2>lcserver message(s):</h2>"
  const BodyEnd := "</body>"

  // ---------------------------------------------------------------------
  // Pure helpers of req_class.
  // ---------------------------------------------------------------------

  /** `html_escape` (lcserver.py:135-139): `&` first, then `<`, then `>`. */
  function HtmlEscape(s: string): string {
    ReplaceChar(ReplaceChar(ReplaceChar(s, '&', "&amp;"), '<', "&lt;"), '>', "&gt;")
  }

  /** The entity each character stands for after escaping. */
  function EscapeChar(c: char): string {
    if c == '&' then "&amp;" else if c == '<' then "&lt;" else if c == '>' then "&gt;" else [c]
  }

  /** Character-by-character escaping: the reference for `HtmlEscape`. */
  function EscapeEach(s: string): string {
    if |s| == 0 then "" else EscapeChar(s[0]) + EscapeEach(s[1..])
  }

  /** Decoding of the three entities, read from the left. */
  function Unescape(s: string): string
    decreases |s|
  {
    if |s| == 0 then ""
    else if StartsWith(s, "&amp;") then "&" + Unescape(s[5..])
    else if StartsWith(s, "&lt;") then "<" + Unescape(s[4..])
    else if StartsWith(s, "&gt;") then ">" + Unescape(s[4..])
    else [s[0]] + Unescape(s[1..])
  }

  lemma EscapeFirstChar(c: char)
    ensures HtmlEscape([c]) == EscapeChar(c)
  {
    ReplaceCharSingle(c, '&', "&amp;");
    if c == '&' {
      ReplaceCharAbsent("&amp;", '<', "&lt;");
      ReplaceCharAbsent("&amp;", '>', "&gt;");
    } else {
      ReplaceCharSingle(c, '<', "&lt;");
      if c == '<' {
        ReplaceCharAbsent("&lt;", '>', "&gt;");
      } else {
        ReplaceCharSingle(c, '>', "&gt;");
      }
    }
  }

  /** The three passes of `html_escape` amount to escaping each character once. */
  lemma {:induction false} HtmlEscapeIsEscapeEach(s: string)
    ensures HtmlEscape(s) == EscapeEach(s)
  {
    if |s| > 0 {
      var a, b := [s[0]], s[1..];
      assert s == a + b;
      ReplaceCharAppend(a, b, '&', "&amp;");
      var a1, b1 := ReplaceChar(a, '&', "&amp;"), ReplaceChar(b, '&', "&amp;");
      ReplaceCharAppend(a1, b1, '<', "&lt;");
      var a2, b2 := ReplaceChar(a1, '<', "&lt;"), ReplaceChar(b1, '<', "&lt;");
      ReplaceCharAppend(a2, b2, '>', "&gt;");
      EscapeFirstChar(s[0]);
      HtmlEscapeIsEscapeEach(b);
    }
  }

  /** A string that differs from `p` at some position inside both does not start with `p`. */
  lemma DiffersAt(s: string, p: string, i: nat)
    requires i < |s| && i < |p| && s[i] != p[i]
    ensures !StartsWith(s, p)
  {
    if |p| <= |s| {
      assert s[..|p|][i] == s[i];
    }
  }

  lemma UnescapeEscapeChar(c: char, rest: string)
    ensures Unescape(EscapeChar(c) + rest) == [c] + Unescape(rest)
  {
    var e := EscapeChar(c) + rest;
    if c == '&' {
      assert e[..5] == "&amp;" && e[5..] == rest;
    } else if c == '<' {
      DiffersAt(e, "&amp;", 1);
      assert e[..4] == "&lt;" && e[4..] == rest;
    } else if c == '>' {
      DiffersAt(e, "&amp;", 1);
      DiffersAt(e, "&lt;", 1);
      assert e[..4] == "&gt;" && e[4..] == rest;
    } else {
      DiffersAt(e, "&amp;", 0);
      DiffersAt(e, "&lt;", 0);
      DiffersAt(e, "&gt;", 0);
      assert e[1..] == rest;
    }
  }

  /** Escaping loses nothing: `Unescape` undoes it. */
  lemma {:induction false} UnescapeHtmlEscape(s: string)
    ensures Unescape(HtmlEscape(s)) == s
  {
    HtmlEscapeIsEscapeEach(s);
    UnescapeEscapeEach(s);
  }

  lemma {:induction false} UnescapeEscapeEach(s: string)
    ensures Unescape(EscapeEach(s)) == s
  {
    if |s| > 0 {
      UnescapeEscapeChar(s[0], EscapeEach(s[1..]));
      UnescapeEscapeEach(s[1..]);
      assert s == [s[0]] + s[1..];
    }
  }

  /** No angle bracket survives escaping. */
  lemma HtmlEscapeNoBrackets(s: string)
    ensures '<' !in HtmlEscape(s) && '>' !in HtmlEscape(s)
  {
    var t := ReplaceChar(ReplaceChar(s, '&', "&amp;"), '<', "&lt;");
    ReplaceCharRemoves(ReplaceChar(s, '&', "&amp;"), '<', "&lt;");
    ReplaceCharKeeps(t, '>', "&gt;", '<');
    ReplaceCharRemoves(t, '>', "&gt;");
  }

  lemma {:induction false} EscapeEachAppend(a: string, b: string)
    ensures EscapeEach(a + b) == EscapeEach(a) + EscapeEach(b)
  {
    if |a| > 0 {
      assert (a + b)[1..] == a[1..] + b;
      EscapeEachAppend(a[1..], b);
    } else {
      assert a + b == b;
    }
  }

  /**
   * An `&` is escaped even when it already starts an entity, so escaping twice
   * is not escaping once: `&lt;` becomes `&amp;lt;`.
   */
  lemma EscapesAmpersandAgain(s: string)
    ensures HtmlEscape("&" + s) == "&amp;" + HtmlEscape(s)
  {
    HtmlEscapeIsEscapeEach("&" + s);
    HtmlEscapeIsEscapeEach(s);
    EscapeEachAppend("&", s);
    assert EscapeEach("&") == "&amp;" + EscapeEach("");
  }

  /** The page name part of a URL: `re.sub(" ", "_", page_name)`. */
  function Underscored(pageName: string): (r: string)
    ensures ' ' !in r && |r| == |pageName|
    ensures forall i :: 0 <= i < |r| ==> r[i] == if pageName[i] == ' ' then '_' else pageName[i]
  {
    ReplaceCharRemoves(pageName, ' ', "_");
    ReplaceCharPointwise(pageName, ' ', '_');
    ReplaceChar(pageName, ' ', "_")
  }

  /** `make_url` (lcserver.py:131-133). */
  function MakeUrl(urlBase: string, pageName: string): (u: string)
    ensures StartsWith(u, urlBase + "/") && u[|urlBase| + 1..] == Underscored(pageName)
  {
    urlBase + "/" + Underscored(pageName)
  }

  /** Two page names give one URL exactly when they agree once spaces become `_`: `a b` and `a_b` share it. */
  lemma MakeUrlSameIff(urlBase: string, p1: string, p2: string)
    ensures MakeUrl(urlBase, p1) == MakeUrl(urlBase, p2) <==> Underscored(p1) == Underscored(p2)
  {
    var u1 := MakeUrl(urlBase, p1);
    var u2 := MakeUrl(urlBase, p2);
    if u1 == u2 {
      assert u1[|urlBase| + 1..] == u2[|urlBase| + 1..];
    }
  }

  /** Underscoring a name twice is underscoring it once, so a URL made from a stored page name is unchanged. */
  lemma MakeUrlIdempotent(urlBase: string, pageName: string)
    ensures MakeUrl(urlBase, Underscored(pageName)) == MakeUrl(urlBase, pageName)
  {
    ReplaceCharAbsent(Underscored(pageName), ' ', "_");
  }

  /** `html_error` (lcserver.py:170-171). */
  function HtmlError(msg: string): (r: string)
    ensures StartsWith(r, "<font color=red>") && EndsWith(r, "</font><BR>")
    ensures |r| == |msg| + 27 && r[16..|r| - 11] == msg
  {
    "<font color=red>" + msg + "</font><BR>"
  }

  /** The message is read back from the middle, so different messages give different error texts. */
  lemma HtmlErrorInjective(m1: string, m2: string)
    ensures HtmlError(m1) == HtmlError(m2) <==> m1 == m2
  {
    var e1 := HtmlError(m1);
    if e1 == HtmlError(m2) {
      assert e1[16..|e1| - 11] == m2;
    }
  }

  // ---------------------------------------------------------------------
  // The state of the output buffer, and what each method does to it.
  // ---------------------------------------------------------------------

  datatype Page = Page(html: seq<string>, message: string, headerShown: bool)

  /** The buffer of a fresh `req_class`. */
  const Fresh := Page([], "", false)

  /** `show_header(title)` (lcserver.py:155-164). */
  function WithHeader(p: Page, title: string): Page {
    if p.headerShown then p
    else p.(html := p.html + [HtmlHeader, "<body><h1 align=\"center\">" + title + "</h1>"], headerShown := true)
  }

  /** `add_to_message(msg)` (lcserver.py:141-142). */
  function WithMessage(p: Page, msg: string): Page {
    p.(message := p.message + msg + "<br>\n")
  }

  /** `show_message()` (lcserver.py:150-153). */
  function WithMessageBlock(p: Page): Page {
    if p.message != "" then p.(html := p.html + [MessageTitle, p.message]) else p
  }

  /** `show_footer()` (lcserver.py:166-168). */
  function WithFooter(p: Page): Page {
    var q := WithMessageBlock(p);
    q.(html := q.html + [BodyEnd])
  }

  /** `send_response(result, data)` (lcserver.py:173-175). */
  function WithResponse(p: Page, result: string, data: string): Page {
    p.(html := p.html + ["Content-type: text/plain\n\n" + result + "\n", data])
  }

  /** `html.append(line)`. */
  function WithLine(p: Page, line: string): Page {
    p.(html := p.html + [line])
  }

  /** One call on the buffer. */
  datatype PageOp =
    | ShowHeaderOp(title: string)
    | AddToMessageOp(msg: string)
    | ShowMessageOp
    | ShowFooterOp
    | SendResponseOp(result: string, data: string)
    | AppendOp(line: string)

  function Apply(p: Page, op: PageOp): Page {
    match op
    case ShowHeaderOp(t) => WithHeader(p, t)
    case AddToMessageOp(m) => WithMessage(p, m)
    case ShowMessageOp => WithMessageBlock(p)
    case ShowFooterOp => WithFooter(p)
    case SendResponseOp(r, d) => WithResponse(p, r, d)
    case AppendOp(l) => WithLine(p, l)
  }

  /** The buffer after a sequence of calls. */
  function Run(p: Page, ops: seq<PageOp>): Page
    decreases |ops|
  {
    if |ops| == 0 then p else Run(Apply(p, ops[0]), ops[1..])
  }

  /** How many of the calls in `ops` actually emit the header. */
  function HeaderEmissions(p: Page, ops: seq<PageOp>): nat
    decreases |ops|
  {
    if |ops| == 0 then 0
    else (if ops[0].ShowHeaderOp? && !p.headerShown then 1 else 0) + HeaderEmissions(Apply(p, ops[0]), ops[1..])
  }

  /** A second `show_header` changes nothing, whatever its title. */
  lemma ShowHeaderIdempotent(p: Page, t1: string, t2: string)
    ensures WithHeader(p, t1).headerShown
    ensures WithHeader(WithHeader(p, t1), t2) == WithHeader(p, t1)
  {
  }

  /** Once shown, the header stays shown. */
  lemma {:induction false} HeaderStaysShown(p: Page, ops: seq<PageOp>)
    requires p.headerShown
    ensures Run(p, ops).headerShown && HeaderEmissions(p, ops) == 0
    decreases |ops|
  {
    if |ops| > 0 {
      HeaderStaysShown(Apply(p, ops[0]), ops[1..]);
    }
  }

  /** However the methods are called, the header goes out at most once, and not at all if it was out already. */
  lemma {:induction false} HeaderAtMostOnce(p: Page, ops: seq<PageOp>)
    ensures HeaderEmissions(p, ops) <= if p.headerShown then 0 else 1
    decreases |ops|
  {
    if |ops| > 0 {
      var q := Apply(p, ops[0]);
      if ops[0].ShowHeaderOp? && !p.headerShown {
        HeaderStaysShown(q, ops[1..]);
      } else {
        HeaderAtMostOnce(q, ops[1..]);
      }
    }
  }

  /** Output is only ever appended: what was in `html` stays there. */
  lemma {:induction false} RunExtendsHtml(p: Page, ops: seq<PageOp>)
    ensures |p.html| <= |Run(p, ops).html| && Run(p, ops).html[..|p.html|] == p.html
    decreases |ops|
  {
    if |ops| > 0 {
      var q := Apply(p, ops[0]);
      assert |p.html| <= |q.html| && q.html[..|p.html|] == p.html;
      RunExtendsHtml(q, ops[1..]);
    }
  }

  /** The footer: the message block exactly when there is a message, then always `</body>`. */
  lemma ShowFooterShape(p: Page)
    ensures p.message != "" ==> WithFooter(p).html == p.html + [MessageTitle, p.message, BodyEnd]
    ensures p.message == "" ==> WithFooter(p).html == p.html + [BodyEnd]
    ensures WithFooter(p).message == p.message && WithFooter(p).headerShown == p.headerShown
  {
  }

  /** The text the `add_to_message` calls among `ops` contribute, in order. */
  function MessagesOf(ops: seq<PageOp>): string
    decreases |ops|
  {
    if |ops| == 0 then ""
    else (if ops[0].AddToMessageOp? then ops[0].msg + "<br>\n" else "") + MessagesOf(ops[1..])
  }

  /** Messages only accumulate: each `add_to_message` appends its text and a `<br>` line break, and nothing else touches them. */
  lemma {:induction false} MessagesAccumulate(p: Page, ops: seq<PageOp>)
    ensures Run(p, ops).message == p.message + MessagesOf(ops)
    decreases |ops|
  {
    if |ops| > 0 {
      MessagesAccumulate(Apply(p, ops[0]), ops[1..]);
    }
  }

  // ---------------------------------------------------------------------
  // The object.
  // ---------------------------------------------------------------------

  class Request {
    const urlBase: string
    const form: map<string, string>
    var headerShown: bool
    var message: string
    var pageName: string
    var pageUrl: string
    var html: seq<string>
    var action: string

    /** The state the output methods work on. */
    function Buffer(): Page
      reads this
    {
      Page(html, message, headerShown)
    }

    /** `req_class.__init__` (lcserver.py:104-111); `action` is set later, by `handle_request`. */
    constructor (urlBase: string, form: map<string, string>)
      ensures this.urlBase == urlBase && this.form == form
      ensures Buffer() == Fresh
      ensures pageName == "" && pageUrl == "page_name_not_set_error"
    {
      this.urlBase := urlBase;
      this.form := form;
      headerShown := false;
      message := "";
      pageName := "";
      pageUrl := "page_name_not_set_error";
      html := [];
      action := "";
    }

    /** `set_page_name` (lcserver.py:113-116). */
    method SetPageName(name: string)
      modifies this`pageName, this`pageUrl
      ensures pageName == Underscored(name) && pageUrl == MakeUrl(urlBase, name)
      ensures pageUrl == MakeUrl(urlBase, pageName)
    {
      pageName := Underscored(name);
      pageUrl := MakeUrl(urlBase, pageName);
      MakeUrlIdempotent(urlBase, name);
    }

    method ShowHeader(title: string)
      modifies this`html, this`headerShown
      ensures Buffer() == WithHeader(old(Buffer()), title)
    {
      if headerShown {
        return;
      }
      html := html + [HtmlHeader];
      html := html + ["<body><h1 align=\"center\">" + title + "</h1>"];
      headerShown := true;
    }

    method AddToMessage(msg: string)
      modifies this`message
      ensures Buffer() == WithMessage(old(Buffer()), msg)
    {
      message := message + msg + "<br>\n";
    }

    method ShowMessage()
      modifies this`html
      ensures Buffer() == WithMessageBlock(old(Buffer()))
    {
      if message != "" {
        html := html + [MessageTitle];
        html := html + [message];
      }
    }

    method ShowFooter()
      modifies this`html
      ensures Buffer() == WithFooter(old(Buffer()))
    {
      ShowMessage();
      html := html + [BodyEnd];
    }

    method SendResponse(result: string, data: string)
      modifies this`html
      ensures Buffer() == WithResponse(old(Buffer()), result, data)
    {
      html := html + ["Content-type: text/plain\n\n" + result + "\n"];
      html := html + [data];
    }

    /** `req.html.append(line)`. */
    method Append(line: string)
      modifies this`html
      ensures Buffer() == WithLine(old(Buffer()), line)
    {
      html := html + [line];
    }
  }
}
