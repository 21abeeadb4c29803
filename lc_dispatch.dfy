/**
 * `handle_request` of lcserver.py: choose the action and the page name for a
 * request, then run the `do_<action>` handler or render the unknown-action page.
 */
module LcDispatch {
  import opened Wrappers
  import opened PyStr
  import opened PosixPath
  import opened LcStore
  import opened LcApi
  import opened LcRequest

  /** The actions `handle_request` accepts (lcserver.py:922-928). */
  const ActionList: seq<string> := [
    "show", "api",
    "add_board", "add_resource", "put_request",
    "query_objects",
    "get_board", "get_resource", "get_request",
    "remove_board", "remove_resource", "remove_request",
    "update_board", "update_resource", "update_request",
    "put_log", "get_log"]

  /** `req.form.getfirst("action", "show")`. */
  function FormAction(form: map<string, string>): string {
    if "action" in form then form["action"] else "show"
  }

  /** `environ.get("PATH_INFO", url_base + "/main")`. */
  function RequestPath(environ: map<string, string>, urlBase: string): string {
    if "PATH_INFO" in environ then environ["PATH_INFO"] else urlBase + "/main"
  }

  /** The last path element, or `main` when it names the server script itself. */
  function PageNameOf(reqPath: string, urlBase: string): (page: string)
    ensures '/' !in page
    ensures page == "main" || EndsWith(reqPath, page)
    ensures Basename(reqPath) == Basename(urlBase) ==> page == "main"
  {
    var b := Basename(reqPath);
    if b == Basename(urlBase) then MainHasNoSlash(); "main" else b
  }

  lemma MainHasNoSlash()
    ensures '/' !in "main"
  {
  }

  /** A path with an `api` element is an api call, whatever the form says. */
  function SelectedAction(form: map<string, string>, reqPath: string): (a: string)
    ensures a == "api" <==> "api" in Split(reqPath, '/') || FormAction(form) == "api"
    ensures a != "api" ==> ("action" in form && a == form["action"]) || ("action" !in form && a == "show")
    ensures "action" !in form && "api" !in Split(reqPath, '/') ==> a == "show"
  {
    if "api" in Split(reqPath, '/') then "api" else FormAction(form)
  }

  /** What `globals().get("do_" + action)` finds for an action. */
  datatype Handler =
    | ShowPage      // do_show
    | Api           // do_api
    | Query         // do_query_objects
    | GetRequest    // do_get_request
    | NoHandler     // listed, but no do_<action> exists: calling None raises TypeError
    | UnknownAction // not listed

  function HandlerOf(action: string): (h: Handler)
    ensures h.UnknownAction? <==> action !in ActionList
    ensures h.NoHandler? <==>
      action in ActionList && action !in {"show", "api", "query_objects", "get_request"}
  {
    if action !in ActionList then UnknownAction
    else if action == "show" then ShowPage
    else if action == "api" then Api
    else if action == "query_objects" then Query
    else if action == "get_request" then GetRequest
    else NoHandler
  }

  /** Without `PATH_INFO` the page is `main`. */
  lemma DefaultPageIsMain(environ: map<string, string>, urlBase: string)
    requires "PATH_INFO" !in environ
    ensures PageNameOf(RequestPath(environ, urlBase), urlBase) == "main"
  {
    var p := urlBase + "/main";
    assert p[|urlBase|] == '/';
    assert RFind(p, '/') == |urlBase| by {
      forall j | |urlBase| < j < |p| ensures p[j] != '/' {
        assert p[j] == "main"[j - |urlBase| - 1];
      }
    }
    assert Basename(p) == "main";
  }

  /** The update actions are listed but have no handler: `update_board` raises, so `do_update_object` is never reached this way. */
  lemma UpdateActionsHaveNoHandler()
    ensures HandlerOf("update_board").NoHandler?
    ensures HandlerOf("update_resource").NoHandler? && HandlerOf("update_request").NoHandler?
  {
    assert ActionList[12] == "update_board";
    assert ActionList[13] == "update_resource" && ActionList[14] == "update_request";
  }

  /** `html` after `send_response` has been called for each reply in turn. */
  function Responses(p: Page, replies: seq<Reply>): Page
    decreases |replies|
  {
    if |replies| == 0 then p
    else
      var last := replies[|replies| - 1];
      WithResponse(Responses(p, replies[..|replies| - 1]), last.result, last.data)
  }

  /** Sending replies appends two lines per reply and touches nothing else. */
  lemma {:induction false} ResponsesShape(p: Page, replies: seq<Reply>)
    ensures var q := Responses(p, replies);
      && |q.html| == |p.html| + 2 * |replies| && q.html[..|p.html|] == p.html
      && q.message == p.message && q.headerShown == p.headerShown
      && forall i :: 0 <= i < |replies| ==>
           q.html[|p.html| + 2 * i] == "Content-type: text/plain\n\n" + replies[i].result + "\n"
           && q.html[|p.html| + 2 * i + 1] == replies[i].data
    decreases |replies|
  {
    if |replies| > 0 {
      var init := replies[..|replies| - 1];
      ResponsesShape(p, init);
      var q0 := Responses(p, init);
      assert q0.html[..|p.html|] == p.html;
      var q := Responses(p, replies);
      assert q.html[..|q0.html|] == q0.html;
      forall i | 0 <= i < |init|
        ensures q.html[|p.html| + 2 * i] == "Content-type: text/plain\n\n" + replies[i].result + "\n"
        ensures q.html[|p.html| + 2 * i + 1] == replies[i].data
      {
        assert replies[i] == init[i];
        assert q.html[|p.html| + 2 * i] == q0.html[|p.html| + 2 * i];
        assert q.html[|p.html| + 2 * i + 1] == q0.html[|p.html| + 2 * i + 1];
      }
    }
  }

  /** Send each reply through `req.send_response`. */
  method SendAll(req: Request, replies: seq<Reply>)
    modifies req`html
    ensures req.Buffer() == Responses(old(req.Buffer()), replies)
  {
    var i := 0;
    while i < |replies|
      invariant 0 <= i <= |replies|
      invariant req.Buffer() == Responses(old(req.Buffer()), replies[..i])
    {
      req.SendResponse(replies[i].result, replies[i].data);
      assert replies[..i + 1][..i] == replies[..i];
      i := i + 1;
    }
    assert replies[..i] == replies;
  }

  /**
   * What running the handler for `action` does to the buffer (from `before`
   * to `after`) and whether it raises.  `do_show` and `do_get_request` are not
   * part of this model: for them only the choice of handler is recorded, and
   * their page output and their exceptions are left unconstrained.
   */
  predicate ActionEffect(action: string, h: Handler, crashed: bool, before: Page, after: Page,
                         environ: map<string, string>, form: map<string, string>, disk: Disk,
                         dataDir: string, shell: string -> (int, string))
  {
    && h == HandlerOf(action)
    && match h
       case Api =>
         var o := ApiOutcome(PathInfo(environ), disk, dataDir, shell);
         after == Responses(before, o.replies) && crashed == o.crashed
       case Query =>
         var o := QueryOutcome(form, disk, dataDir);
         after == Responses(before, o.replies) && crashed == o.crashed
       case NoHandler => crashed && after == before
       case ShowPage => true
       case GetRequest => true
       case UnknownAction =>
         !crashed && after == WithLine(WithHeader(before, "LabControl server Error"),
                                       HtmlError("Unknown action '" + action + "'"))
  }

  /** The `if action in action_list` part of `handle_request` (lcserver.py:930-943). */
  method RunAction(req: Request, action: string, environ: map<string, string>, disk: Disk, dataDir: string,
                   shell: string -> (int, string))
    returns (h: Handler, crashed: bool)
    modifies req`html, req`headerShown
    ensures ActionEffect(action, h, crashed, old(req.Buffer()), req.Buffer(), environ, req.form, disk, dataDir, shell)
  {
    h := HandlerOf(action);
    crashed := false;
    match h
    case Api =>
      var o := DoApi(environ, disk, dataDir, shell);
      SendAll(req, o.replies);
      crashed := o.crashed;
    case Query =>
      var o := QueryObjects(req.form, disk, dataDir);
      SendAll(req, o.replies);
      crashed := o.crashed;
    case NoHandler =>
      crashed := true;
    case ShowPage =>      // do_show is not part of this model
    case GetRequest =>    // do_get_request is not part of this model
    case UnknownAction =>
      req.ShowHeader("LabControl server Error");
      req.Append(HtmlError("Unknown action '" + action + "'"));
  }

  /** The first half of `handle_request` (lcserver.py:892-903): record the form's action and the page name. */
  method SelectPage(req: Request, environ: map<string, string>)
    modifies req`action, req`pageName, req`pageUrl
    ensures req.action == FormAction(req.form)
    ensures var page := PageNameOf(RequestPath(environ, req.urlBase), req.urlBase);
      req.pageName == Underscored(page) && req.pageUrl == MakeUrl(req.urlBase, page)
  {
    req.action := FormAction(req.form);
    req.SetPageName(PageNameOf(RequestPath(environ, req.urlBase), req.urlBase));
  }

  /** `handle_request(environ, req)` (lcserver.py:891-943). */
  method HandleRequest(req: Request, environ: map<string, string>, disk: Disk, dataDir: string,
                       shell: string -> (int, string))
    returns (h: Handler, crashed: bool)
    modifies req
    ensures req.action == FormAction(req.form)
    ensures var page := PageNameOf(RequestPath(environ, req.urlBase), req.urlBase);
      req.pageName == Underscored(page) && req.pageUrl == MakeUrl(req.urlBase, page)
    ensures ActionEffect(SelectedAction(req.form, RequestPath(environ, req.urlBase)), h, crashed,
                         old(req.Buffer()), req.Buffer(), environ, req.form, disk, dataDir, shell)
  {
    SelectPage(req, environ);
    assert req.Buffer() == old(req.Buffer());
    var action := SelectedAction(req.form, RequestPath(environ, req.urlBase));
    h, crashed := RunAction(req, action, environ, disk, dataDir, shell);
  }
}
