/**
 * The "path api" of lcserver.py: URLs such as `/api/devices/bbb/power/reboot`
 * are split on `/`, and the segments after the first `api` choose between
 * listing boards or resources, returning one object's file, or a board action.
 */
module LcApi {
  import opened Wrappers
  import opened PyStr
  import opened LcStore
  import opened PyFormat

  // ---------------------------------------------------------------------
  // Routing on path segments.
  // ---------------------------------------------------------------------

  /** `environ.get("PATH_INFO", "")`. */
  function PathInfo(environ: map<string, string>): string {
    if "PATH_INFO" in environ then environ["PATH_INFO"] else ""
  }

  /**
   * The segments after the first `api` segment of the path; `None` when there
   * is no such segment (`list.index` raises ValueError).
   */
  function ApiParts(pathInfo: string): Option<seq<string>> {
    var segments := Split(pathInfo, '/');
    if "api" in segments then Some(segments[IndexOf(segments, "api") + 1..]) else None
  }

  /** The branches of the decision tree in `do_api`. */
  datatype Route =
    | EmptyPath
    | Devices
    | DeviceData(board: string)
    | DeviceAction(board: string, action: string, rest: seq<string>)
    | Resources
    | ResourceData(resource: string)
    | ResourceAction(resource: string, action: string, rest: seq<string>)
    | Unsupported(first: string, tail: seq<string>)

  /** Which branch of `do_api` a list of segments takes (lcserver.py:841-885). */
  function RouteOf(parts: seq<string>): Route {
    if |parts| == 0 then EmptyPath
    else if parts[0] == "devices" then
      if |parts| == 1 then Devices
      else if |parts| == 2 then DeviceData(parts[1])
      else DeviceAction(parts[1], parts[2], parts[3..])
    else if parts[0] == "resources" then
      if |parts| == 1 then Resources
      else if |parts| == 2 then ResourceData(parts[1])
      else ResourceAction(parts[1], parts[2], parts[3..])
    else Unsupported(parts[0], parts[1..])
  }

  /** The segments that lead to a route: the inverse of `RouteOf`. */
  function PartsOf(r: Route): seq<string> {
    match r
    case EmptyPath => []
    case Devices => ["devices"]
    case DeviceData(b) => ["devices", b]
    case DeviceAction(b, a, rest) => ["devices", b, a] + rest
    case Resources => ["resources"]
    case ResourceData(x) => ["resources", x]
    case ResourceAction(x, a, rest) => ["resources", x, a] + rest
    case Unsupported(first, tail) => [first] + tail
  }

  predicate WellFormed(r: Route) {
    r.Unsupported? ==> r.first != "devices" && r.first != "resources"
  }

  /** Every list of segments takes exactly one branch, and loses nothing on the way. */
  lemma PartsOfRouteOf(parts: seq<string>)
    ensures WellFormed(RouteOf(parts)) && PartsOf(RouteOf(parts)) == parts
  {
    if |parts| == 0 {
    } else if parts[0] == "devices" || parts[0] == "resources" {
      if |parts| >= 3 {
        assert parts == [parts[0], parts[1], parts[2]] + parts[3..];
      } else if |parts| == 2 {
        assert parts == [parts[0], parts[1]];
      } else {
        assert parts == [parts[0]];
      }
    } else {
      assert parts == [parts[0]] + parts[1..];
    }
  }

  lemma RouteOfPartsOf(r: Route)
    requires WellFormed(r)
    ensures RouteOf(PartsOf(r)) == r
  {
    match r
    case DeviceAction(b, a, rest) =>
      assert PartsOf(r)[3..] == rest;
    case ResourceAction(x, a, rest) =>
      assert PartsOf(r)[3..] == rest;
    case Unsupported(first, tail) =>
      assert PartsOf(r)[1..] == tail;
    case _ =>
  }

  lemma IndexOfAfterPrefix(prefix: seq<string>, tail: seq<string>)
    requires "api" !in prefix
    ensures "api" in prefix + ["api"] + tail
    ensures IndexOf(prefix + ["api"] + tail, "api") == |prefix|
  {
    var xs := prefix + ["api"] + tail;
    assert xs[|prefix|] == "api";
  }

  lemma NoSlashInSegments(prefix: seq<string>, parts: seq<string>)
    requires forall k :: 0 <= k < |prefix| ==> '/' !in prefix[k]
    requires forall k :: 0 <= k < |parts| ==> '/' !in parts[k]
    ensures forall k :: 0 <= k < |prefix + ["api"] + parts| ==> '/' !in (prefix + ["api"] + parts)[k]
  {
    var segments := prefix + ["api"] + parts;
    forall k | 0 <= k < |segments| ensures '/' !in segments[k] {
      if k > |prefix| {
        assert segments[k] == parts[k - |prefix| - 1];
      } else if k < |prefix| {
        assert segments[k] == prefix[k];
      }
    }
  }

  /**
   * A path `<prefix>/api/<segments of r>` whose segments hold no `/` and whose
   * prefix holds no `api` segment is routed to `r`.
   */
  lemma ApiPathRoute(prefix: seq<string>, r: Route)
    requires "api" !in prefix && WellFormed(r)
    requires forall k :: 0 <= k < |prefix| ==> '/' !in prefix[k]
    requires forall k :: 0 <= k < |PartsOf(r)| ==> '/' !in PartsOf(r)[k]
    ensures ApiParts(Join(prefix + ["api"] + PartsOf(r), "/")) == Some(PartsOf(r))
    ensures RouteOf(PartsOf(r)) == r
  {
    var parts := PartsOf(r);
    var segments := prefix + ["api"] + parts;
    NoSlashInSegments(prefix, parts);
    SplitJoin(segments, '/');
    IndexOfAfterPrefix(prefix, parts);
    assert segments[|prefix| + 1..] == parts;
    RouteOfPartsOf(r);
  }

  // ---------------------------------------------------------------------
  // Reading objects.
  // ---------------------------------------------------------------------

  /** A value together with the replies sent while computing it. */
  datatype Fetched<T> = Fetched(value: T, replies: seq<Reply>)

  /**
   * `get_object_data` (lcserver.py:710-732): the file's text, or an empty value
   * after a FAIL reply when no regular file holds the object.  The source
   * returns `{}` there; every caller only tests the value for truth.
   */
  function ObjectData(disk: Disk, dataDir: string, objType: string, name: string): (d: Fetched<string>)
    ensures |d.replies| <= 1 && (d.replies != [] ==> d.replies[0].result == FAIL && d.value == "")
    ensures d.value != "" ==> ObjectPath(dataDir, objType, name) in disk.files
    ensures d.replies == [] <==> ObjectPath(dataDir, objType, name) in disk.files
    ensures ObjectPath(dataDir, objType, name) in disk.files ==>
      d.value == disk.files[ObjectPath(dataDir, objType, name)].text
  {
    var path := ObjectPath(dataDir, objType, name);
    if path !in disk.files then
      Fetched("", [Reply(FAIL, objType + " object '" + name + "' in not recognized by the server"
                              + "- file_path was '" + path + "'")])
    else Fetched(disk.files[path].text, [])
  }

  /** `get_object_map` (lcserver.py:734-747): the decoded object, `{}` on any failure. */
  function ObjectMap(disk: Disk, dataDir: string, objType: string, name: string): (m: Fetched<map<string, string>>)
    ensures |m.replies| <= 1 && (m.replies != [] ==> m.replies[0].result == FAIL && m.value == map[])
    ensures var path := ObjectPath(dataDir, objType, name);
      && (path !in disk.files ==> m.value == map[] && |m.replies| == 1)
      && (path in disk.files && disk.files[path].text == "" ==> m == Fetched(map[], []))
      && (path in disk.files && disk.files[path].text != "" && disk.files[path].json.Some? ==>
            m == Fetched(disk.files[path].json.value, []))
      && (path in disk.files && disk.files[path].text != "" && disk.files[path].json.None? ==>
            m.value == map[] && |m.replies| == 1)
  {
    var d := ObjectData(disk, dataDir, objType, name);
    if d.value == "" then Fetched(map[], d.replies)
    else match disk.files[ObjectPath(dataDir, objType, name)].json
      case None => Fetched(map[], [Reply(FAIL, "Invalid json detected in " + objType + " '" + name + "'"
                                                + "\njson='" + d.value + "'")])
      case Some(obj) => Fetched(obj, [])
  }

  /**
   * `get_connected_resource` (lcserver.py:749-758).  `None` when the board
   * names no such resource: the message there uses the undefined name
   * `board`, so the source raises NameError.
   */
  function ConnectedResource(disk: Disk, dataDir: string, boardMap: map<string, string>, resourceType: string)
    : (r: Option<Fetched<map<string, string>>>)
    ensures r.None? <==> resourceType !in boardMap || boardMap[resourceType] == ""
    ensures r.Some? ==> r.value == ObjectMap(disk, dataDir, "resource", boardMap[resourceType])
  {
    if resourceType !in boardMap || boardMap[resourceType] == "" then None
    else Some(ObjectMap(disk, dataDir, "resource", boardMap[resourceType]))
  }

  /**
   * `exec_command` (lcserver.py:769-785).  `shell` stands for
   * `getstatusoutput`.  Both failure messages use the undefined name
   * `resource`, so a missing command or a non-zero exit status raises.
   */
  function ExecCommand(resourceMap: map<string, string>, resCmd: string, shell: string -> (int, string))
    : (o: Outcome)
    ensures !o.crashed <==> resCmd + "_cmd" in resourceMap && shell(resourceMap[resCmd + "_cmd"]).0 == 0
    ensures o.crashed ==> o.replies == []
    ensures !o.crashed ==> o.replies == [Reply(OK, "")]
  {
    var key := resCmd + "_cmd";
    if key !in resourceMap then Outcome([], true)
    else
      var (rcode, _) := shell(resourceMap[key]);
      if rcode != 0 then Outcome([], true) else Outcome([Reply(OK, "")], false)
  }

  /** `str(list)` for a list of strings: each element's `repr`, joined by `, `, in brackets. */
  function ListRepr(xs: seq<string>): string {
    "[" + Join(seq(|xs|, i requires 0 <= i < |xs| => Repr(xs[i])), ", ") + "]"
  }

  /** Elements of printable characters other than `'` and `\` are shown between single quotes as they are. */
  lemma ListReprOfPlain(xs: seq<string>)
    requires forall i, k :: 0 <= i < |xs| && 0 <= k < |xs[i]| ==>
      Printable(xs[i][k]) && xs[i][k] != '\'' && xs[i][k] != '\\'
    ensures ListRepr(xs) == "[" + Join(seq(|xs|, i requires 0 <= i < |xs| => "'" + xs[i] + "'"), ", ") + "]"
  {
    forall i | 0 <= i < |xs| ensures Repr(xs[i]) == "'" + xs[i] + "'" {
      ReprOfPlain(xs[i]);
    }
    assert seq(|xs|, i requires 0 <= i < |xs| => Repr(xs[i]))
        == seq(|xs|, i requires 0 <= i < |xs| => "'" + xs[i] + "'");
  }

  /** Two elements: each shown by `repr`, with `, ` between them. */
  lemma ListReprPair(x: string, y: string)
    ensures ListRepr([x, y]) == "[" + Repr(x) + ", " + Repr(y) + "]"
  {
    var xs := [x, y];
    var reprs := seq(|xs|, i requires 0 <= i < |xs| => Repr(xs[i]));
    assert reprs == [Repr(x), Repr(y)];
    assert Join(reprs, ", ") == reprs[0] + ", " + Join(reprs[1..], ", ");
    assert reprs[1..] == [Repr(y)];
  }

  /** True of the one path that reaches `exec_command`. */
  predicate IsReboot(action: string, rest: seq<string>) {
    action == "power" && |rest| > 0 && rest[0] == "reboot"
  }

  /**
   * `return_api_board_action` (lcserver.py:788-829), given what
   * `get_object_list(req, "board")` returned (`None`: it raised).  Whatever
   * it sends starts with a FAIL reply; an empty or `{}` board or controller
   * file returns silently.  Only `power/reboot` asks the shell anything, and
   * only after its FAIL reply has been sent.
   */
  function BoardActionOn(boards: Option<seq<string>>, disk: Disk, dataDir: string, board: string,
                         action: string, rest: seq<string>, shell: string -> (int, string)): (o: Outcome)
    ensures |o.replies| <= 2
    ensures o.replies != [] ==> o.replies[0].result == FAIL
    ensures forall i :: 0 <= i < |o.replies| && o.replies[i].result == OK ==> i == 1 && IsReboot(action, rest)
    ensures boards.Some? && board !in boards.value ==>
      o == Outcome([Reply(FAIL, "Could not find board '" + board + "' registered with server")], false)
    ensures boards.None? ==> o == Outcome([], true)
    ensures boards.Some? && board in boards.value ==>
      var b := ObjectMap(disk, dataDir, "board", board);
      && (b.value == map[] ==> o == Outcome(b.replies, false))
      && (b.value != map[] && action != "power" ==>
            o == Outcome([Reply(FAIL, "action '" + action + "' not supported (rest='" + ListRepr(rest) + "')")], false))
    ensures boards.Some? && board in boards.value && action == "power" ==>
      var b := ObjectMap(disk, dataDir, "board", board);
      var c := ConnectedResource(disk, dataDir, b.value, "power-controller");
      b.value != map[] ==>
        && (c.None? ==> o == Outcome([], true))
        && (c.Some? && c.value.value == map[] ==> o == Outcome(c.value.replies, false))
        && (c.Some? && c.value.value != map[] && !IsReboot(action, rest) ==>
              !o.crashed && |o.replies| == 1 && o.replies[0].result == FAIL)
        && (c.Some? && c.value.value != map[] && IsReboot(action, rest) ==>
              var ex := ExecCommand(c.value.value, "reboot", shell);
              && ("name" !in c.value.value ==> o == Outcome([], true))
              && ("name" in c.value.value ==>
                    && |o.replies| == 1 + |ex.replies| && o.replies[0].result == FAIL
                    && o.replies[1..] == ex.replies && o.crashed == ex.crashed))
  {
    if boards.None? then Outcome([], true)
    else if board !in boards.value then
      Outcome([Reply(FAIL, "Could not find board '" + board + "' registered with server")], false)
    else
      var boardMap := ObjectMap(disk, dataDir, "board", board);
      if boardMap.value == map[] then Outcome(boardMap.replies, false)
      else if action == "power" then
        match ConnectedResource(disk, dataDir, boardMap.value, "power-controller")
        case None => Outcome([], true)
        case Some(pdu) =>
          if pdu.value == map[] then Outcome(pdu.replies, false)
          else if |rest| == 0 then Outcome([Reply(FAIL, "power status not supported")], false)
          else if rest[0] == "on" then Outcome([Reply(FAIL, "power on not supported")], false)
          else if rest[0] == "off" then Outcome([Reply(FAIL, "power off not supported")], false)
          else if rest[0] == "reboot" then
            if "name" !in pdu.value then Outcome([], true)  // pdu_map["name"] raises KeyError
            else
              var refusal := Reply(FAIL, "power reboot not supported" + " - but found power controller '"
                                         + pdu.value["name"] + "'");
              var ex := ExecCommand(pdu.value, "reboot", shell);
              Outcome([refusal] + ex.replies, ex.crashed)
          else Outcome([Reply(FAIL, "power action '" + rest[0] + "' not supported")], false)
      else Outcome([Reply(FAIL, "action '" + action + "' not supported (rest='" + ListRepr(rest) + "')")], false)
  }

  /** Outside `power/reboot` the shell is never consulted: its answers change nothing. */
  lemma ShellOnlyForReboot(boards: Option<seq<string>>, disk: Disk, dataDir: string, board: string,
                           action: string, rest: seq<string>, shell1: string -> (int, string),
                           shell2: string -> (int, string))
    requires !IsReboot(action, rest)
    ensures BoardActionOn(boards, disk, dataDir, board, action, rest, shell1)
         == BoardActionOn(boards, disk, dataDir, board, action, rest, shell2)
  {
  }

  /**
   * The one way to an OK reply from a board action: a registered board whose
   * file decodes, with a power controller that decodes and has a name and a
   * `reboot_cmd` the shell runs with status 0; the FAIL comes first.
   */
  lemma RebootReachesShell(boards: Option<seq<string>>, disk: Disk, dataDir: string, board: string,
                           rest: seq<string>, shell: string -> (int, string))
    requires |rest| > 0 && rest[0] == "reboot"
    requires boards.Some? && board in boards.value
    requires var b := ObjectMap(disk, dataDir, "board", board).value;
      && b != map[]
      && var c := ConnectedResource(disk, dataDir, b, "power-controller");
      && c.Some? && c.value.value != map[] && "name" in c.value.value
      && "reboot_cmd" in c.value.value && shell(c.value.value["reboot_cmd"]).0 == 0
    ensures var o := BoardActionOn(boards, disk, dataDir, board, "power", rest, shell);
      && |o.replies| == 2 && o.replies[0].result == FAIL && o.replies[1] == Reply(OK, "") && !o.crashed
  {
    assert "reboot" + "_cmd" == "reboot_cmd";
  }

  /** What `return_api_object_list` sends: the names can be read back from the one reply, one per line. */
  function ListOutcome(names: Option<seq<string>>): (o: Outcome)
    ensures o.crashed <==> names.None?
    ensures names.Some? ==> |o.replies| == 1 && o.replies[0].result == OK
    ensures names.Some? && (forall k :: 0 <= k < |names.value| ==> '\n' !in names.value[k]) ==>
      Split(o.replies[0].data, '\n') == names.value + [""]
  {
    match names
    case None => Outcome([], true)
    case Some(ns) =>
      if forall k :: 0 <= k < |ns| ==> '\n' !in ns[k] then LinesSplit(ns); Outcome([Reply(OK, Lines(ns))], false)
      else Outcome([Reply(OK, Lines(ns))], false)
  }

  /** What `return_api_object_data` sends (lcserver.py:760-766): nothing for an empty file. */
  function ObjectDataOutcome(disk: Disk, dataDir: string, objType: string, name: string): (o: Outcome)
    ensures !o.crashed
    ensures var path := ObjectPath(dataDir, objType, name);
      && (path !in disk.files ==> |o.replies| == 1 && o.replies[0].result == FAIL)
      && (path in disk.files && disk.files[path].text != "" ==> o.replies == [Reply(OK, disk.files[path].text)])
      && (path in disk.files && disk.files[path].text == "" ==> o.replies == [])
  {
    var d := ObjectData(disk, dataDir, objType, name);
    if d.value == "" then Outcome(d.replies, false) else Outcome([Reply(OK, d.value)], false)
  }

  /** What `do_api` sends for a `PATH_INFO` (lcserver.py:831-885). */
  function ApiOutcome(pathInfo: string, disk: Disk, dataDir: string, shell: string -> (int, string)): Outcome {
    match ApiParts(pathInfo)
    case None => Outcome([], true)
    case Some(parts) =>
      match RouteOf(parts)
      case EmptyPath => Outcome([Reply(FAIL, "Invalid empty path after /api")], false)
      case Devices => ListOutcome(ObjectList(disk, dataDir, "board"))
      case DeviceData(b) => ObjectDataOutcome(disk, dataDir, "board", b)
      case DeviceAction(b, a, rest) =>
        BoardActionOn(ObjectList(disk, dataDir, "board"), disk, dataDir, b, a, rest, shell)
      case Resources => ListOutcome(ObjectList(disk, dataDir, "resource"))
      case ResourceData(x) => ObjectDataOutcome(disk, dataDir, "resource", x)
      case ResourceAction(x, a, rest) =>
        Outcome([Reply(FAIL, "Unsupported elements '" + a + "/" + Join(rest, "/") + "' after /api/resources")], false)
      case Unsupported(first, _) =>
        Outcome([Reply(FAIL, "Unsupported element '" + first + "' after /api/")], false)
  }

  /**
   * The routing promises of `do_api`: no `api` segment raises; an empty
   * remainder, anything below `resources/R`, and any first segment other than
   * `devices` or `resources` give exactly one FAIL reply; an OK reply comes
   * only from `devices...`, `resources` or `resources/R`.
   */
  lemma ApiOutcomeRouting(pathInfo: string, disk: Disk, dataDir: string, shell: string -> (int, string))
    ensures var o := ApiOutcome(pathInfo, disk, dataDir, shell);
      && (ApiParts(pathInfo).None? ==> o == Outcome([], true))
      && (ApiParts(pathInfo).Some? ==>
            var parts := ApiParts(pathInfo).value;
            && ((|parts| == 0 || (parts[0] != "devices" && parts[0] != "resources")
                 || (parts[0] == "resources" && |parts| > 2)) ==>
                  !o.crashed && |o.replies| == 1 && o.replies[0].result == FAIL)
            && (forall i :: 0 <= i < |o.replies| && o.replies[i].result == OK ==>
                  |parts| > 0 && (parts[0] == "devices" || (parts[0] == "resources" && |parts| <= 2))))
  {
    if ApiParts(pathInfo).Some? {
      var parts := ApiParts(pathInfo).value;
      if |parts| > 0 && parts[0] == "devices" && |parts| > 2 {
        var b := BoardActionOn(ObjectList(disk, dataDir, "board"), disk, dataDir, parts[1], parts[2], parts[3..], shell);
        assert ApiOutcome(pathInfo, disk, dataDir, shell) == b;
      }
    }
  }

  /** The path `/api/` leaves one empty segment after `api`. */
  lemma ApiPartsOfTrailingSlash()
    ensures ApiParts("/api/") == Some([""])
  {
    ApiPathRoute([""], Unsupported("", []));
    assert [""] + ["api"] + PartsOf(Unsupported("", [])) == ["", "api", ""];
    assert Join(["api", ""], "/") == "api" + "/" + Join([""], "/");
    assert Join(["", "api", ""], "/") == "" + "/" + Join(["api", ""], "/");
    assert "" + "/" + ("api" + "/" + "") == "/api/";
    assert PartsOf(Unsupported("", [])) == [""];
  }

  /** A trailing slash right after `api` is an unsupported empty element. */
  lemma TrailingSlashAfterApi(disk: Disk, dataDir: string, shell: string -> (int, string))
    ensures ApiOutcome("/api/", disk, dataDir, shell)
         == Outcome([Reply(FAIL, "Unsupported element '' after /api/")], false)
  {
    ApiPartsOfTrailingSlash();
    var first := ApiParts("/api/").value[0];
    assert first != "devices" && first != "resources" by {
      assert |first| == 0 && |"devices"| == 7 && |"resources"| == 9;
    }
    UnsupportedFirstElement("/api/", disk, dataDir, shell);
    assert first == "";
    EmptyElementMessage();
  }

  lemma EmptyElementMessage()
    ensures "Unsupported element '" + "" + "' after /api/" == "Unsupported element '' after /api/"
  {
  }

  lemma UnsupportedFirstElement(pathInfo: string, disk: Disk, dataDir: string, shell: string -> (int, string))
    requires ApiParts(pathInfo).Some? && |ApiParts(pathInfo).value| > 0
    requires var first := ApiParts(pathInfo).value[0]; first != "devices" && first != "resources"
    ensures ApiOutcome(pathInfo, disk, dataDir, shell)
         == Outcome([Reply(FAIL, "Unsupported element '" + ApiParts(pathInfo).value[0] + "' after /api/")], false)
  {
  }

  /** `return_api_object_list` (lcserver.py:701-708). */
  method ReturnApiObjectList(disk: Disk, dataDir: string, objType: string) returns (o: Outcome)
    ensures o == ListOutcome(ObjectList(disk, dataDir, objType))
  {
    var objList := GetObjectList(disk, dataDir, objType);
    if objList.None? {
      return Outcome([], true);
    }
    var names := objList.value;
    var msg := "";
    var i := 0;
    while i < |names|
      invariant 0 <= i <= |names|
      invariant msg == Lines(names[..i])
    {
      LinesStep(names, i);
      msg := msg + names[i] + "\n";
      i := i + 1;
    }
    assert names[..i] == names;
    o := Outcome([Reply(OK, msg)], false);
  }

  /** `return_api_board_action(req, board, action, rest)` (lcserver.py:788-829). */
  method ReturnApiBoardAction(disk: Disk, dataDir: string, board: string, action: string,
                              rest: seq<string>, shell: string -> (int, string))
    returns (o: Outcome)
    ensures o == BoardActionOn(ObjectList(disk, dataDir, "board"), disk, dataDir, board, action, rest, shell)
  {
    var boards := GetObjectList(disk, dataDir, "board");
    o := BoardActionOn(boards, disk, dataDir, board, action, rest, shell);
  }

  /** `do_api(req)` (lcserver.py:831-885). */
  method DoApi(environ: map<string, string>, disk: Disk, dataDir: string, shell: string -> (int, string))
    returns (o: Outcome)
    ensures o == ApiOutcome(PathInfo(environ), disk, dataDir, shell)
  {
    var parts := ApiParts(PathInfo(environ));
    if parts.None? {
      return Outcome([], true);
    }
    match RouteOf(parts.value)
    case EmptyPath =>
      o := Outcome([Reply(FAIL, "Invalid empty path after /api")], false);
    case Devices =>
      o := ReturnApiObjectList(disk, dataDir, "board");
    case DeviceData(b) =>
      o := ObjectDataOutcome(disk, dataDir, "board", b);
    case DeviceAction(b, a, rest) =>
      o := ReturnApiBoardAction(disk, dataDir, b, a, rest, shell);
    case Resources =>
      o := ReturnApiObjectList(disk, dataDir, "resource");
    case ResourceData(x) =>
      o := ObjectDataOutcome(disk, dataDir, "resource", x);
    case ResourceAction(x, a, rest) =>
      o := Outcome([Reply(FAIL, "Unsupported elements '" + a + "/" + Join(rest, "/") + "' after /api/resources")], false);
    case Unsupported(first, _) =>
      o := Outcome([Reply(FAIL, "Unsupported element '" + first + "' after /api/")], false);
  }
}
