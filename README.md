# LabControl server and CGI test server: a Dafny model

This project models the request-handling core of LabControl:

- **`lcserver.py`** is the CGI program (version 0.6.0) that keeps boards, resources and requests as JSON files `<data_dir>/<type>s/<type>-<name>.json`. From it the model covers:
  - the wildcard matcher `item_match`;
  - object listing (`get_object_list`) and name queries (`do_query_objects`);
  - the whitelisted field update `do_update_object`;
  - the path API (`do_api`, `return_api_board_action` and their helpers);
  - the action and page selection of `handle_request`;
  - the `req_class` output buffer.
- **`test-server.py`** is a small HTTP server that runs CGI scripts. From it the model covers:
  - the four ordered rules of `is_cgi`, which decide whether a URL names a script and compute `cgi_info = (dir, rest)`;
  - `is_python`;
  - the pure parts of `run_cgi`: splitting `rest` into script, extra path and query; the argument vector and the popen command line; and the CGI environment with its `Accept` header and its defaults.

The model follows the code of these two files. This version of `lcserver.py` has no code for reservations, capture sessions or command templating, so none of that is modelled.

Modules, one per file:

- **`PyStr`** (`pystr.dfy`): the Python string built-ins the code relies on, written out over `seq<char>`. They are `startswith`, `endswith`, slicing with negative bounds, `rfind`, `find`, `split`, `join`, `replace`, `strip` and `lower`. The module also holds `Wrappers` with `Option`.
- **`PyFormat`** (`pyformat.dfy`): Python 2's `repr` of a byte string, which `str()` of a list, a pair or a `urlparse` result applies to each item, and whether `format % ()` raises, which `log_message` does to every text it logs.
- **`Sorting`** (`sorting.dfy`): `list.sort()` on strings, as insertion sort under code-point order.
- **`PosixPath`** (`posixpath.dfy`): `os.path.basename`, `dirname` and `splitext`.
- **`LcStore`** (`lc_store.dfy`): the disk picture, replies and outcomes, `item_match`, listing, queries and updates.
- **`LcApi`** (`lc_api.dfy`): the path API.
- **`LcRequest`** (`lc_request.dfy`): `req_class` and its pure helpers.
- **`LcDispatch`** (`lc_dispatch.dfy`): `handle_request`.
- **`CgiPaths`** (`cgi_paths.dfy`): `is_cgi` and `is_python`.
- **`CgiRun`** (`cgi_run.dfy`): the pure parts of `run_cgi`.

How the model represents the source's side effects:

- **Replies and exceptions.** A handler's effect is an `Outcome`. It holds the `send_response` replies in order, and whether the handler then raised. The model uses "raised" for the Python exceptions the code can hit: NameError, KeyError, a ValueError from `list.index`, an OSError from `listdir`, invalid JSON, and calling `None`. `is_cgi` has its own `raised` result: `log_message` applies `format % ()` to each text it logs, which raises TypeError or ValueError when the text holds a `%` that is not part of a `%%`.
- **The disk.** The disk is a map from paths to files, plus a listing for each directory. A file carries its text and, when `json.load` gives an object whose values are all strings, that object.
- **External functions.** `json.dumps` and `getstatusoutput` are function parameters.

## Model

| member | source | states |
|---|---|---|
| PyStr.Slice | lcserver.py:366 | Python slicing `s[a:b]` clamps to the string: inside the bounds it is the Dafny slice, with `b` past the end it is `s[a..]`, and it is empty when `a >= b` or `a` is past the end |
| PyStr.TailSlice | lcserver.py:369 | `s[-k:]` is a suffix of `s`: the last `k` characters, or the whole string when `k` is 0 or exceeds the length |
| PyStr.RFind | test-server.py:121 | `rfind` gives the last index holding the character, or -1 exactly when the character is absent |
| PyStr.Find | test-server.py:127 | `find` gives the first index holding the character, or -1 exactly when it is absent |
| PyStr.Split | lcserver.py:834 | `split` yields at least one piece, and no piece contains the separator |
| PyStr.JoinSplit | lcserver.py:834 | joining the pieces of a split with the separator gives back the string |
| PyStr.SplitJoin | test-server.py:103 | splitting a join of separator-free pieces gives back the pieces |
| PyStr.IndexOf | lcserver.py:836 | `list.index` of a present value is its first occurrence |
| PyStr.Strip | test-server.py:189 | `strip` leaves no whitespace at either end; with `StripKeepsMiddle` and `StripDropsSpace` it is the input with only surrounding whitespace removed |
| PyStr.LStripDropsSpace | test-server.py:189 | everything `lstrip` drops is whitespace |
| PyStr.RStripDropsSpace | test-server.py:189 | everything `rstrip` drops is whitespace |
| PyStr.StripKeepsMiddle | test-server.py:189 | the stripped text is a contiguous middle of the input: the input is the dropped prefix, the result, then the dropped suffix |
| PyStr.StripDropsSpace | test-server.py:189 | the prefix and the suffix that `strip` drops are all whitespace |
| PyStr.Lower | test-server.py:116 | `lower` keeps the length and maps exactly `A`-`Z` to `a`-`z` |
| PyStr.ReplaceCharPointwise | test-server.py:209 | `replace('+', ' ')` keeps the length and changes exactly the `+` characters |
| Sorting.Sort | lcserver.py:688 | insertion sort into code-point order; `SortSorted` and `SortPermutes` prove it orders the names and keeps each of them |
| Sorting.SortSorted | lcserver.py:688 | the sorted list is in code-point order |
| Sorting.SortPermutes | lcserver.py:688 | sorting is a permutation: the multiset of names is unchanged |
| Sorting.SortMembership | lcserver.py:390 | a name is in the sorted listing exactly when it is in the listing |
| PosixPath.Basename | lcserver.py:901 | `basename` has no `/`, is a suffix of the path, and is preceded by `/` when shorter than the path |
| PosixPath.Dirname | test-server.py:86 | `dirname` is a prefix of the path, empty exactly when the path has no `/`; it ends before the last `/` and the slashes just before it, and keeps those slashes only when the head is slashes alone |
| PosixPath.DirnameBasename | test-server.py:79 | a path is its dirname, a run of slashes, and its basename |
| PosixPath.Splitext | test-server.py:114 | root and extension concatenate to the path; an extension starts with `.` and has no `/` and no further `.` |
| PosixPath.SplitextOfSuffix | test-server.py:114 | a final `.`-suffix without `/` or another `.` is the extension, when the last component before it is not all dots |
| LcStore.ItemMatch | lcserver.py:360-371 | the four cases of `item_match`; `ItemMatchMeaning` gives them as an iff over plain prefixes and suffixes, and `ItemMatchLiteral` shows an inner `*` is literal |
| LcStore.ItemMatchMeaning | lcserver.py:360-371 | `item_match` holds iff the pattern is `*`, equals the item, ends in `*` with the item starting with the rest, or starts with `*` with the item ending with the rest |
| LcStore.ItemMatchLiteral | lcserver.py:360-371 | a pattern with no leading or trailing `*` matches only itself, so an inner `*` is literal |
| LcStore.ObjectNameExact | lcserver.py:683-685 | stripping the `type-` prefix and `.json` gives `name` exactly when the file is `type-name.json` |
| LcStore.NamesInMembership | lcserver.py:682-686 | a name, the empty one included, is collected iff `type-name.json` is in the listing |
| LcStore.ObjectList | lcserver.py:676-689 | the sorted names of a type directory, or a raise when it is missing; `ObjectListMeaning` proves the names and their order |
| LcStore.ObjectListMeaning | lcserver.py:676-689 | for an existing directory, the object list is sorted and holds exactly the names of the `type-name.json` files |
| LcStore.GetObjectList | lcserver.py:676-689 | the loop collects `ObjectList`, and fails (listdir raises) exactly when the directory is missing |
| LcStore.LinesSplit | lcserver.py:417-418 | the reply text of a name list splits on newlines back into the names and a final empty piece |
| LcStore.LinesIsJoin | lcserver.py:705-706 | the `msg += name + "\n"` text is the names joined by newlines with a trailing newline |
| LcStore.QueryMatchesMembership | lcserver.py:404-412 | a name is in the match list iff it is non-empty, matches the pattern, and its file is listed |
| LcStore.QueryMatchesOrdered | lcserver.py:389-412 | over a sorted listing, the matches come in the order of their file names |
| LcStore.QueryOutcome | lcserver.py:373-420 | the three FAIL and crash cases and the one OK listing; `QueryOutcomeMeaning` states each outcome |
| LcStore.QueryOutcomeMeaning | lcserver.py:373-420 | an unsupported `obj_type` gives one FAIL; a supported one gives one OK reply listing exactly the matching non-empty names, with the pattern defaulting to `*` |
| LcStore.QueryObjects | lcserver.py:373-420 | the loop-built reply equals `QueryOutcome`, including the missing `obj_type` FAIL and the crash when the directory is missing |
| LcStore.UpdatedByStep | lcserver.py:337-343 | one loop step sets the field to the form value unless the key is the type or `action` |
| LcStore.UpdatedKeepsOthers | lcserver.py:337-343 | after the update, submitted fields hold the form values and every other field keeps its old value |
| LcStore.ApplyFormFields | lcserver.py:336-348 | the loop applies all submitted fields iff all are allowed (or none are submitted); otherwise it names a refused field, or the type has no whitelist (KeyError) |
| LcStore.UpdateObject | lcserver.py:312-357 | FAIL (or a crash) with the disk unchanged for a missing name, a missing file, bad JSON or a refused field; OK, with only the submitted allowed fields changed and the file rewritten, otherwise |
| LcApi.PartsOfRouteOf | lcserver.py:846-885 | every segment list maps to a well-formed route that gives back the same segments |
| LcApi.RouteOfPartsOf | lcserver.py:846-885 | every well-formed route is the route of its own segments |
| LcApi.IndexOfAfterPrefix | lcserver.py:836 | the segments after the first `api` are the ones routed, whatever follows |
| LcApi.ApiPathRoute | lcserver.py:833-836 | a PATH_INFO built from a prefix without `api`, then `api`, then a route's segments routes to exactly that route |
| LcApi.ObjectData | lcserver.py:710-732 | an existing file gives its text and no reply; otherwise there is exactly one FAIL reply and the value is empty |
| LcApi.ObjectMap | lcserver.py:734-747 | an existing, decodable file gives its decoded map and no reply; an empty file gives `{}` silently; a missing file or undecodable text gives `{}` and exactly one FAIL |
| LcApi.ConnectedResource | lcserver.py:749-758 | the lookup fails (with a NameError) exactly when the board has no value, or an empty one, for the resource type; otherwise it is the named resource's decoded map |
| LcApi.ExecCommand | lcserver.py:769-785 | it replies OK with no text exactly when the resource has the `<cmd>_cmd` entry and the shell returns 0; otherwise it raises with no reply |
| LcApi.BoardActionOn | lcserver.py:788-829 | at most two replies, the first FAIL, an OK only as a reboot's second; a failed listing raises; for a registered board: an empty board file returns silently, a non-power action gets its FAIL with `rest` shown as Python's `str(list)` (`ListRepr`), a missing controller raises, an empty controller file returns silently, power status, on, off and unknown each get one FAIL, and a reboot sends its FAIL then what `exec_command` sends |
| LcApi.ShellOnlyForReboot | lcserver.py:798-829 | unless the action is a power reboot, the shell is never consulted |
| LcApi.RebootReachesShell | lcserver.py:817-822 | a power reboot of a registered board with a controller whose command succeeds sends FAIL and then OK |
| LcApi.ListOutcome | lcserver.py:701-708 | one OK reply from which the names are read back line by line, or a raise when listing fails |
| LcApi.ObjectDataOutcome | lcserver.py:760-766 | never raises; a missing file gets one FAIL, a non-empty file its text as one OK, an empty file nothing |
| LcApi.ApiOutcome | lcserver.py:831-885 | the outcome of each route; `ApiOutcomeRouting` states the FAIL, raise and OK cases over all paths |
| LcApi.ApiOutcomeRouting | lcserver.py:831-885 | no `api` segment raises; empty parts, an unknown first part or `resources/R/...` give one FAIL; any OK comes from `devices` or a short `resources` path |
| LcApi.ApiPartsOfTrailingSlash | lcserver.py:833-836 | `/api/` leaves a single empty segment |
| LcApi.TrailingSlashAfterApi | lcserver.py:882-885 | `/api/` answers exactly one FAIL for the unsupported element `''` |
| LcApi.ReturnApiObjectList | lcserver.py:701-708 | the loop-built reply is one OK with the object list, one name per line |
| LcApi.ListRepr | lcserver.py:828 | `str(rest)`: the elements as `repr` writes them, joined by `, `, in brackets; `ListReprOfPlain` and `ListReprPair` state it |
| LcApi.ListReprOfPlain | lcserver.py:828 | elements of printable characters without `'` or `\` appear as themselves between single quotes |
| LcApi.ListReprPair | lcserver.py:828 | a two-element list shows each element's `repr` with `, ` between them |
| LcApi.ReturnApiBoardAction | lcserver.py:788-829 | the method's replies are those of `BoardActionOn` over the board listing |
| LcApi.DoApi | lcserver.py:831-885 | the method's outcome is `ApiOutcome` of the request's PATH_INFO |
| LcRequest.HtmlEscape | lcserver.py:135-139 | the three chained replacements; `UnescapeHtmlEscape` proves it loses nothing and `HtmlEscapeNoBrackets` that no bracket survives |
| LcRequest.HtmlEscapeIsEscapeEach | lcserver.py:135-139 | the three successive substitutions equal escaping each character on its own |
| LcRequest.UnescapeHtmlEscape | lcserver.py:135-139 | escaping loses nothing: decoding the three entities gives back the input |
| LcRequest.HtmlEscapeNoBrackets | lcserver.py:135-139 | the escaped text has no `<` and no `>` |
| LcRequest.EscapesAmpersandAgain | lcserver.py:135-139 | an `&` is always re-escaped, so an input `&lt;` becomes `&amp;lt;` |
| LcRequest.Underscored | lcserver.py:114 | every space becomes `_` and all other characters stay |
| LcRequest.MakeUrl | lcserver.py:131-133 | the url extends `base/` with the underscored page name; by `MakeUrlSameIff` two names give one url exactly when they agree once spaces become `_` |
| LcRequest.MakeUrlSameIff | lcserver.py:113-133 | two page names give the same url if and only if their underscored forms are equal |
| LcRequest.MakeUrlIdempotent | lcserver.py:113-133 | `make_url` of the already underscored name is the same url |
| LcRequest.HtmlError | lcserver.py:170-171 | the message framed by the red font tags and readable from the middle; by `HtmlErrorInjective` different messages give different texts |
| LcRequest.HtmlErrorInjective | lcserver.py:170-171 | two error texts are equal if and only if their messages are |
| LcRequest.ShowHeaderIdempotent | lcserver.py:155-164 | a second `show_header` changes nothing, whatever its title |
| LcRequest.HeaderStaysShown | lcserver.py:155-164 | once shown, no sequence of buffer calls emits the header again |
| LcRequest.HeaderAtMostOnce | lcserver.py:155-164 | any sequence of buffer calls emits the header at most once |
| LcRequest.RunExtendsHtml | lcserver.py:141-175 | buffer calls only append to `html` |
| LcRequest.ShowFooterShape | lcserver.py:150-168 | the footer appends the message block only for a non-empty message, then `</body>` |
| LcRequest.MessagesAccumulate | lcserver.py:141-142 | the message is the concatenation of the added messages, each ending in `<br>` and a newline |
| LcRequest.Request.constructor | lcserver.py:104-111 | a fresh buffer: no output, no message, no header, and the unset page url |
| LcRequest.Request.SetPageName | lcserver.py:113-116 | the page name is underscored and the url is made from it |
| LcRequest.Request.ShowHeader | lcserver.py:155-164 | the buffer becomes `WithHeader` of the old buffer |
| LcRequest.Request.AddToMessage | lcserver.py:141-142 | the message grows by the text and `<br>\n` |
| LcRequest.Request.ShowMessage | lcserver.py:150-153 | the message block is appended only for a non-empty message |
| LcRequest.Request.ShowFooter | lcserver.py:166-168 | the buffer becomes `WithFooter` of the old buffer |
| LcRequest.Request.SendResponse | lcserver.py:173-175 | two lines are appended: the text/plain header with the result, then the data |
| LcRequest.Request.Append | lcserver.py:943 | one line is appended to `html` |
| LcDispatch.SelectedAction | lcserver.py:908-910 | the action is `api` exactly when the path has an `api` element or the form asks for `api`; otherwise it is the form's action, and `show` when the form has none |
| LcDispatch.PageNameOf | lcserver.py:899-903 | the page name has no `/`; it is `main` when the path names the script itself, and otherwise a suffix of the path |
| LcDispatch.HandlerOf | lcserver.py:922-939 | unknown actions are exactly those off the list; listed actions without a `do_` function are exactly those that call `None` |
| LcDispatch.DefaultPageIsMain | lcserver.py:900-903 | without PATH_INFO the page is `main` |
| LcDispatch.UpdateActionsHaveNoHandler | lcserver.py:927-939 | the three update actions are listed but have no handler |
| LcDispatch.ResponsesShape | lcserver.py:173-175 | sending replies appends two lines per reply, in order, and changes nothing else |
| LcDispatch.SendAll | lcserver.py:173-175 | the loop of `send_response` calls leaves the buffer at `Responses` |
| LcDispatch.RunAction | lcserver.py:930-943 | the handler is the one `HandlerOf` gives; for the api, query, `None` and unknown actions the buffer and the raise flag are as `ActionEffect` says |
| LcDispatch.SelectPage | lcserver.py:892-904 | the action comes from the form; the page name is the last path element, or `main` for the script itself |
| LcDispatch.HandleRequest | lcserver.py:891-943 | the request records action and page; the handler is that of the selected action, whose buffer effect `ActionEffect` gives apart from `show` and `get_request` |
| CgiPaths.DirRule | test-server.py:67-71 | the directory rule finds nothing exactly when no directory matches |
| CgiPaths.FirstScript | test-server.py:101-109 | the index of the first element ending in `.py`, or none |
| CgiPaths.FirstScriptIs | test-server.py:101-109 | an element ending in `.py` with none before it is the first script |
| PyFormat.Repr | lcserver.py:828 | `repr` of a string starts and ends with its quote; `ReprRoundTrip` reads the string back from between the quotes |
| PyFormat.ReprRoundTrip | lcserver.py:828 | for a byte string, undoing the escapes between the quotes of its `repr` gives the string back, so no two byte strings share a `repr` |
| PyFormat.ReprOfPlain | lcserver.py:828 | a string of printable characters without `'` or `\` is shown as itself between single quotes |
| PyFormat.ReprEscapesTab | lcserver.py:828 | a tab is shown as `\t` |
| PyFormat.ReprSwitchesQuote | lcserver.py:828 | a string with `'` and no `"` is shown between double quotes |
| PyFormat.ReprKeepsPercent | test-server.py:77 | `repr` of a string holds a `%` exactly when the string does |
| PyFormat.FormatRaises | test-server.py:65 | `format % ()` raises unless every `%` starts a `%%` conversion (flags, width, precision and length modifier allowed in between); `PercentFreeNeverRaises`, `DoubledNeverRaises`, `LonePercentRaises` and `TrailingPercentRaises` state the cases |
| PyFormat.PlainPrefix | test-server.py:65 | text without `%` in front of a format does not change whether it raises |
| PyFormat.PercentFreeNeverRaises | test-server.py:65 | a text without `%` never raises |
| PyFormat.DoubledNeverRaises | test-server.py:64-65 | a text with every `%` doubled never raises |
| PyFormat.LonePercentRaises | test-server.py:77 | a `%`, optional digits, then a character that is no flag, digit, `.`, length modifier or `%` raises |
| PyFormat.TrailingPercentRaises | test-server.py:77 | a `%` at the end raises |
| PyFormat.LonePercentInRepr | test-server.py:77 | such a `%` still raises once `repr` has written the string into a log text |
| CgiPaths.EscapePercentPrefix | test-server.py:64 | doubling `%` leaves a `%`-free prefix unchanged |
| CgiPaths.CgiInfoOf | test-server.py:62-110 | the `cgi_info` that the four rules of `is_cgi` compute, in order, whether or not a log line raises first (`IsCgiRaises`); `DirRuleMeaning`, `DotPyDirRule` and `ScanRuleReconstructs` state what each rule finds |
| CgiPaths.DirRuleMeaning | test-server.py:62-71 | a match is a configured directory prefixing both the URL and the escaped path, with `rest` the escaped path after it and its `/` |
| CgiPaths.CgiDirectoriesHaveNoPercent | test-server.py:47 | neither configured directory contains `%` |
| CgiPaths.CgiBinRule | test-server.py:67-71 | `/cgi-bin/r` gives `("/cgi-bin", r with % doubled)` |
| CgiPaths.DotPyDirRule | test-server.py:86-92 | with a dirname ending in `.py`, `dir` is the dirname of the dirname and `rest` is the path after it, then `?` and the query |
| CgiPaths.ScanRuleReconstructs | test-server.py:97-110 | the scan's `dir` and `rest` rebuild the dirname around the first `.py` element |
| CgiPaths.DirPartIsJoin | test-server.py:98-108 | the accumulated `dirpart` is `/` and the elements joined by `/` |
| CgiPaths.ScanDropsLastComponent | test-server.py:97-106 | the scan works on the dirname, so the final path component is not part of `rest` |
| CgiPaths.IsPython | test-server.py:112-116 | the lower-cased extension is `.py` or `.pyw`; `IsPythonSuffix` and `IsPythonOfStem` state it without `splitext` |
| CgiPaths.IsPythonSuffix | test-server.py:112-116 | a Python script's lower-cased path ends in `.py` or `.pyw` |
| CgiPaths.IsPythonOfStem | test-server.py:112-116 | a path ending in `.py` or `.pyw` in any case, after a name that is not all dots, is a Python script |
| CgiPaths.HiddenFileIsNotPython | test-server.py:112-116 | `/cgi-bin/.py` has no extension, so it is not a Python script |
| CgiPaths.CgiHandler.constructor | test-server.py:47 | the handler holds the path, the two CGI directories and no `cgi_info` |
| CgiPaths.CgiHandler.ScanForScript | test-server.py:97-110 | the element loop returns what `ScanRule` gives |
| CgiPaths.CgiHandler.IsCgi | test-server.py:46-110 | the method raises exactly when `IsCgiRaises` holds; it finds a script exactly when it does not raise and one of the four rules applies; `cgi_info` becomes that rule's value when `SetsCgiInfo` holds (it is assigned before the `cgi_info=` line, so also when that line raises), and is otherwise unchanged |
| CgiPaths.UrlRepr | test-server.py:77 | `str(parts)`: `ParseResult(scheme=..., ..., fragment=...)` with each field as `repr` writes it |
| CgiPaths.PairRepr | test-server.py:80 | `str(self.cgi_info)`: the two strings as `repr` writes them, in parentheses |
| CgiPaths.IsCgiRaises | test-server.py:62-110 | `is_cgi` raises when a text it logs raises under `format % ()`: the escaped URL at line 65, or, once no directory matched, `str(parts)` at 77, the unescaped dirname at 83 (when the path does not end in `.py`), or `cgi_info` at 80, 91 or 105 (when a rule found a script) |
| CgiPaths.SetsCgiInfo | test-server.py:62-110 | `is_cgi` reaches an assignment of `cgi_info`: a rule finds a script and no earlier log line raises |
| CgiPaths.PathLogNeverRaises | test-server.py:63-65 | the first log line, with every `%` of the URL doubled, never raises |
| CgiPaths.InfoHasNoPercent | test-server.py:78-109 | a URL path and query without `%` give a `cgi_info` without `%` |
| CgiPaths.PercentFreeUrlNeverRaises | test-server.py:62-110 | when no part of the parsed URL holds a `%`, `is_cgi` never raises, so it sets `cgi_info` exactly when `CgiInfoOf` finds a script |
| CgiPaths.LonePercentInPathRaises | test-server.py:75-77 | when no directory matches, a `%` in the path followed by digits and then a character that cannot end a `%%` raises at the `parts=` line, before `cgi_info` is set |
| CgiPaths.EncodedScriptRaises | test-server.py:75-81 | `/a%20b.py` names a script by rule 2, yet `is_cgi` raises and leaves `cgi_info` unset |
| CgiRun.ScriptSplit | test-server.py:127-131 | the script has no `/`, the extra path is empty or starts with `/`, and together they are the input |
| CgiRun.CgiSplit | test-server.py:120-131 | after the split the script has no `/`, the query no `?`, and the extra path is empty or starts with `/` |
| CgiRun.CgiSplitRecomposes | test-server.py:120-131 | script, extra path and (if there was a `?`) `?` and the query give back `rest` |
| CgiRun.CgiSplitOfParts | test-server.py:120-131 | a `rest` built from a script, an extra path and a query splits back into them |
| CgiRun.QueryWithQuestionMark | test-server.py:121-124 | the split is at the last `?`, so `a.py?x?y` has script `a.py?x` and query `y` |
| CgiRun.ScriptOfDotPyPath | test-server.py:79 | for a `.py` URL the script is the basename and there is no extra path |
| CgiRun.TopLevelScriptDirInfo | test-server.py:86-92 | `/s.py/page` gives `cgi_info ("/", "s.py/page?query")` |
| CgiRun.ScriptOfTopLevelScriptDir | test-server.py:127-131 | that `rest` splits into script `s.py` and extra path `/page` |
| CgiRun.NestedScriptDirGivesEmptyScript | test-server.py:127-131 | a `rest` that starts with `/` gives an empty script and keeps all of it as the extra path |
| CgiRun.DecodedQuery | test-server.py:209 | each `+` becomes a space and every other character stays, so no `+` remains and `=` is present iff it was before |
| CgiRun.Argv | test-server.py:209-215 | argv is the script plus the decoded query, and the query is added exactly when it has no `=` |
| CgiRun.Interpreter | test-server.py:254-257 | an interpreter ending in `w.exe` in any case loses that `w` and nothing else (`InterpreterDropsW`); others are kept |
| CgiRun.InterpreterDropsW | test-server.py:254-257 | for every stem, a final `w.exe` in any spelling loses only its `w`, so `pythonw.exe` runs as `python.exe` |
| CgiRun.PopenCmdline | test-server.py:252-260 | Python scripts get the `-u` interpreter prefix, and the quoted query is appended exactly when it has neither `=` nor `"`; `PopenQueryRecoverable` reads it back from the quotes |
| CgiRun.PopenQueryRecoverable | test-server.py:259-260 | the appended query sits between the final quotes of the command line |
| CgiRun.AcceptItemsOf | test-server.py:188-191 | each header line contributes at least one item |
| CgiRun.AcceptItems | test-server.py:186-191 | there are at least as many items as lines |
| CgiRun.AcceptItemsOfJoin | test-server.py:188-191 | a line's items joined by `,` are its value: stripped for a continuation, from the 8th character on otherwise |
| CgiRun.AcceptJoinsValues | test-server.py:186-192 | the HTTP_ACCEPT value is the line values joined by `,` |
| CgiRun.AssembleAccept | test-server.py:186-192 | the loop builds `AcceptItems` of the lines, joined by `,` |
| CgiRun.NonEmpty | test-server.py:196 | the kept cookie headers are exactly the non-empty ones, never more than there were; `NonEmptyAppend` shows order and repetitions are kept |
| CgiRun.NonEmptyAppend | test-server.py:196 | filtering distributes over concatenation and keeps a single header exactly when it is non-empty |
| CgiRun.SetDefaults | test-server.py:202-204 | after the defaults, the five default variables are present; values already set are unchanged, and only those five may be added, each empty |
| CgiRun.ServerEnv | test-server.py:159-175 | the server part sets the fixed variables, QUERY_STRING only for a non-empty query, and REMOTE_HOST only when the host differs from the address |
| CgiRun.HeaderEnv | test-server.py:179-198 | the header part sets CONTENT_TYPE and HTTP_ACCEPT, and sets CONTENT_LENGTH, HTTP_USER_AGENT and HTTP_COOKIE only when non-empty |
| CgiRun.EnvFrom | test-server.py:159-204 | after the three stages every variable is set, to its `FinalValue` |
| CgiRun.BuildEnv | test-server.py:159-204 | every variable is set, to its `FinalValue` with the assembled `Accept` value and the cookie headers joined by `, ` |

## Left out

- **Disk and formats.** Reading and writing files is modelled on the `Disk` value. JSON decoding is an input: each file carries its decoded map. `json.dumps` formatting is a parameter, `dumps`.
- **Form fields.** A form is a map from names to single strings. Multi-valued fields of `cgi.FieldStorage` are not modelled.
- **The shell.** `getstatusoutput` is a parameter, `shell`, that returns the exit code and the output.
- PyFormat.Repr: strings are Python 2 byte strings. For a character above 255, which such a string cannot hold, the model writes the `\x` escape of its low byte.
- PyFormat.FormatRaises: a width or precision too large for a C `int` makes Python raise "width too big"; the model accepts any run of digits.
- **Logging.** What `log_message` writes to stderr, its timestamp and the `address_string` lookup are not modelled; only whether its `format % ()` step raises is. The `scriptfile=` line of `run_cgi` (test-server.py:136) is not modelled, because its text comes from `translate_path`.
- LcApi.ObjectData: the failure of `open(...).read()` on an existing regular file (lcserver.py:726-730) is not modelled, because a file on the modelled disk can always be read.
- **Error text of crashing paths.** The NameError paths of `get_connected_resource` and `exec_command` (lcserver.py:753, 773, 780) stop at the crash, so their messages are not modelled.
- LcStore.StoredFile: a file's JSON is either an object of strings or nothing. JSON that `json.load` accepts but that is not such an object (a list or number value, a top-level list) counts as undecodable.
- LcApi.ObjectMap: for JSON that decodes to something other than an object of strings, the source (lcserver.py:740) goes on with the decoded value, but the model sends the "Invalid json" FAIL and returns `{}`.
- LcStore.UpdateObject: for an object with list or number values the source (lcserver.py:333-357) updates and rewrites it, but the model raises as it does for invalid JSON.
- LcDispatch.RunAction: for `show` and `get_request` only the choice of handler is stated. What `do_show` (lcserver.py:635-674) and `do_get_request` (lcserver.py:504-531) write and raise is not modelled, and the method leaves the buffer as it is in their place.
- **Failure values.** The `{}` that `get_object_data` and `get_object_map` return on failure is the empty value of their result.
- **Other handlers.** `do_show`, `do_get_request`, `do_put_object`, `do_remove_object`, `old_do_query_requests`, `show_env`, `save_file`, `get_timestamp`, `log_this`, page rendering and the `cgi_main` traceback page are not modelled. For `do_show` and `do_get_request` the dispatch records only that they are the handler chosen.
- **Unreachable dispatch error.** The error message at lcserver.py:932-937 is unreachable, because `globals().get` returns `None` rather than raising, so it is not modelled.
- **Out of scope.** `utils/pyacmegraph.py` is not part of this model.
- **Process and URL handling in test-server.py.** Fork, execve, popen, select, the file existence checks, `translate_path`, `urllib.unquote`, `urlparse` and `address_string` are left to the caller. Their results enter as inputs: `CgiContext`, the `urlparse` result `Url`, and the URL path and query. `os.environ.update(env)` is not modelled.
- CgiPaths.CgiHandler: `cgi_directories` is the pair `/cgi-bin` and `/htbin`, which is both the local list in `is_cgi` and the inherited attribute the loop reads.
- CgiRun.BuildEnv: the environment is keyed by the `EnvVar` enumeration. `VarName` gives each variable's name in the environment.
- **Character handling.** `lower` and `strip` use ASCII letters and the C locale's whitespace, as Python 2 byte strings do.
