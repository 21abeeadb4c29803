/**
 * The JSON object store behind lcserver.py: every board, resource and request
 * is a file `<data_dir>/<type>s/<type>-<name>.json`.  This module holds the
 * replies handlers send, the in-memory picture of the disk, and the store
 * operations: listing object names, wildcard queries and whitelisted updates.
 */
module LcStore {
  import opened Wrappers
  import opened PyStr
  import opened Sorting

  const OK: string := "OK"
  const FAIL: string := "FAIL"

  /** One `req.send_response(result, data)` call. */
  datatype Reply = Reply(result: string, data: string)

  /** What a handler did: the replies it sent, in order, and whether it then raised. */
  datatype Outcome = Outcome(replies: seq<Reply>, crashed: bool)

  /**
   * A regular file: its text, and what `json.load` makes of that text
   * (`None` when it is not a JSON object of strings).
   */
  datatype StoredFile = StoredFile(text: string, json: Option<map<string, string>>)

  /** Regular files by path, and the listing `os.listdir` gives for each directory. */
  datatype Disk = Disk(files: map<string, StoredFile>, dirs: map<string, seq<string>>)

  /** `os.path.exists`: a file or a directory. */
  predicate Exists(disk: Disk, path: string) {
    path in disk.files || path in disk.dirs
  }

  /** The directory holding the objects of one type: `<data_dir>/<type>s`. */
  function TypeDir(dataDir: string, objType: string): string {
    dataDir + "/" + objType + "s"
  }

  /** The file of one object: `<data_dir>/<type>s/<type>-<name>.json`. */
  function ObjectPath(dataDir: string, objType: string, name: string): string {
    TypeDir(dataDir, objType) + "/" + objType + "-" + name + ".json"
  }

  /** A reply body listing names, one per line, each followed by a newline. */
  function Lines(names: seq<string>): string {
    if |names| == 0 then "" else Lines(names[..|names| - 1]) + names[|names| - 1] + "\n"
  }

  /** A client splitting a listing reply on newlines gets the names back, then one empty piece. */
  lemma {:induction false} LinesSplit(names: seq<string>)
    requires forall k :: 0 <= k < |names| ==> '\n' !in names[k]
    ensures Split(Lines(names), '\n') == names + [""]
  {
    LinesIsJoin(names);
    SplitJoin(names + [""], '\n');
  }

  lemma LinesStep(names: seq<string>, i: nat)
    requires i < |names|
    ensures Lines(names[..i + 1]) == Lines(names[..i]) + names[i] + "\n"
  {
    assert names[..i + 1][..i] == names[..i];
  }

  lemma {:induction false} LinesIsJoin(names: seq<string>)
    ensures Lines(names) == Join(names + [""], "\n")
  {
    if |names| > 0 {
      var init := names[..|names| - 1];
      var last := names[|names| - 1];
      LinesIsJoin(init);
      if |init| == 0 {
        assert names + [""] == [last, ""];
        assert Join([last, ""], "\n") == last + "\n" + Join([""], "\n");
      } else {
        JoinAppend(init, [""], "\n");
        JoinAppend(init, [last], "\n");
        JoinAppend(init + [last], [""], "\n");
        assert init + [last] == names;
      }
    }
  }

  // ---------------------------------------------------------------------
  // item_match: simple wildcards, `*` at the start or at the end only.
  // ---------------------------------------------------------------------

  /** `item_match(pattern, item)`, with Python's clamping slices. */
  predicate ItemMatch(pattern: string, item: string) {
    || pattern == "*"
    || pattern == item
    || (EndsWith(pattern, "*") && pattern[..|pattern| - 1] == Slice(item, 0, |pattern| - 1))
    || (StartsWith(pattern, "*") && pattern[1..] == TailSlice(item, |pattern| - 1))
  }

  /** What `item_match` means: everything, equality, a prefix or a suffix. */
  lemma ItemMatchMeaning(pattern: string, item: string)
    ensures ItemMatch(pattern, item) <==>
      || pattern == "*"
      || pattern == item
      || (EndsWith(pattern, "*") && StartsWith(item, pattern[..|pattern| - 1]))
      || (StartsWith(pattern, "*") && EndsWith(item, pattern[1..]))
  {
    if EndsWith(pattern, "*") {
      var n := |pattern| - 1;
      if |item| < n {
        assert |Slice(item, 0, n)| < n;
      }
    }
    if StartsWith(pattern, "*") && pattern != "*" {
      var k := |pattern| - 1;
      assert k > 0;
      if |item| < k {
        assert TailSlice(item, k) == item;
      }
    }
  }

  /** A `*` that is neither first nor last is an ordinary character. */
  lemma ItemMatchLiteral(pattern: string, item: string)
    requires !StartsWith(pattern, "*") && !EndsWith(pattern, "*")
    ensures ItemMatch(pattern, item) <==> pattern == item
  {
  }

  // ---------------------------------------------------------------------
  // Object names from filenames.
  // ---------------------------------------------------------------------

  /** `f[len(prefix):-5]` for a filename starting with `prefix` and ending in `.json`. */
  function ObjectName(f: string, prefix: string): Option<string> {
    if StartsWith(f, prefix) && EndsWith(f, ".json") then Some(Slice(f, |prefix|, |f| - 5)) else None
  }

  /**
   * With a prefix `<type>-`, a filename yields a name exactly when it is
   * `<type>-<name>.json`: the prefix and the suffix can never overlap.
   */
  lemma ObjectNameExact(f: string, prefix: string, name: string)
    requires |prefix| > 0 && prefix[|prefix| - 1] == '-'
    ensures ObjectName(f, prefix) == Some(name) <==> f == prefix + name + ".json"
  {
    if StartsWith(f, prefix) && EndsWith(f, ".json") {
      assert f == prefix + f[|prefix|..|f| - 5] + ".json";
    }
    if f == prefix + name + ".json" {
      assert f[..|prefix|] == prefix;
      assert f[|f| - 5..] == ".json";
      assert f[|prefix|..|f| - 5] == name;
    }
  }

  /** The names the filenames of one directory yield, in listing order. */
  function NamesIn(files: seq<string>, prefix: string): seq<string> {
    if |files| == 0 then []
    else
      NamesIn(files[..|files| - 1], prefix) +
      match ObjectName(files[|files| - 1], prefix)
      case Some(n) => [n]
      case None => []
  }

  lemma {:induction false} NamesInMembership(files: seq<string>, prefix: string, name: string)
    requires |prefix| > 0 && prefix[|prefix| - 1] == '-'
    ensures name in NamesIn(files, prefix) <==> prefix + name + ".json" in files
  {
    if |files| > 0 {
      var init := files[..|files| - 1];
      NamesInMembership(init, prefix, name);
      ObjectNameExact(files[|files| - 1], prefix, name);
      assert files == init + [files[|files| - 1]];
    }
  }

  /** `get_object_list`: the sorted names, or `None` when `os.listdir` raises. */
  function ObjectList(disk: Disk, dataDir: string, objType: string): Option<seq<string>> {
    var dir := TypeDir(dataDir, objType);
    if dir in disk.dirs then Some(Sort(NamesIn(disk.dirs[dir], objType + "-"))) else None
  }

  /**
   * The names `get_object_list` returns: sorted, and exactly those of the files
   * `<type>-<name>.json` in the type's directory (an empty name included).
   */
  lemma ObjectListMeaning(disk: Disk, dataDir: string, objType: string, name: string)
    requires TypeDir(dataDir, objType) in disk.dirs
    ensures ObjectList(disk, dataDir, objType).Some?
    ensures Sorted(ObjectList(disk, dataDir, objType).value)
    ensures name in ObjectList(disk, dataDir, objType).value <==>
      objType + "-" + name + ".json" in disk.dirs[TypeDir(dataDir, objType)]
  {
    var names := NamesIn(disk.dirs[TypeDir(dataDir, objType)], objType + "-");
    SortSorted(names);
    SortMembership(names, name);
    NamesInMembership(disk.dirs[TypeDir(dataDir, objType)], objType + "-", name);
  }

  /** `get_object_list(req, obj_type)` (lcserver.py:676-689). */
  method GetObjectList(disk: Disk, dataDir: string, objType: string) returns (names: Option<seq<string>>)
    ensures names == ObjectList(disk, dataDir, objType)
    ensures names.None? <==> TypeDir(dataDir, objType) !in disk.dirs
  {
    var dir := TypeDir(dataDir, objType);
    if dir !in disk.dirs {
      return None;  // os.listdir raises
    }
    var files := disk.dirs[dir];
    var prefix := objType + "-";
    var objList: seq<string> := [];
    var i := 0;
    while i < |files|
      invariant 0 <= i <= |files|
      invariant objList == NamesIn(files[..i], prefix)
    {
      var f := files[i];
      if StartsWith(f, prefix) && EndsWith(f, ".json") {
        objList := objList + [Slice(f, |prefix|, |f| - 5)];
      }
      assert files[..i + 1][..i] == files[..i];
      i := i + 1;
    }
    assert files[..i] == files;
    names := Some(Sort(objList));
  }

  // ---------------------------------------------------------------------
  // do_query_objects
  // ---------------------------------------------------------------------

  const QueryTypes: seq<string> := ["board", "resource", "request"]

  /** The `name` form field, `*` when absent. */
  function QueryPattern(form: map<string, string>): string {
    if "name" in form then form["name"] else "*"
  }

  /** The non-empty names, in listing order, that match the pattern. */
  function QueryMatches(files: seq<string>, prefix: string, pattern: string): seq<string> {
    if |files| == 0 then []
    else
      QueryMatches(files[..|files| - 1], prefix, pattern) +
      match ObjectName(files[|files| - 1], prefix)
      case Some(n) => if n != "" && ItemMatch(pattern, n) then [n] else []
      case None => []
  }

  /** A name is reported iff it is non-empty, matches, and its file is in the listing. */
  lemma {:induction false} QueryMatchesMembership(files: seq<string>, prefix: string, pattern: string, name: string)
    requires |prefix| > 0 && prefix[|prefix| - 1] == '-'
    ensures name in QueryMatches(files, prefix, pattern) <==>
      name != "" && ItemMatch(pattern, name) && prefix + name + ".json" in files
  {
    if |files| > 0 {
      var init := files[..|files| - 1];
      QueryMatchesMembership(init, prefix, pattern, name);
      ObjectNameExact(files[|files| - 1], prefix, name);
      assert files == init + [files[|files| - 1]];
    }
  }

  /** Over a sorted listing, the names come out in the order of their filenames. */
  lemma {:induction false} QueryMatchesOrdered(files: seq<string>, prefix: string, pattern: string)
    requires |prefix| > 0 && prefix[|prefix| - 1] == '-'
    requires Sorted(files)
    ensures var r := QueryMatches(files, prefix, pattern);
      forall i, j :: 0 <= i < j < |r| ==> Le(prefix + r[i] + ".json", prefix + r[j] + ".json")
  {
    if |files| > 0 {
      var init := files[..|files| - 1];
      var last := files[|files| - 1];
      assert Sorted(init);
      QueryMatchesOrdered(init, prefix, pattern);
      var r0 := QueryMatches(init, prefix, pattern);
      var r := QueryMatches(files, prefix, pattern);
      if |r| > |r0| {
        var n := r[|r| - 1];
        assert r == r0 + [n];
        ObjectNameExact(last, prefix, n);
        assert prefix + n + ".json" == last;
        forall i | 0 <= i < |r0| ensures Le(prefix + r0[i] + ".json", last) {
          QueryMatchesMembership(init, prefix, pattern, r0[i]);
          var m :| 0 <= m < |init| && init[m] == prefix + r0[i] + ".json";
          assert files[m] == init[m] && Le(files[m], files[|files| - 1]);
        }
      } else {
        assert r == r0;
      }
    }
  }

  /** What `do_query_objects` sends (lcserver.py:373-420). */
  function QueryOutcome(form: map<string, string>, disk: Disk, dataDir: string): Outcome {
    if "obj_type" !in form then
      Outcome([Reply(FAIL, "Error: can't read object type ('obj_type') from form")], false)
    else
      var objType := form["obj_type"];
      if objType !in QueryTypes then
        Outcome([Reply(FAIL, "Error: unsupported object type '" + objType + "' for query")], false)
      else if TypeDir(dataDir, objType) !in disk.dirs then
        Outcome([], true)  // os.listdir raises
      else
        var files := Sort(disk.dirs[TypeDir(dataDir, objType)]);
        Outcome([Reply(OK, Lines(QueryMatches(files, objType + "-", QueryPattern(form))))], false)
  }

  /**
   * A query fails for any object type other than board, resource and request;
   * otherwise, when the directory can be listed, it succeeds with one reply
   * whose lines are the matching non-empty names, with `*` as the default pattern.
   */
  lemma QueryOutcomeMeaning(form: map<string, string>, disk: Disk, dataDir: string, name: string)
    requires "obj_type" in form
    ensures var o := QueryOutcome(form, disk, dataDir);
      && (form["obj_type"] !in QueryTypes ==> !o.crashed && |o.replies| == 1 && o.replies[0].result == FAIL)
      && (form["obj_type"] in QueryTypes && TypeDir(dataDir, form["obj_type"]) in disk.dirs ==>
            var objType := form["obj_type"];
            var r := QueryMatches(Sort(disk.dirs[TypeDir(dataDir, objType)]), objType + "-", QueryPattern(form));
            && o == Outcome([Reply(OK, Lines(r))], false)
            && (name in r <==>
                  name != "" && ItemMatch(QueryPattern(form), name)
                  && objType + "-" + name + ".json" in disk.dirs[TypeDir(dataDir, objType)]))
  {
    var objType := form["obj_type"];
    if objType in QueryTypes && TypeDir(dataDir, objType) in disk.dirs {
      var files := disk.dirs[TypeDir(dataDir, objType)];
      QueryMatchesMembership(Sort(files), objType + "-", QueryPattern(form), name);
      SortMembership(files, objType + "-" + name + ".json");
    }
  }

  lemma QueryMatchesStep(files: seq<string>, i: nat, prefix: string, pattern: string)
    requires i < |files|
    ensures QueryMatches(files[..i + 1], prefix, pattern) == QueryMatches(files[..i], prefix, pattern) +
      match ObjectName(files[i], prefix)
      case Some(n) => if n != "" && ItemMatch(pattern, n) then [n] else []
      case None => []
  {
    assert files[..i + 1][..i] == files[..i];
  }

  /** `do_query_objects(req)` (lcserver.py:373-420). */
  method QueryObjects(form: map<string, string>, disk: Disk, dataDir: string) returns (o: Outcome)
    ensures o == QueryOutcome(form, disk, dataDir)
  {
    if "obj_type" !in form {
      return Outcome([Reply(FAIL, "Error: can't read object type ('obj_type') from form")], false);
    }
    var objType := form["obj_type"];
    if objType !in QueryTypes {
      return Outcome([Reply(FAIL, "Error: unsupported object type '" + objType + "' for query")], false);
    }
    var dir := TypeDir(dataDir, objType);
    if dir !in disk.dirs {
      return Outcome([], true);
    }
    var files := Sort(disk.dirs[dir]);
    var pattern := QueryPattern(form);
    var prefix := objType + "-";
    var matchList: seq<string> := [];
    var i := 0;
    while i < |files|
      invariant 0 <= i <= |files|
      invariant matchList == QueryMatches(files[..i], prefix, pattern)
    {
      var f := files[i];
      QueryMatchesStep(files, i, prefix, pattern);
      if StartsWith(f, prefix) && EndsWith(f, ".json") {
        var name := Slice(f, |prefix|, |f| - 5);
        if name != "" && ItemMatch(pattern, name) {
          matchList := matchList + [name];
        }
      }
      i := i + 1;
    }
    assert files[..i] == files;
    var msg := "";
    var j := 0;
    while j < |matchList|
      invariant 0 <= j <= |matchList|
      invariant msg == Lines(matchList[..j])
    {
      LinesStep(matchList, j);
      msg := msg + matchList[j] + "\n";
      j := j + 1;
    }
    assert matchList[..j] == matchList;
    o := Outcome([Reply(OK, msg)], false);
  }

  // ---------------------------------------------------------------------
  // do_update_object
  // ---------------------------------------------------------------------

  /** The fields each object type lets a client change. */
  const AllowedUpdateFields: map<string, set<string>> := map[
    "board" := {"state", "kernel_version", "reservation"},
    "request" := {"state", "start_time", "done_time"},
    "resource" := {"state", "reservation", "command"}
  ]

  /** Form keys the update loop passes over. */
  predicate Skipped(k: string, objType: string) {
    k == objType || k == "action"
  }

  /** The form keys the update loop acts on. */
  function Submitted(form: map<string, string>, objType: string): set<string> {
    set k | k in form && !Skipped(k, objType)
  }

  /** The object after the submitted fields among `keys` have been written into it. */
  function UpdatedBy(obj: map<string, string>, form: map<string, string>, objType: string, keys: set<string>)
    : map<string, string>
  {
    obj + map k | k in keys && k in form && !Skipped(k, objType) :: form[k]
  }

  /** The object after every submitted field has been written into it. */
  function Updated(obj: map<string, string>, form: map<string, string>, objType: string): map<string, string> {
    UpdatedBy(obj, form, objType, form.Keys)
  }

  lemma UpdatedByStep(obj: map<string, string>, form: map<string, string>, objType: string,
                      keys: set<string>, k: string)
    requires k in form
    ensures !Skipped(k, objType) ==>
      UpdatedBy(obj, form, objType, keys + {k}) == UpdatedBy(obj, form, objType, keys)[k := form[k]]
    ensures Skipped(k, objType) ==>
      UpdatedBy(obj, form, objType, keys + {k}) == UpdatedBy(obj, form, objType, keys)
  {
    var m0 := map x | x in keys && x in form && !Skipped(x, objType) :: form[x];
    var m1 := map x | x in keys + {k} && x in form && !Skipped(x, objType) :: form[x];
    if !Skipped(k, objType) {
      assert m1 == m0[k := form[k]];
      assert obj + m0[k := form[k]] == (obj + m0)[k := form[k]];
    } else {
      assert m1 == m0;
    }
  }

  /** The update keeps every field it was not sent, and takes every field it was sent. */
  lemma UpdatedKeepsOthers(obj: map<string, string>, form: map<string, string>, objType: string, k: string)
    ensures var u := Updated(obj, form, objType);
      && (k in Submitted(form, objType) ==> k in u && u[k] == form[k])
      && (k !in Submitted(form, objType) ==> (k in u <==> k in obj) && (k in obj ==> u[k] == obj[k]))
  {
  }

  function NotAllowedMessage(k: string, objType: string, name: string): string {
    "Error - can't change field '" + k + "' in " + objType + " " + name + " (not allowed)"
  }

  /** How the field loop of `do_update_object` ends. */
  datatype FieldUpdate =
    | Applied(obj: map<string, string>)  // every field written
    | Refused(field: string)             // a field outside the whitelist
    | UnknownType                        // allowed_update_fields[obj_type] raised KeyError

  /**
   * The loop of `do_update_object` over the form (lcserver.py:337-348).  The
   * keys come in no particular order (`cgi.FieldStorage.keys()`), so when
   * several fields are refused, the one reported is any of them.
   */
  method ApplyFormFields(form: map<string, string>, objType: string, original: map<string, string>)
    returns (u: FieldUpdate)
    ensures u.Applied? <==>
      Submitted(form, objType) == {}
      || (objType in AllowedUpdateFields && Submitted(form, objType) <= AllowedUpdateFields[objType])
    ensures u.Applied? ==> u.obj == Updated(original, form, objType)
    ensures u.Refused? ==>
      objType in AllowedUpdateFields && u.field in Submitted(form, objType)
      && u.field !in AllowedUpdateFields[objType]
    ensures u.UnknownType? ==> objType !in AllowedUpdateFields && Submitted(form, objType) != {}
  {
    var objDict := original;
    var remaining := form.Keys;
    assert UpdatedBy(original, form, objType, {}) == original;
    while remaining != {}
      invariant remaining <= form.Keys
      invariant objDict == UpdatedBy(original, form, objType, form.Keys - remaining)
      invariant forall k :: k in form.Keys - remaining && !Skipped(k, objType) ==>
        objType in AllowedUpdateFields && k in AllowedUpdateFields[objType]
      decreases remaining
    {
      var k :| k in remaining;
      ghost var done := form.Keys - remaining;
      remaining := remaining - {k};
      assert form.Keys - remaining == done + {k};
      UpdatedByStep(original, form, objType, done, k);
      if Skipped(k, objType) {
        continue;
      }
      assert k in Submitted(form, objType);
      if objType !in AllowedUpdateFields {
        return UnknownType;
      }
      if k in AllowedUpdateFields[objType] {
        objDict := objDict[k := form[k]];
      } else {
        return Refused(k);
      }
    }
    assert form.Keys - remaining == form.Keys;
    return Applied(objDict);
  }

  /**
   * `do_update_object(req, obj_type)` (lcserver.py:312-357).  Either every
   * submitted field is written and the file is rewritten, or the request is
   * refused and the disk is left as it was.
   */
  method UpdateObject(form: map<string, string>, objType: string, disk: Disk, dataDir: string,
                      dumps: map<string, string> -> string)
    returns (o: Outcome, disk': Disk)
    ensures objType !in form ==>
      o == Outcome([Reply(FAIL, "Error: can't read " + objType + " from form")], false) && disk' == disk
    ensures objType in form && !Exists(disk, ObjectPath(dataDir, objType, form[objType])) ==>
      o == Outcome([Reply(FAIL, "Error: filepath " + ObjectPath(dataDir, objType, form[objType]) + " does not exist")], false)
      && disk' == disk
    ensures objType in form && ObjectPath(dataDir, objType, form[objType]) !in disk.files
            && ObjectPath(dataDir, objType, form[objType]) in disk.dirs ==>
      o == Outcome([], true) && disk' == disk
    ensures objType in form && ObjectPath(dataDir, objType, form[objType]) in disk.files
            && disk.files[ObjectPath(dataDir, objType, form[objType])].json.None? ==>
      o == Outcome([], true) && disk' == disk
    ensures objType in form && ObjectPath(dataDir, objType, form[objType]) in disk.files
            && objType !in AllowedUpdateFields && Submitted(form, objType) != {} ==>
      o == Outcome([], true) && disk' == disk
    ensures objType in form && Exists(disk, ObjectPath(dataDir, objType, form[objType]))
            && objType in AllowedUpdateFields && !(Submitted(form, objType) <= AllowedUpdateFields[objType]) ==>
      disk' == disk
      && (o.crashed || exists k :: k in Submitted(form, objType) && k !in AllowedUpdateFields[objType]
                         && o == Outcome([Reply(FAIL, NotAllowedMessage(k, objType, form[objType]))], false))
    ensures o.replies != [] && o.replies[0].result == OK ==>
      && objType in form
      && var path := ObjectPath(dataDir, objType, form[objType]);
      && path in disk.files && disk.files[path].json.Some?
      && (Submitted(form, objType) == {}
          || (objType in AllowedUpdateFields && Submitted(form, objType) <= AllowedUpdateFields[objType]))
      && var obj := Updated(disk.files[path].json.value, form, objType);
      && o == Outcome([Reply(OK, dumps(obj))], false)
      && disk' == disk.(files := disk.files[path := StoredFile(dumps(obj) + "\n", Some(obj))])
    ensures objType in form && ObjectPath(dataDir, objType, form[objType]) in disk.files
            && disk.files[ObjectPath(dataDir, objType, form[objType])].json.Some?
            && (Submitted(form, objType) == {}
                || (objType in AllowedUpdateFields && Submitted(form, objType) <= AllowedUpdateFields[objType])) ==>
      o.replies != [] && o.replies[0].result == OK
  {
    if objType !in form {
      return Outcome([Reply(FAIL, "Error: can't read " + objType + " from form")], false), disk;
    }
    var name := form[objType];
    var path := ObjectPath(dataDir, objType, name);
    if !Exists(disk, path) {
      return Outcome([Reply(FAIL, "Error: filepath " + path + " does not exist")], false), disk;
    }
    if path !in disk.files || disk.files[path].json.None? {
      return Outcome([], true), disk;  // open() or json.load raises
    }
    var u := ApplyFormFields(form, objType, disk.files[path].json.value);
    match u
    case UnknownType =>
      o, disk' := Outcome([], true), disk;
    case Refused(k) =>
      o, disk' := Outcome([Reply(FAIL, NotAllowedMessage(k, objType, name))], false), disk;
    case Applied(obj) =>
      var data := dumps(obj);
      disk' := disk.(files := disk.files[path := StoredFile(data + "\n", Some(obj))]);
      o := Outcome([Reply(OK, data)], false);
  }
}
