/**
 * The three functions of Python 2's `posixpath` that the servers use, written
 * out over strings: `dirname`, `basename` and `splitext`.
 */
module PosixPath {
  import opened PyStr

  /** Every character of `s` is `c` (true of the empty string). */
  predicate AllChar(s: string, c: char) {
    forall k :: 0 <= k < |s| ==> s[k] == c
  }

  /** `os.path.basename(p)`: the text after the last `/`. */
  function Basename(p: string): (b: string)
    ensures '/' !in b && EndsWith(p, b)
    ensures |b| < |p| ==> p[|p| - |b| - 1] == '/'
  {
    p[RFind(p, '/') + 1..]
  }

  /**
   * `os.path.dirname(p)`: the text up to and including the last `/`, with the
   * trailing slashes removed unless it consists of slashes only.
   */
  function Dirname(p: string): (d: string)
    ensures StartsWith(p, d)
    ensures d == "" <==> '/' !in p
    ensures |d| <= RFind(p, '/') + 1
    ensures forall k :: |d| <= k <= RFind(p, '/') ==> p[k] == '/'
    ensures !AllChar(d, '/') ==> d[|d| - 1] != '/'
    ensures AllChar(d, '/') ==> d == p[..RFind(p, '/') + 1]
  {
    var head := p[..RFind(p, '/') + 1];
    if head != "" && !AllChar(head, '/') then
      var d := RStripChar(head, '/');
      assert forall k :: |d| <= k <= RFind(p, '/') ==> p[k] == head[k];
      d
    else head
  }

  /** A path is its dirname's text, some slashes, and its basename. */
  lemma DirnameBasename(p: string)
    ensures var d := Dirname(p);
      && |d| + |Basename(p)| <= |p|
      && p == d + p[|d|..|p| - |Basename(p)|] + Basename(p)
      && AllChar(p[|d|..|p| - |Basename(p)|], '/')
  {
    var i := RFind(p, '/') + 1;
    var b := Basename(p);
    var d := Dirname(p);
    assert b == p[i..];
    var middle := p[|d|..i];
    assert AllChar(middle, '/') by {
      forall m | 0 <= m < |middle| ensures middle[m] == '/' {
        assert middle[m] == p[|d| + m];
      }
    }
    assert p[..|d|] == d;
    ConcatOfSlices(p, |d|, i);
  }

  /** From the last `.` on, after the last `/`, there is no further `.` and no `/`. */
  lemma ExtensionAfterLastDot(p: string)
    requires RFind(p, '.') > RFind(p, '/')
    ensures var ext := p[RFind(p, '.')..];
      ext[0] == '.' && '/' !in ext && '.' !in ext[1..]
  {
    var d := RFind(p, '.');
    var ext := p[d..];
    forall k | 0 <= k < |ext| ensures ext[k] != '/' && (k > 0 ==> ext[k] != '.') {
      assert ext[k] == p[d + k];
    }
    forall k | 0 <= k < |ext| - 1 ensures ext[1..][k] != '.' {
      assert ext[1..][k] == ext[k + 1];
    }
  }

  /**
   * `os.path.splitext(p)`: the extension starts at the last `.` of the last
   * component, provided something other than dots precedes it there.
   */
  function Splitext(p: string): (r: (string, string))
    ensures r.0 + r.1 == p
    ensures r.1 != "" ==> r.1[0] == '.' && '/' !in r.1 && '.' !in r.1[1..]
  {
    var sepIndex := RFind(p, '/');
    var dotIndex := RFind(p, '.');
    if dotIndex > sepIndex && !AllChar(p[sepIndex + 1..dotIndex], '.') then
      ExtensionAfterLastDot(p);
      (p[..dotIndex], p[dotIndex..])
    else (p, "")
  }

  /**
   * The extension is exactly a final `.`-suffix without `/` or another `.`,
   * after a last component that has something other than dots before it.
   */
  lemma SplitextOfSuffix(stem: string, ext: string)
    requires |ext| > 0 && ext[0] == '.' && '/' !in ext && '.' !in ext[1..]
    requires !AllChar(Basename(stem), '.')
    ensures Splitext(stem + ext) == (stem, ext)
  {
    var p := stem + ext;
    var dotIndex := RFind(p, '.');
    var sepIndex := RFind(p, '/');
    assert p[|stem|] == '.';
    forall k | |stem| < k < |p| ensures p[k] != '.' && p[k] != '/' {
      assert p[k] == ext[1..][k - |stem| - 1];
    }
    assert dotIndex == |stem|;
    var b := Basename(stem);
    assert sepIndex == |stem| - |b| - 1 by {
      if |b| < |stem| {
        assert p[|stem| - |b| - 1] == '/';
      }
      forall k | |stem| - |b| <= k < |stem| ensures p[k] != '/' {
        assert p[k] == b[k - (|stem| - |b|)];
      }
    }
    assert p[sepIndex + 1..dotIndex] == b;
  }
}
