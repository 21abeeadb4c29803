/**
 * Two pieces of Python 2's `str` type that the servers' replies and log lines
 * go through: `repr` of a byte string, which `str()` of a list, a tuple or a
 * `urlparse` result applies to each item, and `format % ()`, which
 * `BaseHTTPServer`'s `log_message` applies to the text it is given.
 */
module PyFormat {
  import opened Wrappers
  import opened PyStr

  // ---------------------------------------------------------------------
  // repr
  // ---------------------------------------------------------------------

  /** The quote `repr` puts around `s`: `"` when `s` holds a `'` and no `"`, else `'`. */
  function ReprQuote(s: string): (q: char)
    ensures q == '\'' || q == '"'
  {
    if '\'' in s && '"' !in s then '"' else '\''
  }

  /** A lower-case hexadecimal digit. */
  function HexDigit(d: nat): (c: char)
    requires d < 16
    ensures '0' <= c <= '9' || 'a' <= c <= 'f'
  {
    if d < 10 then ('0' as int + d) as char else ('a' as int + d - 10) as char
  }

  /** The value of a hexadecimal digit. */
  function HexValue(c: char): (d: nat)
    ensures d < 16
  {
    if '0' <= c <= '9' then c as int - '0' as int
    else if 'a' <= c <= 'f' then c as int - 'a' as int + 10
    else 0
  }

  lemma HexValueOfDigit(d: nat)
    requires d < 16
    ensures HexValue(HexDigit(d)) == d
  {
  }

  /** The characters `repr` copies as they are (unless they are the quote or a backslash). */
  predicate Printable(c: char) {
    32 <= c as int < 127
  }

  /**
   * One character of `s` inside the quotes `q`: the quote and the backslash
   * get a backslash, tab, newline and carriage return their letter escapes,
   * and every other character outside the printable range becomes `\x`
   * and two lower-case hex digits.
   */
  function ReprChar(c: char, q: char): (r: string)
    ensures |r| > 0 && (r[0] == c || r[0] == '\\')
    ensures '%' in r <==> c == '%'
  {
    if c == q || c == '\\' then ['\\', c]
    else if c == '\t' then ['\\', 't']
    else if c == '\n' then ['\\', 'n']
    else if c == '\r' then ['\\', 'r']
    else if !Printable(c) then ['\\', 'x', HexDigit(c as int % 256 / 16), HexDigit(c as int % 16)]
    else [c]
  }

  /** The text between the quotes. */
  function ReprBody(s: string, q: char): string
  {
    if |s| == 0 then "" else ReprChar(s[0], q) + ReprBody(s[1..], q)
  }

  /** `repr(s)` for a byte string. */
  function Repr(s: string): (r: string)
    ensures |r| >= 2 && r[0] == ReprQuote(s) && r[|r| - 1] == ReprQuote(s)
  {
    var q := ReprQuote(s);
    [q] + ReprBody(s, q) + [q]
  }

  lemma {:induction false} ReprBodyAppend(a: string, b: string, q: char)
    ensures ReprBody(a + b, q) == ReprBody(a, q) + ReprBody(b, q)
    decreases |a|
  {
    if |a| > 0 {
      assert (a + b)[1..] == a[1..] + b;
      ReprBodyAppend(a[1..], b, q);
    } else {
      assert a + b == b;
    }
  }

  /** Printable text with neither quote nor backslash in it comes out unchanged. */
  lemma {:induction false} ReprBodyPlain(s: string, q: char)
    requires forall k :: 0 <= k < |s| ==> Printable(s[k]) && s[k] != q && s[k] != '\\'
    ensures ReprBody(s, q) == s
    decreases |s|
  {
    if |s| > 0 {
      ReprBodyPlain(s[1..], q);
      assert s == [s[0]] + s[1..];
    }
  }

  /** Such a string is shown between single quotes, as it is. */
  lemma ReprOfPlain(s: string)
    requires forall k :: 0 <= k < |s| ==> Printable(s[k]) && s[k] != '\'' && s[k] != '\\'
    ensures Repr(s) == "'" + s + "'"
  {
    assert ReprQuote(s) == '\'';
    ReprBodyPlain(s, '\'');
  }

  /** `repr` adds no `%` and drops none. */
  lemma {:induction false} ReprBodyKeepsPercent(s: string, q: char)
    requires q != '%'
    ensures '%' in ReprBody(s, q) <==> '%' in s
    decreases |s|
  {
    if |s| > 0 {
      ReprBodyKeepsPercent(s[1..], q);
      assert s == [s[0]] + s[1..];
    }
  }

  lemma ReprKeepsPercent(s: string)
    ensures '%' in Repr(s) <==> '%' in s
  {
    ReprBodyKeepsPercent(s, ReprQuote(s));
  }

  /** Reads the escapes of `ReprBody` back. */
  function Unescape(t: string): string
    decreases |t|
  {
    if |t| == 0 then ""
    else if t[0] != '\\' || |t| == 1 then [t[0]] + Unescape(t[1..])
    else if t[1] == 't' then "\t" + Unescape(t[2..])
    else if t[1] == 'n' then "\n" + Unescape(t[2..])
    else if t[1] == 'r' then "\r" + Unescape(t[2..])
    else if t[1] == 'x' && |t| >= 4 then [(HexValue(t[2]) * 16 + HexValue(t[3])) as char] + Unescape(t[4..])
    else [t[1]] + Unescape(t[2..])
  }

  /** A string of bytes: the servers' strings are Python 2 `str` values. */
  predicate IsBytes(s: string) {
    forall k :: 0 <= k < |s| ==> s[k] as int < 256
  }

  lemma UnescapeReprChar(c: char, q: char, rest: string)
    requires c as int < 256 && (q == '\'' || q == '"')
    ensures Unescape(ReprChar(c, q) + rest) == [c] + Unescape(rest)
  {
    var r := ReprChar(c, q);
    var t := r + rest;
    if r[0] == '\\' && |r| == 4 {
      var n := c as int;
      assert t[1] == 'x' && t[2] == HexDigit(n % 256 / 16) && t[3] == HexDigit(n % 16);
      HexValueOfDigit(n % 256 / 16);
      HexValueOfDigit(n % 16);
      assert n % 256 == n;
      assert n / 16 * 16 + n % 16 == n;
      assert t[4..] == rest;
    } else if |r| == 2 {
      assert t[2..] == rest;
    } else {
      assert t[1..] == rest;
    }
  }

  lemma {:induction false} UnescapeReprBody(s: string, q: char)
    requires IsBytes(s) && (q == '\'' || q == '"')
    ensures Unescape(ReprBody(s, q)) == s
    decreases |s|
  {
    if |s| > 0 {
      UnescapeReprBody(s[1..], q);
      UnescapeReprChar(s[0], q, ReprBody(s[1..], q));
      assert s == [s[0]] + s[1..];
    }
  }

  /** What `repr` writes between its quotes reads back as the string: no two byte strings share a repr. */
  lemma ReprRoundTrip(s: string)
    requires IsBytes(s)
    ensures var r := Repr(s); Unescape(r[1..|r| - 1]) == s
  {
    var r := Repr(s);
    assert r[1..|r| - 1] == ReprBody(s, ReprQuote(s));
    UnescapeReprBody(s, ReprQuote(s));
  }

  /** A tab is written as its letter escape. */
  lemma ReprEscapesTab()
    ensures Repr("a\tb") == "'a\\tb'"
  {
    assert ReprBody("b", '\'') == "b";
    assert ReprBody("\tb", '\'') == "\\tb";
  }

  /** A string holding `'` and no `"` is put between double quotes, and its `'` is left alone. */
  lemma ReprSwitchesQuote()
    ensures Repr("it's") == "\"it's\""
  {
    assert ReprBody("s", '"') == "s";
    assert ReprBody("'s", '"') == "'s";
    assert ReprBody("t's", '"') == "t's";
  }

  // ---------------------------------------------------------------------
  // format % ()
  // ---------------------------------------------------------------------

  predicate IsFlag(c: char) {
    c == '-' || c == '+' || c == ' ' || c == '#' || c == '0'
  }

  predicate IsDigit(c: char) {
    '0' <= c <= '9'
  }

  predicate IsLengthModifier(c: char) {
    c == 'h' || c == 'l' || c == 'L'
  }

  /** The characters that can continue a conversion after its digits, or close it as `%%`. */
  predicate InPercentLiteral(c: char) {
    IsFlag(c) || IsDigit(c) || c == '.' || IsLengthModifier(c) || c == '%'
  }

  /** The first index from `i` on that does not hold a flag. */
  function SkipFlags(s: string, i: nat): (j: nat)
    requires i <= |s|
    ensures i <= j <= |s| && (j < |s| ==> !IsFlag(s[j]))
    ensures forall k :: i <= k < j ==> IsFlag(s[k])
    decreases |s| - i
  {
    if i < |s| && IsFlag(s[i]) then SkipFlags(s, i + 1) else i
  }

  /** The first index from `i` on that does not hold a digit. */
  function SkipDigits(s: string, i: nat): (j: nat)
    requires i <= |s|
    ensures i <= j <= |s| && (j < |s| ==> !IsDigit(s[j]))
    ensures forall k :: i <= k < j ==> IsDigit(s[k])
    decreases |s| - i
  {
    if i < |s| && IsDigit(s[i]) then SkipDigits(s, i + 1) else i
  }

  /**
   * For the conversion whose `%` ends just before `i`: the index after it
   * when it is a `%%` (with optional flags, width, `.precision` and length
   * modifier between the two), which needs no argument; `None` when it is
   * any other conversion, a `*` width or a `%(key)`, all of which need an
   * argument, or when the text ends before the conversion does.
   */
  function PercentLiteralEnd(s: string, i: nat): (r: Option<nat>)
    requires i <= |s|
    ensures r.Some? ==> i < r.value <= |s| && s[r.value - 1] == '%'
  {
    var a := SkipDigits(s, SkipFlags(s, i));
    var b := if a < |s| && s[a] == '.' then SkipDigits(s, a + 1) else a;
    var c := if b < |s| && IsLengthModifier(s[b]) then b + 1 else b;
    if c < |s| && s[c] == '%' then Some(c + 1) else None
  }

  /**
   * Whether `s % ()` raises: `TypeError` (not enough arguments, or a format
   * that needs a mapping) or `ValueError` (incomplete format).
   */
  predicate FormatRaises(s: string)
    decreases |s|
  {
    if |s| == 0 then false
    else if s[0] != '%' then FormatRaises(s[1..])
    else match PercentLiteralEnd(s, 1)
      case None => true
      case Some(k) => FormatRaises(s[k..])
  }

  /** Text without `%` in front changes nothing. */
  lemma {:induction false} PlainPrefix(p: string, s: string)
    requires '%' !in p
    ensures FormatRaises(p + s) == FormatRaises(s)
    decreases |p|
  {
    if |p| > 0 {
      assert (p + s)[0] == p[0] && (p + s)[1..] == p[1..] + s;
      PlainPrefix(p[1..], s);
    } else {
      assert p + s == s;
    }
  }

  /** Text without `%` never raises. */
  lemma PercentFreeNeverRaises(s: string)
    requires '%' !in s
    ensures !FormatRaises(s)
  {
    PlainPrefix(s, "");
    assert s + "" == s;
  }

  /** A `%%` is a literal percent sign and changes nothing. */
  lemma DoubledPercent(s: string)
    ensures FormatRaises("%%" + s) == FormatRaises(s)
  {
    var t := "%%" + s;
    assert t[0] == '%' && t[1] == '%';
    assert SkipFlags(t, 1) == 1 && SkipDigits(t, 1) == 1;
    assert PercentLiteralEnd(t, 1) == Some(2);
    assert t[2..] == s;
  }

  /** Every `%` doubled, as `re.sub("%", "%%", s)` leaves it, never raises. */
  lemma {:induction false} DoubledNeverRaises(s: string)
    ensures !FormatRaises(ReplaceChar(s, '%', "%%"))
    decreases |s|
  {
    if |s| > 0 {
      DoubledNeverRaises(s[1..]);
      if s[0] == '%' {
        DoubledPercent(ReplaceChar(s[1..], '%', "%%"));
      } else {
        PlainPrefix([s[0]], ReplaceChar(s[1..], '%', "%%"));
      }
    }
  }

  /** `SkipFlags` stops at the first character that is not a flag. */
  lemma {:induction false} SkipFlagsStops(s: string, i: nat, m: nat)
    requires i <= m < |s| && !IsFlag(s[m])
    ensures SkipFlags(s, i) <= m
    decreases m - i
  {
    if IsFlag(s[i]) {
      SkipFlagsStops(s, i + 1, m);
    }
  }

  /** `SkipDigits` runs over a block of digits to the first non-digit after it. */
  lemma {:induction false} SkipDigitsOver(s: string, i: nat, m: nat)
    requires i <= m < |s| && !IsDigit(s[m])
    requires forall k :: i <= k < m ==> IsDigit(s[k])
    ensures SkipDigits(s, i) == m
    decreases m - i
  {
    if i < m {
      SkipDigitsOver(s, i + 1, m);
    }
  }

  /**
   * A `%`, an optional width, and a character that can neither continue the
   * conversion nor close it as `%%` make `s % ()` raise: the conversion
   * would need an argument.
   */
  lemma LonePercentRaises(p: string, width: string, c: char, s: string)
    requires '%' !in p
    requires forall k :: 0 <= k < |width| ==> IsDigit(width[k])
    requires !InPercentLiteral(c)
    ensures FormatRaises(p + ("%" + (width + ([c] + s))))
  {
    var x := width + ([c] + s);
    ConversionNeedsArgument(x, |width|);
    PlainPrefix(p, "%" + x);
  }

  /** A `%`, then digits up to index `m` of what follows, and there a character that neither continues nor closes the conversion. */
  lemma ConversionNeedsArgument(x: string, m: nat)
    requires m < |x| && !InPercentLiteral(x[m])
    requires forall k :: 0 <= k < m ==> IsDigit(x[k])
    ensures FormatRaises("%" + x)
  {
    var t := "%" + x;
    assert t[0] == '%' && t[m + 1] == x[m];
    forall k | 1 <= k < m + 1 ensures IsDigit(t[k]) {
      assert t[k] == x[k - 1];
    }
    SkipFlagsStops(t, 1, m + 1);
    SkipDigitsOver(t, SkipFlags(t, 1), m + 1);
    assert PercentLiteralEnd(t, 1).None?;
  }

  lemma ReprBodyCons(c: char, rest: string, q: char)
    ensures ReprBody([c] + rest, q) == ReprChar(c, q) + ReprBody(rest, q)
  {
    assert ([c] + rest)[1..] == rest;
  }

  /** What `repr` writes for a string cut at a `%` and an optional run of digits. */
  lemma ReprBodyAtPercent(a: string, width: string, c: char, b: string, q: char)
    requires q == '\'' || q == '"'
    requires forall k :: 0 <= k < |width| ==> IsDigit(width[k])
    ensures ReprBody(a + ("%" + (width + ([c] + b))), q)
         == ReprBody(a, q) + ("%" + (width + (ReprChar(c, q) + ReprBody(b, q))))
  {
    ReprBodyAppend(a, "%" + (width + ([c] + b)), q);
    ReprBodyCons('%', width + ([c] + b), q);
    ReprBodyAppend(width, [c] + b, q);
    ReprBodyPlain(width, q);
    ReprBodyCons(c, b, q);
  }

  /**
   * Shown by `repr` inside a log text, a `%` followed by digits and a
   * character that cannot end `%%` still makes `s % ()` raise: `repr`
   * leaves `%` and digits as they are, and what it writes for the character
   * is the character or a backslash.
   */
  lemma LonePercentInRepr(x: string, s: string, y: string, a: string, width: string, c: char, b: string)
    requires '%' !in x && '%' !in a
    requires s == a + ("%" + (width + ([c] + b)))
    requires forall k :: 0 <= k < |width| ==> IsDigit(width[k])
    requires !InPercentLiteral(c)
    ensures FormatRaises(x + Repr(s) + y)
  {
    var q := ReprQuote(s);
    var qy := [q] + y;
    assert FormatRaises(ReprBody(s, q) + qy) by {
      var r := ReprChar(c, q);
      var rb := ReprBody(b, q);
      var tail := r[1..] + (rb + qy);
      var fromPercent := "%" + (width + ([r[0]] + tail));
      assert ReprBody(s, q) + qy == ReprBody(a, q) + fromPercent by {
        ReprBodyAtPercent(a, width, c, b, q);
        ConcatAssoc(ReprBody(a, q), "%" + (width + (r + rb)), qy);
        ConcatAssoc("%", width + (r + rb), qy);
        ConcatAssoc(width, r + rb, qy);
        ConcatAssoc(r, rb, qy);
        assert r == [r[0]] + r[1..];
        ConcatAssoc([r[0]], r[1..], rb + qy);
      }
      assert FormatRaises(fromPercent) by {
        LonePercentRaises("", width, r[0], tail);
        assert "" + fromPercent == fromPercent;
      }
      ReprBodyKeepsPercent(a, q);
      PlainPrefix(ReprBody(a, q), fromPercent);
    }
    assert FormatRaises(Repr(s) + y) by {
      PlainPrefix([q], ReprBody(s, q) + qy);
      ConcatAssoc([q] + ReprBody(s, q), [q], y);
      ConcatAssoc([q], ReprBody(s, q), qy);
    }
    PlainPrefix(x, Repr(s) + y);
    ConcatAssoc(x, Repr(s), y);
  }

  lemma ConcatAssoc(u: string, v: string, w: string)
    ensures (u + v) + w == u + (v + w)
  {
  }

  /** A `%` at the very end raises: the format is incomplete. */
  lemma TrailingPercentRaises(p: string)
    requires '%' !in p
    ensures FormatRaises(p + "%")
  {
    PlainPrefix(p, "%");
    assert PercentLiteralEnd("%", 1).None?;
  }
}
