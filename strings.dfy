/**
 * The few Python string operations the application applies to language-model
 * replies: `str.strip()`, `str.split(sep)` with a one-character separator,
 * `sep.join(parts)`, and `int(text)` in base 10.
 *
 * `int` is modelled as: optional surrounding whitespace, an optional sign,
 * then one or more ASCII digits. Python also accepts underscores between
 * digits and non-ASCII digits and whitespace; those are not modelled.
 * `strip()` and `int` skip different whitespace: `strip()` also drops the
 * separators `\x1c`..`\x1f`, which `int` rejects.
 */
module Strings {
  import opened Wrappers

  /** ASCII characters for which Python's `str.isspace()` holds: what `strip()` drops. */
  predicate IsSpace(c: char) {
    c == ' ' || ('\t' <= c <= '\r') || ('\U{1C}' <= c <= '\U{1F}')
  }

  /** ASCII characters `int` skips around its digits: `str.isspace()` without the separators `\x1c`..`\x1f`. */
  predicate IsIntSpace(c: char) {
    c == ' ' || ('\t' <= c <= '\r')
  }

  predicate IsDigit(c: char) {
    '0' <= c <= '9'
  }

  /** Every character of `s` is whitespace in the sense of `ws`. */
  predicate AllSpace(s: string, ws: char -> bool) {
    forall i :: 0 <= i < |s| ==> ws(s[i])
  }

  predicate AllDigits(s: string) {
    forall i :: 0 <= i < |s| ==> IsDigit(s[i])
  }

  /** Neither end of `s` is whitespace in the sense of `ws`: trimming leaves `s` as it is. */
  predicate Trimmed(s: string, ws: char -> bool) {
    s == [] || (!ws(s[0]) && !ws(s[|s| - 1]))
  }

  // ---------------------------------------------------------------- strip

  /** Drops leading whitespace. */
  function TrimStart(s: string, ws: char -> bool): string
  {
    if s != [] && ws(s[0]) then TrimStart(s[1..], ws) else s
  }

  /** Drops trailing whitespace. */
  function TrimEnd(s: string, ws: char -> bool): string
  {
    if s != [] && ws(s[|s| - 1]) then TrimEnd(s[..|s| - 1], ws) else s
  }

  /** Drops whitespace, in the sense of `ws`, from both ends. */
  function Trim(s: string, ws: char -> bool): string
  {
    TrimEnd(TrimStart(s, ws), ws)
  }

  /** Python `s.strip()`: no whitespace is left at either end, and nothing is added. */
  function Strip(s: string): (r: string)
    ensures Trimmed(r, IsSpace) && |r| <= |s|
  {
    TrimStartShape(s, IsSpace);
    TrimEndShape(TrimStart(s, IsSpace), IsSpace);
    Trim(s, IsSpace)
  }

  /** `TrimStart` keeps a suffix, all it drops is whitespace, and what it keeps does not start with whitespace. */
  lemma {:induction false} TrimStartShape(s: string, ws: char -> bool)
    ensures var r := TrimStart(s, ws);
      |r| <= |s| && r == s[|s| - |r|..] && AllSpace(s[..|s| - |r|], ws) && (r != [] ==> !ws(r[0]))
    decreases |s|
  {
    if s != [] && ws(s[0]) {
      TrimStartShape(s[1..], ws);
      var r := TrimStart(s, ws);
      assert s[..|s| - |r|] == [s[0]] + s[1..][..|s| - 1 - |r|];
    }
  }

  /** `TrimEnd` keeps a prefix, all it drops is whitespace, and what it keeps does not end with whitespace. */
  lemma {:induction false} TrimEndShape(s: string, ws: char -> bool)
    ensures var r := TrimEnd(s, ws);
      |r| <= |s| && r == s[..|r|] && AllSpace(s[|r|..], ws) && (r != [] ==> !ws(r[|r| - 1]))
    decreases |s|
  {
    if s != [] && ws(s[|s| - 1]) {
      TrimEndShape(s[..|s| - 1], ws);
      var r := TrimEnd(s, ws);
      assert s[|r|..] == s[..|s| - 1][|r|..] + [s[|s| - 1]];
    }
  }

  /** Trimming keeps a contiguous slice of its input, drops only whitespace, and leaves no whitespace at either end. */
  lemma TrimShape(s: string, ws: char -> bool)
    ensures var r := Trim(s, ws);
      && Trimmed(r, ws) && |r| <= |s|
      && exists k :: 0 <= k <= |s| - |r| && r == s[k..k + |r|] && AllSpace(s[..k], ws) && AllSpace(s[k + |r|..], ws)
  {
    TrimStartShape(s, ws);
    var t := TrimStart(s, ws);
    TrimEndShape(t, ws);
    var r := TrimEnd(t, ws);
    var k := |s| - |t|;
    assert r == s[k..k + |r|];
    assert s[k + |r|..] == t[|r|..];
    if r != [] {
      assert r[0] == t[0];
    }
  }

  /** `strip()` keeps a contiguous slice of its input and drops only whitespace from either side. */
  lemma StripShape(s: string)
    ensures var r := Strip(s);
      exists k :: 0 <= k <= |s| - |r| && r == s[k..k + |r|] && AllSpace(s[..k], IsSpace) && AllSpace(s[k + |r|..], IsSpace)
  {
    TrimShape(s, IsSpace);
  }

  lemma {:induction false} TrimStartPadded(w: string, t: string, ws: char -> bool)
    requires AllSpace(w, ws)
    requires t == [] || !ws(t[0])
    ensures TrimStart(w + t, ws) == t
    decreases |w|
  {
    if w != [] {
      assert (w + t)[1..] == w[1..] + t;
      TrimStartPadded(w[1..], t, ws);
    } else {
      assert w + t == t;
    }
  }

  lemma {:induction false} TrimEndPadded(t: string, w: string, ws: char -> bool)
    requires AllSpace(w, ws)
    requires t == [] || !ws(t[|t| - 1])
    ensures TrimEnd(t + w, ws) == t
    decreases |w|
  {
    if w != [] {
      assert (t + w)[..|t + w| - 1] == t + w[..|w| - 1];
      TrimEndPadded(t, w[..|w| - 1], ws);
    } else {
      assert t + w == t;
    }
  }

  /** A text with no whitespace at either end is its own `strip()`. */
  lemma StripTrimmed(t: string)
    requires Trimmed(t, IsSpace)
    ensures Strip(t) == t
  {
    assert [] + t == t;
    TrimStartPadded([], t, IsSpace);
    assert t + [] == t;
    TrimEndPadded(t, [], IsSpace);
  }

  /** Trimming removes exactly the whitespace padding around a trimmed text. */
  lemma TrimPadded(w1: string, t: string, w2: string, ws: char -> bool)
    requires AllSpace(w1, ws) && AllSpace(w2, ws) && t != [] && Trimmed(t, ws)
    ensures Trim(w1 + t + w2, ws) == t
  {
    assert w1 + t + w2 == w1 + (t + w2);
    TrimStartPadded(w1, t + w2, ws);
    TrimEndPadded(t, w2, ws);
  }

  /** `strip()` removes exactly the whitespace padding around a trimmed text. */
  lemma StripPadded(w1: string, t: string, w2: string)
    requires AllSpace(w1, IsSpace) && AllSpace(w2, IsSpace) && t != [] && Trimmed(t, IsSpace)
    ensures Strip(w1 + t + w2) == t
  {
    TrimPadded(w1, t, w2, IsSpace);
  }

  // ---------------------------------------------------------------- split and join

  /** Position of the first `c` in `s`. */
  function IndexOf(s: string, c: char): (i: nat)
    requires c in s
    ensures i < |s| && s[i] == c && c !in s[..i]
  {
    if s[0] == c then 0 else 1 + IndexOf(s[1..], c)
  }

  /** Python `s.split(sep)` for a one-character separator: never empty, no piece holds `sep`. */
  function Split(s: string, sep: char): (parts: seq<string>)
    ensures |parts| >= 1
    ensures forall i :: 0 <= i < |parts| ==> sep !in parts[i]
    decreases |s|
  {
    if sep in s then
      var i := IndexOf(s, sep);
      [s[..i]] + Split(s[i + 1..], sep)
    else
      [s]
  }

  /** Python `sep.join(parts)`. */
  function Join(parts: seq<string>, sep: char): string
  {
    if |parts| == 0 then []
    else if |parts| == 1 then parts[0]
    else parts[0] + [sep] + Join(parts[1..], sep)
  }

  /** Joining the pieces of a split with the same separator gives the text back. */
  lemma {:induction false} JoinSplit(s: string, sep: char)
    ensures Join(Split(s, sep), sep) == s
    decreases |s|
  {
    if sep in s {
      var i := IndexOf(s, sep);
      var rest := Split(s[i + 1..], sep);
      var parts := [s[..i]] + rest;
      assert Split(s, sep) == parts;
      assert parts[1..] == rest;
      JoinSplit(s[i + 1..], sep);
      assert Join(parts, sep) == s[..i] + [sep] + s[i + 1..];
      assert s == s[..i] + [sep] + s[i + 1..];
    }
  }

  /** The first separator of `a + [sep] + b` is the one after `a`, when `a` holds none. */
  lemma SplitAt(a: string, sep: char, b: string)
    requires sep !in a
    ensures Split(a + [sep] + b, sep) == [a] + Split(b, sep)
  {
    var s := a + [sep] + b;
    assert s[|a|] == sep && s[..|a|] == a;
    assert IndexOf(s, sep) == |a|;
    assert s[|a| + 1..] == b;
  }

  /** Splitting a join recovers the pieces, when no piece holds the separator. */
  lemma {:induction false} SplitJoin(parts: seq<string>, sep: char)
    requires |parts| >= 1
    requires forall i :: 0 <= i < |parts| ==> sep !in parts[i]
    ensures Split(Join(parts, sep), sep) == parts
    decreases |parts|
  {
    if |parts| > 1 {
      SplitAt(parts[0], sep, Join(parts[1..], sep));
      SplitJoin(parts[1..], sep);
    } else {
      assert sep !in parts[0];
    }
  }

  /** A character that is in no piece and is not the separator is not in the join. */
  lemma {:induction false} JoinAvoids(parts: seq<string>, sep: char, c: char)
    requires c != sep
    requires forall i :: 0 <= i < |parts| ==> c !in parts[i]
    ensures c !in Join(parts, sep)
    decreases |parts|
  {
    if |parts| > 1 {
      JoinAvoids(parts[1..], sep, c);
    }
  }

  /** A join starts with the first piece's first character. */
  lemma JoinFirst(parts: seq<string>, sep: char)
    requires |parts| >= 1 && parts[0] != []
    ensures var j := Join(parts, sep);
      j != [] && j[0] == parts[0][0]
  {
  }

  /** A join ends with the last piece's last character. */
  lemma {:induction false} JoinLast(parts: seq<string>, sep: char)
    requires |parts| >= 1 && parts[|parts| - 1] != []
    ensures var j := Join(parts, sep);
      j != [] && j[|j| - 1] == parts[|parts| - 1][|parts[|parts| - 1]| - 1]
    decreases |parts|
  {
    if |parts| > 1 {
      JoinLast(parts[1..], sep);
    }
  }

  // ---------------------------------------------------------------- int()

  function DigitValue(c: char): (d: nat)
    requires IsDigit(c)
    ensures d < 10
  {
    (c as int) - ('0' as int)
  }

  function DigitChar(d: nat): (c: char)
    requires d < 10
    ensures IsDigit(c) && DigitValue(c) == d
  {
    (('0' as int) + d) as char
  }

  /** Decimal value of a string of digits, most significant first; leading zeros allowed. */
  function DigitsValue(s: string): nat
    requires AllDigits(s)
  {
    if s == [] then 0 else DigitsValue(s[..|s| - 1]) * 10 + DigitValue(s[|s| - 1])
  }

  function ParseNat(s: string): Option<nat>
  {
    if s != [] && AllDigits(s) then Some(DigitsValue(s)) else None
  }

  /**
   * Python `int(text)`: `None` where Python raises `ValueError`.
   * Accepts surrounding whitespace (only what `IsIntSpace` names), one
   * optional `+` or `-`, then digits.
   */
  function ParseInt(text: string): Option<int>
  {
    ParseSigned(Trim(text, IsIntSpace))
  }

  /** `int` on text already stripped of whitespace. */
  function ParseSigned(t: string): Option<int>
  {
    if t != [] && (t[0] == '+' || t[0] == '-') then
      match ParseNat(t[1..])
      case None => None
      case Some(n) => var v: int := n; Some(if t[0] == '-' then -v else v)
    else
      match ParseNat(t)
      case None => None
      case Some(n) => Some(n)
  }

  /** Canonical decimal rendering of a natural number (Python `str(n)`). */
  function ShowNat(n: nat): (s: string)
    ensures s != [] && AllDigits(s)
  {
    (if n < 10 then [] else ShowNat(n / 10)) + [DigitChar(n % 10)]
  }

  /** Python `str(n)` for an integer. */
  function ShowInt(n: int): (s: string)
    ensures s != [] && Trimmed(s, IsSpace) && Trimmed(s, IsIntSpace)
    ensures IsDigit(s[|s| - 1])
    ensures forall i :: 0 <= i < |s| ==> IsDigit(s[i]) || s[i] == '-'
  {
    if n < 0 then "-" + ShowNat(-n) else ShowNat(n)
  }

  lemma {:induction false} ShowNatValue(n: nat)
    ensures DigitsValue(ShowNat(n)) == n
  {
    var s := ShowNat(n);
    assert s[..|s| - 1] == (if n < 10 then [] else ShowNat(n / 10));
    if n >= 10 {
      ShowNatValue(n / 10);
    }
  }

  /** `int` reads back the digits `str` writes for a natural number. */
  lemma ParseNatShow(n: nat)
    ensures ParseNat(ShowNat(n)) == Some(n)
  {
    ShowNatValue(n);
  }

  lemma ParseSignedShow(n: int)
    ensures ParseSigned(ShowInt(n)) == Some(n)
  {
    if n < 0 {
      var t := ShowInt(n);
      ParseNatShow(-n);
      assert t[0] == '-' && t[1..] == ShowNat(-n);
    } else {
      ParseNatShow(n);
      assert !IsDigit('-') && !IsDigit('+');
    }
  }

  /** `int` reads back what `str` writes, whatever whitespace surrounds it. */
  lemma ParsePaddedInt(w1: string, n: int, w2: string)
    requires AllSpace(w1, IsIntSpace) && AllSpace(w2, IsIntSpace)
    ensures ParseInt(w1 + ShowInt(n) + w2) == Some(n)
  {
    TrimPadded(w1, ShowInt(n), w2, IsIntSpace);
    ParseSignedShow(n);
  }

  lemma ParseShowInt(n: int)
    ensures ParseInt(ShowInt(n)) == Some(n)
  {
    ParsePaddedInt("", n, "");
    assert "" + ShowInt(n) + "" == ShowInt(n);
  }

  /** `int` skips less than `strip()`: an information separator before the digits is dropped by `strip()` but makes `int` raise. */
  lemma IntRejectsSeparator()
    ensures Strip("\U{1C}8") == "8"
    ensures ParseInt("\U{1C}8") == None
  {
    var s := "\U{1C}8";
    assert s == "\U{1C}" + "8" + "";
    StripPadded("\U{1C}", "8", "");
    assert TrimStart(s, IsIntSpace) == s;
    assert TrimEnd(s, IsIntSpace) == s;
    assert !IsDigit(s[0]);
  }
}
