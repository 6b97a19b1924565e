/**
 * The JavaScript built-ins the application's logic leans on, stated over
 * `string` (= `seq<char>`) and unbounded integers: white space as `\s` and
 * `trim` see it, `startsWith`/`includes`/`indexOf`, `split`/`join` on a
 * string separator, `Number.prototype.toString` on integers, `parseInt`
 * without a radix, and the truthiness that `||` and `!` apply to optional
 * numbers and strings.
 */
module Js {
  import opened Wrappers

  // ---------------------------------------------------------------------
  // Characters

  /** WhiteSpace and LineTerminator of ECMA-262: what `\s`, `trim` and
      `parseInt` skip. Tab to carriage return (U+0009 to U+000D), the
      space, no-break space, ogham space mark, U+2000 to U+200A, the line
      and paragraph separators, the narrow no-break and medium mathematical
      spaces, the ideographic space and the byte-order mark. */
  predicate IsSpace(c: char) {
    if c <= ' ' then c == ' ' || '\t' <= c <= '\r'
    else '\U{00A0}' <= c && IsWideSpace(c)
  }

  /** The white space above U+007F. */
  predicate IsWideSpace(c: char) {
    || c == '\U{00A0}' || c == '\U{1680}'
    || '\U{2000}' <= c <= '\U{200A}'
    || c == '\U{2028}' || c == '\U{2029}' || c == '\U{202F}' || c == '\U{205F}'
    || c == '\U{3000}' || c == '\U{FEFF}'
  }

  /** `\d` of a regular expression: ASCII digits only. */
  predicate IsDigit(c: char) {
    '0' <= c <= '9'
  }

  predicate IsHexDigit(c: char) {
    IsDigit(c) || 'a' <= c <= 'f' || 'A' <= c <= 'F'
  }

  predicate AllDigits(s: string) {
    forall i :: 0 <= i < |s| ==> IsDigit(s[i])
  }

  predicate AllHexDigits(s: string) {
    forall i :: 0 <= i < |s| ==> IsHexDigit(s[i])
  }

  // ---------------------------------------------------------------------
  // Trimming

  /** `s.trimStart()`: drops the leading white space, and only that. */
  function TrimStart(s: string): (r: string)
    ensures |r| <= |s| && r == s[|s| - |r|..]
    ensures r == [] || !IsSpace(r[0])
    ensures forall i :: 0 <= i < |s| - |r| ==> IsSpace(s[i])
  {
    if s != [] && IsSpace(s[0]) then TrimStart(s[1..]) else s
  }

  /** `s.trimEnd()`: drops the trailing white space, and only that. */
  function TrimEnd(s: string): (r: string)
    ensures |r| <= |s| && r == s[..|r|]
    ensures r == [] || !IsSpace(r[|r| - 1])
    ensures forall i :: |r| <= i < |s| ==> IsSpace(s[i])
  {
    if s != [] && IsSpace(s[|s| - 1]) then TrimEnd(s[..|s| - 1]) else s
  }

  /** `s.trim()`: the result neither starts nor ends with white space, and
      it is what is left of `s` once white space is cut from both ends. */
  function Trim(s: string): (r: string)
    ensures r == [] || (!IsSpace(r[0]) && !IsSpace(r[|r| - 1]))
    ensures r == TrimEnd(TrimStart(s))
  {
    TrimEnd(TrimStart(s))
  }

  /** A string without white space at either end is its own trim. */
  lemma TrimUnchanged(s: string)
    requires s == [] || (!IsSpace(s[0]) && !IsSpace(s[|s| - 1]))
    ensures Trim(s) == s
  {
  }

  /** `trimStart` stops at the first character that is not white space. */
  lemma {:induction false} TrimStartAt(s: string, a: nat)
    requires a <= |s|
    requires forall i :: 0 <= i < a ==> IsSpace(s[i])
    requires a == |s| || !IsSpace(s[a])
    ensures TrimStart(s) == s[a..]
    decreases a
  {
    if a > 0 {
      assert IsSpace(s[0]);
      TrimStartAt(s[1..], a - 1);
      assert s[1..][a - 1..] == s[a..];
    }
  }

  /** `trimEnd` stops after the last character that is not white space. */
  lemma {:induction false} TrimEndAt(s: string, b: nat)
    requires b <= |s|
    requires forall i :: b <= i < |s| ==> IsSpace(s[i])
    requires b == 0 || !IsSpace(s[b - 1])
    ensures TrimEnd(s) == s[..b]
    decreases |s| - b
  {
    if b < |s| {
      assert IsSpace(s[|s| - 1]);
      TrimEndAt(s[..|s| - 1], b);
      assert s[..|s| - 1][..b] == s[..b];
    }
  }

  /** `trim` keeps exactly the slice between leading and trailing white
      space: any slice `s[a..b]` with only white space outside it and none
      at its ends is the trim of `s`. */
  lemma TrimIsSlice(s: string, a: nat, b: nat)
    requires a <= b <= |s|
    requires forall i :: 0 <= i < a ==> IsSpace(s[i])
    requires forall i :: b <= i < |s| ==> IsSpace(s[i])
    requires a == b || (!IsSpace(s[a]) && !IsSpace(s[b - 1]))
    ensures Trim(s) == s[a..b]
  {
    if a < b {
      TrimStartAt(s, a);
      TrimEndOfSuffix(s, a, b);
    } else {
      forall i | 0 <= i < |s| ensures IsSpace(s[i]) {
        if i < a {} else {}
      }
      TrimStartAt(s, |s|);
    }
  }

  /** The trailing-space cut of `s[a..]`, where `s[b..]` is white space
      and `s[b - 1]` is not (or `b == a`). */
  lemma TrimEndOfSuffix(s: string, a: nat, b: nat)
    requires a <= b <= |s|
    requires forall i :: b <= i < |s| ==> IsSpace(s[i])
    requires a == b || !IsSpace(s[b - 1])
    ensures TrimEnd(s[a..]) == s[a..b]
  {
    var t := s[a..];
    forall i | b - a <= i < |t| ensures IsSpace(t[i]) {
      assert t[i] == s[a + i];
    }
    assert b == a || t[b - a - 1] == s[b - 1];
    TrimEndAt(t, b - a);
    PrefixOfSuffix(s, a, b);
  }

  /** The converse: the trim of `s` is such a slice. */
  lemma TrimBounds(s: string) returns (a: nat, b: nat)
    ensures a <= b <= |s| && Trim(s) == s[a..b]
    ensures forall i :: 0 <= i < a ==> IsSpace(s[i])
    ensures forall i :: b <= i < |s| ==> IsSpace(s[i])
    ensures a == b || (!IsSpace(s[a]) && !IsSpace(s[b - 1]))
  {
    var t := TrimStart(s);
    var r := TrimEnd(t);
    a := |s| - |t|;
    b := a + |r|;
    assert t == s[a..] && r == t[..|r|];
    assert s[a..][..|r|] == s[a..b];
    forall i | b <= i < |s| ensures IsSpace(s[i]) {
      assert s[i] == t[i - a];
    }
    if a < b {
      assert s[b - 1] == t[b - 1 - a];
    }
  }

  /** Trailing white space never survives a trim. */
  lemma TrimAfterTrimEnd(s: string)
    ensures Trim(TrimEnd(s)) == Trim(s)
  {
    var e := TrimEnd(s);
    var a, b := TrimBounds(e);
    BoundsInPrefix(s, |e|, a, b);
    TrimIsSlice(s, a, b);
    SliceOfPrefix(s, |e|, a, b);
  }

  /** Trim bounds of a prefix `s[..m]` followed by white space are trim
      bounds of `s`. */
  lemma BoundsInPrefix(s: string, m: nat, a: nat, b: nat)
    requires a <= b <= m <= |s|
    requires forall i :: m <= i < |s| ==> IsSpace(s[i])
    requires forall i :: 0 <= i < a ==> IsSpace(s[..m][i])
    requires forall i :: b <= i < m ==> IsSpace(s[..m][i])
    requires a == b || (!IsSpace(s[..m][a]) && !IsSpace(s[..m][b - 1]))
    ensures forall i :: 0 <= i < a ==> IsSpace(s[i])
    ensures forall i :: b <= i < |s| ==> IsSpace(s[i])
    ensures a == b || (!IsSpace(s[a]) && !IsSpace(s[b - 1]))
  {
    forall i | b <= i < |s| ensures IsSpace(s[i]) {
      if i < m {
        assert s[i] == s[..m][i];
      }
    }
    forall i | 0 <= i < a ensures IsSpace(s[i]) {
      assert s[i] == s[..m][i];
    }
    if a < b {
      assert s[a] == s[..m][a] && s[b - 1] == s[..m][b - 1];
    }
  }

  lemma PrefixOfSuffix(s: string, a: nat, b: nat)
    requires a <= b <= |s|
    ensures s[a..][..b - a] == s[a..b]
  {
  }

  lemma SliceOfPrefix(s: string, m: nat, a: nat, b: nat)
    requires a <= b <= m <= |s|
    ensures s[..m][a..b] == s[a..b]
  {
  }

  // ---------------------------------------------------------------------
  // Searching

  /** `s.startsWith(prefix)`. */
  predicate StartsWith(s: string, prefix: string) {
    |prefix| <= |s| && s[..|prefix|] == prefix
  }

  /** `s.endsWith(suffix)`. */
  predicate EndsWith(s: string, suffix: string) {
    |suffix| <= |s| && s[|s| - |suffix|..] == suffix
  }

  /** `sub` occurs in `s` starting at index `i`. */
  predicate OccursAt(s: string, sub: string, i: nat) {
    i + |sub| <= |s| && s[i..i + |sub|] == sub
  }

  /** `s.indexOf(sub, from)`, `None` standing for -1: the first occurrence
      at or after `from`. */
  function IndexOfFrom(s: string, sub: string, from: nat): (r: Option<nat>)
    requires from <= |s|
    ensures r.Some? ==> from <= r.value && OccursAt(s, sub, r.value)
    ensures r.Some? ==> forall j :: from <= j < r.value ==> !OccursAt(s, sub, j)
    ensures r.None? ==> forall j :: from <= j ==> !OccursAt(s, sub, j)
    decreases |s| - from
  {
    if OccursAt(s, sub, from) then Some(from)
    else if from == |s| then None
    else IndexOfFrom(s, sub, from + 1)
  }

  /** `s.indexOf(sub)`. */
  function IndexOf(s: string, sub: string): (r: Option<nat>)
    ensures r.Some? ==> OccursAt(s, sub, r.value)
    ensures r.Some? ==> forall j :: 0 <= j < r.value ==> !OccursAt(s, sub, j)
    ensures r.None? ==> forall j :: 0 <= j ==> !OccursAt(s, sub, j)
  {
    IndexOfFrom(s, sub, 0)
  }

  /** `s.includes(sub)`. */
  predicate Includes(s: string, sub: string) {
    IndexOf(s, sub).Some?
  }

  /** `includes` holds exactly when there is an occurrence somewhere. */
  lemma IncludesIff(s: string, sub: string, i: nat)
    ensures OccursAt(s, sub, i) ==> Includes(s, sub)
    ensures Includes(s, sub) ==> OccursAt(s, sub, IndexOf(s, sub).value)
  {
  }

  /** A one-character string occurs only where that character stands. */
  lemma {:induction false} IncludesChar(s: string, c: char)
    ensures Includes(s, [c]) <==> exists i :: 0 <= i < |s| && s[i] == c
  {
    if exists i :: 0 <= i < |s| && s[i] == c {
      var i :| 0 <= i < |s| && s[i] == c;
      assert s[i..i + 1] == [c];
      assert OccursAt(s, [c], i);
    }
    if Includes(s, [c]) {
      var i := IndexOf(s, [c]).value;
      assert s[i..i + 1][0] == s[i];
    }
  }

  // ---------------------------------------------------------------------
  // split / join

  /** `s.split(sep)` for a non-empty separator: the pieces between
      non-overlapping occurrences, scanned left to right. `''.split(sep)`
      is `['']`. */
  function Split(s: string, sep: string): (parts: seq<string>)
    requires sep != []
    ensures |parts| >= 1
    ensures |parts| >= 2 <==> Includes(s, sep)
    ensures parts[0] == if Includes(s, sep) then s[..IndexOf(s, sep).value] else s
    decreases |s|
  {
    match IndexOf(s, sep)
    case None => [s]
    case Some(i) => [s[..i]] + Split(s[i + |sep|..], sep)
  }

  /** `parts.join(sep)`. */
  function Join(parts: seq<string>, sep: string): string
    decreases |parts|
  {
    if |parts| == 0 then ""
    else if |parts| == 1 then parts[0]
    else parts[0] + sep + Join(parts[1..], sep)
  }

  /** Joining the pieces of a split with the same separator gives the
      original string back. */
  lemma {:induction false} JoinSplit(s: string, sep: string)
    requires sep != []
    ensures Join(Split(s, sep), sep) == s
    decreases |s|
  {
    match IndexOf(s, sep)
    case None =>
    case Some(i) =>
      var rest := s[i + |sep|..];
      var tail := Split(rest, sep);
      JoinSplit(rest, sep);
      var parts := [s[..i]] + tail;
      assert Split(s, sep) == parts;
      assert parts[1..] == tail;
      assert Join(parts, sep) == s[..i] + sep + Join(tail, sep);
      assert s[i..i + |sep|] == sep;
      assert s == s[..i] + s[i..i + |sep|] + rest;
  }

  /** The pieces after the first one, joined back, are everything after the
      first separator. */
  lemma SplitTail(s: string, sep: string)
    requires sep != [] && Includes(s, sep)
    ensures Join(Split(s, sep)[1..], sep) == s[IndexOf(s, sep).value + |sep|..]
  {
    var i := IndexOf(s, sep).value;
    JoinSplit(s[i + |sep|..], sep);
    assert Split(s, sep)[1..] == Split(s[i + |sep|..], sep);
  }

  // ---------------------------------------------------------------------
  // Integers as text

  function DigitChar(d: nat): (c: char)
    requires d < 10
    ensures IsDigit(c)
  {
    ('0' as int + d) as char
  }

  function DigitValue(c: char): (d: nat)
    requires IsDigit(c)
    ensures d < 10 && DigitChar(d) == c
  {
    c as int - '0' as int
  }

  function HexDigitValue(c: char): (d: nat)
    requires IsHexDigit(c)
    ensures d < 16
  {
    if IsDigit(c) then DigitValue(c)
    else if 'a' <= c <= 'f' then c as int - 'a' as int + 10
    else c as int - 'A' as int + 10
  }

  /** `n.toString()` for a non-negative integer: decimal digits, with a
      leading zero only for zero itself. */
  function NatToString(n: nat): (s: string)
    ensures s != [] && AllDigits(s)
    ensures s[0] == '0' <==> n == 0
    ensures |s| > 1 ==> s[0] != '0'
    decreases n
  {
    if n < 10 then [DigitChar(n)] else NatToString(n / 10) + [DigitChar(n % 10)]
  }

  /** `n.toString()` for any integer: a minus sign before the digits of a
      negative number. */
  function IntToString(n: int): (s: string)
    ensures s != []
    ensures n >= 0 ==> AllDigits(s)
    ensures n < 0 ==> s[0] == '-' && AllDigits(s[1..])
  {
    if n < 0 then "-" + NatToString(-n) else NatToString(n)
  }

  /** The number a string of decimal digits denotes. */
  function DigitsValue(d: string): nat
    requires AllDigits(d)
    decreases |d|
  {
    if d == [] then 0 else DigitsValue(d[..|d| - 1]) * 10 + DigitValue(d[|d| - 1])
  }

  /** The number a string of hexadecimal digits denotes. */
  function HexDigitsValue(d: string): nat
    requires AllHexDigits(d)
    decreases |d|
  {
    if d == [] then 0 else HexDigitsValue(d[..|d| - 1]) * 16 + HexDigitValue(d[|d| - 1])
  }

  /** Reading back the digits `NatToString` writes gives the number. */
  lemma {:induction false} NatToStringValue(n: nat)
    ensures DigitsValue(NatToString(n)) == n
    decreases n
  {
    if n >= 10 {
      NatToStringValue(n / 10);
      var s := NatToString(n);
      assert s[..|s| - 1] == NatToString(n / 10);
    }
  }

  /** Length of the longest prefix of decimal digits. */
  function DigitPrefix(s: string): (k: nat)
    ensures k <= |s| && AllDigits(s[..k])
    ensures k < |s| ==> !IsDigit(s[k])
  {
    if s != [] && IsDigit(s[0]) then
      var k := 1 + DigitPrefix(s[1..]);
      assert s[..k] == [s[0]] + s[1..][..k - 1];
      k
    else 0
  }

  /** Length of the longest prefix of hexadecimal digits. */
  function HexPrefix(s: string): (k: nat)
    ensures k <= |s| && AllHexDigits(s[..k])
    ensures k < |s| ==> !IsHexDigit(s[k])
  {
    if s != [] && IsHexDigit(s[0]) then
      var k := 1 + HexPrefix(s[1..]);
      assert s[..k] == [s[0]] + s[1..][..k - 1];
      k
    else 0
  }

  /** The digits `parseInt` reads after the sign: a `0x`/`0X` prefix
      switches to hexadecimal; the longest run of digits that follows is
      read and the rest ignored; no digit at all gives NaN (`None`). */
  function ParseMagnitude(u: string): Option<nat> {
    if |u| >= 2 && u[0] == '0' && (u[1] == 'x' || u[1] == 'X') then
      var h := HexPrefix(u[2..]);
      if h == 0 then None else Some(HexDigitsValue(u[2..][..h]))
    else
      var k := DigitPrefix(u);
      if k == 0 then None else Some(DigitsValue(u[..k]))
  }

  /** `parseInt` once leading white space is gone: one optional sign. */
  function ParseSigned(t: string): Option<int> {
    var negative := t != [] && t[0] == '-';
    var u := if t != [] && (t[0] == '-' || t[0] == '+') then t[1..] else t;
    match ParseMagnitude(u)
    case None => None
    case Some(m) => Some(if negative then -(m as int) else m as int)
  }

  /** `parseInt(s)` without a radix; `None` stands for NaN. A string of
      decimal digits reads as the number it writes. */
  function ParseInt(s: string): (r: Option<int>)
    ensures s != [] && AllDigits(s) ==> r == Some(DigitsValue(s))
  {
    DigitsRead(s);
    ParseSigned(TrimStart(s))
  }

  /** A string of decimal digits is read in full, as a positive number. */
  lemma DigitsRead(s: string)
    ensures s != [] && AllDigits(s) ==> ParseSigned(TrimStart(s)) == Some(DigitsValue(s))
  {
    if s != [] && AllDigits(s) {
      assert !IsSpace(s[0]);
      assert TrimStart(s) == s;
      DigitPrefixAll(s);
      assert s[..|s|] == s;
    }
  }

  /** A string of digits is read in full. */
  lemma DigitPrefixAll(s: string)
    requires AllDigits(s)
    ensures DigitPrefix(s) == |s|
  {
  }

  /** The digits `toString` writes are read back by `parseInt`. */
  lemma ParseMagnitudeOfNat(m: nat)
    ensures ParseMagnitude(NatToString(m)) == Some(m)
  {
    var d := NatToString(m);
    NatToStringValue(m);
    DigitPrefixAll(d);
    assert d[..|d|] == d;
  }

  /** `parseInt(String(n)) === n` for every integer `n`. */
  lemma ParseIntToString(n: int)
    ensures ParseInt(IntToString(n)) == Some(n)
  {
    var s := IntToString(n);
    assert !IsSpace(s[0]);
    assert TrimStart(s) == s;
    if n < 0 {
      ParseMagnitudeOfNat(-n);
      assert s[1..] == NatToString(-n);
    } else {
      ParseMagnitudeOfNat(n);
    }
  }

  /** A string whose first character is neither blank, a sign nor a digit
      reads as NaN. */
  lemma ParseIntNaN(s: string)
    requires s != [] && !IsSpace(s[0]) && !IsDigit(s[0]) && s[0] != '-' && s[0] != '+'
    ensures ParseInt(s) == None
  {
    assert TrimStart(s) == s;
  }

  // ---------------------------------------------------------------------
  // Truthiness of optional values (`!x`, `x || y`)

  /** A string value is truthy when present and non-empty. */
  predicate TruthyString(o: Option<string>) {
    o.Some? && o.value != ""
  }

  /** A number value is truthy when present and non-zero. */
  predicate TruthyInt(o: Option<int>) {
    o.Some? && o.value != 0
  }

  /** `a || b` on optional strings. */
  function OrString(a: Option<string>, b: Option<string>): (r: Option<string>)
    ensures TruthyString(a) ==> r == a
    ensures !TruthyString(a) ==> r == b
  {
    if TruthyString(a) then a else b
  }

  /** `a || b` on optional numbers. */
  function OrInt(a: Option<int>, b: Option<int>): (r: Option<int>)
    ensures TruthyInt(a) ==> r == a
    ensures !TruthyInt(a) ==> r == b
  {
    if TruthyInt(a) then a else b
  }
}
