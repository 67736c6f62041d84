/**
 * The JavaScript string operations the front end relies on, over Unicode
 * scalar values: `trim`, `startsWith`, `includes`, `split` with a one-character
 * separator, `toLowerCase` as far as ASCII keywords can observe it, the UTF-16
 * `length`, and decimal rendering of integers.
 */
module Text {
  import opened Wrappers

  /**
   * ECMAScript WhiteSpace and LineTerminator code points: exactly what
   * `String.prototype.trim` strips and what the regular-expression class `\s`
   * matches.
   */
  predicate IsSpace(c: char)
  {
    c == '\t' || c == '\n' || c == '\U{000B}' || c == '\U{000C}' || c == '\r' || c == ' '
    || c == '\U{00A0}' || c == '\U{1680}' || ('\U{2000}' <= c <= '\U{200A}')
    || c == '\U{2028}' || c == '\U{2029}' || c == '\U{202F}' || c == '\U{205F}'
    || c == '\U{3000}' || c == '\U{FEFF}'
  }

  /** The ECMAScript line terminators, the characters the regular-expression `.` does not match. */
  predicate IsLineTerminator(c: char)
  {
    c == '\n' || c == '\r' || c == '\U{2028}' || c == '\U{2029}'
  }

  /** Every character is white space; `s.trim()` is then the empty (falsy) string. */
  predicate Blank(s: string)
  {
    forall i :: 0 <= i < |s| ==> IsSpace(s[i])
  }

  /** JavaScript truthiness of an optional string: present and non-empty. */
  predicate Truthy(s: Option<string>)
  {
    s.Some? && s.value != ""
  }

  function TrimStart(s: string): (r: string)
    ensures |r| <= |s| && r == s[|s| - |r|..]
    ensures r == [] || !IsSpace(r[0])
    ensures forall i :: 0 <= i < |s| - |r| ==> IsSpace(s[i])
  {
    if |s| > 0 && IsSpace(s[0]) then TrimStart(s[1..]) else s
  }

  function TrimEnd(s: string): (r: string)
    ensures |r| <= |s| && r == s[..|r|]
    ensures r == [] || !IsSpace(r[|r| - 1])
    ensures forall i :: |r| <= i < |s| ==> IsSpace(s[i])
  {
    if |s| > 0 && IsSpace(s[|s| - 1]) then TrimEnd(s[..|s| - 1]) else s
  }

  /** `String.prototype.trim`: the longest infix without white space at either end. */
  function Trim(s: string): (r: string)
    ensures r == [] || (!IsSpace(r[0]) && !IsSpace(r[|r| - 1]))
    ensures r == [] <==> Blank(s)
    ensures forall c :: c in r ==> c in s
  {
    TrimStartEnd(s);
    TrimEnd(TrimStart(s))
  }

  lemma TrimStartEnd(s: string)
    ensures var r := TrimEnd(TrimStart(s)); r == [] || (!IsSpace(r[0]) && !IsSpace(r[|r| - 1]))
    ensures TrimEnd(TrimStart(s)) == [] <==> Blank(s)
    ensures forall c :: c in TrimEnd(TrimStart(s)) ==> c in s
  {
    var t := TrimStart(s);
    var r := TrimEnd(t);
    if r != [] {
      assert r[0] == t[0];
    }
    assert forall c :: c in r ==> c in t;
  }

  /** A string already free of white space at both ends is its own trim. */
  lemma {:induction false} TrimOfTrimmed(s: string)
    requires s != [] && !IsSpace(s[0]) && !IsSpace(s[|s| - 1])
    ensures Trim(s) == s
  {
    assert TrimStart(s) == s;
    assert TrimEnd(s) == s;
  }

  /**
   * Trimming a string that starts with a non-space character keeps every
   * prefix of it that ends in a non-space character.
   */
  lemma TrimKeepsPrefix(s: string, p: string)
    requires |p| > 0 && StartsWith(s, p) && !IsSpace(p[0]) && !IsSpace(p[|p| - 1])
    ensures StartsWith(Trim(s), p)
  {
    assert TrimStart(s) == s;
    var r := TrimEnd(s);
    assert s[|p| - 1] == p[|p| - 1];
    assert |r| >= |p|;
    assert r[..|p|] == s[..|p|];
  }

  /** A leading space disappears under trimming. */
  lemma {:induction false} TrimLeadingSpace(x: string)
    ensures Trim(" " + x) == Trim(x)
  {
    assert (" " + x)[1..] == x;
    assert TrimStart(" " + x) == TrimStart(x);
  }

  /** `String.prototype.startsWith`. */
  predicate StartsWith(s: string, prefix: string)
  {
    |prefix| <= |s| && s[..|prefix|] == prefix
  }

  /** `String.prototype.includes`, scanning from left to right. */
  predicate Contains(s: string, t: string)
    decreases |s|
  {
    StartsWith(s, t) || (|s| > 0 && Contains(s[1..], t))
  }

  /** A string shorter than `t` does not contain it. */
  lemma {:induction false} ShorterNotContained(s: string, t: string)
    requires |s| < |t|
    ensures !Contains(s, t)
    decreases |s|
  {
    if |s| > 0 {
      ShorterNotContained(s[1..], t);
    }
  }

  /** `t` occurs in `s` starting at position `i`. */
  predicate OccursAt(s: string, t: string, i: nat)
  {
    i + |t| <= |s| && s[i..i + |t|] == t
  }

  /** `includes` holds exactly when `t` occurs at some position of `s`. */
  lemma {:induction false} ContainsIff(s: string, t: string)
    ensures Contains(s, t) <==> exists i: nat :: OccursAt(s, t, i)
    decreases |s|
  {
    if StartsWith(s, t) {
      assert OccursAt(s, t, 0);
    } else if |s| > 0 {
      ContainsIff(s[1..], t);
      if Contains(s[1..], t) {
        var i: nat :| OccursAt(s[1..], t, i);
        assert s[i + 1..i + 1 + |t|] == s[1..][i..i + |t|];
        assert OccursAt(s, t, i + 1);
      }
      if exists i: nat :: OccursAt(s, t, i) {
        var i: nat :| OccursAt(s, t, i);
        assert i != 0;
        assert s[1..][i - 1..i - 1 + |t|] == s[i..i + |t|];
        assert OccursAt(s[1..], t, i - 1);
      }
    }
  }

  /** The index of the first occurrence of `c` in `s`, or `|s|` when there is none (`indexOf` with -1 read as `|s|`). */
  function IndexOf(s: string, c: char): (i: nat)
    ensures i <= |s|
    ensures i < |s| ==> s[i] == c
    ensures forall k :: 0 <= k < i ==> s[k] != c
    ensures i == |s| <==> c !in s
  {
    if |s| == 0 then 0 else if s[0] == c then 0 else 1 + IndexOf(s[1..], c)
  }

  /** The text before the first `c` (all of `s` when there is none); `s.split(c)[0]`. */
  function Before(s: string, c: char): (r: string)
    ensures c !in r
    ensures StartsWith(s, r)
  {
    s[..IndexOf(s, c)]
  }

  /** `String.prototype.split` with a one-character separator. */
  function Split(s: string, sep: char): (parts: seq<string>)
    ensures |parts| >= 1
    ensures parts[0] == Before(s, sep)
    ensures sep in s <==> |parts| >= 2
    ensures forall i :: 0 <= i < |parts| ==> sep !in parts[i]
    decreases |s|
  {
    var i := IndexOf(s, sep);
    if i == |s| then [s] else [s[..i]] + Split(s[i + 1..], sep)
  }

  /** The second part of splitting `x`, `c`, `y` on `c`, when `x` holds no `c`, is `y` up to its first `c`. */
  lemma SplitAt(x: string, c: char, y: string)
    requires c !in x
    ensures c in x + [c] + y
    ensures Split(x + [c] + y, c)[1] == Before(y, c)
  {
    var s := x + [c] + y;
    IndexAfter(x, c, y);
    assert s[|x|] == c;
    assert s[|x| + 1..] == y;
  }

  /** `Array.prototype.join`. */
  function Join(parts: seq<string>, sep: string): string
  {
    if |parts| == 0 then "" else if |parts| == 1 then parts[0] else parts[0] + sep + Join(parts[1..], sep)
  }

  /** Each string with a space in front, as the parts after the first come out of splitting a `"; "`-joined list. */
  function Spaced(parts: seq<string>): (r: seq<string>)
    ensures |r| == |parts|
    ensures forall i :: 0 <= i < |parts| ==> r[i] == " " + parts[i]
  {
    if |parts| == 0 then [] else [" " + parts[0]] + Spaced(parts[1..])
  }

  /**
   * Splitting a `"; "`-joined list on `';'` gives back its parts, each after
   * the first with the space of the separator in front.
   */
  lemma {:induction false} SplitJoined(pre: string, parts: seq<string>)
    requires |parts| >= 1 && ';' !in pre
    requires forall i :: 0 <= i < |parts| ==> ';' !in parts[i]
    ensures Split(pre + Join(parts, "; "), ';') == [pre + parts[0]] + Spaced(parts[1..])
    decreases |parts|
  {
    var head := pre + parts[0];
    if |parts| == 1 {
      assert pre + Join(parts, "; ") == head;
      assert IndexOf(head, ';') == |head|;
    } else {
      var tail := Join(parts[1..], "; ");
      var s := pre + Join(parts, "; ");
      assert s == head + ";" + (" " + tail);
      IndexAfter(head, ';', " " + tail);
      assert s[..|head|] == head;
      assert s[|head| + 1..] == " " + tail;
      SplitJoined(" ", parts[1..]);
    }
  }

  /** Splitting a `"; "`-joined list on `';'` gives back its parts, each after the first with a space in front. */
  lemma SplitJoinedList(parts: seq<string>)
    requires |parts| >= 1
    requires forall i :: 0 <= i < |parts| ==> ';' !in parts[i]
    ensures Split(Join(parts, "; "), ';') == [parts[0]] + Spaced(parts[1..])
  {
    SplitJoined("", parts);
    assert "" + Join(parts, "; ") == Join(parts, "; ");
    assert "" + parts[0] == parts[0];
  }

  lemma IndexAfter(x: string, c: char, y: string)
    requires c !in x
    ensures IndexOf(x + [c] + y, c) == |x|
  {
    var s := x + [c] + y;
    assert s[|x|] == c;
    forall k | 0 <= k < |x| ensures s[k] != c {
      assert s[k] == x[k];
    }
  }

  predicate IsDigit(c: char)
  {
    '0' <= c <= '9'
  }

  function DigitChar(d: nat): (c: char)
    requires d < 10
    ensures IsDigit(c) && (c as int) - ('0' as int) == d
  {
    (('0' as int) + d) as char
  }

  /** Decimal rendering of a natural number, as `Number.prototype.toString` writes an integer. */
  function NatToString(n: nat): (s: string)
    ensures |s| >= 1 && forall i :: 0 <= i < |s| ==> IsDigit(s[i])
  {
    if n < 10 then [DigitChar(n)] else NatToString(n / 10) + [DigitChar(n % 10)]
  }

  /** `String(n)` for an integer `n`. */
  function IntToString(n: int): string
  {
    if n < 0 then "-" + NatToString(-n) else NatToString(n)
  }

  function DigitValue(c: char): (d: nat)
    requires IsDigit(c)
    ensures d < 10
  {
    (c as int) - ('0' as int)
  }

  /** The value of a string of decimal digits. */
  function DigitsValue(s: string): nat
    requires forall i :: 0 <= i < |s| ==> IsDigit(s[i])
  {
    if |s| == 0 then 0 else 10 * DigitsValue(s[..|s| - 1]) + DigitValue(s[|s| - 1])
  }

  /** Reads back an optionally signed decimal integer; `None` for anything else. */
  function ParseInt(s: string): Option<int>
  {
    if |s| >= 2 && s[0] == '-' && (forall i :: 1 <= i < |s| ==> IsDigit(s[i])) then Some(0 - DigitsValue(s[1..]) as int)
    else if |s| >= 1 && forall i :: 0 <= i < |s| ==> IsDigit(s[i]) then Some(DigitsValue(s))
    else None
  }

  lemma {:induction false} NatToStringValue(n: nat)
    ensures DigitsValue(NatToString(n)) == n
  {
    if n >= 10 {
      NatToStringValue(n / 10);
      var s := NatToString(n);
      assert s[..|s| - 1] == NatToString(n / 10);
    }
  }

  /** Decimal rendering is undone by parsing. */
  lemma IntToStringRoundTrip(n: int)
    ensures ParseInt(IntToString(n)) == Some(n)
  {
    var s := IntToString(n);
    if n < 0 {
      NatToStringValue(-n);
      assert s[1..] == NatToString(-n);
    } else {
      NatToStringValue(n);
      assert s[0] != '-';
    }
  }

  /** Distinct integers render differently. */
  lemma IntToStringInjective(m: int, n: int)
    requires IntToString(m) == IntToString(n)
    ensures m == n
  {
    IntToStringRoundTrip(m);
    IntToStringRoundTrip(n);
  }

  /** `String.prototype.length`: UTF-16 code units, two for a character outside the Basic Multilingual Plane. */
  function Utf16Length(s: string): (n: nat)
    ensures |s| <= n <= 2 * |s|
  {
    if |s| == 0 then 0 else (if s[0] as int >= 0x10000 then 2 else 1) + Utf16Length(s[1..])
  }

  /**
   * `toLowerCase` on one character, as far as it can produce ASCII: `A`-`Z`
   * and the KELVIN SIGN (U+212A, whose lower case is `k`). Every other
   * character is kept; its real lower case is not ASCII either.
   */
  function LowerChar(c: char): char
  {
    if 'A' <= c <= 'Z' then ((c as int) + 32) as char
    else if c == '\U{212A}' then 'k'
    else c
  }

  function ToLower(s: string): (r: string)
    ensures |r| == |s| && forall i :: 0 <= i < |s| ==> r[i] == LowerChar(s[i])
  {
    seq(|s|, i requires 0 <= i < |s| => LowerChar(s[i]))
  }

  /** Lower-casing twice is lower-casing once. */
  lemma ToLowerIdempotent(s: string)
    ensures ToLower(ToLower(s)) == ToLower(s)
  {
    forall i | 0 <= i < |s| ensures LowerChar(LowerChar(s[i])) == LowerChar(s[i]) {
    }
  }
}
