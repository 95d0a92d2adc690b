/**
 * The few pieces of Python's string handling the core relies on:
 * `sep.join(parts)`, `str(n)` for integers, `s.split(sep)`, ASCII `lower()`
 * and the substring test `sub in s`.
 */
module Text {
  import opened Wrappers

  // ---------------------------------------------------------------------
  // sep.join(parts)

  function Join(parts: seq<string>, sep: string): string
    decreases |parts|
  {
    if |parts| == 0 then ""
    else if |parts| == 1 then parts[0]
    else parts[0] + sep + Join(parts[1..], sep)
  }

  function TotalLength(parts: seq<string>): nat
    decreases |parts|
  {
    if |parts| == 0 then 0 else |parts[0]| + TotalLength(parts[1..])
  }

  /** A join is as long as its parts plus one separator between each neighbouring pair. */
  lemma {:induction false} JoinLength(parts: seq<string>, sep: string)
    requires |parts| > 0
    ensures |Join(parts, sep)| == TotalLength(parts) + (|parts| - 1) * |sep|
    decreases |parts|
  {
    if |parts| > 1 {
      JoinLength(parts[1..], sep);
    }
  }

  // ---------------------------------------------------------------------
  // s.split(sep): leftmost, non-overlapping occurrences of a non-empty separator

  predicate StartsWith(s: string, prefix: string) {
    |prefix| <= |s| && s[..|prefix|] == prefix
  }

  function Split(s: string, sep: string): (r: seq<string>)
    requires |sep| > 0
    ensures |r| > 0
    decreases |s|
  {
    if |s| < |sep| then [s]
    else if StartsWith(s, sep) then [""] + Split(s[|sep|..], sep)
    else
      var rest := Split(s[1..], sep);
      [[s[0]] + rest[0]] + rest[1..]
  }

  const ListSeparator := ", "

  lemma {:induction false} SplitWithoutComma(p: string)
    requires ',' !in p
    ensures Split(p, ListSeparator) == [p]
    decreases |p|
  {
    if |p| >= |ListSeparator| {
      assert p[0] != ',';
      assert !StartsWith(p, ListSeparator);
      assert ',' !in p[1..] by {
        forall i | 0 <= i < |p[1..]| ensures p[1..][i] != ',' {
          assert p[1..][i] == p[i + 1];
        }
      }
      SplitWithoutComma(p[1..]);
      assert [p[0]] + p[1..] == p;
    }
  }

  lemma {:induction false} SplitAfterPart(p: string, t: string)
    requires ',' !in p
    ensures Split(p + ListSeparator + t, ListSeparator) == [p] + Split(t, ListSeparator)
    decreases |p|
  {
    var s := p + ListSeparator + t;
    if |p| == 0 {
      assert StartsWith(s, ListSeparator);
      assert s[|ListSeparator|..] == t;
    } else {
      assert s[0] == p[0] && p[0] != ',';
      assert !StartsWith(s, ListSeparator);
      assert ',' !in p[1..] by {
        forall i | 0 <= i < |p[1..]| ensures p[1..][i] != ',' {
          assert p[1..][i] == p[i + 1];
        }
      }
      assert s[1..] == p[1..] + ListSeparator + t;
      SplitAfterPart(p[1..], t);
      assert [p[0]] + p[1..] == p;
    }
  }

  /** Splitting on ", " undoes joining with ", " when no part holds a comma. */
  lemma {:induction false} SplitJoin(parts: seq<string>)
    requires |parts| > 0
    requires forall i :: 0 <= i < |parts| ==> ',' !in parts[i]
    ensures Split(Join(parts, ListSeparator), ListSeparator) == parts
    decreases |parts|
  {
    if |parts| == 1 {
      SplitWithoutComma(parts[0]);
    } else {
      SplitAfterPart(parts[0], Join(parts[1..], ListSeparator));
      SplitJoin(parts[1..]);
      assert [parts[0]] + parts[1..] == parts;
    }
  }

  // ---------------------------------------------------------------------
  // str(n) for Python integers, and its inverse

  predicate IsDigit(c: char) { '0' <= c <= '9' }

  predicate AllDigits(s: string) {
    forall i :: 0 <= i < |s| ==> IsDigit(s[i])
  }

  function DigitChar(d: nat): char
    requires d < 10
  {
    "0123456789"[d]
  }

  function NatToString(n: nat): (r: string)
    ensures |r| > 0 && AllDigits(r)
    decreases n
  {
    if n < 10 then [DigitChar(n)] else NatToString(n / 10) + [DigitChar(n % 10)]
  }

  function IntToString(i: int): (r: string)
    ensures |r| > 0
    ensures ',' !in r
  {
    if i < 0 then "-" + NatToString(-i) else NatToString(i)
  }

  function DigitsValue(s: string): nat
    requires AllDigits(s)
    decreases |s|
  {
    if |s| == 0 then 0
    else DigitsValue(s[..|s| - 1]) * 10 + ((s[|s| - 1] as int) - ('0' as int))
  }

  /** Reads an optional `-` followed by decimal digits; every other string is refused (a subset of what Python's `int` accepts, enough to read back `str`). */
  function ParseInt(s: string): Option<int> {
    if |s| > 1 && s[0] == '-' && AllDigits(s[1..]) then Some(-(DigitsValue(s[1..]) as int))
    else if |s| > 0 && AllDigits(s) then Some(DigitsValue(s) as int)
    else None
  }

  lemma {:induction false} DigitsValueOfNatToString(n: nat)
    ensures DigitsValue(NatToString(n)) == n
    decreases n
  {
    if n >= 10 {
      var s := NatToString(n);
      assert s[..|s| - 1] == NatToString(n / 10);
      DigitsValueOfNatToString(n / 10);
    }
  }

  /** A minus sign followed by digits reads as the negated value of the digits. */
  lemma ParseSigned(digits: string)
    requires |digits| > 0 && AllDigits(digits)
    ensures ParseInt("-" + digits) == Some(-(DigitsValue(digits) as int))
  {
    var s := "-" + digits;
    assert s[1..] == digits;
  }

  /** Digits alone read as their value. */
  lemma ParseUnsigned(digits: string)
    requires |digits| > 0 && AllDigits(digits)
    ensures ParseInt(digits) == Some(DigitsValue(digits) as int)
  {
    assert IsDigit(digits[0]);
  }

  lemma ParseNegative(i: int)
    requires i < 0
    ensures ParseInt(IntToString(i)) == Some(i)
  {
    var n: nat := -i;
    var digits := NatToString(n);
    assert IntToString(i) == "-" + digits;
    DigitsValueOfNatToString(n);
    ParseSigned(digits);
  }

  lemma ParseNonNegative(i: int)
    requires i >= 0
    ensures ParseInt(IntToString(i)) == Some(i)
  {
    ParseUnsigned(NatToString(i));
    DigitsValueOfNatToString(i);
  }

  /** Reading back `str(i)` gives `i`. */
  lemma ParseIntToString(i: int)
    ensures ParseInt(IntToString(i)) == Some(i)
  {
    if i < 0 {
      ParseNegative(i);
    } else {
      ParseNonNegative(i);
    }
  }

  // ---------------------------------------------------------------------
  // s.lower() on ASCII letters, and `sub in s`

  function LowerChar(c: char): char {
    if 'A' <= c <= 'Z' then (c as int + 32) as char else c
  }

  function Lower(s: string): (r: string)
    ensures |r| == |s|
    ensures forall i :: 0 <= i < |s| ==> r[i] == LowerChar(s[i])
  {
    seq(|s|, i requires 0 <= i < |s| => LowerChar(s[i]))
  }

  /** Lower-casing twice is lower-casing once. */
  lemma LowerIdempotent(s: string)
    ensures Lower(Lower(s)) == Lower(s)
  {
    var once := Lower(s);
    var twice := Lower(once);
    forall i | 0 <= i < |s| ensures twice[i] == once[i] {
      assert once[i] == LowerChar(s[i]);
    }
  }

  /** `sub in s`: some suffix of `s` starts with `sub`. */
  predicate Contains(s: string, sub: string)
    decreases |s|
  {
    StartsWith(s, sub) || (|s| > 0 && Contains(s[1..], sub))
  }

  /** A string that holds `sub` verbatim anywhere contains it. */
  lemma {:induction false} ContainsWithin(pre: string, sub: string, post: string)
    ensures Contains(pre + sub + post, sub)
    decreases |pre|
  {
    if |pre| == 0 {
      assert pre + sub + post == sub + post;
      assert (sub + post)[..|sub|] == sub;
    } else {
      assert (pre + sub + post)[1..] == pre[1..] + sub + post;
      ContainsWithin(pre[1..], sub, post);
    }
  }

  /** Conversely, a string that contains `sub` is some text, then `sub`, then some more text. */
  lemma {:induction false} ContainsOccurs(s: string, sub: string) returns (pre: string, post: string)
    requires Contains(s, sub)
    ensures s == pre + sub + post
    decreases |s|
  {
    if StartsWith(s, sub) {
      pre, post := "", s[|sub|..];
      assert s == s[..|sub|] + s[|sub|..];
    } else {
      var p, q := ContainsOccurs(s[1..], sub);
      pre, post := [s[0]] + p, q;
      assert s == [s[0]] + s[1..];
    }
  }

  /** `sub in s` holds exactly when `sub` occurs in `s` verbatim. */
  lemma ContainsExactly(s: string, sub: string)
    ensures Contains(s, sub) <==> exists pre, post :: s == pre + sub + post
  {
    if Contains(s, sub) {
      var pre, post := ContainsOccurs(s, sub);
    }
    if exists pre, post :: s == pre + sub + post {
      var pre, post :| s == pre + sub + post;
      ContainsWithin(pre, sub, post);
    }
  }

  /** A string lacking one of the characters of `sub` does not contain `sub`. */
  lemma MissingCharNotContained(s: string, sub: string, c: char)
    requires c in sub && c !in s
    ensures !Contains(s, sub)
  {
    if Contains(s, sub) {
      var pre, post := ContainsOccurs(s, sub);
    }
  }
}
