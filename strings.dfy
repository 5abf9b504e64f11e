/**
  Python's string conversions used by the core: `str(int)`, `int(str)`,
  `str.lower`, `sep.join(parts)`, `s.split(sep)` and the `in` test for
  substrings, over `string` (a sequence of characters).
 */
module Strings {
  import opened Wrappers

  predicate IsDigit(c: char) {
    '0' <= c <= '9'
  }

  predicate AllDigits(s: string) {
    forall i :: 0 <= i < |s| ==> IsDigit(s[i])
  }

  function DigitChar(d: nat): (c: char)
    requires d < 10
    ensures IsDigit(c)
  {
    ('0' as int + d) as char
  }

  function DigitValue(c: char): nat
    requires IsDigit(c)
  {
    c as int - '0' as int
  }

  /** `str(n)` for a non-negative integer: decimal digits, no leading zero. */
  function NatToString(n: nat): string {
    if n < 10 then [DigitChar(n)] else NatToString(n / 10) + [DigitChar(n % 10)]
  }

  /** `str(n)` is a non-empty run of digits. */
  lemma {:induction false} NatToStringDigits(n: nat)
    ensures |NatToString(n)| > 0 && AllDigits(NatToString(n))
  {
    if n >= 10 {
      NatToStringDigits(n / 10);
    }
  }

  /** `str(i)` for any integer: a minus sign in front of the digits of `-i`. */
  function IntToString(i: int): string {
    if i < 0 then "-" + NatToString(-i) else NatToString(i)
  }

  /** The value of a string of decimal digits. */
  function DigitsValue(s: string): nat
    requires AllDigits(s)
  {
    if s == [] then 0 else DigitsValue(s[..|s| - 1]) * 10 + DigitValue(s[|s| - 1])
  }

  /**
    `int(s)` on an optionally signed run of ASCII decimal digits; `None` for
    any other text, including the forms Python's `int` also accepts
    (surrounding whitespace, `_` between digits, non-ASCII digits).
   */
  function ParseInt(s: string): Option<int> {
    if |s| > 1 && s[0] == '-' && AllDigits(s[1..]) then Some(-(DigitsValue(s[1..]) as int))
    else if |s| > 1 && s[0] == '+' && AllDigits(s[1..]) then Some(DigitsValue(s[1..]))
    else if |s| > 0 && AllDigits(s) then Some(DigitsValue(s))
    else None
  }

  lemma {:induction false} NatToStringRoundTrip(n: nat)
    ensures AllDigits(NatToString(n)) && DigitsValue(NatToString(n)) == n
  {
    NatToStringDigits(n);
    if n >= 10 {
      var s := NatToString(n);
      assert s[..|s| - 1] == NatToString(n / 10);
      NatToStringRoundTrip(n / 10);
    }
  }

  /** `int(str(i)) == i`: the integer getters of the config file read back what the setters wrote. */
  lemma IntToStringRoundTrip(i: int)
    ensures ParseInt(IntToString(i)) == Some(i)
  {
    NatToStringRoundTrip(if i < 0 then -i else i);
    if i < 0 {
      assert IntToString(i)[1..] == NatToString(-i);
    }
  }

  /** Every character of `str(i)` is a digit or the minus sign. */
  lemma IntToStringChars(i: int, k: nat)
    requires k < |IntToString(i)|
    ensures IsDigit(IntToString(i)[k]) || IntToString(i)[k] == '-'
  {
    NatToStringDigits(if i < 0 then -i else i);
  }

  function LowerChar(c: char): char {
    if 'A' <= c <= 'Z' then (c as int - 'A' as int + 'a' as int) as char else c
  }

  /** `s.lower()` restricted to ASCII letters. */
  function Lower(s: string): (r: string)
    ensures |r| == |s|
    ensures forall i :: 0 <= i < |s| ==> r[i] == LowerChar(s[i])
  {
    seq(|s|, i requires 0 <= i < |s| => LowerChar(s[i]))
  }

  /** `sep.join(parts)` */
  function Join(parts: seq<string>, sep: string): string {
    if |parts| == 0 then ""
    else if |parts| == 1 then parts[0]
    else parts[0] + sep + Join(parts[1..], sep)
  }

  /** `s.split(sep)` for a one-character separator: empty pieces are kept, and there is always one piece. */
  function Split(s: string, sep: char): (parts: seq<string>)
    ensures |parts| >= 1
  {
    if s == [] then [""]
    else
      var rest := Split(s[1..], sep);
      if s[0] == sep then [""] + rest
      else [[s[0]] + rest[0]] + rest[1..]
  }

  /** Joining the pieces back with the separator gives the original string. */
  lemma {:induction false} JoinSplit(s: string, sep: char)
    ensures Join(Split(s, sep), [sep]) == s
  {
    if s != [] {
      var rest := Split(s[1..], sep);
      JoinSplit(s[1..], sep);
      if s[0] == sep {
        assert Split(s, sep)[1..] == rest;
      } else if |rest| > 1 {
        var parts := Split(s, sep);
        assert parts[1..] == rest[1..];
        calc {
          Join(parts, [sep]);
          ([s[0]] + rest[0]) + [sep] + Join(rest[1..], [sep]);
          [s[0]] + (rest[0] + [sep] + Join(rest[1..], [sep]));
          [s[0]] + s[1..];
        }
      }
    }
  }

  /** No piece contains the separator. */
  lemma {:induction false} SplitPiecesOmitSeparator(s: string, sep: char, k: nat)
    requires k < |Split(s, sep)|
    ensures sep !in Split(s, sep)[k]
  {
    if s != [] {
      var rest := Split(s[1..], sep);
      if s[0] == sep {
        if k > 0 { SplitPiecesOmitSeparator(s[1..], sep, k - 1); }
      } else if k == 0 {
        SplitPiecesOmitSeparator(s[1..], sep, 0);
      } else {
        SplitPiecesOmitSeparator(s[1..], sep, k);
      }
    }
  }

  /** `t` occurs in `s` starting at position `i`. */
  predicate ContainsAt<T(==)>(s: seq<T>, t: seq<T>, i: int) {
    0 <= i <= |s| - |t| && s[i..i + |t|] == t
  }

  /** Python's `t in s` for strings; on other sequences, `t` occurs in `s` as a contiguous run. */
  predicate Contains<T(==)>(s: seq<T>, t: seq<T>) {
    exists i | 0 <= i <= |s| - |t| :: ContainsAt(s, t, i)
  }

  lemma ContainsSelf<T>(t: seq<T>)
    ensures Contains(t, t)
  {
    assert ContainsAt(t, t, 0);
  }

  lemma ContainsInLeft<T>(a: seq<T>, b: seq<T>, t: seq<T>)
    requires Contains(a, t)
    ensures Contains(a + b, t)
  {
    var i :| 0 <= i <= |a| - |t| && ContainsAt(a, t, i);
    assert (a + b)[i..i + |t|] == t;
    assert ContainsAt(a + b, t, i);
  }

  lemma ContainsInRight<T>(a: seq<T>, b: seq<T>, t: seq<T>)
    requires Contains(b, t)
    ensures Contains(a + b, t)
  {
    var i :| 0 <= i <= |b| - |t| && ContainsAt(b, t, i);
    assert (a + b)[|a| + i..|a| + i + |t|] == t;
    assert ContainsAt(a + b, t, |a| + i);
  }

  lemma ContainsInMiddle<T>(head: seq<T>, t: seq<T>, tail: seq<T>)
    ensures Contains(head + t + tail, t)
  {
    assert (head + t + tail)[|head|..|head| + |t|] == t;
    assert ContainsAt(head + t + tail, t, |head|);
  }

  /** How many times `x` occurs in `s`. */
  function Occurrences<T(==)>(s: seq<T>, x: T): nat {
    if s == [] then 0 else Occurrences(s[..|s| - 1], x) + (if s[|s| - 1] == x then 1 else 0)
  }

  lemma {:induction false} OccurrencesAppend<T>(a: seq<T>, b: seq<T>, x: T)
    ensures Occurrences(a + b, x) == Occurrences(a, x) + Occurrences(b, x)
    decreases |b|
  {
    if b == [] {
      assert a + b == a;
    } else {
      assert (a + b)[..|a + b| - 1] == a + b[..|b| - 1];
      OccurrencesAppend(a, b[..|b| - 1], x);
    }
  }

  lemma {:induction false} OccurrencesAbsent<T>(s: seq<T>, x: T)
    requires x !in s
    ensures Occurrences(s, x) == 0
  {
    if s != [] {
      OccurrencesAbsent(s[..|s| - 1], x);
    }
  }

  /** A run contained in `s` holds no more copies of any element than `s` does. */
  lemma ContainsOccurrences<T>(s: seq<T>, t: seq<T>, x: T)
    requires Contains(s, t)
    ensures Occurrences(t, x) <= Occurrences(s, x)
  {
    var i :| 0 <= i <= |s| - |t| && ContainsAt(s, t, i);
    assert s == s[..i] + t + s[i + |t|..];
    OccurrencesAppend(s[..i] + t, s[i + |t|..], x);
    OccurrencesAppend(s[..i], t, x);
  }

  /** A sequence holds every element of each run it contains. */
  lemma ContainsChars<T>(s: seq<T>, t: seq<T>, k: nat)
    requires Contains(s, t) && k < |t|
    ensures t[k] in s
  {
    var i :| 0 <= i <= |s| - |t| && ContainsAt(s, t, i);
    assert s[i + k] == t[k];
  }
}
