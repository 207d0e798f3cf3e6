/** The JavaScript string operations the source relies on, with the laws the
    rest of the model needs: `split` on one character and its inverse `join`,
    `includes`, `startsWith`, and decimal rendering of integers. */
module Strings {

  /** `s.startsWith(prefix)`. */
  predicate StartsWith(s: string, prefix: string) {
    |prefix| <= |s| && s[..|prefix|] == prefix
  }

  /** `sub` occurs in `s` starting at index `i`. */
  predicate OccursAt(s: string, sub: string, i: int) {
    0 <= i && i + |sub| <= |s| && s[i..i + |sub|] == sub
  }

  /** `s.includes(sub)`: some window of `s` equals `sub`. */
  predicate Contains(s: string, sub: string) {
    exists i :: 0 <= i <= |s| && OccursAt(s, sub, i)
  }

  /** `s.split(sep)` for a one-character separator: the maximal pieces between
      separators, always at least one (`"".split(":")` is `[""]`). */
  function Split(s: string, sep: char): (parts: seq<string>)
    ensures |parts| >= 1
    decreases |s|
  {
    if |s| == 0 then [""]
    else
      var rest := Split(s[1..], sep);
      if s[0] == sep then [""] + rest
      else [[s[0]] + rest[0]] + rest[1..]
  }

  /** The first piece of a split is a prefix of the string, followed by the
      separator when there is more than one piece. */
  lemma {:induction false} SplitHead(s: string, sep: char)
    ensures StartsWith(s, Split(s, sep)[0])
    ensures |Split(s, sep)| >= 2 ==> StartsWith(s, Split(s, sep)[0] + [sep])
    decreases |s|
  {
    if |s| > 0 {
      SplitHead(s[1..], sep);
      var rest := Split(s[1..], sep);
      if s[0] != sep {
        var head := [s[0]] + rest[0];
        assert s[..|head|] == [s[0]] + s[1..][..|rest[0]|];
        if |rest| >= 2 {
          assert s[..|head| + 1] == [s[0]] + s[1..][..|rest[0]| + 1];
        }
      }
    }
  }

  /** `parts.join(sep)`. */
  function Join(parts: seq<string>, sep: char): string
    requires |parts| >= 1
    decreases |parts|
  {
    if |parts| == 1 then parts[0] else parts[0] + [sep] + Join(parts[1..], sep)
  }

  /** A window can only equal `sub` if every character of `sub` occurs in `s`. */
  lemma MissingCharNotContained(s: string, sub: string, c: char)
    requires c in sub && c !in s
    ensures !Contains(s, sub)
  {
    var k :| 0 <= k < |sub| && sub[k] == c;
    forall i | 0 <= i <= |s|
      ensures !OccursAt(s, sub, i)
    {
      if i + |sub| <= |s| {
        assert s[i..i + |sub|][k] == s[i + k] != c;
      }
    }
  }

  /** A string shorter than `sub` cannot contain it; one of the same length contains it only by being it. */
  lemma ShortContains(s: string, sub: string)
    requires |s| <= |sub|
    ensures Contains(s, sub) <==> s == sub
  {
    if s == sub {
      assert OccursAt(s, sub, 0);
    }
  }

  /** An occurrence of a string free of `c` lies on one side of a `c`. */
  lemma ContainsAroundSep(a: string, b: string, c: char, sub: string)
    requires c !in sub
    ensures Contains(a + [c] + b, sub) <==> Contains(a, sub) || Contains(b, sub)
  {
    var s := a + [c] + b;
    forall i | 0 <= i <= |s|
      ensures OccursAt(s, sub, i) ==> Contains(a, sub) || Contains(b, sub)
    {
      if i + |sub| <= |a| {
        assert s[i..i + |sub|] == a[i..i + |sub|];
        if OccursAt(s, sub, i) {
          assert OccursAt(a, sub, i);
        }
      } else if i > |a| {
        var j := i - |a| - 1;
        if i + |sub| <= |s| {
          assert s[i..i + |sub|] == b[j..j + |sub|];
        }
        if OccursAt(s, sub, i) {
          assert OccursAt(b, sub, j);
        }
      } else if i + |sub| <= |s| {
        assert s[i..i + |sub|][|a| - i] == c;
        assert !OccursAt(s, sub, i);
      }
    }
    forall i | 0 <= i <= |a| && OccursAt(a, sub, i)
      ensures OccursAt(s, sub, i)
    {
      assert s[i..i + |sub|] == a[i..i + |sub|];
    }
    forall i | 0 <= i <= |b| && OccursAt(b, sub, i)
      ensures OccursAt(s, sub, |a| + 1 + i)
    {
      assert s[|a| + 1 + i..|a| + 1 + i + |sub|] == b[i..i + |sub|];
    }
  }

  /** A separator-free string occurs in a join only inside one of the pieces. */
  lemma {:induction false} JoinAvoids(parts: seq<string>, sep: char, sub: string)
    requires |parts| >= 1 && sep !in sub
    requires forall k :: 0 <= k < |parts| ==> !Contains(parts[k], sub)
    ensures !Contains(Join(parts, sep), sub)
    decreases |parts|
  {
    if |parts| > 1 {
      JoinAvoids(parts[1..], sep, sub);
      ContainsAroundSep(parts[0], Join(parts[1..], sep), sep, sub);
    }
  }

  /** No separator survives in a piece. */
  lemma {:induction false} SplitPiecesFree(s: string, sep: char)
    ensures forall k :: 0 <= k < |Split(s, sep)| ==> sep !in Split(s, sep)[k]
    decreases |s|
  {
    if |s| > 0 {
      SplitPiecesFree(s[1..], sep);
    }
  }

  /** A string without the separator is one piece. */
  lemma {:induction false} SplitNoSep(s: string, sep: char)
    requires sep !in s
    ensures Split(s, sep) == [s]
    decreases |s|
  {
    if |s| > 0 {
      SplitNoSep(s[1..], sep);
      assert [s[0]] + s[1..] == s;
    }
  }

  /** A string holding the separator has at least two pieces. */
  lemma {:induction false} SplitManyPieces(s: string, sep: char)
    requires sep in s
    ensures |Split(s, sep)| >= 2
    decreases |s|
  {
    if s[0] != sep {
      SplitManyPieces(s[1..], sep);
    }
  }

  /** A separator between two strings splits them apart. */
  lemma {:induction false} SplitAroundSep(a: string, b: string, sep: char)
    ensures Split(a + [sep] + b, sep) == Split(a, sep) + Split(b, sep)
    decreases |a|
  {
    if |a| == 0 {
      assert a + [sep] + b == [sep] + b;
      assert ([sep] + b)[1..] == b;
    } else {
      var s := a + [sep] + b;
      assert s[0] == a[0];
      assert s[1..] == a[1..] + [sep] + b;
      SplitAroundSep(a[1..], b, sep);
    }
  }

  /** Joining the pieces gives back the string. */
  lemma {:induction false} JoinSplit(s: string, sep: char)
    ensures Join(Split(s, sep), sep) == s
    decreases |s|
  {
    if |s| > 0 {
      JoinSplit(s[1..], sep);
      var rest := Split(s[1..], sep);
      if s[0] == sep {
        assert Join([""] + rest, sep) == "" + [sep] + Join(rest, sep);
        assert s == [sep] + s[1..];
      } else {
        var parts := [[s[0]] + rest[0]] + rest[1..];
        if |rest| == 1 {
          assert Join(parts, sep) == [s[0]] + rest[0];
        } else {
          assert parts[1..] == rest[1..];
          assert Join(rest, sep) == rest[0] + [sep] + Join(rest[1..], sep);
          assert Join(parts, sep) == [s[0]] + rest[0] + [sep] + Join(rest[1..], sep);
        }
        assert s == [s[0]] + s[1..];
      }
    }
  }

  /** Splitting a join of separator-free pieces gives back the pieces. */
  lemma {:induction false} SplitJoin(parts: seq<string>, sep: char)
    requires |parts| >= 1
    requires forall k :: 0 <= k < |parts| ==> sep !in parts[k]
    ensures Split(Join(parts, sep), sep) == parts
    decreases |parts|
  {
    SplitNoSep(parts[0], sep);
    if |parts| > 1 {
      SplitJoin(parts[1..], sep);
      SplitAroundSep(parts[0], Join(parts[1..], sep), sep);
      assert [parts[0]] + parts[1..] == parts;
    }
  }

  /** The characters `0`..`9`. */
  predicate IsDigit(c: char) {
    '0' <= c <= '9'
  }

  function DigitChar(d: nat): (c: char)
    requires d < 10
    ensures IsDigit(c)
  {
    "0123456789"[d]
  }

  function DigitValue(c: char): (d: nat)
    requires IsDigit(c)
    ensures d < 10
  {
    (c as int - '0' as int) as nat
  }

  /** `String(n)` for a non-negative integer: its decimal digits, no leading zero. */
  function NatToString(n: nat): (s: string)
    decreases n
  {
    if n < 10 then [DigitChar(n)] else NatToString(n / 10) + [DigitChar(n % 10)]
  }

  /** `String(i)` for any integer (template literals render negatives with a minus sign). */
  function IntToString(i: int): string {
    if i < 0 then "-" + NatToString(-i) else NatToString(i)
  }

  /** The value of a string of decimal digits. */
  function DigitsValue(s: string): nat
    requires forall k :: 0 <= k < |s| ==> IsDigit(s[k])
    decreases |s|
  {
    if |s| == 0 then 0 else DigitsValue(s[..|s| - 1]) * 10 + DigitValue(s[|s| - 1])
  }

  /** The rendering is non-empty, all digits, starts with a non-zero digit unless
      it is "0", and reads back as the number. */
  lemma {:induction false} NatToStringDecimal(n: nat)
    ensures var s := NatToString(n);
      && 1 <= |s|
      && (forall k :: 0 <= k < |s| ==> IsDigit(s[k]))
      && (|s| > 1 ==> s[0] != '0')
      && DigitsValue(s) == n
    decreases n
  {
    var s := NatToString(n);
    if n >= 10 {
      NatToStringDecimal(n / 10);
      var p := NatToString(n / 10);
      assert s[..|s| - 1] == p;
      assert s[0] == p[0];
    }
  }

  /** Distinct numbers render differently. */
  lemma NatToStringInjective(m: nat, n: nat)
    requires NatToString(m) == NatToString(n)
    ensures m == n
  {
    NatToStringDecimal(m);
    NatToStringDecimal(n);
  }
}
