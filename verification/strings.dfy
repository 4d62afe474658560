/**
  The JavaScript string operations the code relies on, over `seq<char>`:
  `split` with a one-character separator, `join`, `filter(Boolean)`,
  `includes`, `indexOf`, `replace` with a string pattern, a `$`-anchored
  suffix strip, `split(c).pop()`, ASCII `toLowerCase`, and the decimal
  rendering of an integer inside a template literal.
 */
module Strings {
  import opened Base

  /* ---------------------------------------------------------------- join */

  /** `parts.join(sep)`: the empty array joins to "". */
  function Join(parts: seq<string>, sep: string): string
    decreases |parts|
  {
    if |parts| == 0 then ""
    else if |parts| == 1 then parts[0]
    else parts[0] + sep + Join(parts[1..], sep)
  }

  /** Every interior element of a join sits between two separators. */
  lemma {:induction false} JoinHasInterior(parts: seq<string>, sep: string, k: nat)
    requires 0 < k < |parts| - 1
    ensures Contains(Join(parts, sep), sep + parts[k] + sep)
    decreases k
  {
    var tail := parts[1..];
    if k == 1 {
      assert tail[0] == parts[1] && tail[1..] == parts[2..];
      assert Join(parts, sep) == parts[0] + (sep + parts[1] + sep) + Join(parts[2..], sep);
      OccursInfix(parts[0], sep + parts[1] + sep, Join(parts[2..], sep));
    } else {
      JoinHasInterior(tail, sep, k - 1);
      assert tail[k - 1] == parts[k];
      ContainedInSuffix(parts[0] + sep, Join(tail, sep), sep + parts[k] + sep);
    }
  }

  /** A join of at least two elements starts with the first one and a separator. */
  lemma JoinStartsWithFirst(parts: seq<string>, sep: string)
    requires |parts| >= 2
    ensures StartsWith(Join(parts, sep), parts[0] + sep)
  {
    assert Join(parts, sep) == (parts[0] + sep) + Join(parts[1..], sep);
  }

  /** A join of at least two elements ends with a separator and the last one. */
  lemma {:induction false} JoinEndsWithLast(parts: seq<string>, sep: string)
    requires |parts| >= 2
    ensures EndsWith(Join(parts, sep), sep + parts[|parts| - 1])
    decreases |parts|
  {
    var tail := parts[1..];
    if |parts| == 2 {
      assert Join(parts, sep) == parts[0] + (sep + parts[1]);
    } else {
      JoinEndsWithLast(tail, sep);
      assert tail[|tail| - 1] == parts[|parts| - 1];
      assert Join(parts, sep) == (parts[0] + sep) + Join(tail, sep);
    }
  }

  /* --------------------------------------------------------------- split */

  /** `s.split(c)`: the pieces between occurrences of `c`; never empty, and
      "" splits to [""]. */
  function Split(s: string, c: char): (r: seq<string>)
    ensures |r| >= 1
    ensures forall k :: 0 <= k < |r| ==> c !in r[k]
    decreases |s|
  {
    if |s| == 0 then [""]
    else
      var rest := Split(s[1..], c);
      if s[0] == c then [""] + rest
      else [[s[0]] + rest[0]] + rest[1..]
  }

  /** Splitting and joining back with the same separator gives the input. */
  lemma {:induction false} JoinSplit(s: string, c: char)
    ensures Join(Split(s, c), [c]) == s
    decreases |s|
  {
    if |s| > 0 {
      var rest := Split(s[1..], c);
      JoinSplit(s[1..], c);
      if s[0] == c {
        var r := [""] + rest;
        assert r[0] == "" && r[1..] == rest;
        assert Join(r, [c]) == "" + [c] + Join(rest, [c]);
        assert s == [s[0]] + s[1..];
      } else if |rest| == 1 {
        assert s == [s[0]] + s[1..];
      } else {
        var r := [[s[0]] + rest[0]] + rest[1..];
        assert r[1..] == rest[1..];
        assert s == [s[0]] + s[1..];
      }
    }
  }

  /** A separator-free string splits to itself. */
  lemma {:induction false} SplitSeparatorFree(s: string, c: char)
    requires c !in s
    ensures Split(s, c) == [s]
    decreases |s|
  {
    if |s| > 0 {
      assert c !in s[1..] by {
        forall k | 0 <= k < |s| - 1 ensures s[1..][k] != c {
          assert s[1..][k] == s[k + 1];
        }
      }
      SplitSeparatorFree(s[1..], c);
      assert s == [s[0]] + s[1..];
    }
  }

  /** Splitting distributes over an occurrence of the separator. */
  lemma {:induction false} SplitConcat(a: string, b: string, c: char)
    ensures Split(a + [c] + b, c) == Split(a, c) + Split(b, c)
    decreases |a|
  {
    var s := a + [c] + b;
    if |a| == 0 {
      assert s[0] == c && s[1..] == b;
    } else {
      assert s[0] == a[0];
      assert s[1..] == a[1..] + [c] + b;
      SplitConcat(a[1..], b, c);
    }
  }

  /** Splitting a join of separator-free pieces recovers the pieces. */
  lemma {:induction false} SplitJoin(parts: seq<string>, c: char)
    requires |parts| >= 1
    requires forall k :: 0 <= k < |parts| ==> c !in parts[k]
    ensures Split(Join(parts, [c]), c) == parts
    decreases |parts|
  {
    SplitSeparatorFree(parts[0], c);
    if |parts| > 1 {
      SplitJoin(parts[1..], c);
      SplitConcat(parts[0], Join(parts[1..], [c]), c);
      assert parts == [parts[0]] + parts[1..];
    }
  }

  /** `s.split(c).pop()`: the piece after the last `c`, or `s` itself. */
  function LastPiece(s: string, c: char): string
  {
    var pieces := Split(s, c);
    pieces[|pieces| - 1]
  }

  /** The last piece is the longest `c`-free suffix of `s`. */
  lemma {:induction false} LastPieceIsMaximalSuffix(s: string, c: char)
    ensures c !in LastPiece(s, c)
    ensures EndsWith(s, LastPiece(s, c))
    ensures |Split(s, c)| > 1 ==> |LastPiece(s, c)| < |s|
    ensures |LastPiece(s, c)| < |s| ==> s[|s| - |LastPiece(s, c)| - 1] == c
    decreases |s|
  {
    var l := LastPiece(s, c);
    if |s| > 0 {
      var rest := Split(s[1..], c);
      LastPieceIsMaximalSuffix(s[1..], c);
      if s[0] != c && |rest| == 1 {
        JoinSplit(s[1..], c);
        assert l == [s[0]] + s[1..] == s;
      } else {
        if s[0] == c {
          assert Split(s, c) == [""] + rest;
        } else {
          assert Split(s, c) == [[s[0]] + rest[0]] + rest[1..];
        }
        assert l == rest[|rest| - 1];
        assert s[|s| - |l|..] == s[1..][|s| - 1 - |l|..];
        if |l| < |s| - 1 {
          assert s[|s| - |l| - 1] == s[1..][|s| - 1 - |l| - 1];
        }
      }
    }
  }

  /* ----------------------------------------------------- filter(Boolean) */

  /** `parts.filter(Boolean)`: keeps the non-empty strings, in order. */
  function DropEmpty(parts: seq<string>): (r: seq<string>)
    ensures |r| <= |parts|
    ensures forall k :: 0 <= k < |r| ==> r[k] != ""
    ensures forall x :: x in r <==> x in parts && x != ""
    decreases |parts|
  {
    if |parts| == 0 then []
    else if parts[0] == "" then DropEmpty(parts[1..])
    else [parts[0]] + DropEmpty(parts[1..])
  }

  /** Filtering distributes over concatenation. */
  lemma {:induction false} DropEmptyConcat(a: seq<string>, b: seq<string>)
    ensures DropEmpty(a + b) == DropEmpty(a) + DropEmpty(b)
    decreases |a|
  {
    if |a| == 0 {
      assert a + b == b;
    } else {
      assert (a + b)[0] == a[0];
      assert (a + b)[1..] == a[1..] + b;
      DropEmptyConcat(a[1..], b);
      if a[0] != "" {
        assert DropEmpty(a + b) == [a[0]] + DropEmpty(a[1..] + b);
      }
    }
  }

  /* ------------------------------------------------ prefixes and suffixes */

  predicate StartsWith(s: string, prefix: string)
  {
    |prefix| <= |s| && s[..|prefix|] == prefix
  }

  predicate EndsWith(s: string, suffix: string)
  {
    |suffix| <= |s| && s[|s| - |suffix|..] == suffix
  }

  /** `s.replace(/<suffix>$/, '')`: removes one trailing occurrence of `suffix`. */
  function StripSuffix(s: string, suffix: string): (r: string)
    ensures EndsWith(s, suffix) ==> r + suffix == s
    ensures !EndsWith(s, suffix) ==> r == s
  {
    if EndsWith(s, suffix) then s[..|s| - |suffix|] else s
  }

  /** Stripping undoes appending, and removes only one copy of the suffix. */
  lemma StripSuffixOfAppended(x: string, suffix: string)
    ensures StripSuffix(x + suffix, suffix) == x
  {
    assert (x + suffix)[|x|..] == suffix;
    assert (x + suffix)[..|x|] == x;
  }

  /* ------------------------------------------------------------ includes */

  /** `sub` occurs in `s` starting at index `i`. */
  predicate OccursAt(s: string, sub: string, i: int)
  {
    0 <= i && i + |sub| <= |s| && s[i..i + |sub|] == sub
  }

  /** `s.includes(sub)`. */
  predicate Contains(s: string, sub: string)
  {
    exists i | 0 <= i <= |s| :: OccursAt(s, sub, i)
  }

  /** `i` is the first index at which `sub` occurs in `s`. */
  predicate FirstOccurrence(s: string, sub: string, i: int)
  {
    OccursAt(s, sub, i) && forall j :: 0 <= j < i ==> !OccursAt(s, sub, j)
  }

  lemma OccursInfix(a: string, x: string, b: string)
    ensures OccursAt(a + x + b, x, |a|)
    ensures Contains(a + x + b, x)
  {
    assert (a + x + b)[|a|..|a| + |x|] == x;
    assert OccursAt(a + x + b, x, |a|);
  }

  /** An occurrence in a suffix is an occurrence in the whole string. */
  lemma ContainedInSuffix(a: string, b: string, x: string)
    requires Contains(b, x)
    ensures Contains(a + b, x)
  {
    var i :| 0 <= i <= |b| && OccursAt(b, x, i);
    assert (a + b)[|a| + i..|a| + i + |x|] == b[i..i + |x|];
    assert OccursAt(a + b, x, |a| + i);
  }

  /** If some character of `sub` never occurs in `s`, `sub` does not occur in `s`. */
  lemma AbsentCharacter(s: string, sub: string, c: char)
    requires c in sub && c !in s
    ensures !Contains(s, sub)
  {
    var k :| 0 <= k < |sub| && sub[k] == c;
    forall i: int | 0 <= i && i + |sub| <= |s|
      ensures !OccursAt(s, sub, i)
    {
      assert s[i..i + |sub|][k] == s[i + k];
    }
  }

  /** If `c` occurs in `s` exactly once (between `a` and `b`) and at index `k`
      of `sub`, the only window that could hold `sub` is the one that aligns the
      two; when that window does not hold it, `sub` does not occur. */
  lemma SoleCharacter(s: string, sub: string, a: string, b: string, c: char, k: nat)
    requires s == a + [c] + b && c !in a && c !in b
    requires k < |sub| && sub[k] == c
    requires !OccursAt(s, sub, |a| - k)
    ensures !Contains(s, sub)
  {
    forall i: int | 0 <= i && i + |sub| <= |s|
      ensures !OccursAt(s, sub, i)
    {
      assert s[i..i + |sub|][k] == s[i + k];
      if i + k < |a| {
        assert s[i + k] == a[i + k];
      } else if i + k > |a| {
        assert s[i + k] == b[i + k - |a| - 1];
      }
    }
  }

  /* ------------------------------------------------ indexOf and replace */

  /** The first occurrence of `sub` at or after `from`, if any. */
  function IndexOfFrom(s: string, sub: string, from: nat): (r: Option<nat>)
    ensures r.Some? ==> from <= r.value && OccursAt(s, sub, r.value)
    ensures r.Some? ==> forall j :: from <= j < r.value ==> !OccursAt(s, sub, j)
    ensures r.None? ==> forall j :: from <= j ==> !OccursAt(s, sub, j)
    decreases |s| - from
  {
    if from + |sub| > |s| then None
    else if s[from..from + |sub|] == sub then Some(from)
    else IndexOfFrom(s, sub, from + 1)
  }

  /** `s.indexOf(sub)`, with `None` for -1. */
  function IndexOf(s: string, sub: string): (r: Option<nat>)
    ensures r.Some? <==> Contains(s, sub)
    ensures r.Some? ==> FirstOccurrence(s, sub, r.value)
  {
    IndexOfFrom(s, sub, 0)
  }

  /** `s.replace(pat, rep)` with a string pattern: only the first occurrence
      is replaced (the replacement is taken literally). */
  function ReplaceFirst(s: string, pat: string, rep: string): (r: string)
    ensures !Contains(s, pat) ==> r == s
    ensures Contains(s, pat) ==>
      exists i :: FirstOccurrence(s, pat, i) && r == s[..i] + rep + s[i + |pat|..]
  {
    match IndexOf(s, pat)
    case None => s
    case Some(i) => s[..i] + rep + s[i + |pat|..]
  }

  /* ----------------------------------------------------------- lowercase */

  /** ASCII `toLowerCase` of one character. */
  function LowerChar(ch: char): char
  {
    if 'A' <= ch <= 'Z' then (ch as int - 'A' as int + 'a' as int) as char else ch
  }

  /** `s.toLowerCase()`, restricted to the ASCII letters. */
  function ToLower(s: string): (r: string)
  {
    seq(|s|, i requires 0 <= i < |s| => LowerChar(s[i]))
  }

  /** Lower-casing is idempotent, and leaves no upper-case ASCII letter. */
  lemma ToLowerIdempotent(s: string)
    ensures ToLower(ToLower(s)) == ToLower(s)
    ensures forall k :: 0 <= k < |s| ==> !('A' <= ToLower(s)[k] <= 'Z')
  {
  }

  /* ------------------------------------------------------------- numbers */

  function DigitChar(d: nat): (c: char)
    requires d < 10
    ensures '0' <= c <= '9' && c as int - '0' as int == d
  {
    ('0' as int + d) as char
  }

  /** The decimal rendering of a natural number, as `${n}` writes it. */
  function NatToDecimal(n: nat): (r: string)
    ensures |r| >= 1
    ensures forall k :: 0 <= k < |r| ==> '0' <= r[k] <= '9'
    ensures r[0] == '0' ==> n == 0
    decreases n
  {
    if n < 10 then [DigitChar(n)] else NatToDecimal(n / 10) + [DigitChar(n % 10)]
  }

  /** The rendering of an integer, with a leading '-' for negative values. */
  function IntToDecimal(i: int): string
  {
    if i < 0 then "-" + NatToDecimal(-i) else NatToDecimal(i)
  }

  lemma ZeroDecimal()
    ensures IntToDecimal(0) == "0"
  {
  }

  /** The value of a string of decimal digits. */
  function DecimalValue(s: string): nat
    requires forall k :: 0 <= k < |s| ==> '0' <= s[k] <= '9'
    decreases |s|
  {
    if |s| == 0 then 0
    else 10 * DecimalValue(s[..|s| - 1]) + (s[|s| - 1] as int - '0' as int)
  }

  /** Reading the rendering back gives the number: the rendering is faithful. */
  lemma {:induction false} DecimalRoundTrip(n: nat)
    ensures DecimalValue(NatToDecimal(n)) == n
    decreases n
  {
    var r := NatToDecimal(n);
    if n >= 10 {
      DecimalRoundTrip(n / 10);
      assert r[..|r| - 1] == NatToDecimal(n / 10);
    }
  }
}
