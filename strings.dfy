/**
 * The JavaScript string operations the core relies on: `Array.prototype.join`,
 * `String.prototype.split` with a one-character separator, substring search
 * and the decimal rendering of an integral number inside a template literal.
 * Each comes with a partner that pins down its meaning: split is proved to
 * invert join and the other way round, the decimal text is proved to parse back.
 */
module Strings {
  import opened Types

  /** `parts.join(sep)`: the parts in order with `sep` between neighbours. */
  function Join(parts: seq<string>, sep: string): string
  {
    if |parts| == 0 then ""
    else if |parts| == 1 then parts[0]
    else parts[0] + sep + Join(parts[1..], sep)
  }

  /** The text before the first `c` of `s`, or all of `s` when there is none. */
  function TakeUntil(s: string, c: char): (r: string)
    ensures r <= s && c !in r
    ensures |r| < |s| ==> s[|r|] == c
    ensures |r| == |s| <==> c !in s
  {
    if |s| == 0 || s[0] == c then "" else [s[0]] + TakeUntil(s[1..], c)
  }

  /** The text after the first `c` of `s`. */
  function After(s: string, c: char): string
    requires c in s
  {
    s[|TakeUntil(s, c)| + 1..]
  }

  /**
   * `s.split(c)`: the maximal runs of `s` free of `c`, including empty runs
   * before, between and after occurrences of `c`.
   */
  function SplitChar(s: string, c: char): (parts: seq<string>)
    ensures |parts| >= 1
    ensures forall i :: 0 <= i < |parts| ==> c !in parts[i]
    ensures Join(parts, [c]) == s
  {
    if |s| == 0 then [""]
    else
      var rest := SplitChar(s[1..], c);
      if s[0] == c then
        assert s == [c] + s[1..];
        [""] + rest
      else
        var parts := [[s[0]] + rest[0]] + rest[1..];
        assert parts[1..] == rest[1..];
        assert |rest| > 1 ==> Join(rest, [c]) == rest[0] + [c] + Join(rest[1..], [c]);
        assert s == [s[0]] + s[1..];
        parts
  }

  /** The first part of a split is the text before the first separator. */
  lemma {:induction false} SplitHead(s: string, c: char)
    ensures SplitChar(s, c)[0] == TakeUntil(s, c)
  {
    if |s| > 0 && s[0] != c {
      SplitHead(s[1..], c);
    }
  }

  /** A split has more than one part exactly when the separator occurs; the later parts split what follows the first one. */
  lemma {:induction false} SplitTail(s: string, c: char)
    ensures |SplitChar(s, c)| > 1 <==> c in s
    ensures c in s ==> SplitChar(s, c)[1..] == SplitChar(After(s, c), c)
  {
    if |s| > 0 && s[0] != c {
      var rest := SplitChar(s[1..], c);
      SplitTail(s[1..], c);
      assert |SplitChar(s, c)| == |rest| && SplitChar(s, c)[1..] == rest[1..];
      assert c in s <==> c in s[1..] by {
        assert s == [s[0]] + s[1..];
      }
      if c in s {
        assert After(s, c) == After(s[1..], c) by {
          assert TakeUntil(s, c) == [s[0]] + TakeUntil(s[1..], c);
        }
      }
    }
  }

  /** Text free of the separator splits into itself alone. */
  lemma SplitWithoutSeparator(s: string, c: char)
    requires c !in s
    ensures SplitChar(s, c) == [s]
  {
    SplitHead(s, c);
    SplitTail(s, c);
  }

  /** A separator-free prefix is glued onto the first part. */
  lemma {:induction false} SplitGlued(a: string, b: string, c: char)
    requires c !in a
    ensures SplitChar(a + b, c) == [a + SplitChar(b, c)[0]] + SplitChar(b, c)[1..]
  {
    var rest := SplitChar(b, c);
    if |a| > 0 {
      var sub := SplitChar(a[1..] + b, c);
      SplitGlued(a[1..], b, c);
      assert (a + b)[0] == a[0] && (a + b)[1..] == a[1..] + b;
      assert a[0] != c;
      assert SplitChar(a + b, c) == [[a[0]] + sub[0]] + sub[1..];
      assert [a[0]] + (a[1..] + rest[0]) == a + rest[0];
    } else {
      assert a + b == b && a + rest[0] == rest[0];
      assert rest == [rest[0]] + rest[1..];
    }
  }

  /** Every part preceded by `t`. */
  function Prefixed(t: string, parts: seq<string>): (r: seq<string>)
    ensures |r| == |parts| && forall i :: 0 <= i < |parts| ==> r[i] == t + parts[i]
  {
    seq(|parts|, i requires 0 <= i < |parts| => t + parts[i])
  }

  /**
   * Splitting a join at the first character of its separator gives back the
   * parts in order, each but the first still carrying the rest `t` of the
   * separator; with a one-character separator this is exactly the parts.
   */
  lemma {:induction false} SplitJoin(parts: seq<string>, c: char, t: string)
    requires |parts| >= 1 && c !in t
    requires forall i :: 0 <= i < |parts| ==> c !in parts[i]
    ensures SplitChar(Join(parts, [c] + t), c) == [parts[0]] + Prefixed(t, parts[1..])
  {
    var sep := [c] + t;
    if |parts| == 1 {
      SplitWithoutSeparator(parts[0], c);
    } else {
      var tail := Join(parts[1..], sep);
      SplitJoin(parts[1..], c, t);
      assert Join(parts, sep) == parts[0] + ([c] + (t + tail));
      SplitGlued(parts[0], [c] + (t + tail), c);
      assert ([c] + (t + tail))[1..] == t + tail;
      assert SplitChar([c] + (t + tail), c) == [""] + SplitChar(t + tail, c);
      SplitGlued(t, tail, c);
      assert parts[1..][1..] == parts[2..];
      assert SplitChar(t + tail, c) == [t + parts[1]] + Prefixed(t, parts[2..]);
      assert [t + parts[1]] + Prefixed(t, parts[2..]) == Prefixed(t, parts[1..]);
      assert parts[0] + "" == parts[0];
    }
  }

  /** `text.startsWith(prefix)`. */
  predicate StartsWith(text: string, prefix: string)
  {
    prefix <= text
  }

  /** `text.includes(sub)`: `sub` occurs somewhere in `text`. */
  predicate IsInfix(sub: string, text: string)
    decreases |text|
  {
    sub <= text || (0 < |text| && IsInfix(sub, text[1..]))
  }

  /** What occurs in a suffix occurs in the whole. */
  lemma {:induction false} InfixWithin(x: string, p: string, q: string)
    requires IsInfix(x, q)
    ensures IsInfix(x, p + q)
  {
    if |p| > 0 {
      InfixWithin(x, p[1..], q);
      assert (p + q)[1..] == p[1..] + q;
    } else {
      assert p + q == q;
    }
  }

  /** What occurs in a suffix after two pieces occurs in the whole. */
  lemma InfixWithin2(x: string, p1: string, p2: string, q: string)
    requires IsInfix(x, q)
    ensures IsInfix(x, p1 + (p2 + q))
  {
    InfixWithin(x, p2, q);
    InfixWithin(x, p1, p2 + q);
  }

  /** Whatever stands between a prefix and a suffix occurs in the whole. */
  lemma InfixAt(p: string, x: string, q: string)
    ensures IsInfix(x, p + (x + q))
  {
    assert IsInfix(x, x + q);
    InfixWithin(x, p, x + q);
  }

  predicate IsDigit(ch: char)
  {
    '0' <= ch <= '9'
  }

  predicate AllDigits(s: string)
  {
    forall i :: 0 <= i < |s| ==> IsDigit(s[i])
  }

  function DigitChar(d: nat): (ch: char)
    requires d < 10
    ensures IsDigit(ch) && ch as int - '0' as int == d
  {
    ('0' as int + d) as char
  }

  /** The decimal digits of `n`, without leading zeros. */
  function NatToString(n: nat): (s: string)
    ensures 0 < |s| && AllDigits(s)
    ensures s[0] == '0' ==> s == "0"
    decreases n
  {
    if n < 10 then [DigitChar(n)] else NatToString(n / 10) + [DigitChar(n % 10)]
  }

  /** `${n}` for an integral number `n`: decimal text that reads back as `n`. */
  function IntToString(n: int): (s: string)
    ensures ParseInt(s) == Some(n)
  {
    if n < 0 then
      var digits := NatToString(-n);
      NatToStringValue(-n);
      assert ("-" + digits)[1..] == digits;
      "-" + digits
    else
      NatToStringValue(n);
      NatToString(n)
  }

  /** The number a string of decimal digits denotes. */
  function DigitsValue(s: string): nat
    requires AllDigits(s)
    decreases |s|
  {
    if |s| == 0 then 0 else DigitsValue(s[..|s| - 1]) * 10 + (s[|s| - 1] as int - '0' as int)
  }

  /** Reads an optionally negated decimal integer; None for anything else. */
  function ParseInt(s: string): Option<int>
  {
    if 1 < |s| && s[0] == '-' && AllDigits(s[1..]) then Some(0 - DigitsValue(s[1..]) as int)
    else if 0 < |s| && AllDigits(s) then Some(DigitsValue(s))
    else None
  }

  lemma {:induction false} NatToStringValue(n: nat)
    ensures DigitsValue(NatToString(n)) == n
  {
    if n >= 10 {
      NatToStringValue(n / 10);
      var s := NatToString(n / 10) + [DigitChar(n % 10)];
      assert s[..|s| - 1] == NatToString(n / 10);
    }
  }
}
