/**
 * String helpers the logger's output format is built from: character search,
 * repetition (`'='.repeat(n)`), decimal rendering of integers (template
 * interpolation of a number) and splitting on a separator (`String.split`).
 */
module Text {
  import opened Wrappers

  /** Concatenation regroups freely. */
  lemma AppendAssoc<T>(a: seq<T>, b: seq<T>, c: seq<T>)
    ensures a + b + c == a + (b + c)
  {
  }

  /** The position of the first `c` in `s`, or `|s|` when `s` has none. */
  function IndexOf(s: string, c: char): (r: nat)
    ensures r <= |s|
    ensures r < |s| ==> s[r] == c
    ensures forall k :: 0 <= k < r ==> s[k] != c
  {
    if |s| == 0 then 0 else if s[0] == c then 0 else 1 + IndexOf(s[1..], c)
  }

  /** Searching `a + b` finds the head of `b` when `a` does not hold `c`. */
  lemma IndexOfConcat(a: string, b: string, c: char)
    requires forall k :: 0 <= k < |a| ==> a[k] != c
    requires |b| > 0 && b[0] == c
    ensures IndexOf(a + b, c) == |a|
  {
    assert (a + b)[|a|] == c;
  }

  /** `s` with the prefix `p` removed, or None when `s` does not start with `p`. */
  function DropPrefix(p: string, s: string): (r: Option<string>)
    ensures r.Some? <==> (|p| <= |s| && s[..|p|] == p)
    ensures r.Some? ==> s == p + r.value
  {
    if |p| <= |s| && s[..|p|] == p then Some(s[|p|..]) else None
  }

  /** `c` written `n` times, as JavaScript's `c.repeat(n)`. */
  function Repeat(c: char, n: nat): (r: string)
    ensures |r| == n
    ensures forall k :: 0 <= k < |r| ==> r[k] == c
  {
    seq(n, _ => c)
  }

  predicate IsDigit(c: char) {
    '0' <= c <= '9'
  }

  predicate AllDigits(s: string) {
    forall i :: 0 <= i < |s| ==> IsDigit(s[i])
  }

  function DigitChar(d: nat): (c: char)
    requires d < 10
    ensures IsDigit(c) && DigitValue(c) == d
  {
    ('0' as int + d) as char
  }

  function DigitValue(c: char): nat
    requires IsDigit(c)
  {
    c as int - '0' as int
  }

  /** The decimal digits of `n`, most significant first, with no leading zero. */
  function NatToString(n: nat): (r: string)
    ensures |r| >= 1 && AllDigits(r)
    ensures |r| > 1 ==> r[0] != '0'
    decreases n
  {
    if n < 10 then [DigitChar(n)] else NatToString(n / 10) + [DigitChar(n % 10)]
  }

  /** The number a non-empty string of decimal digits denotes. */
  function DigitsValue(s: string): nat
    requires AllDigits(s)
  {
    if |s| == 0 then 0 else 10 * DigitsValue(s[..|s| - 1]) + DigitValue(s[|s| - 1])
  }

  /** Decimal rendering of an integer, as `${n}` renders a safe integer in JavaScript. */
  function IntToString(n: int): (r: string)
    ensures n >= 0 ==> |r| >= 1 && AllDigits(r)
    ensures n < 0 ==> |r| >= 2 && r[0] == '-' && AllDigits(r[1..])
  {
    if n < 0 then "-" + NatToString(-n) else NatToString(n)
  }

  /** Reads back an optionally negative decimal integer; None for any other text. */
  function ParseInt(s: string): (r: Option<int>)
  {
    if |s| > 0 && s[0] == '-' then
      if |s| > 1 && AllDigits(s[1..]) then Some(-(DigitsValue(s[1..]) as int)) else None
    else if |s| > 0 && AllDigits(s) then Some(DigitsValue(s))
    else None
  }

  lemma {:induction false} NatToStringValue(n: nat)
    ensures DigitsValue(NatToString(n)) == n
    decreases n
  {
    if n >= 10 {
      var s := NatToString(n);
      assert s[..|s| - 1] == NatToString(n / 10);
      assert s[|s| - 1] == DigitChar(n % 10);
      NatToStringValue(n / 10);
    }
  }

  lemma NegativeRoundTrip(n: int)
    requires n < 0
    ensures ParseInt(IntToString(n)) == Some(n)
  {
    var t := NatToString(-n);
    var s := IntToString(n);
    assert s[0] == '-' && s[1..] == t;
    NatToStringValue(-n);
    assert ParseInt(s) == Some(-(DigitsValue(t) as int));
  }

  lemma NonNegativeRoundTrip(n: int)
    requires n >= 0
    ensures ParseInt(IntToString(n)) == Some(n)
  {
    var s := IntToString(n);
    assert s == NatToString(n);
    assert s[0] != '-' by {
      assert IsDigit(s[0]);
    }
    NatToStringValue(n);
  }

  /** Reading back the rendering of any integer gives that integer. */
  lemma IntToStringRoundTrip(n: int)
    ensures ParseInt(IntToString(n)) == Some(n)
  {
    if n < 0 {
      NegativeRoundTrip(n);
    } else {
      NonNegativeRoundTrip(n);
    }
  }

  /** A rendered integer holds only digits and a leading minus sign; a non-negative one only digits. */
  lemma IntToStringChars(n: int)
    ensures forall k :: 0 <= k < |IntToString(n)| ==> IntToString(n)[k] == '-' || IsDigit(IntToString(n)[k])
    ensures n >= 0 <==> AllDigits(IntToString(n))
  {
  }

  /** The pieces of `s` between occurrences of `sep`, as JavaScript's `s.split(sep)`. */
  function Split(s: string, sep: char): (r: seq<string>)
    ensures |r| >= 1
    decreases |s|
  {
    var i := IndexOf(s, sep);
    if i == |s| then [s] else [s[..i]] + Split(s[i + 1..], sep)
  }

  /** No piece of a split contains the separator. */
  lemma {:induction false} SplitPieces(s: string, sep: char)
    ensures forall i, k :: 0 <= i < |Split(s, sep)| && 0 <= k < |Split(s, sep)[i]| ==> Split(s, sep)[i][k] != sep
    decreases |s|
  {
    var i := IndexOf(s, sep);
    if i < |s| {
      SplitPieces(s[i + 1..], sep);
      assert Split(s, sep) == [s[..i]] + Split(s[i + 1..], sep);
    }
  }

  /** The pieces glued back together with `sep` between neighbours. */
  function Join(parts: seq<string>, sep: char): string
    requires |parts| >= 1
  {
    if |parts| == 1 then parts[0] else parts[0] + [sep] + Join(parts[1..], sep)
  }

  /** Splitting loses nothing: joining the pieces gives back the text. */
  lemma {:induction false} JoinSplit(s: string, sep: char)
    ensures Join(Split(s, sep), sep) == s
    decreases |s|
  {
    var i := IndexOf(s, sep);
    if i < |s| {
      var head, tail := s[..i], s[i + 1..];
      var parts := Split(s, sep);
      assert parts == [head] + Split(tail, sep);
      assert parts[0] == head && parts[1..] == Split(tail, sep);
      JoinSplit(tail, sep);
      assert Join(parts, sep) == head + [sep] + Join(Split(tail, sep), sep);
      assert s == head + [sep] + tail;
    }
  }

  /** Splitting a join of separator-free pieces gives back exactly those pieces. */
  lemma {:induction false} SplitJoin(parts: seq<string>, sep: char)
    requires |parts| >= 1
    requires forall i, k :: 0 <= i < |parts| && 0 <= k < |parts[i]| ==> parts[i][k] != sep
    ensures Split(Join(parts, sep), sep) == parts
    decreases |parts|
  {
    var s := Join(parts, sep);
    if |parts| == 1 {
      assert IndexOf(s, sep) == |s|;
    } else {
      var rest := Join(parts[1..], sep);
      assert s == parts[0] + ([sep] + rest);
      IndexOfConcat(parts[0], [sep] + rest, sep);
      assert s[..|parts[0]|] == parts[0];
      assert s[|parts[0]| + 1..] == rest;
      SplitJoin(parts[1..], sep);
    }
  }
}
