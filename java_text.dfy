/**
 * The handful of java.lang.String, Integer and Boolean operations the shore
 * station relies on, with Java's own edge cases: `indexOf`, `contains`,
 * `replace(c, "")`, `split` (trailing empty strings are dropped),
 * `Integer.parseInt`, `Integer.toString` and `Boolean.parseBoolean`.
 */
module JavaText {
  import opened Wrappers

  /** `s.indexOf(c)` for a character that occurs in `s`: its first position. */
  function IndexOf(s: string, c: char): (r: nat)
    requires c in s
    ensures r < |s| && s[r] == c
    ensures c !in s[..r]
  {
    if s[0] == c then 0
    else
      var k := IndexOf(s[1..], c);
      assert s[..k + 1] == [s[0]] + s[1..][..k];
      k + 1
  }

  /** A position holding `c` with no `c` before it is the one `indexOf` finds. */
  lemma IndexOfAt(s: string, c: char, k: nat)
    requires k < |s| && s[k] == c && c !in s[..k]
    ensures c in s && IndexOf(s, c) == k
  {
    assert s[k] in s;
  }

  /** `t` occurs in `s` starting at position `i`. */
  predicate OccursAt(s: string, t: string, i: int)
  {
    0 <= i && i + |t| <= |s| && s[i..i + |t|] == t
  }

  /** `s.contains(t)`: `t` is a prefix of some suffix of `s`. */
  function ContainsText(s: string, t: string): bool
    decreases |s|
  {
    if t <= s then true
    else if |s| == 0 then false
    else ContainsText(s[1..], t)
  }

  /** An occurrence makes `contains` true. */
  lemma {:induction false} ContainsTextAt(s: string, t: string, i: int)
    requires OccursAt(s, t, i)
    ensures ContainsText(s, t)
    decreases |s|
  {
    if !(t <= s) {
      assert i > 0;
      assert s[1..][i - 1..i - 1 + |t|] == s[i..i + |t|];
      ContainsTextAt(s[1..], t, i - 1);
    }
  }

  /** `contains` is true only through an occurrence. */
  lemma {:induction false} ContainsTextOnlyAt(s: string, t: string)
    requires forall i :: 0 <= i && i + |t| <= |s| ==> !OccursAt(s, t, i)
    ensures !ContainsText(s, t)
    decreases |s|
  {
    assert !OccursAt(s, t, 0) || |t| > |s|;
    if |s| > 0 {
      forall i | 0 <= i && i + |t| <= |s[1..]|
        ensures !OccursAt(s[1..], t, i)
      {
        assert !OccursAt(s, t, i + 1);
        assert s[1..][i..i + |t|] == s[i + 1..i + 1 + |t|];
      }
      ContainsTextOnlyAt(s[1..], t);
    }
  }

  /** `s.replace(c, "")` for a one-character target: every `c` deleted. */
  function RemoveChar(s: string, c: char): (r: string)
    ensures c !in r
    ensures forall x :: x in r <==> x in s && x != c
    ensures c !in s ==> r == s
    ensures |r| <= |s|
  {
    if |s| == 0 then ""
    else if s[0] == c then RemoveChar(s[1..], c)
    else
      var rest := RemoveChar(s[1..], c);
      assert forall x :: x in s <==> x == s[0] || x in s[1..];
      [s[0]] + rest
  }

  /** Deleting a character distributes over concatenation. */
  lemma {:induction false} RemoveCharAppend(a: string, b: string, c: char)
    ensures RemoveChar(a + b, c) == RemoveChar(a, c) + RemoveChar(b, c)
    decreases |a|
  {
    if |a| > 0 {
      assert (a + b)[1..] == a[1..] + b;
      RemoveCharAppend(a[1..], b, c);
    } else {
      assert a + b == b;
    }
  }

  /** The pieces of `s` between occurrences of `sep`, empty pieces included. */
  function SplitAll(s: string, sep: char): (r: seq<string>)
    ensures |r| >= 1
    ensures forall i :: 0 <= i < |r| ==> sep !in r[i]
    ensures forall i, x :: 0 <= i < |r| && x in r[i] ==> x in s
    decreases |s|
  {
    if sep !in s then [s]
    else
      var k := IndexOf(s, sep);
      var rest := SplitAll(s[k + 1..], sep);
      assert forall x :: x in s[..k] ==> x in s;
      assert forall x :: x in s[k + 1..] ==> x in s;
      [s[..k]] + rest
  }

  /** The pieces joined back with `sep` between neighbours. */
  function Join(xs: seq<string>, sep: char): string
  {
    if |xs| == 0 then ""
    else if |xs| == 1 then xs[0]
    else xs[0] + [sep] + Join(xs[1..], sep)
  }

  /** A character that is not the separator and occurs in no piece does not occur in the join. */
  lemma {:induction false} JoinAvoids(xs: seq<string>, sep: char, c: char)
    requires c != sep
    requires forall i :: 0 <= i < |xs| ==> c !in xs[i]
    ensures c !in Join(xs, sep)
    decreases |xs|
  {
    if |xs| > 1 {
      JoinAvoids(xs[1..], sep, c);
      assert forall x :: x in Join(xs, sep) ==> x in xs[0] || x == sep || x in Join(xs[1..], sep);
    }
  }

  /** Splitting at the first separator: the text before it, then the rest's pieces. */
  lemma SplitAtFirst(k: string, v: string, sep: char)
    requires sep !in k
    ensures sep in k + [sep] + v
    ensures SplitAll(k + [sep] + v, sep) == [k] + SplitAll(v, sep)
  {
    var body := k + [sep] + v;
    assert body[|k|] == sep;
    assert body[..|k|] == k && body[|k| + 1..] == v;
    IndexOfAt(body, sep, |k|);
  }

  /** Splitting a join of separator-free pieces gives the pieces back. */
  lemma {:induction false} SplitJoin(xs: seq<string>, sep: char)
    requires |xs| >= 1
    requires forall i :: 0 <= i < |xs| ==> sep !in xs[i]
    ensures SplitAll(Join(xs, sep), sep) == xs
    decreases |xs|
  {
    if |xs| > 1 {
      SplitAtFirst(xs[0], Join(xs[1..], sep), sep);
      SplitJoin(xs[1..], sep);
      assert xs == [xs[0]] + xs[1..];
    }
  }

  /** Joining the pieces of a split gives the original text back. */
  lemma {:induction false} JoinSplit(s: string, sep: char)
    ensures Join(SplitAll(s, sep), sep) == s
    decreases |s|
  {
    if sep in s {
      var k := IndexOf(s, sep);
      JoinSplit(s[k + 1..], sep);
      var tail := SplitAll(s[k + 1..], sep);
      assert SplitAll(s, sep) == [s[..k]] + tail;
      assert s == s[..k] + [sep] + s[k + 1..];
    }
  }

  /** Removes the empty strings at the end of `xs`, as `String.split` does. */
  function DropTrailingEmpty(xs: seq<string>): (r: seq<string>)
    ensures r <= xs
    ensures |r| == 0 || r[|r| - 1] != ""
    ensures forall i :: |r| <= i < |xs| ==> xs[i] == ""
  {
    if |xs| > 0 && xs[|xs| - 1] == "" then DropTrailingEmpty(xs[..|xs| - 1]) else xs
  }

  /**
   * `s.split(String.valueOf(sep))`: the whole text when `sep` does not occur,
   * otherwise the pieces with the trailing empty ones dropped.
   */
  function JavaSplit(s: string, sep: char): (r: seq<string>)
    ensures forall i :: 0 <= i < |r| ==> sep !in r[i]
    ensures sep in s ==> |r| == 0 || r[|r| - 1] != ""
    ensures sep !in s ==> |r| == 1
  {
    if sep !in s then [s] else DropTrailingEmpty(SplitAll(s, sep))
  }

  /** A join of separator-free pieces whose last piece is not empty splits back exactly. */
  lemma JavaSplitJoin(xs: seq<string>, sep: char)
    requires |xs| >= 1
    requires forall i :: 0 <= i < |xs| ==> sep !in xs[i]
    requires |xs| == 1 || xs[|xs| - 1] != ""
    ensures JavaSplit(Join(xs, sep), sep) == xs
  {
    if |xs| > 1 {
      var s := Join(xs, sep);
      assert s == xs[0] + [sep] + Join(xs[1..], sep);
      assert s[|xs[0]|] == sep;
      SplitJoin(xs, sep);
    }
  }

  // ---------------------------------------------------------------------
  // Integers and booleans as text

  predicate IsDigit(c: char) { '0' <= c <= '9' }

  predicate AllDigits(s: string) { forall i :: 0 <= i < |s| ==> IsDigit(s[i]) }

  function DigitValue(c: char): nat
    requires IsDigit(c)
  {
    (c as int - '0' as int) as nat
  }

  function DigitChar(d: nat): (c: char)
    requires d < 10
    ensures IsDigit(c) && DigitValue(c) == d
  {
    ('0' as int + d) as char
  }

  /** The value of a string of decimal digits, most significant first. */
  function DigitsValue(ds: string): nat
    requires AllDigits(ds)
  {
    if |ds| == 0 then 0 else DigitsValue(ds[..|ds| - 1]) * 10 + DigitValue(ds[|ds| - 1])
  }

  /** Decimal digits of a natural number, without leading zeros. */
  function NatToString(n: nat): (s: string)
    ensures |s| >= 1 && AllDigits(s)
    decreases n
  {
    if n < 10 then [DigitChar(n)] else NatToString(n / 10) + [DigitChar(n % 10)]
  }

  /** `String.valueOf(int)` / `Integer.toString`. */
  function IntToString(n: int): string
  {
    if n < 0 then "-" + NatToString(-n) else NatToString(n)
  }

  lemma {:induction false} NatToStringValue(n: nat)
    ensures DigitsValue(NatToString(n)) == n
    decreases n
  {
    if n >= 10 {
      NatToStringValue(n / 10);
      var s := NatToString(n);
      assert s[..|s| - 1] == NatToString(n / 10);
    }
  }

  const IntMin: int := -0x8000_0000
  const IntMax: int := 0x7fff_ffff

  /**
   * `Integer.parseInt(s)` over ASCII digits; None where Java throws
   * NumberFormatException: the empty string, a lone sign, a character other
   * than a sign or a digit, or a value outside 32 bits.
   */
  function ParseInt(s: string): (r: Option<int>)
    ensures r.Some? ==> IntMin <= r.value <= IntMax
    ensures r.Some? ==> |s| > 0
  {
    if |s| == 0 then None
    else
      var start := if s[0] == '-' || s[0] == '+' then 1 else 0;
      if start == |s| || !AllDigits(s[start..]) then None
      else
        var magnitude: int := DigitsValue(s[start..]);
        var v := if s[0] == '-' then -magnitude else magnitude;
        if IntMin <= v <= IntMax then Some(v) else None
  }

  predicate IsInt32(x: int) { IntMin <= x <= IntMax }

  /** The two's-complement wrap-around of a 32-bit `int`. */
  function Wrap32(x: int): (r: int)
    ensures IsInt32(r)
    ensures IsInt32(x) ==> r == x
    ensures (r - x) % 0x1_0000_0000 == 0
  {
    (x - IntMin) % 0x1_0000_0000 + IntMin
  }

  /** Adding one after a wrap is wrapping after adding one. */
  lemma Wrap32Succ(x: int)
    ensures Wrap32(Wrap32(x) + 1) == Wrap32(x + 1)
  {
    var a := x - IntMin;
    var m := 0x1_0000_0000;
    assert a == (a / m) * m + a % m;
    if a % m + 1 < m {
      assert a + 1 == (a / m) * m + (a % m + 1);
      assert (a + 1) % m == a % m + 1;
    } else {
      assert a + 1 == (a / m + 1) * m;
      assert (a + 1) % m == 0;
    }
  }

  /** Java's `x++` on an `int`: wraps from the largest value to the smallest. */
  function Inc32(x: int): (r: int)
    requires IsInt32(x)
    ensures IsInt32(r)
    ensures x < IntMax ==> r == x + 1
    ensures x == IntMax ==> r == IntMin
    ensures r == Wrap32(x + 1)
  {
    if x == IntMax then IntMin else x + 1
  }

  /** Integer.toString and Integer.parseInt are inverse on 32-bit values. */
  lemma ParseIntToString(n: int)
    requires IntMin <= n <= IntMax
    ensures ParseInt(IntToString(n)) == Some(n)
  {
    var s := IntToString(n);
    if n < 0 {
      NatToStringValue(-n);
      assert s[1..] == NatToString(-n);
    } else {
      NatToStringValue(n);
      assert s[0] != '-' && s[0] != '+';
      assert s[0..] == s;
    }
  }

  function ToLowerAscii(c: char): char
  {
    if 'A' <= c <= 'Z' then (c as int + 32) as char else c
  }

  function ToLowerText(s: string): (r: string)
    ensures |r| == |s|
  {
    seq(|s|, i requires 0 <= i < |s| => ToLowerAscii(s[i]))
  }

  /** `Boolean.parseBoolean(s)`: true exactly for "true" in any letter case. */
  function ParseBoolean(s: string): (b: bool)
    ensures b <==> ToLowerText(s) == "true"
  {
    if |s| != 4 then false
    else
      assert ToLowerText(s) == [ToLowerAscii(s[0]), ToLowerAscii(s[1]), ToLowerAscii(s[2]), ToLowerAscii(s[3])];
      ToLowerAscii(s[0]) == 't' && ToLowerAscii(s[1]) == 'r'
      && ToLowerAscii(s[2]) == 'u' && ToLowerAscii(s[3]) == 'e'
  }

  /** `String.valueOf(boolean)`. */
  function BoolToString(b: bool): string
  {
    if b then "true" else "false"
  }

  lemma ParseBooleanRoundTrip(b: bool)
    ensures ParseBoolean(BoolToString(b)) == b
  {
  }
}
