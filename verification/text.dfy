/**
  Character-level helpers shared by both clients: decimal rendering of
  integers (Rust's `Display` for unsigned integers), first-occurrence search,
  joining with a separator (`join` / `connect`) and the inverse splitting,
  and parsing of "<prefix><decimal><separator><rest>" strings.
 */
module Text {
  import opened Wrappers

  predicate IsDigit(c: char) {
    '0' <= c <= '9'
  }

  predicate AllDigits(s: string) {
    forall i :: 0 <= i < |s| ==> IsDigit(s[i])
  }

  function Digit(d: nat): (c: char)
    requires d < 10
    ensures IsDigit(c)
  {
    ('0' as int + d) as char
  }

  function DigitValue(c: char): (d: nat)
    requires IsDigit(c)
    ensures d < 10 && Digit(d) == c
  {
    c as int - '0' as int
  }

  /** Decimal rendering of a natural number: digits only, no leading zero. */
  function NatToDecimal(n: nat): (s: string)
    ensures 1 <= |s| && AllDigits(s)
    ensures s[0] == '0' ==> n == 0 && s == "0"
    decreases n
  {
    if n < 10 then [Digit(n)] else NatToDecimal(n / 10) + [Digit(n % 10)]
  }

  /** The value of a string of decimal digits (the empty string is worth 0). */
  function DecimalValue(s: string): nat
    requires AllDigits(s)
  {
    if s == [] then 0 else 10 * DecimalValue(s[..|s| - 1]) + DigitValue(s[|s| - 1])
  }

  /** Reading back a rendered number gives the number. */
  lemma {:induction false} DecimalRoundTrip(n: nat)
    ensures DecimalValue(NatToDecimal(n)) == n
  {
    if n >= 10 {
      var s := NatToDecimal(n);
      DecimalRoundTrip(n / 10);
      assert s[..|s| - 1] == NatToDecimal(n / 10);
      assert DigitValue(s[|s| - 1]) == n % 10;
    } else {
      assert DigitValue(Digit(n)) == n;
    }
  }

  /** Index of the first `c` in `s`, or `|s|` when `s` holds no `c`. */
  function IndexOf(c: char, s: string): (r: nat)
    ensures r <= |s|
    ensures r < |s| ==> s[r] == c
    ensures forall i :: 0 <= i < r ==> s[i] != c
  {
    if s == [] then 0 else if s[0] == c then 0 else 1 + IndexOf(c, s[1..])
  }

  /** `xs` joined with `sep` between consecutive elements. */
  function Join(sep: char, xs: seq<string>): string
  {
    if |xs| == 0 then "" else if |xs| == 1 then xs[0] else xs[0] + [sep] + Join(sep, xs[1..])
  }

  /** `s` cut at every `sep`; the inverse of `Join` on separator-free elements. */
  function Split(sep: char, s: string): (r: seq<string>)
    ensures |r| >= 1
    decreases |s|
  {
    var i := IndexOf(sep, s);
    if i == |s| then [s] else [s[..i]] + Split(sep, s[i + 1..])
  }

  lemma {:induction false} SplitJoin(sep: char, xs: seq<string>)
    requires |xs| >= 1
    requires forall i :: 0 <= i < |xs| ==> sep !in xs[i]
    ensures Split(sep, Join(sep, xs)) == xs
  {
    if |xs| == 1 {
      assert IndexOf(sep, xs[0]) == |xs[0]|;
    } else {
      var s := Join(sep, xs);
      var tail := Join(sep, xs[1..]);
      assert s == xs[0] + [sep] + tail;
      assert s[|xs[0]|] == sep;
      assert IndexOf(sep, s) == |xs[0]|;
      assert s[..|xs[0]|] == xs[0];
      assert s[|xs[0]| + 1..] == tail;
      SplitJoin(sep, xs[1..]);
    }
  }

  /** Joining two non-empty lists is joining each and putting `sep` between. */
  lemma {:induction false} JoinAppend(sep: char, xs: seq<string>, ys: seq<string>)
    requires |xs| >= 1 && |ys| >= 1
    ensures Join(sep, xs + ys) == Join(sep, xs) + [sep] + Join(sep, ys)
  {
    if |xs| == 1 {
      assert (xs + ys)[1..] == ys;
    } else {
      assert (xs + ys)[1..] == xs[1..] + ys;
      JoinAppend(sep, xs[1..], ys);
    }
  }

  /**
    Parses `prefix + digits + sep + rest` into the number the digits spell and
    `rest`; the digits end at the first occurrence of `sep[0]`.
   */
  function ParseTagged(prefix: string, sep: string, s: string): Option<(nat, string)>
    requires |sep| >= 1
  {
    if |s| < |prefix| || s[..|prefix|] != prefix then None
    else
      var rest := s[|prefix|..];
      var i := IndexOf(sep[0], rest);
      if i == 0 || i + |sep| > |rest| || rest[i..i + |sep|] != sep || !AllDigits(rest[..i]) then None
      else Some((DecimalValue(rest[..i]), rest[i + |sep|..]))
  }

  /** A rendered number followed by a non-digit separator is read back exactly. */
  lemma ParseTaggedRoundTrip(prefix: string, sep: string, n: nat, rest: string)
    requires |sep| >= 1 && !IsDigit(sep[0])
    ensures ParseTagged(prefix, sep, prefix + NatToDecimal(n) + sep + rest) == Some((n, rest))
  {
    var d := NatToDecimal(n);
    var s := prefix + d + sep + rest;
    assert s[..|prefix|] == prefix;
    var tail := s[|prefix|..];
    assert tail == d + sep + rest;
    assert tail[|d|] == sep[0];
    assert IndexOf(sep[0], tail) == |d|;
    assert tail[..|d|] == d;
    assert tail[|d|..|d| + |sep|] == sep;
    assert tail[|d| + |sep|..] == rest;
    DecimalRoundTrip(n);
  }
}
