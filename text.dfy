/** String building blocks used by the statistics panel: repetition,
    concatenation of a list of strings, and the decimal rendering of integers. */
module Text {
  import opened Basics

  /** Python's `n * c` for a one-character string `c`: `n` copies of it,
      and the empty string when `n` is zero or negative. */
  function Repeat(c: char, n: int): (r: string)
    ensures |r| == Max(n, 0)
    ensures forall i :: 0 <= i < |r| ==> r[i] == c
    decreases n
  {
    if n <= 0 then [] else [c] + Repeat(c, n - 1)
  }

  /** `reduce(lambda x, y: x + y, parts)`: the parts joined from left to right.
      (`reduce` raises on an empty list; every list joined here is non-empty.) */
  function Concat(parts: seq<string>): (r: string)
    ensures |parts| == 1 ==> r == parts[0]
    ensures forall i :: 0 <= i < |parts| ==> |parts[i]| <= |r|
    decreases |parts|
  {
    if parts == [] then [] else Concat(parts[..|parts| - 1]) + parts[|parts| - 1]
  }

  lemma {:induction false} ConcatAppend(a: seq<string>, b: seq<string>)
    ensures Concat(a + b) == Concat(a) + Concat(b)
    decreases |b|
  {
    if b == [] {
      assert a + b == a;
    } else {
      var b' := b[..|b| - 1];
      assert (a + b)[..|a + b| - 1] == a + b';
      ConcatAppend(a, b');
    }
  }

  /** Joining splits around any one part. */
  lemma ConcatAt(parts: seq<string>, k: nat)
    requires k < |parts|
    ensures Concat(parts) == Concat(parts[..k]) + parts[k] + Concat(parts[k + 1..])
  {
    var front, back := parts[..k] + [parts[k]], parts[k + 1..];
    assert parts == front + back;
    ConcatAppend(front, back);
    assert front[..|front| - 1] == parts[..k];

  }

  /** Joining parts of one common length `len` gives `len` characters per part. */
  lemma {:induction false} ConcatUniformLength(parts: seq<string>, len: nat)
    requires forall i :: 0 <= i < |parts| ==> |parts[i]| == len
    ensures |Concat(parts)| == |parts| * len
    decreases |parts|
  {
    if parts != [] {
      var init := parts[..|parts| - 1];
      ConcatUniformLength(init, len);
      assert |Concat(parts)| == |Concat(init)| + len;
      assert |init| * len + len == |parts| * len;
    }
  }

  lemma MulMonotone(a: nat, b: nat, c: nat)
    requires a <= b
    ensures a * c <= b * c
  {
  }

  /** In a join of parts of one common length `len`, part `k` occupies the
      `len` characters from `k * len` on. */
  lemma ConcatUniformAt(parts: seq<string>, len: nat, k: nat)
    requires forall i :: 0 <= i < |parts| ==> |parts[i]| == len
    requires k < |parts|
    ensures |Concat(parts)| == |parts| * len
    ensures k * len + len <= |parts| * len
    ensures Concat(parts)[k * len..k * len + len] == parts[k]
  {
    MulMonotone(k + 1, |parts|, len);
    ConcatUniformLength(parts, len);
    ConcatUniformLength(parts[..k], len);
    ConcatAt(parts, k);
    var before := Concat(parts[..k]);
    assert Concat(parts) == before + parts[k] + Concat(parts[k + 1..]);
    assert |before| == k * len;
  }

  predicate IsDigit(c: char) {
    '0' <= c <= '9'
  }

  predicate AllDigits(s: string) {
    forall i :: 0 <= i < |s| ==> IsDigit(s[i])
  }

  function DigitChar(d: int): (c: char)
    requires 0 <= d < 10
    ensures IsDigit(c) && c as int - '0' as int == d
  {
    (d + '0' as int) as char
  }

  /** Decimal digits of a natural number, most significant first, without leading zeros. */
  function NatText(n: nat): (r: string)
    ensures |r| >= 1 && AllDigits(r)
    ensures n == 0 ==> r == "0"
    ensures n > 0 ==> r[0] != '0'
    decreases n
  {
    if n < 10 then [DigitChar(n)] else NatText(n / 10) + [DigitChar(n % 10)]
  }

  /** Python's `str(n)` for an integer `n`: a minus sign for negatives, then the digits. */
  function IntText(n: int): (r: string)
    ensures |r| >= 1
    ensures r[0] == '-' <==> n < 0
    ensures n >= 0 ==> AllDigits(r)
    ensures n == 0 ==> r == "0"
    ensures n > 0 ==> r[0] != '0'
    ensures n < 0 ==> |r| >= 2 && AllDigits(r[1..]) && r[1] != '0'
  {
    if n < 0 then "-" + NatText(-n) else NatText(n)
  }

  /** The number a string of decimal digits stands for. */
  function DigitsValue(s: string): nat
    requires AllDigits(s)
    decreases |s|
  {
    if s == [] then 0 else DigitsValue(s[..|s| - 1]) * 10 + (s[|s| - 1] as int - '0' as int)
  }

  /** Reads back the rendering `IntText` produces; `None` for anything else. */
  function ParseInt(s: string): Option<int> {
    if |s| >= 2 && s[0] == '-' && AllDigits(s[1..]) then Some(0 - DigitsValue(s[1..]) as int)
    else if |s| >= 1 && AllDigits(s) then Some(DigitsValue(s))
    else None
  }

  lemma {:induction false} NatTextValue(n: nat)
    ensures DigitsValue(NatText(n)) == n
    decreases n
  {
    if n >= 10 {
      var t := NatText(n);
      assert t[..|t| - 1] == NatText(n / 10);
      NatTextValue(n / 10);
    }
  }

  /** The decimal rendering of an integer determines it. */
  lemma IntTextRoundTrip(n: int)
    ensures ParseInt(IntText(n)) == Some(n)
  {
    if n < 0 {
      assert IntText(n)[1..] == NatText(-n);
      NatTextValue(-n);
    } else {
      NatTextValue(n);
    }
  }
}
