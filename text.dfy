/**
 * The few pieces of Go's standard library the supervisor relies on, written
 * out so that their behaviour can be reasoned about: `strings.Split` with a
 * one-character separator, `strconv.Atoi` and `strconv.Itoa` on 64-bit `int`,
 * and the `[]byte(string)` conversion of ASCII text.
 */
module Text {
  import opened Wrappers

  newtype byte = x: int | 0 <= x < 0x100
  type Bytes = seq<byte>

  const MinInt64: int := -0x8000_0000_0000_0000
  const MaxInt64: int := 0x7FFF_FFFF_FFFF_FFFF

  /** Go's `int` on a 64-bit platform. */
  predicate InInt64(n: int) {
    MinInt64 <= n <= MaxInt64
  }

  predicate IsDigit(c: char) {
    '0' <= c <= '9'
  }

  predicate AllDigits(s: string) {
    forall k :: 0 <= k < |s| ==> IsDigit(s[k])
  }

  // ---------------------------------------------------------------------------
  // strings.Split(s, sep) for a separator of one character

  /** `strings.Split`: the maximal pieces of `s` between occurrences of `sep`. */
  function Split(s: string, sep: char): (parts: seq<string>)
    ensures |parts| >= 1
    ensures forall k :: 0 <= k < |parts| ==> sep !in parts[k]
    decreases |s|
  {
    if s == [] then [""]
    else
      var rest := Split(s[1..], sep);
      if s[0] == sep then [""] + rest
      else [[s[0]] + rest[0]] + rest[1..]
  }

  /** `strings.Join`, the inverse of `Split`. */
  function Join(parts: seq<string>, sep: char): string
    requires |parts| >= 1
    decreases |parts|
  {
    if |parts| == 1 then parts[0] else parts[0] + [sep] + Join(parts[1..], sep)
  }

  /** Number of occurrences of `c` in `s`. */
  function Count(s: string, c: char): nat
    decreases |s|
  {
    if s == [] then 0 else (if s[0] == c then 1 else 0) + Count(s[1..], c)
  }

  /** Splitting loses nothing: joining the parts gives back the input. */
  lemma {:induction false} JoinSplit(s: string, sep: char)
    ensures Join(Split(s, sep), sep) == s
    decreases |s|
  {
    if s != [] {
      var rest := Split(s[1..], sep);
      JoinSplit(s[1..], sep);
      if s[0] == sep {
        assert Split(s, sep) == [""] + rest;
        if |rest| == 1 {
          assert Join(Split(s, sep), sep) == "" + [sep] + rest[0];
        } else {
          assert Join(Split(s, sep), sep) == "" + [sep] + Join(rest, sep);
        }
        assert s == [s[0]] + s[1..];
      } else {
        var parts := Split(s, sep);
        assert parts == [[s[0]] + rest[0]] + rest[1..];
        if |rest| == 1 {
          assert Join(parts, sep) == [s[0]] + rest[0];
        } else {
          assert parts[1..] == rest[1..];
          assert Join(rest, sep) == rest[0] + [sep] + Join(rest[1..], sep);
          assert Join(parts, sep) == [s[0]] + rest[0] + [sep] + Join(rest[1..], sep);
        }
        assert s == [s[0]] + s[1..];
      }
    }
  }

  /** A word without the separator is split off whole from the front. */
  lemma {:induction false} SplitWord(w: string, sep: char, t: string)
    requires sep !in w
    ensures Split(w, sep) == [w]
    ensures Split(w + [sep] + t, sep) == [w] + Split(t, sep)
    decreases |w|
  {
    if w == [] {
      assert [sep] + t == w + [sep] + t;
      assert ([sep] + t)[1..] == t;
    } else {
      SplitWord(w[1..], sep, t);
      assert (w + [sep] + t)[1..] == w[1..] + [sep] + t;
      assert [w[0]] + w[1..] == w;
    }
  }

  /** Parts without the separator are recovered exactly by splitting their join. */
  lemma {:induction false} SplitJoin(parts: seq<string>, sep: char)
    requires |parts| >= 1
    requires forall k :: 0 <= k < |parts| ==> sep !in parts[k]
    ensures Split(Join(parts, sep), sep) == parts
    decreases |parts|
  {
    if |parts| == 1 {
      SplitWord(parts[0], sep, "");
    } else {
      SplitJoin(parts[1..], sep);
      SplitWord(parts[0], sep, Join(parts[1..], sep));
      assert [parts[0]] + parts[1..] == parts;
    }
  }

  /** `Split` yields one more part than there are separators. */
  lemma {:induction false} SplitCount(s: string, sep: char)
    ensures |Split(s, sep)| == Count(s, sep) + 1
    decreases |s|
  {
    if s != [] {
      SplitCount(s[1..], sep);
    }
  }

  // ---------------------------------------------------------------------------
  // strconv.Itoa and strconv.Atoi

  function DigitChar(d: nat): (c: char)
    requires d < 10
    ensures IsDigit(c)
  {
    ('0' as int + d) as char
  }

  function DigitValue(c: char): (d: nat)
    requires IsDigit(c)
    ensures d < 10 && DigitChar(d) == c
  {
    c as int - '0' as int
  }

  /** Decimal digits of a natural number, most significant first, no leading zero. */
  function NatDecimal(n: nat): (s: string)
    ensures |s| >= 1 && AllDigits(s)
    ensures |s| > 1 ==> s[0] != '0'
    decreases n
  {
    if n < 10 then [DigitChar(n)] else NatDecimal(n / 10) + [DigitChar(n % 10)]
  }

  /** `strconv.Itoa`: a minus sign for negative numbers, then the decimal digits. */
  function Itoa(n: int): (s: string)
    ensures s != []
    ensures forall k :: 0 <= k < |s| ==> IsDigit(s[k]) || (k == 0 && s[k] == '-')
    ensures s[0] == '-' <==> n < 0
  {
    if n < 0 then "-" + NatDecimal(-n) else NatDecimal(n)
  }

  /** The value of a string of decimal digits, read left to right. */
  function DigitsValue(s: string): nat
    requires AllDigits(s)
    decreases |s|
  {
    if s == [] then 0 else DigitsValue(s[..|s| - 1]) * 10 + DigitValue(s[|s| - 1])
  }

  /**
   * `strconv.Atoi` on a 64-bit platform: an optional `+` or `-`, then one or
   * more decimal digits, whose value fits in 64 bits; anything else is an error.
   */
  function Atoi(s: string): (r: Option<int>)
    ensures r.Some? ==> InInt64(r.value)
    ensures r.Some? ==> s != [] && (IsDigit(s[0]) || s[0] == '-' || s[0] == '+') && AllDigits(s[1..])
    ensures r.Some? && |s| >= 1 && s[0] == '-' ==> r.value <= 0
    ensures r.Some? && |s| >= 1 && s[0] != '-' ==> r.value >= 0
    ensures r.Some? ==> IsDigit(s[|s| - 1])
  {
    if s == [] then None
    else
      var digits := if s[0] == '-' || s[0] == '+' then s[1..] else s;
      if digits == [] || !AllDigits(digits) then None
      else
        var v: int := if s[0] == '-' then 0 - DigitsValue(digits) as int else DigitsValue(digits);
        if InInt64(v) then Some(v) else None
  }

  lemma {:induction false} NatDecimalValue(n: nat)
    ensures DigitsValue(NatDecimal(n)) == n
    decreases n
  {
    if n >= 10 {
      NatDecimalValue(n / 10);
      var s := NatDecimal(n);
      assert s[..|s| - 1] == NatDecimal(n / 10);
    }
  }

  /** Parsing the printed form of any 64-bit integer gives that integer back. */
  lemma AtoiItoa(n: int)
    requires InInt64(n)
    ensures Atoi(Itoa(n)) == Some(n)
  {
    var s := Itoa(n);
    if n < 0 {
      NatDecimalValue(-n);
      assert s[1..] == NatDecimal(-n);
    } else {
      NatDecimalValue(n);
    }
  }

  /** `k` zero digits. */
  function Zeros(k: nat): (z: string)
    ensures |z| == k && AllDigits(z)
  {
    seq(k, _ => '0')
  }

  lemma {:induction false} ZerosValue(k: nat)
    ensures DigitsValue(Zeros(k)) == 0
    decreases k
  {
    if k > 0 {
      ZerosValue(k - 1);
      assert Zeros(k)[..k - 1] == Zeros(k - 1);
    }
  }

  /** Leading zeros do not change the value of a numeral. */
  lemma {:induction false} ZerosDigitsValue(k: nat, d: string)
    requires AllDigits(d)
    ensures DigitsValue(Zeros(k) + d) == DigitsValue(d)
    decreases |d|
  {
    var w := Zeros(k) + d;
    if d == [] {
      assert w == Zeros(k);
      ZerosValue(k);
    } else {
      ZerosDigitsValue(k, d[..|d| - 1]);
      assert w[..|w| - 1] == Zeros(k) + d[..|d| - 1];
    }
  }

  /** `Atoi` on digits, with or without a `+` sign: their value, if it fits 64 bits. */
  lemma AtoiDigits(d: string)
    requires d != [] && AllDigits(d)
    ensures Atoi(d) == if DigitsValue(d) <= MaxInt64 then Some(DigitsValue(d) as int) else None
    ensures Atoi("+" + d) == Atoi(d)
  {
    assert ("+" + d)[1..] == d;
  }

  /**
   * `Atoi` also accepts non-canonical numerals: leading zeros, with or
   * without a `+` sign, stand for the same non-negative value.
   */
  lemma AtoiLeadingZeros(k: nat, n: int)
    requires 0 <= n <= MaxInt64
    ensures Atoi(Zeros(k) + Itoa(n)) == Some(n)
    ensures Atoi("+" + Zeros(k) + Itoa(n)) == Some(n)
  {
    var digits := Itoa(n);
    assert AllDigits(digits) by {
      assert digits == NatDecimal(n);
    }
    var padded := Zeros(k) + digits;
    assert AllDigits(padded) by {
      forall i | 0 <= i < |padded|
        ensures IsDigit(padded[i])
      {
        if i >= k {
          assert padded[i] == digits[i - k];
        }
      }
    }
    NatDecimalValue(n);
    ZerosDigitsValue(k, digits);
    AtoiDigits(padded);
    assert "+" + Zeros(k) + Itoa(n) == "+" + padded;
  }

  /** Printing is injective on 64-bit integers. */
  lemma ItoaInjective(a: int, b: int)
    requires InInt64(a) && InInt64(b)
    requires Itoa(a) == Itoa(b)
    ensures a == b
  {
    AtoiItoa(a);
    AtoiItoa(b);
  }

  // ---------------------------------------------------------------------------
  // []byte(s) for ASCII text

  predicate IsAscii(s: string) {
    forall k :: 0 <= k < |s| ==> s[k] as int < 0x80
  }

  /** The UTF-8 bytes of an ASCII string: one byte per character, same code. */
  function AsciiBytes(s: string): (b: Bytes)
    requires IsAscii(s)
    ensures |b| == |s|
    ensures forall k :: 0 <= k < |s| ==> b[k] as int == s[k] as int
  {
    seq(|s|, k requires 0 <= k < |s| => s[k] as int as byte)
  }
}
