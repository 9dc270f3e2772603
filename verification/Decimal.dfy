/** The 4-byte decimal fields of the protocol: `sprintf("%d")` cut to 4 bytes, and `atoi` on what comes out. */
module Decimal {
  import opened Config

  const ZERO: byte := 48
  const MINUS: byte := 45
  const PLUS: byte := 43

  predicate IsDigit(b: byte) { ZERO <= b <= ZERO + 9 }

  predicate IsSpace(b: byte) { b == 32 || 9 <= b <= 13 }

  function Digits(n: nat): (s: seq<byte>)
    ensures |s| >= 1 && forall k :: 0 <= k < |s| ==> IsDigit(s[k])
  {
    if n < 10 then [ZERO + n] else Digits(n / 10) + [ZERO + n % 10]
  }

  /** `sprintf("%d", v)`. */
  function Printed(v: int): seq<byte> {
    if v < 0 then [MINUS] + Digits(-v) else Digits(v)
  }

  function Zeros(n: nat): (s: seq<byte>)
    ensures |s| == n && forall k :: 0 <= k < n ==> s[k] == 0
  {
    seq(n, _ => 0)
  }

  /** The first 4 bytes of a zeroed buffer that `v` has been printed into. */
  function Field(v: int): (s: seq<byte>)
    ensures |s| == 4
  {
    (Printed(v) + Zeros(4))[..4]
  }

  /** The value of the digits at the front of `s`, after `acc`. */
  function Number(s: seq<byte>, acc: nat := 0): (n: nat)
    decreases |s|
  {
    if s == [] || !IsDigit(s[0]) then acc else Number(s[1..], 10 * acc + (s[0] - ZERO))
  }

  function SkipSpaces(s: seq<byte>): (r: seq<byte>)
    ensures |r| <= |s|
  {
    if s != [] && IsSpace(s[0]) then SkipSpaces(s[1..]) else s
  }

  /** `atoi`. */
  function Atoi(s: seq<byte>): int {
    var t := SkipSpaces(s);
    if t != [] && t[0] == MINUS then 0 - Number(t[1..])
    else if t != [] && t[0] == PLUS then Number(t[1..])
    else Number(t)
  }

  // ----- Numbers printed and read -----

  lemma {:induction false} NumberAppend(s: seq<byte>, t: seq<byte>, acc: nat)
    requires forall k :: 0 <= k < |s| ==> IsDigit(s[k])
    ensures Number(s + t, acc) == Number(t, Number(s, acc))
    decreases |s|
  {
    if s == [] {
      assert s + t == t;
    } else {
      assert (s + t)[1..] == s[1..] + t;
      NumberAppend(s[1..], t, 10 * acc + (s[0] - ZERO));
    }
  }

  /** Reading back printed digits, up to the first byte that is none. */
  lemma {:induction false} NumberOfDigits(n: nat, rest: seq<byte>)
    requires rest == [] || !IsDigit(rest[0])
    ensures Number(Digits(n) + rest) == n
    decreases n
  {
    if n < 10 {
      assert ([ZERO + n] + rest)[1..] == rest;
    } else {
      var front, last := Digits(n / 10), [ZERO + n % 10] + rest;
      assert Digits(n) + rest == front + last;
      NumberAppend(front, last, 0);
      NumberOfDigits(n / 10, []);
      assert front + [] == front;
      assert last[1..] == rest;
    }
  }

  lemma AtoiPrinted(v: int, rest: seq<byte>)
    requires rest == [] || !IsDigit(rest[0])
    ensures Atoi(Printed(v) + rest) == v
  {
    if v < 0 {
      MinusRead(Digits(-v) + rest);
      assert [MINUS] + (Digits(-v) + rest) == Printed(v) + rest;
      NumberOfDigits(-v, rest);
    } else {
      DigitRead(Digits(v) + rest);
      NumberOfDigits(v, rest);
    }
  }

  lemma MinusRead(s: seq<byte>)
    ensures Atoi([MINUS] + s) == 0 - Number(s)
  {
    assert ([MINUS] + s)[1..] == s;
  }

  lemma DigitRead(s: seq<byte>)
    requires s != [] && IsDigit(s[0])
    ensures Atoi(s) == Number(s)
  {
  }

  lemma LengthOfDigits(n: nat)
    ensures |Digits(n)| == if n < 10 then 1 else 1 + |Digits(n / 10)|
  {
  }

  lemma DigitsShort(n: nat)
    ensures n <= 99 ==> |Digits(n)| <= 2
    ensures n <= 999 ==> |Digits(n)| <= 3
    ensures n <= 9999 ==> |Digits(n)| <= 4
  {
    LengthOfDigits(n);
    LengthOfDigits(n / 10);
    LengthOfDigits(n / 100);
  }

  /** The largest number that `n` more digits make of `acc`. */
  function Largest(acc: nat, n: nat): nat
    decreases n
  {
    if n == 0 then acc else Largest(10 * acc + 9, n - 1)
  }

  lemma {:induction false} LargestMonotone(a: nat, b: nat, n: nat)
    requires a <= b
    ensures a <= Largest(a, n) <= Largest(b, n)
    decreases n
  {
    if n > 0 {
      LargestMonotone(10 * a + 9, 10 * b + 9, n - 1);
    }
  }

  lemma {:induction false} NumberBounded(s: seq<byte>, acc: nat, n: nat)
    requires n <= |s| && (n < |s| ==> !IsDigit(s[n]))
    ensures Number(s, acc) <= Largest(acc, n)
    decreases n
  {
    if n > 0 {
      if IsDigit(s[0]) {
        var next := 10 * acc + (s[0] - ZERO);
        NumberBounded(s[1..], next, n - 1);
        LargestMonotone(next, 10 * acc + 9, n - 1);
      } else {
        LargestMonotone(acc, acc, n);
      }
    }
  }

  /** Spaces only take places away. */
  lemma {:induction false} SpacesShorten(s: seq<byte>, n: nat) returns (m: nat)
    requires n < |s| && s[n] == 0
    ensures m <= n && m < |SkipSpaces(s)| && SkipSpaces(s)[m] == 0
    decreases |s|
  {
    if IsSpace(s[0]) {
      m := SpacesShorten(s[1..], n - 1);
    } else {
      m := n;
    }
  }

  /** Four bytes and a NUL never read as more than four places, or three and a sign. */
  lemma FourBytesBounded(s: seq<byte>)
    requires |s| > 4 && s[4] == 0
    ensures -999 <= Atoi(s) <= 9999
  {
    var m := SpacesShorten(s, 4);
    var t := SkipSpaces(s);
    assert Largest(0, 4) == 9999 && Largest(0, 3) == 999;
    LargestGrows(m, 4);
    if t[0] == MINUS || t[0] == PLUS {
      LargestGrows(m - 1, 3);
      NumberBounded(t[1..], 0, m - 1);
    } else {
      NumberBounded(t, 0, m);
    }
  }

  lemma {:induction false} LargestGrows(m: nat, n: nat)
    requires m <= n
    ensures Largest(0, m) <= Largest(0, n)
    decreases n
  {
    if m < n {
      LargestGrows(m, n - 1);
      LargestMore(0, n - 1);
    }
  }

  lemma {:induction false} LargestMore(acc: nat, n: nat)
    ensures Largest(acc, n) <= Largest(acc, n + 1)
    decreases n
  {
    LargestMonotone(acc, 10 * acc + 9, n);
  }

  // ----- What a field carries -----

  /** `buffer` with `bytes` read into its front. */
  function Into(buffer: seq<byte>, bytes: seq<byte>): (r: seq<byte>)
    requires |bytes| <= |buffer|
    ensures |r| == |buffer|
    ensures forall k :: 0 <= k < |r| ==> r[k] == if k < |bytes| then bytes[k] else buffer[k]
  {
    bytes + buffer[|bytes|..]
  }

  /** A printed number short enough to keep its end is read back. */
  lemma ShortField(v: int, buffer: seq<byte>)
    requires |buffer| > 4 && |Printed(v)| <= 4
    requires |Printed(v)| == 4 ==> !IsDigit(buffer[4])
    ensures Atoi(Into(buffer, Field(v))) == v
  {
    var rest := Into(buffer, Field(v))[|Printed(v)|..];
    assert Into(buffer, Field(v)) == Printed(v) + rest;
    AtoiPrinted(v, rest);
  }

  /** Into a zeroed buffer a field carries exactly the numbers from -999 to 9999. */
  lemma FieldCarriesExactly(v: int, size: nat)
    requires size > 4
    ensures Atoi(Into(Zeros(size), Field(v))) == v <==> -999 <= v <= 9999
  {
    FourBytesBounded(Into(Zeros(size), Field(v)));
    if -999 <= v <= 9999 {
      DigitsShort(if v < 0 then -v else v);
      ShortField(v, Zeros(size));
    }
  }

  /** Into a buffer holding anything a field still carries the numbers from -99 to 999, whose end it keeps. */
  lemma FieldIntoJunk(v: int, junk: seq<byte>)
    requires |junk| > 4 && -99 <= v <= 999
    ensures Atoi(Into(junk, Field(v))) == v
  {
    DigitsShort(if v < 0 then -v else v);
    ShortField(v, junk);
  }

  /** The field comes back whatever the buffer held. */
  ghost predicate SurvivesJunk(v: int, size: nat)
    requires size > 4
  {
    forall junk: seq<byte> :: |junk| == size ==> Atoi(Into(junk, Field(v))) == v
  }

  lemma DigitsLong(n: nat)
    requires n >= 100
    ensures |Digits(n)| == if n <= 999 then 3 else 1 + |Digits(n / 10)|
    ensures n <= 9999 ==> |Digits(n)| <= 4
    ensures n >= 1000 ==> |Digits(n)| >= 4
  {
    LengthOfDigits(n);
    LengthOfDigits(n / 10);
    LengthOfDigits(n / 100);
  }

  /** The junk that does it: a digit after four characters that leave no room for an end. */
  lemma DigitFollows(v: int, size: nat)
    requires size > 4 && |Printed(v)| == 4 && v != 0
    ensures Atoi(Into([0, 0, 0, 0, ZERO] + Zeros(size - 5), Field(v))) == 10 * v
  {
    var rest := Zeros(size - 5);
    var n := if v < 0 then -v else v;
    assert Digits(10 * n) == Digits(n) + [ZERO];
    assert Printed(10 * v) == Printed(v) + [ZERO];
    assert Field(v) == Printed(v);
    assert Into([0, 0, 0, 0, ZERO] + rest, Field(v)) == Printed(10 * v) + rest;
    AtoiPrinted(10 * v, rest);
  }

  /** A field survives every uncleared buffer exactly if its number leaves room for the end. */
  lemma FieldIntoJunkExactly(v: int, size: nat)
    requires size > 4
    ensures SurvivesJunk(v, size) <==> -99 <= v <= 999
  {
    if -99 <= v <= 999 {
      forall junk: seq<byte> | |junk| == size ensures Atoi(Into(junk, Field(v))) == v { FieldIntoJunk(v, junk); }
    } else if -999 <= v <= 9999 {
      DigitsLong(if v < 0 then -v else v);
      var junk: seq<byte> := [0, 0, 0, 0, ZERO] + Zeros(size - 5);
      DigitFollows(v, size);
      assert |junk| == size && Atoi(Into(junk, Field(v))) != v;
    } else {
      FieldCarriesExactly(v, size);
      var junk: seq<byte> := Zeros(size);
      assert |junk| == size && Atoi(Into(junk, Field(v))) != v;
    }
  }
}
