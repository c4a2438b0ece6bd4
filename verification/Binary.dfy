/**
 Bytes as integers from 0 to 255 with their bitwise operations, each defined on
 binary digits.
 */
module Binary {

  type Byte = b: int | 0 <= b < 256

  function Xor(a: nat, b: nat, bits: nat): nat {
    if bits == 0 then 0 else 2 * Xor(a / 2, b / 2, bits - 1) + if a % 2 != b % 2 then 1 else 0
  }

  function Or(a: nat, b: nat, bits: nat): nat {
    if bits == 0 then 0 else 2 * Or(a / 2, b / 2, bits - 1) + if a % 2 == 1 || b % 2 == 1 then 1 else 0
  }

  function Power2(n: nat): (p: nat)
    ensures p > 0
  {
    if n == 0 then 1 else 2 * Power2(n - 1)
  }

  lemma {:induction false} XorBound(a: nat, b: nat, bits: nat)
    ensures Xor(a, b, bits) < Power2(bits)
  {
    if bits > 0 {
      XorBound(a / 2, b / 2, bits - 1);
    }
  }

  lemma {:induction false} OrBound(a: nat, b: nat, bits: nat)
    ensures Or(a, b, bits) < Power2(bits)
  {
    if bits > 0 {
      OrBound(a / 2, b / 2, bits - 1);
    }
  }

  lemma {:induction false} XorTwice(a: nat, m: nat, bits: nat)
    requires a < Power2(bits)
    ensures Xor(Xor(a, m, bits), m, bits) == a
  {
    if bits > 0 {
      var x := Xor(a / 2, m / 2, bits - 1);
      XorTwice(a / 2, m / 2, bits - 1);
      assert Xor(a, m, bits) / 2 == x;
    }
  }

  lemma {:induction false} XorZero(a: nat, b: nat, bits: nat)
    requires a < Power2(bits) && b < Power2(bits)
    ensures Xor(a, b, bits) == 0 <==> a == b
  {
    if bits > 0 {
      XorZero(a / 2, b / 2, bits - 1);
    }
  }

  lemma {:induction false} OrZero(a: nat, b: nat, bits: nat)
    requires a < Power2(bits) && b < Power2(bits)
    ensures Or(a, b, bits) == 0 <==> a == 0 && b == 0
  {
    if bits > 0 {
      OrZero(a / 2, b / 2, bits - 1);
    }
  }

  function XorByte(a: Byte, b: Byte): Byte {
    XorBound(a, b, 8);
    assert Power2(8) == 256;
    Xor(a, b, 8)
  }

  function OrByte(a: Byte, b: Byte): Byte {
    OrBound(a, b, 8);
    assert Power2(8) == 256;
    Or(a, b, 8)
  }

  lemma XorByteTwice(a: Byte, m: Byte)
    ensures XorByte(XorByte(a, m), m) == a
  {
    assert Power2(8) == 256;
    XorTwice(a, m, 8);
  }

  lemma XorByteZero(a: Byte, b: Byte)
    ensures XorByte(a, b) == 0 <==> a == b
  {
    assert Power2(8) == 256;
    XorZero(a, b, 8);
  }

  lemma OrByteZero(a: Byte, b: Byte)
    ensures OrByte(a, b) == 0 <==> a == 0 && b == 0
  {
    assert Power2(8) == 256;
    OrZero(a, b, 8);
  }

  // ------------------------------------------------------------ digits

  /** The `width` binary digits of n, most significant first. */
  function Digits(n: nat, width: nat): (r: seq<bool>)
    ensures |r| == width
  {
    if width == 0 then [] else Digits(n / 2, width - 1) + [n % 2 == 1]
  }

  function Value(bits: seq<bool>): nat {
    if bits == [] then 0 else 2 * Value(bits[..|bits| - 1]) + if bits[|bits| - 1] then 1 else 0
  }

  lemma {:induction false} ValueBound(bits: seq<bool>)
    ensures Value(bits) < Power2(|bits|)
  {
    if bits != [] {
      ValueBound(bits[..|bits| - 1]);
    }
  }

  lemma {:induction false} DigitsOfValue(bits: seq<bool>)
    ensures Digits(Value(bits), |bits|) == bits
  {
    if bits != [] {
      DigitsOfValue(bits[..|bits| - 1]);
    }
  }

  lemma {:induction false} ValueOfDigits(n: nat, width: nat)
    requires n < Power2(width)
    ensures Value(Digits(n, width)) == n
  {
    if width > 0 {
      ValueOfDigits(n / 2, width - 1);
      assert Digits(n, width)[..width - 1] == Digits(n / 2, width - 1);
    }
  }

  lemma {:induction false} DigitAt(n: nat, width: nat, i: nat)
    requires i < width
    ensures Digits(n, width)[i] == (n / Power2(width - 1 - i) % 2 == 1)
    decreases width
  {
    if i < width - 1 {
      DigitAt(n / 2, width - 1, i);
      DivTwice(n, Power2(width - 2 - i));
    }
  }

  lemma DivTwice(n: nat, p: nat)
    requires p > 0
    ensures n / 2 / p == n / (2 * p)
  {
    var q, r := n / 2 / p, n / 2 % p;
    var rest := 2 * r + n % 2;
    assert n == 2 * (q * p + r) + n % 2;
    assert n == q * (2 * p) + rest;
    Quotient(n, 2 * p, q, rest);
  }

  lemma Quotient(n: nat, d: nat, q: nat, r: nat)
    requires d > 0 && n == q * d + r && r < d
    ensures n / d == q && n % d == r
  {
    var k := n / d;
    assert n == k * d + n % d;
    assert (k - q) * d == r - n % d;
    assert (q - k) * d == n % d - r;
    if k > q {
      AtLeast(k - q, d);
    } else if k < q {
      AtLeast(q - k, d);
    }
  }

  lemma AtLeast(k: nat, d: nat)
    requires k >= 1
    ensures k * d >= d
  {
    assert k * d == d + (k - 1) * d;
  }

  // ------------------------------------------------------------ big-endian numbers

  function BigEndian(n: nat, size: nat): (r: seq<Byte>)
    ensures |r| == size
  {
    if size == 0 then [] else BigEndian(n / 256, size - 1) + [n % 256]
  }

  function Number(bytes: seq<Byte>): nat {
    if bytes == [] then 0 else 256 * Number(bytes[..|bytes| - 1]) + bytes[|bytes| - 1]
  }

  function Power256(n: nat): nat {
    if n == 0 then 1 else 256 * Power256(n - 1)
  }

  lemma {:induction false} BigEndianNumber(n: nat, size: nat)
    requires n < Power256(size)
    ensures Number(BigEndian(n, size)) == n
  {
    if size > 0 {
      BigEndianNumber(n / 256, size - 1);
      assert BigEndian(n, size)[..size - 1] == BigEndian(n / 256, size - 1);
    }
  }

  lemma {:induction false} NumberBound(bytes: seq<Byte>)
    ensures Number(bytes) < Power256(|bytes|)
    ensures bytes != [] && bytes[0] != 0 ==> Number(bytes) >= Power256(|bytes| - 1)
  {
    if bytes != [] {
      NumberBound(bytes[..|bytes| - 1]);
    }
  }

  lemma {:induction false} NumberBigEndian(bytes: seq<Byte>)
    ensures BigEndian(Number(bytes), |bytes|) == bytes
  {
    if bytes != [] {
      NumberBigEndian(bytes[..|bytes| - 1]);
    }
  }
}
