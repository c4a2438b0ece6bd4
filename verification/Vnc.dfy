/**
 The VNC authentication of section 7.2.2 of RFC 6143: a challenge of 16 bytes, a
 password as DES key with its bytes reversed bit by bit, and the check of a
 response. Passwords are their UTF-8 bytes.
 */
module Vnc {
  import opened Binary
  import opened DesTables
  import opened Des

  // ------------------------------------------------------------ bytes and digits

  /** The digits of a string of bytes, as of the big-endian number it is. */
  function ToBits(bytes: seq<Byte>): (r: Bits)
    ensures |r| == 8 * |bytes|
  {
    if bytes == [] then [] else Digits(bytes[0], 8) + ToBits(bytes[1..])
  }

  function ToByte(bits: Bits): Byte
    requires |bits| == 8
  {
    ValueBound(bits);
    assert Power2(8) == 256;
    Value(bits)
  }

  function ToBytes(bits: Bits): (r: seq<Byte>)
    requires |bits| % 8 == 0
    ensures 8 * |r| == |bits|
  {
    if bits == [] then [] else [ToByte(bits[..8])] + ToBytes(bits[8..])
  }

  lemma {:induction false} BytesOfBits(bits: Bits)
    requires |bits| % 8 == 0
    ensures ToBits(ToBytes(bits)) == bits
  {
    if bits != [] {
      BytesOfBits(bits[8..]);
      DigitsOfValue(bits[..8]);
      assert bits[..8] + bits[8..] == bits;
    }
  }

  lemma {:induction false} BitsOfBytes(bytes: seq<Byte>)
    ensures ToBytes(ToBits(bytes)) == bytes
  {
    if bytes != [] {
      var bits := ToBits(bytes);
      assert Power2(8) == 256;
      ValueOfDigits(bytes[0], 8);
      assert bits[..8] == Digits(bytes[0], 8) && bits[8..] == ToBits(bytes[1..]);
      BitsOfBytes(bytes[1..]);
    }
  }

  lemma {:induction false} BitOfByte(bytes: seq<Byte>, j: nat, k: nat)
    requires j < |bytes| && k < 8
    ensures ToBits(bytes)[8 * j + k] == Digits(bytes[j], 8)[k]
  {
    if j > 0 {
      BitOfByte(bytes[1..], j - 1, k);
    }
  }

  lemma ByteDigits(b: Byte)
    ensures ToByte(Digits(b, 8)) == b
  {
    assert Power2(8) == 256;
    ValueOfDigits(b, 8);
  }

  // ------------------------------------------------------------ the key

  /** _bit_reverse on the digits of a byte: swaps the halves, then the pairs of
      each half, then the digits of each pair. */
  function Mirrored(b: Bits): (r: Bits)
    requires |b| == 8
    ensures |r| == 8
  {
    var halves := b[4..] + b[..4];
    var pairs := halves[2..4] + halves[..2] + halves[6..] + halves[4..6];
    [pairs[1], pairs[0], pairs[3], pairs[2], pairs[5], pairs[4], pairs[7], pairs[6]]
  }

  function BitReverse(b: Byte): Byte {
    ToByte(Mirrored(Digits(b, 8)))
  }

  lemma MirroredAt(b: Bits, k: nat)
    requires |b| == 8 && k < 8
    ensures Mirrored(b)[k] == b[7 - k]
  {
  }

  /** The digits of the result are those of the byte in reverse order. */
  lemma ReverseIsMirror(b: Byte, k: nat)
    requires k < 8
    ensures Digits(BitReverse(b), 8)[k] == Digits(b, 8)[7 - k]
  {
    MirroredAt(Digits(b, 8), k);
    DigitsOfValue(Mirrored(Digits(b, 8)));
  }

  lemma ReverseTwice(b: Byte)
    ensures BitReverse(BitReverse(b)) == b
  {
    var d := Digits(b, 8);
    DigitsOfValue(Mirrored(d));
    assert Mirrored(Mirrored(d)) == d;
    ByteDigits(b);
  }

  /** The first eight bytes of a password, filled up with zeros. */
  function Padded(password: seq<Byte>): (r: seq<Byte>)
    ensures |r| == 8
  {
    if |password| >= 8 then password[..8] else password + seq(8 - |password|, i => 0)
  }

  function PasswordKey(password: seq<Byte>): (r: seq<Byte>)
    ensures |r| == 8
  {
    seq(8, i requires 0 <= i < 8 => BitReverse(Padded(password)[i]))
  }

  function KeyBits(password: seq<Byte>): Block {
    ToBits(PasswordKey(password))
  }

  // ------------------------------------------------------------ challenge and response

  /** What the proofs need of the tables; those of the standard have it. */
  ghost predicate Standard(s: Tables) {
    Shapely(s) && OuterInverse(s)
  }

  lemma DesIsStandard()
    ensures Standard(DES)
  {
    DesInverse();
  }

  function CryptBytes(s: Tables, block: seq<Byte>, ks: seq<Subkey>): (r: seq<Byte>)
    requires Shapely(s) && |block| == 8
    ensures |r| == 8
  {
    ToBytes(Crypt(s, ToBits(block), ks))
  }

  /** The response of 16 bytes to a challenge under these subkeys. */
  function Response(s: Tables, challenge: seq<Byte>, ks: seq<Subkey>): (r: seq<Byte>)
    requires Shapely(s) && |challenge| == 16
    ensures |r| == 16
  {
    CryptBytes(s, challenge[..8], ks) + CryptBytes(s, challenge[8..], ks)
  }

  function PasswordKeys(s: Tables, password: seq<Byte>): seq<Subkey>
    requires KeyTables(s)
  {
    Subkeys(s, KeyBits(password))
  }

  lemma BytesBack(s: Tables, block: seq<Byte>, ks: seq<Subkey>)
    requires Standard(s) && |block| == 8
    ensures CryptBytes(s, CryptBytes(s, block, ks), Reversed(ks)) == block
    ensures CryptBytes(s, CryptBytes(s, block, Reversed(ks)), ks) == block
  {
    BytesOfBits(Crypt(s, ToBits(block), ks));
    BytesOfBits(Crypt(s, ToBits(block), Reversed(ks)));
    CryptBack(s, ToBits(block), ks);
    CryptBack(s, ToBits(block), Reversed(ks));
    ReversedTwice(ks);
    BitsOfBytes(block);
  }

  lemma SameHalves(a: seq<Byte>, b: seq<Byte>, c: seq<Byte>, d: seq<Byte>)
    requires |a| == |c| && a + b == c + d
    ensures a == c && b == d
  {
    assert a == (a + b)[..|a|] && b == (a + b)[|a|..];
    assert c == (c + d)[..|a|] && d == (c + d)[|a|..];
  }

  lemma SameBlock(s: Tables, a: seq<Byte>, b: seq<Byte>, ks: seq<Subkey>)
    requires Standard(s) && |a| == |b| == 8 && CryptBytes(s, a, ks) == CryptBytes(s, b, ks)
    ensures a == b
  {
    BytesBack(s, a, ks);
    BytesBack(s, b, ks);
  }

  lemma Whole(a: seq<Byte>, b: seq<Byte>)
    requires |a| == |b| == 16 && a[..8] == b[..8] && a[8..] == b[8..]
    ensures a == b
  {
    assert a == a[..8] + a[8..] && b == b[..8] + b[8..];
  }

  /** Distinct challenges need distinct responses, for every password. */
  lemma DistinctResponses(s: Tables, a: seq<Byte>, b: seq<Byte>, ks: seq<Subkey>)
    requires Standard(s) && |a| == |b| == 16 && Response(s, a, ks) == Response(s, b, ks)
    ensures a == b
  {
    SameHalves(CryptBytes(s, a[..8], ks), CryptBytes(s, a[8..], ks), CryptBytes(s, b[..8], ks), CryptBytes(s, b[8..], ks));
    SameBlock(s, a[..8], b[..8], ks);
    SameBlock(s, a[8..], b[8..], ks);
    Whole(a, b);
  }

  /** Every 16 bytes are the response to one challenge. */
  lemma EveryResponse(s: Tables, response: seq<Byte>, ks: seq<Subkey>) returns (challenge: seq<Byte>)
    requires Standard(s) && |response| == 16
    ensures |challenge| == 16 && Response(s, challenge, ks) == response
  {
    var x, y := CryptBytes(s, response[..8], Reversed(ks)), CryptBytes(s, response[8..], Reversed(ks));
    challenge := x + y;
    assert challenge[..8] == x && challenge[8..] == y;
    BytesBack(s, response[..8], ks);
    BytesBack(s, response[8..], ks);
    assert response[..8] + response[8..] == response;
  }

  /** The same for DES itself. */
  lemma DesResponses(a: seq<Byte>, b: seq<Byte>, ks: seq<Subkey>)
    requires |a| == |b| == 16
    ensures Shapely(DES) && (Response(DES, a, ks) == Response(DES, b, ks) ==> a == b)
  {
    DesIsStandard();
    if Response(DES, a, ks) == Response(DES, b, ks) {
      DistinctResponses(DES, a, b, ks);
    }
  }

  // ------------------------------------------------------------ the check

  /** The loop ors together what differs, so that it takes the same time for
      every response of the right length. */
  method Compare(expected: seq<Byte>, response: seq<Byte>) returns (same: bool)
    requires |expected| == |response|
    ensures same <==> expected == response
  {
    var diff: Byte := 0;
    var i := 0;
    while i < |expected|
      invariant 0 <= i <= |expected|
      invariant diff == 0 <==> expected[..i] == response[..i]
    {
      var x, y := expected[i], response[i];
      XorByteZero(x, y);
      OrByteZero(diff, XorByte(x, y));
      assert expected[..i + 1] == expected[..i] + [x] && response[..i + 1] == response[..i] + [y];
      diff := OrByte(diff, XorByte(x, y));
      i := i + 1;
    }
    assert expected[..i] == expected && response[..i] == response;
    same := diff == 0;
  }

  method EncryptBlock(s: Tables, block: seq<Byte>, password: seq<Byte>) returns (r: seq<Byte>)
    requires Shapely(s) && |block| == 8
    ensures r == CryptBytes(s, block, PasswordKeys(s, password))
  {
    var out := Encrypt(s, ToBits(block), KeyBits(password));
    r := ToBytes(out);
  }

  /** verify_vnc_response: for each password and challenge of 16 bytes exactly
      one response verifies, and nothing of another length does. */
  method Verify(s: Tables, challenge: seq<Byte>, response: seq<Byte>, password: seq<Byte>) returns (ok: bool)
    requires Shapely(s)
    ensures ok <==> |challenge| == 16 && response == Response(s, challenge, PasswordKeys(s, password))
  {
    if |challenge| != 16 || |response| != 16 {
      return false;
    }
    var first := EncryptBlock(s, challenge[..8], password);
    var second := EncryptBlock(s, challenge[8..], password);
    ok := Compare(first + second, response);
  }

  // ------------------------------------------------------------ passwords

  /** The two bytes differ in the highest digit at most. */
  predicate SameLow(a: Byte, b: Byte) {
    forall k :: 1 <= k < 8 ==> Digits(a, 8)[k] == Digits(b, 8)[k]
  }

  /** The key schedule never reads the last digit of a key byte. */
  predicate ParityUnread(s: Tables) {
    KeyTables(s) && forall i :: 0 <= i < 56 ==> Entry(s.pc1, 64, i) % 8 != 0
  }

  lemma DesParityUnread()
    ensures ParityUnread(DES)
  {
    DesShapely();
    Pc1Shape();
    Pc1Rows(PC1);
    forall i | 0 <= i < 56
      ensures Entry(PC1, 64, i) % 8 != 0
    {
    }
  }

  lemma Pc1Upper(r: nat, c: nat)
    requires r < 4 && c < 7
    ensures |PC1.rows| == 8 && |PC1.rows[r]| == 7 && PC1.rows[r][c] % 8 != 0
  {
  }

  lemma Pc1Lower(r: nat, c: nat)
    requires 4 <= r < 8 && c < 7
    ensures |PC1.rows| == 8 && |PC1.rows[r]| == 7 && PC1.rows[r][c] % 8 != 0
  {
  }

  lemma Pc1Rows(t: Table)
    requires t == PC1 && Shaped(t, 8, 7, 64)
    ensures forall r, c :: 0 <= r < 8 && 0 <= c < 7 ==> t.rows[r][c] % 8 != 0
  {
    forall r, c | 0 <= r < 8 && 0 <= c < 7
      ensures t.rows[r][c] % 8 != 0
    {
      if r < 4 {
        Pc1Upper(r, c);
      } else {
        Pc1Lower(r, c);
      }
    }
  }

  lemma KeyDigit(password: seq<Byte>, j: nat, k: nat)
    requires j < 8 && k < 8
    ensures KeyBits(password)[8 * j + k] == Digits(Padded(password)[j], 8)[7 - k]
  {
    BitOfByte(PasswordKey(password), j, k);
    ReverseIsMirror(Padded(password)[j], k);
  }

  /** Keys that differ only in the last digits of their bytes. */
  predicate SameKey(x: Block, y: Block) {
    forall i :: 0 <= i < 64 && i % 8 != 7 ==> x[i] == y[i]
  }

  lemma SubkeysAlike(s: Tables, x: Block, y: Block)
    requires ParityUnread(s) && SameKey(x, y)
    ensures Subkeys(s, x) == Subkeys(s, y)
  {
    assert Permute(x, s.pc1) == Permute(y, s.pc1);
  }

  lemma KeyAlike(a: seq<Byte>, b: seq<Byte>, i: nat)
    requires i < 64 && i % 8 != 7 && SameLow(Padded(a)[i / 8], Padded(b)[i / 8])
    ensures KeyBits(a)[i] == KeyBits(b)[i]
  {
    KeyDigit(a, i / 8, i % 8);
    KeyDigit(b, i / 8, i % 8);
  }

  /** Only the first eight bytes of a password count, and of each only the low
      seven digits: passwords that agree there have the same subkeys, and so
      the same responses. */
  lemma PasswordsAlike(s: Tables, a: seq<Byte>, b: seq<Byte>)
    requires ParityUnread(s) && forall j :: 0 <= j < 8 ==> SameLow(Padded(a)[j], Padded(b)[j])
    ensures PasswordKeys(s, a) == PasswordKeys(s, b)
  {
    forall i | 0 <= i < 64 && i % 8 != 7
      ensures KeyBits(a)[i] == KeyBits(b)[i]
    {
      KeyAlike(a, b, i);
    }
    SubkeysAlike(s, KeyBits(a), KeyBits(b));
  }

  /** The same for the tables of the standard. */
  lemma DesPasswordsAlike(a: seq<Byte>, b: seq<Byte>)
    requires forall j :: 0 <= j < 8 ==> SameLow(Padded(a)[j], Padded(b)[j])
    ensures KeyTables(DES) && PasswordKeys(DES, a) == PasswordKeys(DES, b)
  {
    DesParityUnread();
    PasswordsAlike(DES, a, b);
  }
}
