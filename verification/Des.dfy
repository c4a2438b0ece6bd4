/**
 The DES block cipher of FIPS 46-3 as the VNC authentication writes it out. A
 block is the string of its binary digits, most significant first. The steps are
 functions of the tables; DesTables has the tables of the standard.
 */
module Des {
  import opened Binary
  import opened DesTables

  type Bits = seq<bool>
  type Half = b: Bits | |b| == 32 witness seq(32, i => false)
  type Block = b: Bits | |b| == 64 witness seq(64, i => false)
  type Subkey = b: Bits | |b| == 48 witness seq(48, i => false)

  // ------------------------------------------------------------ permutations

  predicate Fits(t: Table, limit: int) {
    t.width > 0 && Shaped(t, |t.rows|, t.width, limit)
  }

  function Size(t: Table): nat {
    |t.rows| * t.width
  }

  lemma RowOf(i: nat, height: nat, width: nat)
    requires width > 0 && i < height * width
    ensures i / width < height
  {
    if i / width >= height {
      MulAtLeast(i / width, height, width);
    }
  }

  lemma MulAtLeast(a: nat, b: nat, w: nat)
    requires a >= b
    ensures a * w >= b * w
  {
    assert a * w == b * w + (a - b) * w;
  }

  /** Entry i of the table, counted from 0 over all rows. */
  function Entry(t: Table, limit: int, i: nat): (e: int)
    requires Fits(t, limit) && i < Size(t)
    ensures 1 <= e <= limit
  {
    RowOf(i, |t.rows|, t.width);
    t.rows[i / t.width][i % t.width]
  }

  function Permute(b: Bits, t: Table): (r: Bits)
    requires Fits(t, |b|)
    ensures |r| == Size(t) && forall i :: 0 <= i < |r| ==> r[i] == b[Entry(t, |b|, i) - 1]
  {
    seq(Size(t), i requires 0 <= i < Size(t) => b[Entry(t, |b|, i) - 1])
  }

  // ------------------------------------------------------------ the cipher

  datatype Tables = Tables(ip: Table, fp: Table, expansion: Table, mix: Table, pc1: Table, pc2: Table,
                           shifts: seq<int>, boxes: seq<seq<seq<int>>>)

  const DES := Tables(IP, FP, EXPANSION, MIX, PC1, PC2, SHIFTS, SBOXES)

  predicate Sized(t: Table, limit: int, size: nat) {
    Fits(t, limit) && Size(t) == size
  }

  predicate KeyTables(s: Tables) {
    && Sized(s.pc1, 64, 56) && Sized(s.pc2, 56, 48)
    && |s.shifts| == 16 && forall i :: 0 <= i < 16 ==> 1 <= s.shifts[i] <= 2
  }

  predicate RoundTables(s: Tables) {
    && Sized(s.expansion, 32, 48) && Sized(s.mix, 32, 32)
    && |s.boxes| == 8 && forall i :: 0 <= i < 8 ==> BoxShaped(s.boxes[i])
  }

  predicate OuterTables(s: Tables) {
    Sized(s.ip, 64, 64) && Sized(s.fp, 64, 64)
  }

  predicate Shapely(s: Tables) {
    KeyTables(s) && RoundTables(s) && OuterTables(s)
  }

  // ------------------------------------------------------------ keys

  function Rotated(b: Bits, shift: nat): (r: Bits)
    requires shift <= |b|
    ensures |r| == |b|
  {
    b[shift..] + b[..shift]
  }

  function Schedule(s: Tables, c: Bits, d: Bits, n: nat): (ks: seq<Subkey>)
    requires KeyTables(s) && |c| == |d| == 28 && n <= 16
    ensures |ks| == 16 - n
    decreases 16 - n
  {
    if n == 16 then []
    else
      var c1, d1 := Rotated(c, s.shifts[n]), Rotated(d, s.shifts[n]);
      [Permute(c1 + d1, s.pc2)] + Schedule(s, c1, d1, n + 1)
  }

  /** The sixteen subkeys of a key. */
  function Subkeys(s: Tables, key: Block): (ks: seq<Subkey>)
    requires KeyTables(s)
    ensures |ks| == 16
  {
    var k := Permute(key, s.pc1);
    Schedule(s, k[..28], k[28..], 0)
  }

  // ------------------------------------------------------------ rounds

  function XorBits(a: Bits, b: Bits): (r: Bits)
    requires |a| == |b|
    ensures |r| == |a|
  {
    seq(|a|, i requires 0 <= i < |a| => a[i] != b[i])
  }

  /** The four digits that box i gives for six. */
  function Substitute(s: Tables, i: nat, chunk: Bits): (r: Bits)
    requires RoundTables(s) && i < 8 && |chunk| == 6
    ensures |r| == 4
  {
    var row := 2 * (if chunk[0] then 1 else 0) + if chunk[5] then 1 else 0;
    var col := Value(chunk[1..5]);
    ValueBound(chunk[1..5]);
    assert Power2(4) == 16;
    Digits(s.boxes[i][row][col], 4)
  }

  /** What box i gives for its part of x. */
  function BoxOut(s: Tables, x: Subkey, i: nat): (r: Bits)
    requires RoundTables(s) && i < 8
    ensures |r| == 4
  {
    Substitute(s, i, x[6 * i..6 * i + 6])
  }

  /** The boxes from n on, side by side. */
  function Boxes(s: Tables, x: Subkey, n: nat): (r: Bits)
    requires RoundTables(s) && n <= 8
    ensures |r| == 4 * (8 - n)
    decreases 8 - n
  {
    if n == 8 then [] else BoxOut(s, x, n) + Boxes(s, x, n + 1)
  }

  function F(s: Tables, r: Half, k: Subkey): Half
    requires RoundTables(s)
  {
    Permute(Boxes(s, XorBits(Permute(r, s.expansion), k), 0), s.mix)
  }

  datatype Halves = Halves(left: Half, right: Half)

  /** A round mixes with f, which may be any function. */
  function Round(f: (Half, Subkey) -> Half, h: Halves, k: Subkey): Halves {
    Halves(h.right, XorBits(h.left, f(h.right, k)))
  }

  function Rounds(f: (Half, Subkey) -> Half, h: Halves, ks: seq<Subkey>): Halves
    decreases |ks|
  {
    if ks == [] then h else Rounds(f, Round(f, h, ks[0]), ks[1..])
  }

  function Swapped(h: Halves): Halves {
    Halves(h.right, h.left)
  }

  function Split(b: Block): Halves {
    Halves(b[..32], b[32..])
  }

  function Joined(h: Halves): Block {
    h.left + h.right
  }

  function Mixer(s: Tables): (Half, Subkey) -> Half
    requires RoundTables(s)
  {
    (r, k) => F(s, r, k)
  }

  function Crypt(s: Tables, b: Block, ks: seq<Subkey>): Block
    requires Shapely(s)
  {
    Permute(Joined(Swapped(Rounds(Mixer(s), Split(Permute(b, s.ip)), ks))), s.fp)
  }

  // ------------------------------------------------------------ inverse

  function Reversed(ks: seq<Subkey>): (r: seq<Subkey>)
    ensures |r| == |ks|
  {
    if ks == [] then [] else Reversed(ks[1..]) + [ks[0]]
  }

  lemma {:induction false} ReversedLast(ks: seq<Subkey>, k: Subkey)
    ensures Reversed(ks + [k]) == [k] + Reversed(ks)
  {
    if ks == [] {
      assert [k] + [] == [k] && ([k])[1..] == [];
    } else {
      assert (ks + [k])[1..] == ks[1..] + [k];
      ReversedLast(ks[1..], k);
    }
  }

  lemma {:induction false} ReversedTwice(ks: seq<Subkey>)
    ensures Reversed(Reversed(ks)) == ks
  {
    if ks != [] {
      ReversedLast(Reversed(ks[1..]), ks[0]);
      ReversedTwice(ks[1..]);
    }
  }

  lemma XorBitsTwice(a: Bits, b: Bits)
    requires |a| == |b|
    ensures XorBits(XorBits(a, b), b) == a
  {
  }

  /** The same round on the swapped halves undoes a round. */
  lemma RoundBack(f: (Half, Subkey) -> Half, h: Halves, k: Subkey)
    ensures Round(f, Swapped(Round(f, h, k)), k) == Swapped(h)
  {
    XorBitsTwice(h.left, f(h.right, k));
  }

  lemma {:induction false} RoundsMore(f: (Half, Subkey) -> Half, h: Halves, ks: seq<Subkey>, k: Subkey)
    ensures Rounds(f, h, ks + [k]) == Round(f, Rounds(f, h, ks), k)
    decreases |ks|
  {
    if ks == [] {
      assert ([k])[1..] == [] && ks + [k] == [k];
    } else {
      assert (ks + [k])[1..] == ks[1..] + [k];
      RoundsMore(f, Round(f, h, ks[0]), ks[1..], k);
    }
  }

  /** The rounds with the subkeys reversed, on the swapped halves, undo the rounds. */
  lemma {:induction false} RoundsBack(f: (Half, Subkey) -> Half, h: Halves, ks: seq<Subkey>)
    ensures Rounds(f, Swapped(Rounds(f, h, ks)), Reversed(ks)) == Swapped(h)
    decreases |ks|
  {
    if ks != [] {
      RoundsBack(f, Round(f, h, ks[0]), ks[1..]);
      RoundsMore(f, Swapped(Rounds(f, h, ks)), Reversed(ks[1..]), ks[0]);
      RoundBack(f, h, ks[0]);
    }
  }

  /** The two outer permutations undo each other. */
  ghost predicate OuterInverse(s: Tables)
    requires OuterTables(s)
  {
    forall b: Block :: OuterBack(s, b)
  }

  predicate OuterBack(s: Tables, b: Block)
    requires OuterTables(s)
  {
    Permute(Permute(b, s.ip), s.fp) == b && Permute(Permute(b, s.fp), s.ip) == b
  }

  lemma SplitJoined(h: Halves, b: Block)
    ensures Split(Joined(h)) == h && Joined(Split(b)) == b
  {
  }

  /** The block map is undone by the same steps with the subkeys reversed. */
  lemma CryptBack(s: Tables, b: Block, ks: seq<Subkey>)
    requires Shapely(s) && OuterInverse(s)
    ensures Crypt(s, Crypt(s, b, ks), Reversed(ks)) == b
  {
    var h0 := Split(Permute(b, s.ip));
    var h := Rounds(Mixer(s), h0, ks);
    var inner: Block := Joined(Swapped(h));
    assert OuterBack(s, inner);
    SplitJoined(Swapped(h), Permute(b, s.ip));
    RoundsBack(Mixer(s), h0, ks);
    assert OuterBack(s, b);
  }

  // ------------------------------------------------------------ the standard tables

  ghost predicate IpRules(t: Table) {
    Shaped(t, 8, 8, 64)
    && forall r, c :: 0 <= r < 8 && 0 <= c < 8 ==> t.rows[r][c] == 58 + 2 * r - (if r >= 4 then 9 else 0) - 8 * c
  }

  ghost predicate FpRules(t: Table) {
    Shaped(t, 8, 8, 64)
    && forall r, c :: 0 <= r < 8 && 0 <= c < 8 ==> t.rows[r][c] == 8 * (if c % 2 == 0 then c / 2 + 5 else c / 2 + 1) - r
  }

  lemma EntryAt(t: Table, i: nat, r: nat, c: nat)
    requires Shaped(t, 8, 8, 64) && i == 8 * r + c && r < 8 && c < 8
    ensures Entry(t, 64, i) == t.rows[r][c]
  {
  }

  lemma FpThenIp(ip: Table, fp: Table, i: nat)
    requires IpRules(ip) && FpRules(fp) && i < 64
    ensures Entry(fp, 64, Entry(ip, 64, i) - 1) == i + 1
  {
    var r, c := i / 8, i % 8;
    EntryAt(ip, i, r, c);
    EntryAt(fp, Entry(ip, 64, i) - 1, 7 - c, if r < 4 then 1 + 2 * r else 2 * r - 8);
  }

  lemma IpThenFp(ip: Table, fp: Table, i: nat)
    requires IpRules(ip) && FpRules(fp) && i < 64
    ensures Entry(ip, 64, Entry(fp, 64, i) - 1) == i + 1
  {
    var r, c := i / 8, i % 8;
    EntryAt(fp, i, r, c);
    EntryAt(ip, Entry(fp, 64, i) - 1, if c % 2 == 0 then c / 2 + 4 else c / 2, 7 - r);
  }

  /** Entry by entry, p leads back from where q leads. */
  predicate LeadsBack(p: Table, q: Table) {
    Sized(p, 64, 64) && Sized(q, 64, 64) && forall i :: 0 <= i < 64 ==> Entry(p, 64, Entry(q, 64, i) - 1) == i + 1
  }

  lemma PermuteBack(p: Table, q: Table, b: Block)
    requires LeadsBack(p, q)
    ensures Permute(Permute(b, p), q) == b
  {
    var x := Permute(b, p);
    forall i | 0 <= i < 64
      ensures Permute(x, q)[i] == b[i]
    {
      assert Entry(p, 64, Entry(q, 64, i) - 1) == i + 1;
    }
  }

  lemma RulesLeadBack(ip: Table, fp: Table)
    requires IpRules(ip) && FpRules(fp) && Sized(ip, 64, 64) && Sized(fp, 64, 64)
    ensures LeadsBack(fp, ip) && LeadsBack(ip, fp)
  {
    forall i | 0 <= i < 64
      ensures Entry(fp, 64, Entry(ip, 64, i) - 1) == i + 1 && Entry(ip, 64, Entry(fp, 64, i) - 1) == i + 1
    {
      FpThenIp(ip, fp, i);
      IpThenFp(ip, fp, i);
    }
  }

  lemma RulesInverse(s: Tables)
    requires OuterTables(s) && IpRules(s.ip) && FpRules(s.fp)
    ensures OuterInverse(s)
  {
    RulesLeadBack(s.ip, s.fp);
    forall b: Block
      ensures OuterBack(s, b)
    {
      PermuteBack(s.ip, s.fp, b);
      PermuteBack(s.fp, s.ip, b);
    }
  }

  lemma DesRules()
    ensures IpRules(IP) && FpRules(FP)
  {
    IpShape();
    FpShape();
    forall r, c | 0 <= r < 8 && 0 <= c < 8
      ensures IP.rows[r][c] == 58 + 2 * r - (if r >= 4 then 9 else 0) - 8 * c
      ensures FP.rows[r][c] == 8 * (if c % 2 == 0 then c / 2 + 5 else c / 2 + 1) - r
    {
      IpRule(r, c);
      FpRule(r, c);
    }
  }

  lemma DesShapely()
    ensures Shapely(DES)
  {
    IpShape();
    FpShape();
    ExpansionShape();
    MixShape();
    Pc1Shape();
    Pc2Shape();
    ShiftsShape();
    BoxesShape();
  }

  lemma DesInverse()
    ensures Shapely(DES) && OuterInverse(DES)
  {
    DesShapely();
    DesRules();
    RulesInverse(DES);
  }

  /** For every key the block map is a bijection: it has a two-sided inverse. */
  lemma Bijection(b: Block, ks: seq<Subkey>)
    ensures Shapely(DES)
    ensures Crypt(DES, Crypt(DES, b, ks), Reversed(ks)) == b && Crypt(DES, Crypt(DES, b, Reversed(ks)), ks) == b
  {
    DesInverse();
    CryptBack(DES, b, ks);
    CryptBack(DES, b, Reversed(ks));
    ReversedTwice(ks);
  }

  // ------------------------------------------------------------ the loops

  /** _permute, digit by digit. */
  method PermuteBlock(b: Bits, t: Table) returns (out: Bits)
    requires Fits(t, |b|)
    ensures out == Permute(b, t)
  {
    out := [];
    var i := 0;
    while i < Size(t)
      invariant 0 <= i <= Size(t) && out == Permute(b, t)[..i]
    {
      out := out + [b[Entry(t, |b|, i) - 1]];
      i := i + 1;
    }
  }

  /** The first n digits of a number of |bits| digits, each at its power of two. */
  function Placed(bits: Bits, n: nat): nat
    requires n <= |bits|
  {
    if n == 0 then 0 else Placed(bits, n - 1) + if bits[n - 1] then Power2(|bits| - n) else 0
  }

  lemma {:induction false} PlacedIsValue(bits: Bits, n: nat)
    requires n <= |bits|
    ensures Placed(bits, n) == Value(bits[..n]) * Power2(|bits| - n)
  {
    if n > 0 {
      PlacedIsValue(bits, n - 1);
      NextDigit(bits, n - 1, |bits|);
    }
  }

  /** The same on the number itself: a digit of the block that is set adds the
      power of two of its new place. */
  method PermuteNumber(block: nat, t: Table, nbits: nat) returns (out: nat)
    requires Fits(t, nbits)
    ensures out < Power2(Size(t)) && Digits(out, Size(t)) == Permute(Digits(block, nbits), t)
  {
    ghost var goal := Permute(Digits(block, nbits), t);
    out := 0;
    var i := 0;
    while i < Size(t)
      invariant 0 <= i <= Size(t) && out == Placed(goal, i)
    {
      var src := Entry(t, nbits, i);
      var isSet := block / Power2(nbits - src) % 2 == 1;
      assert isSet == goal[i] by { DigitAt(block, nbits, src - 1); }
      if isSet {
        out := out + Power2(Size(t) - 1 - i);
      }
      i := i + 1;
    }
    PlacedAll(goal);
  }

  lemma PlacedAll(bits: Bits)
    ensures Placed(bits, |bits|) < Power2(|bits|) && Digits(Placed(bits, |bits|), |bits|) == bits
  {
    assert Placed(bits, |bits|) == Value(bits) by {
      PlacedIsValue(bits, |bits|);
      assert bits[..|bits|] == bits && Power2(0) == 1;
    }
    ValueBound(bits);
    DigitsOfValue(bits);
  }

  lemma NextDigit(goal: Bits, i: nat, size: nat)
    requires i < size == |goal|
    ensures Value(goal[..i + 1]) * Power2(size - i - 1)
         == Value(goal[..i]) * Power2(size - i) + if goal[i] then Power2(size - 1 - i) else 0
  {
    var v, p := Value(goal[..i]), Power2(size - i - 1);
    assert goal[..i + 1][..i] == goal[..i];
    assert Value(goal[..i + 1]) == 2 * v + if goal[i] then 1 else 0;
    assert Power2(size - i) == 2 * p;
    assert 2 * v * p == v * (2 * p);
  }

  method MakeSubkeys(s: Tables, key: Block) returns (ks: seq<Subkey>)
    requires KeyTables(s)
    ensures ks == Subkeys(s, key)
  {
    var k := PermuteBlock(key, s.pc1);
    var c, d := k[..28], k[28..];
    ks := [];
    var n := 0;
    while n < 16
      invariant 0 <= n <= 16 && |c| == |d| == 28
      invariant ks + Schedule(s, c, d, n) == Subkeys(s, key)
    {
      c, d := Rotated(c, s.shifts[n]), Rotated(d, s.shifts[n]);
      var sub := PermuteBlock(c + d, s.pc2);
      assert ks + ([sub] + Schedule(s, c, d, n + 1)) == ks + [sub] + Schedule(s, c, d, n + 1);
      ks := ks + [sub];
      n := n + 1;
    }
  }

  /** digits are what the boxes before i gave. */
  ghost predicate BoxesDone(s: Tables, x: Subkey, i: nat, digits: Bits)
    requires RoundTables(s) && i <= 8
  {
    digits + Boxes(s, x, i) == Boxes(s, x, 0)
  }

  lemma NextBox(s: Tables, x: Subkey, i: nat, digits: Bits)
    requires RoundTables(s) && i < 8 && BoxesDone(s, x, i, digits)
    ensures BoxesDone(s, x, i + 1, digits + BoxOut(s, x, i))
  {
    Together(digits, BoxOut(s, x, i), Boxes(s, x, i + 1));
  }

  lemma AllBoxes(s: Tables, x: Subkey, digits: Bits)
    requires RoundTables(s)
    ensures BoxesDone(s, x, 0, []) && (BoxesDone(s, x, 8, digits) ==> digits == Boxes(s, x, 0))
  {
    assert [] + Boxes(s, x, 0) == Boxes(s, x, 0) && digits + [] == digits;
  }

  /** The boxes, one after the other. */
  method Substituted(s: Tables, x: Subkey) returns (digits: Bits)
    requires RoundTables(s)
    ensures digits == Boxes(s, x, 0)
  {
    digits := [];
    AllBoxes(s, x, digits);
    var i := 0;
    while i < 8
      invariant 0 <= i <= 8 && BoxesDone(s, x, i, digits)
    {
      NextBox(s, x, i, digits);
      digits := digits + BoxOut(s, x, i);
      i := i + 1;
    }
    AllBoxes(s, x, digits);
  }

  lemma Together(a: Bits, b: Bits, c: Bits)
    ensures a + (b + c) == a + b + c
  {
  }

  method Mixed(s: Tables, r: Half, k: Subkey) returns (out: Half)
    requires RoundTables(s)
    ensures out == F(s, r, k)
  {
    var e := PermuteBlock(r, s.expansion);
    var digits := Substituted(s, XorBits(e, k));
    out := PermuteBlock(digits, s.mix);
  }

  method RunRounds(s: Tables, h: Halves, ks: seq<Subkey>) returns (r: Halves)
    requires RoundTables(s)
    ensures r == Rounds(Mixer(s), h, ks)
  {
    var left: Half, right: Half := h.left, h.right;
    var n := 0;
    while n < |ks|
      invariant 0 <= n <= |ks|
      invariant Rounds(Mixer(s), Halves(left, right), ks[n..]) == Rounds(Mixer(s), h, ks)
    {
      var f := Mixed(s, right, ks[n]);
      assert Mixer(s)(right, ks[n]) == f;
      assert ks[n..][1..] == ks[n + 1..];
      left, right := right, XorBits(left, f);
      n := n + 1;
    }
    r := Halves(left, right);
  }

  method Encrypt(s: Tables, block: Block, key: Block) returns (out: Block)
    requires Shapely(s)
    ensures out == Crypt(s, block, Subkeys(s, key))
  {
    var ks := MakeSubkeys(s, key);
    var p := PermuteBlock(block, s.ip);
    var h := RunRounds(s, Split(p), ks);
    out := PermuteBlock(h.right + h.left, s.fp);
  }
}
