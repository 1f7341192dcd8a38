/** Octets, and numbers in network byte order. */
module Bytes {

  type byte = x: int | 0 <= x < 256

  type Bytes = seq<byte>

  /** The number of values of w octets. */
  function Pow256(w: nat): nat {
    if w == 0 then 1 else 256 * Pow256(w - 1)
  }

  /** n in w octets, most significant first; what does not fit is cut off. */
  function BE(w: nat, n: nat): (bs: Bytes)
    ensures |bs| == w
  {
    if w == 0 then [] else BE(w - 1, n / 256) + [n % 256]
  }

  function UnBE(bs: Bytes): nat {
    if bs == [] then 0 else 256 * UnBE(bs[..|bs| - 1]) + bs[|bs| - 1]
  }

  lemma {:induction false} UnBERange(bs: Bytes)
    ensures UnBE(bs) < Pow256(|bs|)
    decreases |bs|
  {
    if bs != [] { UnBERange(bs[..|bs| - 1]); }
  }

  lemma {:induction false} UnBEOfBE(w: nat, n: nat)
    requires n < Pow256(w)
    ensures UnBE(BE(w, n)) == n
    decreases w
  {
    if w != 0 {
      UnBEOfBE(w - 1, n / 256);
      var bs := BE(w - 1, n / 256) + [n % 256];
      assert bs[..|bs| - 1] == BE(w - 1, n / 256);
    }
  }

  lemma {:induction false} BEOfUnBE(bs: Bytes)
    ensures BE(|bs|, UnBE(bs)) == bs
    decreases |bs|
  {
    if bs != [] {
      var init := bs[..|bs| - 1];
      BEOfUnBE(init);
      assert UnBE(bs) / 256 == UnBE(init) && UnBE(bs) % 256 == bs[|bs| - 1];
      assert init + [bs[|bs| - 1]] == bs;
    }
  }

  // ---------------------------------------------------------------- which octet comes first

  lemma DivUnique(n: nat, d: nat, q: nat, r: nat)
    requires d > 0 && n == d * q + r && r < d
    ensures n / d == q
  {
    var k := n / d - q;
    assert n == d * (n / d) + n % d;
    assert d * k == d * (n / d) - d * q == r - n % d;
    if k != 0 { MultipleIsLarge(d, k); }
  }

  lemma MultipleIsLarge(d: nat, k: int)
    requires k != 0
    ensures d * k >= d || d * k <= -(d as int)
  {
  }

  lemma {:induction false} Pow256More(w: nat)
    ensures Pow256(w) > 0 && Pow256(w + 1) == 256 * Pow256(w)
  {
    if w > 0 { Pow256More(w - 1); }
  }

  lemma DivTwice(n: nat, p: nat)
    requires p > 0
    ensures n / 256 / p == n / (256 * p)
  {
    var a, b := n / 256 / p, n / 256 % p;
    assert n / 256 == p * a + b;
    assert n == 256 * (p * a + b) + n % 256;
    assert 256 * (p * a + b) == 256 * p * a + 256 * b;
    DivUnique(n, 256 * p, a, 256 * b + n % 256);
  }

  /** Octet i of w is the one that counts multiples of the (w - 1 - i)th power of 256. */
  lemma {:induction false} BEAt(w: nat, n: nat, i: nat)
    requires i < w
    ensures Pow256(w - 1 - i) > 0 && BE(w, n)[i] == n / Pow256(w - 1 - i) % 256
    decreases w
  {
    if i < w - 1 {
      BEAt(w - 1, n / 256, i);
      Pow256More(w - 2 - i);
      DivTwice(n, Pow256(w - 2 - i));
    }
  }

  lemma Shifted(x: nat, p: nat, y: nat)
    ensures 256 * (x * p + y) == x * (256 * p) + 256 * y
  {
    assert x * (256 * p) == 256 * (x * p);
  }

  /** The first octet counts most. */
  lemma {:induction false} UnBEFirst(bs: Bytes)
    requires bs != []
    ensures UnBE(bs) == bs[0] * Pow256(|bs| - 1) + UnBE(bs[1..])
    decreases |bs|
  {
    if |bs| > 1 {
      var init, tail := bs[..|bs| - 1], bs[1..];
      UnBEFirst(init);
      assert init[1..] == tail[..|tail| - 1];
      Pow256More(|bs| - 2);
      var p, y := Pow256(|bs| - 2), UnBE(init[1..]);
      assert UnBE(bs) == 256 * UnBE(init) + bs[|bs| - 1];
      assert UnBE(tail) == 256 * y + bs[|bs| - 1];
      hide UnBE, Pow256;
      Shifted(bs[0], p, y);
    } else {
      assert bs[1..] == [] && bs[..0] == [];
    }
  }

  /** Two's complement. */
  function Signed(w: nat, n: nat): int {
    if 2 * n >= Pow256(w) then n - Pow256(w) else n
  }

  function Unsigned(w: nat, n: int): nat
    requires 0 <= n + Pow256(w)
  {
    if n < 0 then n + Pow256(w) else n
  }

  lemma SignedOfUnsigned(w: nat, n: int)
    requires w > 0 && 0 <= 2 * n + Pow256(w) && 2 * n < Pow256(w)
    ensures Unsigned(w, n) < Pow256(w) && Signed(w, Unsigned(w, n)) == n
  {
  }

  /** UINT32_MAX + 1, and what a length of four octets can say. */
  const TWO_32: nat := 0x1_0000_0000

  lemma FourOctets()
    ensures Pow256(4) == TWO_32 && Pow256(2) == 0x1_0000 && Pow256(1) == 256 && Pow256(8) == 0x1_0000_0000_0000_0000
  {
    assert Pow256(1) == 256 * Pow256(0);
    assert Pow256(2) == 256 * Pow256(1);
    assert Pow256(3) == 256 * Pow256(2);
    assert Pow256(4) == 256 * Pow256(3);
    assert Pow256(5) == 256 * Pow256(4);
    assert Pow256(6) == 256 * Pow256(5);
    assert Pow256(7) == 256 * Pow256(6);
    assert Pow256(8) == 256 * Pow256(7);
  }

  /** A length of four octets. */
  function Length4(n: nat): (bs: Bytes)
    ensures |bs| == 4
  {
    BE(4, n % TWO_32)
  }

  lemma UnLength4(n: nat)
    requires n < TWO_32
    ensures UnBE(Length4(n)) == n
  {
    FourOctets();
    UnBEOfBE(4, n);
  }

  lemma Length4Of(bs: Bytes)
    requires |bs| == 4
    ensures UnBE(bs) < TWO_32 && Length4(UnBE(bs)) == bs
  {
    FourOctets();
    UnBERange(bs);
    BEOfUnBE(bs);
  }
}
