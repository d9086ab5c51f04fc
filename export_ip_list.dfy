/**
 * `calculate_CIDR` of the 3CX allow-list script: the smallest CIDR block
 * holding two IPv4 addresses, computed from the bit length of their XOR.
 * Addresses are the 32-bit integers `int(ipaddress.ip_address(...))` gives.
 */
module ExportIpList {

  type IPv4 = a: nat | a < 0x1_0000_0000

  function Pow2(n: nat): (p: nat)
    ensures p >= 1
  {
    if n == 0 then 1 else 2 * Pow2(n - 1)
  }

  lemma {:induction false} Pow2Add(a: nat, b: nat)
    ensures Pow2(a + b) == Pow2(a) * Pow2(b)
  {
    if a > 0 {
      Pow2Add(a - 1, b);
      assert Pow2(a + b) == 2 * Pow2(a - 1 + b);
    }
  }

  lemma Pow2Of32()
    ensures Pow2(32) == 0x1_0000_0000
  {
    assert Pow2(8) == 0x100;
    Pow2Add(8, 8);
    Pow2Add(16, 16);
  }

  /** `a >> n`. */
  function Shr(a: nat, n: nat): nat {
    if n == 0 then a else Shr(a / 2, n - 1)
  }

  /** `a ^ b` on non-negative integers, bit by bit from the lowest. */
  function Xor(a: nat, b: nat): nat
    decreases a + b
  {
    if a == 0 && b == 0 then 0
    else 2 * Xor(a / 2, b / 2) + (if a % 2 == b % 2 then 0 else 1)
  }

  /** `int.bit_length()`: the number of binary digits, 0 for 0. */
  function BitLength(x: nat): nat {
    if x == 0 then 0 else 1 + BitLength(x / 2)
  }

  /** `a` with its low `n` bits cleared: `a & netmask` for a /(32 - n) mask. */
  function Mask(a: nat, n: nat): nat {
    Shr(a, n) * Pow2(n)
  }

  /** The network `ip_network(...)` yields: its address and prefix length. */
  datatype Network = Network(address: nat, prefix: int)

  /** The /`p` block around `a`: `ip_network(a/p, strict=False)`. */
  function Block(a: nat, p: int): Network
    requires 0 <= p <= 32
  {
    Network(Mask(a, 32 - p), p)
  }

  /** `addr in net`: the address agrees with the network on the prefix bits. */
  predicate Contains(net: Network, addr: nat)
    requires 0 <= net.prefix <= 32
  {
    Mask(addr, 32 - net.prefix) == net.address
  }

  lemma {:induction false} ShrIsZero(a: nat, n: nat)
    ensures Shr(a, n) == 0 <==> a < Pow2(n)
  {
    if n > 0 {
      ShrIsZero(a / 2, n - 1);
    }
  }

  lemma {:induction false} BitLengthBound(x: nat, n: nat)
    ensures BitLength(x) <= n <==> x < Pow2(n)
  {
    if x > 0 && n > 0 {
      BitLengthBound(x / 2, n - 1);
    }
  }

  lemma {:induction false} XorHalf(a: nat, b: nat)
    ensures Xor(a, b) / 2 == Xor(a / 2, b / 2)
  {
  }

  lemma {:induction false} ShrXor(a: nat, b: nat, n: nat)
    ensures Shr(Xor(a, b), n) == Xor(Shr(a, n), Shr(b, n))
  {
    if n > 0 {
      XorHalf(a, b);
      ShrXor(a / 2, b / 2, n - 1);
    }
  }

  lemma {:induction false} XorIsZero(a: nat, b: nat)
    ensures Xor(a, b) == 0 <==> a == b
    decreases a + b
  {
    if a != 0 || b != 0 {
      XorIsZero(a / 2, b / 2);
    }
  }

  /** Two addresses agree above bit `n` exactly when their XOR is below 2^n. */
  lemma SameHighBits(a: nat, b: nat, n: nat)
    ensures Shr(a, n) == Shr(b, n) <==> Xor(a, b) < Pow2(n)
  {
    ShrIsZero(Xor(a, b), n);
    ShrXor(a, b, n);
    XorIsZero(Shr(a, n), Shr(b, n));
  }

  lemma {:induction false} XorSymmetric(a: nat, b: nat)
    ensures Xor(a, b) == Xor(b, a)
    decreases a + b
  {
    if a != 0 || b != 0 {
      XorSymmetric(a / 2, b / 2);
    }
  }

  lemma {:induction false} ShrOfMask(m: nat, n: nat)
    ensures Shr(m * Pow2(n), n) == m
  {
    if n > 0 {
      assert m * Pow2(n) / 2 == m * Pow2(n - 1);
      ShrOfMask(m, n - 1);
    }
  }

  lemma {:induction false} MaskBelow(a: nat, n: nat)
    ensures Mask(a, n) <= a
  {
    if n > 0 {
      MaskBelow(a / 2, n - 1);
      assert Shr(a, n) * Pow2(n) == 2 * (Shr(a / 2, n - 1) * Pow2(n - 1));
    }
  }

  /**
   * The number of host bits, `bit_length(start ^ end)`: two IPv4 addresses
   * agree on every bit from this position up, and on no lower position.
   */
  function HostBits(start: IPv4, end: IPv4): (h: nat)
    ensures h <= 32
    ensures forall n: nat :: Shr(start, n) == Shr(end, n) <==> h <= n
  {
    var h := BitLength(Xor(start, end));
    Pow2Of32();
    ShrIsZero(start, 32);
    ShrIsZero(end, 32);
    SameHighBits(start, end, 32);
    BitLengthBound(Xor(start, end), 32);
    forall n: nat ensures Shr(start, n) == Shr(end, n) <==> h <= n {
      SameHighBits(start, end, n);
      BitLengthBound(Xor(start, end), n);
    }
    h
  }

  /**
   * `calculate_CIDR(start_ip, end_ip)`: prefix `32 - bit_length(start ^ end)`
   * and the network address of `start` under that prefix (`strict=False`
   * clears the host bits). The prefix lies in 0..32, the network holds both
   * addresses, and no longer prefix would.
   */
  function CalculateCidr(start: IPv4, end: IPv4): (net: Network)
    ensures 0 <= net.prefix <= 32
    ensures net.address <= start
    ensures Contains(net, start) && Contains(net, end)
    ensures forall p :: net.prefix < p <= 32 ==> !Contains(Block(start, p), end)
  {
    var h := HostBits(start, end);
    var net := Block(start, 32 - h);
    MaskBelow(start, h);
    forall p | net.prefix < p <= 32
      ensures !Contains(Block(start, p), end)
    {
      var n := 32 - p;
      if Mask(end, n) == Mask(start, n) {
        ShrOfMask(Shr(end, n), n);
        ShrOfMask(Shr(start, n), n);
      }
    }
    net
  }

  /** Equal addresses give a /32 network of that very address. */
  lemma CalculateCidrSingleAddress(a: IPv4)
    ensures CalculateCidr(a, a) == Network(a, 32)
  {
    XorIsZero(a, a);
  }

  /** The order of the two addresses does not matter; `start <= end` is not required. */
  lemma CalculateCidrSymmetric(start: IPv4, end: IPv4)
    ensures CalculateCidr(start, end) == CalculateCidr(end, start)
  {
    XorSymmetric(start, end);
    var h := HostBits(start, end);
    assert Shr(start, h) == Shr(end, h);
  }

  /** 192.168.1.0 to 192.168.1.255 is 192.168.1.0/24. */
  lemma CalculateCidrExampleSlash24()
    ensures CalculateCidr(0xC0A80100, 0xC0A801FF) == Network(0xC0A80100, 24)
  {
    var h := HostBits(0xC0A80100, 0xC0A801FF);
    assert Shr(0xC0A80100, 8) == 0xC0A801 && Shr(0xC0A801FF, 8) == 0xC0A801;
    assert Shr(0xC0A80100, 7) == 0x1815002 && Shr(0xC0A801FF, 7) == 0x1815003;
    assert h == 8;
    assert Pow2(8) == 0x100;
  }

  /** 10.0.0.5 to 10.0.0.6 is 10.0.0.4/30: the block is aligned, not started at `start`. */
  lemma CalculateCidrExampleSlash30()
    ensures CalculateCidr(0x0A000005, 0x0A000006) == Network(0x0A000004, 30)
  {
    var h := HostBits(0x0A000005, 0x0A000006);
    assert Shr(0x0A000005, 2) == 0x2800001 && Shr(0x0A000006, 2) == 0x2800001;
    assert Shr(0x0A000005, 1) == 0x5000002 && Shr(0x0A000006, 1) == 0x5000003;
    assert h == 2;
    assert Pow2(2) == 4;
  }
}
