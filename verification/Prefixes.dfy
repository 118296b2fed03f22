/** IP addresses and CIDR prefixes (section 3.1 of RFC 4632), as net/netip compares
    them: prefixes overlap exactly when they share an address. */
module Prefixes {
  datatype Address = Address(v6: bool, value: nat)

  datatype Prefix = Prefix(addr: Address, bits: nat)

  function Width(v6: bool): nat {
    if v6 then 128 else 32
  }

  /** A right shift: what is left of a number without its low bits. */
  function Shift(value: nat, low: nat): nat {
    if low == 0 then value else Shift(value / 2, low - 1)
  }

  predicate LowBitsClear(value: nat, low: nat) {
    low == 0 || (value % 2 == 0 && LowBitsClear(value / 2, low - 1))
  }

  predicate ValidAddress(a: Address) {
    Shift(a.value, Width(a.v6)) == 0
  }

  predicate ValidPrefix(p: Prefix) {
    ValidAddress(p.addr) && p.bits <= Width(p.addr.v6)
  }

  // The leading bits of an address.
  function Network(a: Address, bits: nat): nat
    requires bits <= Width(a.v6)
  {
    Shift(a.value, Width(a.v6) - bits)
  }

  /** Prefix.Contains. */
  predicate Contains(p: Prefix, a: Address)
    requires ValidPrefix(p)
  {
    a.v6 == p.addr.v6 && Network(a, p.bits) == Network(p.addr, p.bits)
  }

  function Smaller(a: nat, b: nat): nat {
    if a < b then a else b
  }

  /** Prefix.Overlaps: equal up to the shorter length. */
  predicate Overlaps(p: Prefix, q: Prefix)
    requires ValidPrefix(p) && ValidPrefix(q)
  {
    if p == q then true
    else if p.addr.v6 != q.addr.v6 then false
    else
      var bits := Smaller(p.bits, q.bits);
      bits == 0 || Network(p.addr, bits) == Network(q.addr, bits)
  }

  /** Prefix.Masked leaves it as it is: no bit is set behind the prefix length. */
  predicate IsMasked(p: Prefix)
    requires ValidPrefix(p)
  {
    LowBitsClear(p.addr.value, Width(p.addr.v6) - p.bits)
  }

  /** The prefix of one address. */
  function Host(a: Address): Prefix {
    Prefix(a, Width(a.v6))
  }

  // ---- the same in numbers ----

  function Pow2(n: nat): (r: nat)
    ensures r > 0
  {
    if n == 0 then 1 else 2 * Pow2(n - 1)
  }

  // How many addresses share the prefix length.
  function Size(p: Prefix): nat
    requires p.bits <= Width(p.addr.v6)
  {
    Pow2(Width(p.addr.v6) - p.bits)
  }

  /** The addresses of a prefix as a range: as many as its length leaves, from the
      multiple of that number at or below its address. */
  ghost predicate InRange(p: Prefix, a: Address)
    requires p.bits <= Width(p.addr.v6)
  {
    var first := p.addr.value - p.addr.value % Size(p);
    a.v6 == p.addr.v6 && first <= a.value < first + Size(p)
  }

  lemma TimesKeepsOrder(a: int, b: int, n: int)
    requires a <= b && n > 0
    ensures a * n <= b * n
  {
  }

  lemma QuotientIs(value: int, n: int, q: int)
    requires n > 0 && q * n <= value < (q + 1) * n
    ensures value / n == q
  {
    var r := value / n;
    assert value == r * n + value % n;
    if r < q {
      TimesKeepsOrder(r + 1, q, n);
    } else if r > q {
      TimesKeepsOrder(q + 1, r, n);
    }
  }

  /** A right shift divides by a power of two. */
  lemma {:induction false} ShiftDivides(value: nat, low: nat)
    ensures Shift(value, low) == value / Pow2(low)
  {
    if low > 0 {
      ShiftDivides(value / 2, low - 1);
      HalfFirst(value, Pow2(low - 1));
    }
  }

  lemma HalfFirst(value: nat, n: nat)
    requires n > 0
    ensures value / 2 / n == value / (2 * n)
  {
    var q := value / 2 / n;
    assert value / 2 == q * n + value / 2 % n;
    assert q * (2 * n) == 2 * (q * n) && (q + 1) * (2 * n) == 2 * (q * n) + 2 * n;
    QuotientIs(value, 2 * n, q);
  }

  /** No low bit is set exactly for a multiple of the power. */
  lemma {:induction false} LowBitsClearExactly(value: nat, low: nat)
    ensures LowBitsClear(value, low) <==> value % Pow2(low) == 0
  {
    if low > 0 {
      LowBitsClearExactly(value / 2, low - 1);
      EvenMultiple(value, Pow2(low - 1));
    }
  }

  lemma EvenMultiple(value: nat, n: nat)
    requires n > 0
    ensures value % (2 * n) == 0 <==> value % 2 == 0 && value / 2 % n == 0
  {
    if value % (2 * n) == 0 {
      var q := value / (2 * n);
      assert value == 2 * (q * n);
      MultipleOf(q, n);
    }
    if value % 2 == 0 && value / 2 % n == 0 {
      var q := value / 2 / n;
      assert value == 2 * (q * n) == q * (2 * n);
      MultipleOf(q, 2 * n);
    }
  }

  lemma MultipleOf(q: int, n: int)
    requires n > 0
    ensures (q * n) % n == 0
  {
    QuotientIs(q * n, n, q);
  }

  lemma {:induction false} Pow2Adds(m: nat, n: nat)
    ensures Pow2(m + n) == Pow2(m) * Pow2(n)
  {
    if m > 0 {
      Pow2Adds(m - 1, n);
    }
  }

  /** An address has 32 or 128 bits. */
  lemma ValidAddressExactly(a: Address)
    ensures ValidAddress(a) <==>
            a.value < if a.v6 then 0x1_0000_0000_0000_0000_0000_0000_0000_0000 else 0x1_0000_0000
  {
    ShiftDivides(a.value, Width(a.v6));
    PowersOfTwo();
    BelowExactly(a.value, Pow2(Width(a.v6)));
  }

  lemma Doubled(n: nat, m: nat, power: nat)
    requires m == 2 * n && Pow2(n) == power
    ensures Pow2(m) == power * power
  {
    Pow2Adds(n, n);
  }

  lemma PowersOfTwo()
    ensures Pow2(32) == 0x1_0000_0000
    ensures Pow2(128) == 0x1_0000_0000_0000_0000_0000_0000_0000_0000
  {
    assert Pow2(2) == 4;
    Doubled(2, 4, 4);
    Doubled(4, 8, 0x10);
    Doubled(8, 16, 0x100);
    Doubled(16, 32, 0x1_0000);
    Doubled(32, 64, 0x1_0000_0000);
    Doubled(64, 128, 0x1_0000_0000_0000_0000);
  }

  lemma SmallPowers()
    ensures Pow2(16) == 0x1_0000 && Pow2(24) == 0x100_0000 && Pow2(28) == 0x1000_0000
  {
    assert Pow2(4) == 0x10;
    Doubled(4, 8, 0x10);
    Doubled(8, 16, 0x100);
    Pow2Adds(16, 8);
    Pow2Adds(24, 4);
  }

  lemma LargePowers()
    ensures Pow2(118) == 0x40_0000_0000_0000_0000_0000_0000_0000
    ensures Pow2(120) == 0x100_0000_0000_0000_0000_0000_0000_0000
  {
    PowersOfTwo();
    TwoMore(118, Pow2(120));
    TwoMore(120, Pow2(122));
    TwoMore(122, Pow2(124));
    TwoMore(124, Pow2(126));
    TwoMore(126, Pow2(128));
  }

  lemma TwoMore(n: nat, power: nat)
    requires Pow2(n + 2) == power
    ensures 4 * Pow2(n) == power
  {
    assert Pow2(n + 1) == 2 * Pow2(n);
  }

  lemma BelowExactly(value: nat, n: nat)
    requires n > 0
    ensures value / n == 0 <==> value < n
  {
    if value < n {
      QuotientIs(value, n, 0);
    }
  }

  lemma SameQuotient(value: nat, other: nat, n: nat)
    requires n > 0
    ensures value / n == other / n <==> other - other % n <= value < other - other % n + n
  {
    var q := other / n;
    assert other == q * n + other % n;
    if other - other % n <= value < other - other % n + n {
      assert (q + 1) * n == q * n + n;
      QuotientIs(value, n, q);
    }
    if value / n == q {
      assert value == q * n + value % n;
    }
  }

  lemma ShiftRange(value: nat, low: nat, q: nat)
    ensures Shift(value, low) == q <==> q * Pow2(low) <= value < (q + 1) * Pow2(low)
  {
    ShiftDivides(value, low);
    var n := Pow2(low);
    if value / n == q {
      assert value == q * n + value % n;
      assert (q + 1) * n == q * n + n;
    } else if q * n <= value < (q + 1) * n {
      QuotientIs(value, n, q);
    }
  }

  /** A prefix contains exactly its range; that starts at its own address if and only if
      it is masked. */
  lemma ContainsExactly(p: Prefix, a: Address)
    requires ValidPrefix(p)
    ensures Contains(p, a) <==> InRange(p, a)
    ensures Contains(p, a) <==> a.v6 == p.addr.v6 && a.value / Size(p) == p.addr.value / Size(p)
    ensures IsMasked(p) ==>
              (Contains(p, a) <==>
                 a.v6 == p.addr.v6 && p.addr.value <= a.value < p.addr.value + Pow2(Width(p.addr.v6) - p.bits))
  {
    var low := Width(p.addr.v6) - p.bits;
    ShiftDivides(a.value, low);
    ShiftDivides(p.addr.value, low);
    SameQuotient(a.value, p.addr.value, Pow2(low));
    LowBitsClearExactly(p.addr.value, low);
  }

  // ---- overlapping ----

  lemma {:induction false} ShiftTwice(value: nat, a: nat, b: nat)
    ensures Shift(value, a + b) == Shift(Shift(value, a), b)
  {
    if a > 0 {
      ShiftTwice(value / 2, a - 1, b);
    }
  }

  // Fewer leading bits are a function of more of them.
  lemma CoarserNetwork(a: Address, bits: nat, more: nat)
    requires bits <= more <= Width(a.v6)
    ensures Network(a, bits) == Shift(Network(a, more), more - bits)
  {
    ShiftTwice(a.value, Width(a.v6) - more, more - bits);
  }

  lemma SharedAddressOverlaps(p: Prefix, q: Prefix, a: Address)
    requires ValidPrefix(p) && ValidPrefix(q) && ValidAddress(a)
    requires Contains(p, a) && Contains(q, a)
    ensures Overlaps(p, q)
  {
    var bits := Smaller(p.bits, q.bits);
    CoarserNetwork(a, bits, p.bits);
    CoarserNetwork(a, bits, q.bits);
    CoarserNetwork(p.addr, bits, p.bits);
    CoarserNetwork(q.addr, bits, q.bits);
  }

  /** The overlap test refuses exactly when the ranges of the prefixes share an address;
      the address of the longer prefix is one. */
  lemma OverlapExactly(p: Prefix, q: Prefix)
    requires ValidPrefix(p) && ValidPrefix(q)
    ensures Overlaps(p, q) <==> exists a :: ValidAddress(a) && InRange(p, a) && InRange(q, a)
    ensures Overlaps(p, q) ==> if p.bits < q.bits then InRange(p, q.addr) else InRange(q, p.addr)
  {
    if Overlaps(p, q) {
      var a := if p.bits < q.bits then q.addr else p.addr;
      ContainsExactly(p, a);
      ContainsExactly(q, a);
      assert ValidAddress(a) && InRange(p, a) && InRange(q, a);
    }
    forall a | ValidAddress(a) && InRange(p, a) && InRange(q, a) ensures Overlaps(p, q) {
      ContainsExactly(p, a);
      ContainsExactly(q, a);
      SharedAddressOverlaps(p, q, a);
    }
  }

  lemma HostHoldsOneAddress(a: Address, b: Address)
    requires ValidAddress(a) && ValidAddress(b)
    ensures ValidPrefix(Host(a))
    ensures Contains(Host(a), b) <==> a == b
  {
  }
}
