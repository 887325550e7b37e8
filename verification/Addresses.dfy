// IP addresses and networks, and the containment test for address blocks.
module Addresses {

  datatype Version = V4 | V6

  function Bits(v: Version): nat {
    match v
    case V4 => 32
    case V6 => 128
  }

  function Pow2(n: nat): (p: nat)
    ensures p > 0
  {
    if n == 0 then 1 else 2 * Pow2(n - 1)
  }

  datatype Address = Address(version: Version, value: nat)

  // A network by its first address.
  datatype Network = Network(version: Version, prefix: nat, base: nat)

  // The number of addresses under a prefix.
  function Block(v: Version, prefix: nat): nat
    requires prefix <= Bits(v)
  {
    Pow2(Bits(v) - prefix)
  }

  // The bitwise conjunction with the netmask: the host bits are cleared.
  function Masked(v: Version, value: nat, prefix: nat): int
    requires prefix <= Bits(v)
  {
    value - value % Block(v, prefix)
  }

  // The addresses of a version.
  predicate InSpace(a: Address) {
    a.value < Pow2(Bits(a.version))
  }

  predicate ValidNetwork(n: Network) {
    && n.prefix <= Bits(n.version)
    && n.base % Block(n.version, n.prefix) == 0
    && n.base < Pow2(Bits(n.version))
  }

  predicate In(a: Address, n: Network)
    requires ValidNetwork(n)
  {
    a.version == n.version && Masked(a.version, a.value, n.prefix) == n.base
  }

  // The containment test of the scope engine.
  predicate Within(c: Network, n: Network)
    requires ValidNetwork(c) && ValidNetwork(n)
  {
    && c.version == n.version
    && c.prefix >= n.prefix
    && In(Address(c.version, c.base), n)
  }

  // Clearing the host bits gives the base exactly on the block that starts there.
  lemma MaskedRange(x: nat, block: nat, base: nat)
    requires block > 0 && base % block == 0
    ensures (x - x % block) % block == 0
    ensures x - x % block == base <==> base <= x < base + block
  {
    var q, k := x / block, base / block;
    assert x - x % block == q * block;
    assert base == k * block;
    Multiple(q, block);
    Quotients(q, k, x % block, block);
  }

  lemma Quotients(q: nat, k: nat, r: nat, block: nat)
    requires r < block
    ensures q * block == k * block <==> k * block <= q * block + r < k * block + block
  {
    if q < k {
      Monotone(q + 1, k, block);
      assert (q + 1) * block == q * block + block;
    } else if q > k {
      Monotone(k + 1, q, block);
      assert (k + 1) * block == k * block + block;
    }
  }

  lemma Multiple(q: nat, block: nat)
    requires block > 0
    ensures (q * block) % block == 0
  {
    assert (q * block) / block * block + (q * block) % block == q * block;
    if (q * block) % block != 0 {
      var d := (q * block) / block;
      if d < q {
        Monotone(d + 1, q, block);
      } else {
        Monotone(q, d, block);
      }
    }
  }

  lemma Monotone(i: nat, j: nat, block: nat)
    requires i <= j
    ensures i * block <= j * block
  {
  }

  lemma InRange(a: Address, n: Network)
    requires ValidNetwork(n)
    ensures In(a, n) <==> a.version == n.version && n.base <= a.value < n.base + Block(n.version, n.prefix)
  {
    if a.version == n.version {
      MaskedRange(a.value, Block(n.version, n.prefix), n.base);
    }
  }

  lemma {:induction false} Pow2Splits(m: nat, n: nat)
    requires m <= n
    ensures Pow2(n) == Pow2(n - m) * Pow2(m)
    ensures Pow2(m) <= Pow2(n)
  {
    if m > 0 {
      Pow2Splits(m - 1, n - 1);
      assert Pow2(n) == 2 * (Pow2(n - m) * Pow2(m - 1)) == Pow2(n - m) * (2 * Pow2(m - 1));
    } else if n > 0 {
      Pow2Splits(0, n - 1);
    }
  }

  lemma {:induction false} Pow2Strict(m: nat, n: nat)
    requires m < n
    ensures Pow2(m) < Pow2(n)
  {
    Pow2Splits(m, n - 1);
  }

  // A smaller aligned block that starts inside a larger one ends inside it.
  lemma AlignedFits(c: nat, n: nat, small: nat, k: nat)
    requires small > 0 && k > 0 && c % small == 0
    requires k * small > 0 && n % (k * small) == 0
    requires n <= c < n + k * small
    ensures c + small <= n + k * small
  {
    var i, j := c / small, n / (k * small);
    assert c == i * small && n == j * (k * small);
    assert n + k * small == (j * k + k) * small;
    if j * k + k <= i {
      Monotone(j * k + k, i, small);
    }
    Monotone(i + 1, j * k + k, small);
  }

  // A block ends within the addresses of its version.
  lemma BlockInSpace(n: Network)
    requires ValidNetwork(n)
    ensures n.base + Block(n.version, n.prefix) <= Pow2(Bits(n.version))
  {
    Pow2Splits(Bits(n.version) - n.prefix, Bits(n.version));
    AlignedFits(n.base, 0, Block(n.version, n.prefix), Pow2(n.prefix));
  }

  // Every address of the version that lies in c lies in n.
  ghost predicate Subset(c: Network, n: Network)
    requires ValidNetwork(c) && ValidNetwork(n)
  {
    forall a: Address | InSpace(a) && In(a, c) :: In(a, n)
  }

  lemma WithinIsSubset(c: Network, n: Network)
    requires ValidNetwork(c) && ValidNetwork(n) && Within(c, n)
    ensures Subset(c, n)
  {
    hide Masked;
    InRange(Address(c.version, c.base), n);
    Pow2Splits(Bits(c.version) - c.prefix, Bits(c.version) - n.prefix);
    AlignedFits(c.base, n.base, Block(c.version, c.prefix), Pow2(c.prefix - n.prefix));
    forall a: Address | InSpace(a) && In(a, c) ensures In(a, n) {
      InRange(a, c);
      InRange(a, n);
    }
  }

  lemma SubsetIsWithin(c: Network, n: Network)
    requires ValidNetwork(c) && ValidNetwork(n) && Subset(c, n)
    ensures Within(c, n)
  {
    hide Masked;
    var first, last := Address(c.version, c.base), Address(c.version, c.base + Block(c.version, c.prefix) - 1);
    BlockInSpace(c);
    assert InSpace(first) && InSpace(last);
    InRange(first, c);
    InRange(first, n);
    InRange(last, c);
    InRange(last, n);
    if c.prefix < n.prefix {
      Pow2Strict(Bits(c.version) - n.prefix, Bits(c.version) - c.prefix);
    }
  }

  // The test holds exactly when every address of the candidate lies in the network.
  lemma WithinIffSubset(c: Network, n: Network)
    requires ValidNetwork(c) && ValidNetwork(n)
    ensures Within(c, n) <==> Subset(c, n)
  {
    hide Within, Subset;
    if Within(c, n) {
      WithinIsSubset(c, n);
    }
    if Subset(c, n) {
      SubsetIsWithin(c, n);
    }
  }
}
