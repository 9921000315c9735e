/** IPv4 networks in CIDR notation (section 3.1 of RFC 4632) and their cutting into /24 chunks. */
module Cidr {
  import opened Arithmetic

  datatype Block = Block(base: nat, prefix: nat)

  function AddressCount(b: Block): nat
    requires b.prefix <= 32
  {
    Pow2(32 - b.prefix)
  }

  predicate Aligned(b: Block) {
    b.prefix <= 32 && b.base % Pow2(32 - b.prefix) == 0 && b.base + Pow2(32 - b.prefix) <= 0x1_0000_0000
  }

  lemma Pow2Literals()
    ensures Pow2(8) == 256 && Pow2(16) == 65536 && Pow2(32) == 0x1_0000_0000
  {
    Pow2Sum(8, 8);
    Pow2Sum(16, 16);
  }

  type Network = b: Block | Aligned(b) witness Block(0, 32)

  predicate Contains(b: Block, address: nat)
    requires b.prefix <= 32
  {
    b.base <= address < b.base + AddressCount(b)
  }

  /** Host bits are cleared, as ip_network(..., strict=False) does. */
  function Masked(address: nat, prefix: nat): (n: Network)
    requires address < 0x1_0000_0000 && prefix <= 32
    ensures n.prefix == prefix && Contains(n, address)
  {
    var size := Pow2(32 - prefix);
    MaskedIsAligned(address, prefix);
    Block(address / size * size, prefix)
  }

  lemma MaskedIsAligned(address: nat, prefix: nat)
    requires address < 0x1_0000_0000 && prefix <= 32
    ensures var size := Pow2(32 - prefix); var base := address / size * size;
            0 <= base <= address < base + size && Aligned(Block(base, prefix))
  {
    Pow2Literals();
    Pow2Sum(prefix, 32 - prefix);
    RoundDown(address, Pow2(32 - prefix), Pow2(prefix));
  }

  /** Masking is the only way to find a network of that size around an address. */
  lemma MaskedIsUnique(n: Network, address: nat)
    requires Contains(n, address)
    ensures address < 0x1_0000_0000 && n == Masked(address, n.prefix)
  {
    RoundDownIsUnique(address, Pow2(32 - n.prefix), n.base);
  }

  // ----- /24 chunks -----

  function Split(n: Network): (chunks: seq<Block>) {
    if n.prefix >= 24 then [n]
    else seq(Pow2(24 - n.prefix), (i: nat) => Block(n.base + 256 * i, 24))
  }

  lemma ChunkSize(n: Network)
    ensures n.prefix < 24 ==> AddressCount(n) == 256 * Pow2(24 - n.prefix)
    ensures n.prefix < 24 ==> n.base % 256 == 0
    ensures n.prefix >= 24 ==> 1 <= AddressCount(n) <= 256
    ensures Split(n) != []
  {
    Pow2Literals();
    if n.prefix < 24 {
      Pow2Sum(24 - n.prefix, 8);
      MultipleOfProduct(n.base, Pow2(24 - n.prefix), 256);
    } else {
      Pow2Monotone(32 - n.prefix, 8);
    }
  }

  lemma ChunkFits(base: nat, count: nat, i: nat)
    requires base % 256 == 0 && i < count
    ensures (base + 256 * i) % 256 == 0 && base + 256 * i + 256 <= base + 256 * count
  {
    DivModUnique(base + 256 * i, 256, base / 256 + i, 0);
  }

  lemma ChunkIsNetwork(n: Network, i: nat)
    requires i < |Split(n)|
    ensures Aligned(Split(n)[i]) && Split(n)[i].prefix >= 24
    ensures n.base <= Split(n)[i].base
    ensures Split(n)[i].base + AddressCount(Split(n)[i]) <= n.base + AddressCount(n)
  {
    Pow2Literals();
    ChunkSize(n);
    if n.prefix < 24 {
      ChunkFits(n.base, Pow2(24 - n.prefix), i);
      assert Split(n)[i] == Block(n.base + 256 * i, 24);
    }
  }

  /** The chunks of a network are ascending, disjoint, of at most 256 addresses each, and together
      hold exactly the network's addresses. */
  lemma SplitIsPartition(n: Network)
    ensures forall i :: 0 <= i < |Split(n)| ==> Aligned(Split(n)[i]) && Split(n)[i].prefix >= 24
    ensures forall i, j :: 0 <= i < j < |Split(n)| ==>
              Split(n)[i].base + AddressCount(Split(n)[i]) <= Split(n)[j].base
    ensures forall a: nat :: Contains(n, a) <==> exists i :: 0 <= i < |Split(n)| && Contains(Split(n)[i], a)
  {
    Pow2Literals();
    ChunkSize(n);
    forall i | 0 <= i < |Split(n)| ensures Aligned(Split(n)[i]) && Split(n)[i].prefix >= 24 {
      ChunkIsNetwork(n, i);
    }
    forall a: nat ensures Contains(n, a) <==> exists i :: 0 <= i < |Split(n)| && Contains(Split(n)[i], a) {
      if Contains(n, a) {
        var i := if n.prefix >= 24 then 0 else (a - n.base) / 256;
        assert 0 <= i < |Split(n)| && Contains(Split(n)[i], a);
      }
      if i :| 0 <= i < |Split(n)| && Contains(Split(n)[i], a) {
        ChunkIsNetwork(n, i);
      }
    }
  }

  function AllChunks(ns: seq<Network>): (chunks: seq<Block>) {
    if ns == [] then [] else AllChunks(ns[..|ns| - 1]) + Split(ns[|ns| - 1])
  }

  method EnumerateAllChunks(ns: seq<Network>) returns (chunks: seq<Block>)
    ensures chunks == AllChunks(ns)
  {
    chunks := [];
    for i := 0 to |ns|
      invariant chunks == AllChunks(ns[..i])
    {
      assert ns[..i + 1][..i] == ns[..i];
      chunks := chunks + Split(ns[i]);
    }
    assert ns[..|ns|] == ns;
  }

  lemma {:induction false} ChunksAreNetworks(ns: seq<Network>)
    ensures forall c :: c in AllChunks(ns) ==> Aligned(c) && c.prefix >= 24
  {
    if ns != [] {
      ChunksAreNetworks(ns[..|ns| - 1]);
      SplitIsPartition(ns[|ns| - 1]);
    }
  }

  ghost predicate Monitored(ns: seq<Network>, address: nat) {
    exists n :: n in ns && Contains(n, address)
  }

  ghost predicate Targeted(chunks: seq<Block>, address: nat) {
    exists c :: c in chunks && c.prefix <= 32 && Contains(c, address)
  }

  /** The chunks of a list of networks hold exactly the addresses of the networks. */
  lemma {:induction false} ChunksCoverExactly(ns: seq<Network>, address: nat)
    ensures Targeted(AllChunks(ns), address) <==> Monitored(ns, address)
  {
    if ns != [] {
      var front, last := ns[..|ns| - 1], ns[|ns| - 1];
      ChunksCoverExactly(front, address);
      SplitIsPartition(last);
      assert ns == front + [last];
      if Contains(last, address) {
        var i :| 0 <= i < |Split(last)| && Contains(Split(last)[i], address);
        assert Split(last)[i] in AllChunks(ns);
      }
      if Targeted(Split(last), address) {
        var c :| c in Split(last) && c.prefix <= 32 && Contains(c, address);
        var i :| 0 <= i < |Split(last)| && Split(last)[i] == c;
        assert Contains(last, address);
      }
      assert Targeted(AllChunks(ns), address) <==> Targeted(AllChunks(front), address) || Targeted(Split(last), address);
    }
  }
}
