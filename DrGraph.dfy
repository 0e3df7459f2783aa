/** The bucket-sampling depth-robust graph (`BucketGraph`): construction,
    per-node parent sampling, the encoding-key preimage and the structural
    identifier. */
module DrGraph {
  import opened Primitives
  import opened LittleEndian
  import opened Decimal
  import Util

  /** Parents of every DRG node; one of them is always the predecessor. */
  const BASE_DEGREE: nat := 6

  /** 2^54: the bound `new` puts on the metagraph node count. Sampling casts
      metagraph node indexes to `f64`, where integers up to 2^53 are exact. */
  const MAX_METAGRAPH_NODES: nat := 0x40_0000_0000_0000

  /** `derive_drg_seed` as a value: the first 28 bytes of the
      DRSAMPLE-domain seed of `porep_id`. */
  function DrgSeed(porepId: Bytes32, crypto: Crypto): Bytes28
  {
    crypto.domainSeed(DrSample, porepId)[..28]
  }

  /** `derive_drg_seed`: copies the leading 28 bytes of the domain seed into
      a fresh buffer. */
  method DeriveDrgSeed(porepId: Bytes32, crypto: Crypto) returns (drgSeed: Bytes28)
    ensures drgSeed == DrgSeed(porepId, crypto)
    ensures forall i :: 0 <= i < 28 ==> drgSeed[i] == crypto.domainSeed(DrSample, porepId)[i]
  {
    var rawSeed := crypto.domainSeed(DrSample, porepId);
    var buffer := new Byte[28];
    forall i | 0 <= i < 28 {
      buffer[i] := rawSeed[i];
    }
    drgSeed := buffer[..];
  }

  /** The 32-byte RNG seed for `node`: the graph seed, then `node` as a
      little-endian `u32`. */
  function RngSeed(seed: Bytes28, node: U32): (r: Bytes32)
    ensures r[..28] == seed && LeValue(r[28..]) == node
  {
    Pow256Eight();
    LeValueOfBytes(node, 4);
    var r := seed + LeBytes(node, 4);
    assert r[28..] == LeBytes(node, 4);
    r
  }

  /** ceil(log2 x), exactly. The source computes `(x as f64).log2().ceil()`,
      which can be one less just above the powers of two from 2^49 up. */
  function CeilLog2(x: nat): (r: nat)
    requires x >= 1
    ensures Pow2(r) >= x
    ensures r >= 1 ==> Pow2(r - 1) < x
  {
    if x == 1 then 0 else 1 + CeilLog2((x + 1) / 2)
  }

  lemma CeilLog2AtMost(x: nat, k: nat)
    requires 1 <= x <= Pow2(k)
    ensures CeilLog2(x) <= k
  {
    var r := CeilLog2(x);
    if r > k {
      Pow2Monotone(k, r - 1);
    }
  }

  /** A draw's distance: uniform in the bucket's range
      `[max(2, largest / 2), largest]` with `largest = min(metagraphNode, 2^bucket)`. */
  function BucketDistance(metagraphNode: nat, bucket: nat, draw: U64): (d: nat)
    requires metagraphNode >= 2 && bucket >= 1
    ensures 2 <= d <= metagraphNode
  {
    var largest := Min(metagraphNode, Pow2(bucket));
    var smallest := Max(2, largest / 2);
    smallest + draw % (largest - smallest + 1)
  }

  lemma MulAtLeast(a: nat, b: nat)
    requires b >= 1
    ensures a * b >= a
  {
  }

  /** A metagraph node mapped back onto the graph: divided by `mPrime`, and
      moved to `node - 1` should it land on `node` itself. */
  function MapToGraph(metagraphParent: nat, mPrime: nat, node: nat): (p: nat)
    requires mPrime >= 1 && node >= 1 && metagraphParent < node * mPrime
    ensures p < node
  {
    var mappedParent := metagraphParent / mPrime;
    var predecessor: nat := node - 1;
    assert mappedParent * mPrime <= metagraphParent;
    if mappedParent == node then predecessor else mappedParent
  }

  /** `n_buckets`: ceil(log2 metagraphNode). The source casts `log2(0)`,
      which is -infinity, to 0; the sampling loop does not run then. */
  function BucketCount(metagraphNode: nat): (n: nat)
    ensures metagraphNode >= 2 ==> n >= 1
  {
    if metagraphNode == 0 then 0 else CeilLog2(metagraphNode)
  }

  /** Parent `slot` (of the `mPrime` sampled ones) of `node`: the metagraph
      node `node * mPrime` minus a distance drawn from one of `nBuckets`
      buckets, mapped back onto the graph. Draws `2 * slot` and
      `2 * slot + 1` of the RNG stream pick the bucket and the distance. */
  function SampledParent(rngSeed: Bytes32, node: nat, mPrime: nat, metagraphNode: nat, nBuckets: nat,
                         slot: nat, rng: (Bytes32, nat) -> U64): (p: nat)
    requires node >= 2 && mPrime >= 1 && metagraphNode == node * mPrime && nBuckets >= 1
    ensures p < node
  {
    MulAtLeast(node, mPrime);
    var bucket := rng(rngSeed, 2 * slot) % nBuckets + 1;
    var distance := BucketDistance(metagraphNode, bucket, rng(rngSeed, 2 * slot + 1));
    MapToGraph(metagraphNode - distance, mPrime, node)
  }

  /** The metagraph index of a sampled node is at least 2, so it has at
      least one bucket. */
  lemma MetagraphHasBuckets(node: nat, mPrime: nat)
    requires node >= 2 && mPrime >= 1
    ensures node * mPrime >= 2 && BucketCount(node * mPrime) >= 1
  {
    MulAtLeast(node, mPrime);
  }

  /** The sampling loop of `parents`: slots `[0, mPrime)` receive the
      sampled parents of `node`, and no other slot changes. */
  method SampleInto(rngSeed: Bytes32, node: U32, mPrime: nat, metagraphNode: nat, nBuckets: nat,
                    parents: array<U32>, rng: (Bytes32, nat) -> U64)
    requires node >= 2 && parents.Length > mPrime && metagraphNode == node * mPrime
    requires mPrime >= 1 ==> nBuckets >= 1
    modifies parents
    ensures forall j :: 0 <= j < mPrime ==>
              parents[j] == SampledParent(rngSeed, node, mPrime, metagraphNode, nBuckets, j, rng)
    ensures forall j :: mPrime <= j < parents.Length ==> parents[j] == old(parents[j])
  {
    var i := 0;
    while i < mPrime
      invariant 0 <= i <= mPrime
      invariant forall j :: 0 <= j < i ==>
                  parents[j] == SampledParent(rngSeed, node, mPrime, metagraphNode, nBuckets, j, rng)
      invariant forall j :: i <= j < parents.Length ==> parents[j] == old(parents[j])
    {
      parents[i] := SampledParent(rngSeed, node, mPrime, metagraphNode, nBuckets, i, rng);
      i := i + 1;
    }
  }

  datatype BucketGraph = BucketGraph(nodes: U64, baseDegree: U64, seed: Bytes28, hasher: Hasher)
  {
    function Size(): U64 { nodes }

    function Degree(): U64 { baseDegree }

    /** The structural identifier; the seed is deliberately not part of it. */
    function Identifier(): string
    {
      "drgraph::BucketGraph{size: " + NatToDecimal(nodes) + "; degree: " + NatToDecimal(Degree())
      + "; hasher: " + hasher.name + "}"
    }

    /** `(nodes * NODE_SIZE) as u64`, wrapping like the `usize` product. */
    function SectorSize(): (r: U64)
      ensures nodes <= Util.MAX_EXACT_NODE ==> r == nodes * Util.NODE_SIZE
    {
      (nodes * Util.NODE_SIZE) % TWO_64
    }

    /** What `parents` relies on for `node`: the index fits a `u32` (callers
        promise it; the source's `as u32` would drop the high bits), and for
        a sampled node the degree is positive and the metagraph index is
        within the 2^54 bound that `new` enforces. */
    predicate SamplingInRange(node: U64)
    {
      node < TWO_32 && (node >= 2 ==> baseDegree >= 1 && node * (baseDegree - 1) <= MAX_METAGRAPH_NODES)
    }

    /** The parent list of `node`, slot by slot. */
    function ParentsOf(node: U64, rng: (Bytes32, nat) -> U64): (ps: seq<U32>)
      requires SamplingInRange(node)
    {
      if node < 2 then seq(baseDegree, _ => 0)
      else
        var mPrime := baseDegree - 1;
        seq(mPrime, i requires 0 <= i < mPrime => SampledSlot(node, i, rng)) + [node - 1]
    }

    /** Sampled parent `slot` of `node`, with the metagraph index
        `node * (degree - 1)` and its bucket count. */
    function SampledSlot(node: U64, slot: nat, rng: (Bytes32, nat) -> U64): (p: nat)
      requires 2 <= node < TWO_32 && slot < baseDegree - 1
      ensures p < node
    {
      var mPrime := baseDegree - 1;
      MetagraphHasBuckets(node, mPrime);
      SampledParent(RngSeed(seed, node), node, mPrime, node * mPrime, BucketCount(node * mPrime), slot, rng)
    }

    /** `BucketGraph::new` with the guard its authors intended: fails when
        the expansion degree is not zero or the exact metagraph node count
        `nodes * (base_degree - 1)` exceeds 2^54. A zero base degree aborts
        on `base_degree - 1`, as a build with overflow checks does. */
    static function New(nodes: U64, baseDegree: U64, expansionDegree: U64, porepId: Bytes32,
                        hasher: Hasher, crypto: Crypto): (r: Outcome<BucketGraph>)
      ensures r.Err? <==> expansionDegree != 0
                          || (baseDegree >= 1 && nodes * (baseDegree - 1) > MAX_METAGRAPH_NODES)
      ensures r.Err? ==> r.error == if expansionDegree != 0 then InvalidExpansionDegree
                                    else TooManyMetagraphNodes
      ensures r.Abort? <==> expansionDegree == 0 && baseDegree == 0
      ensures r.Abort? ==> r.fault == SubtractOverflow
      ensures r.Ok? ==> && r.value.nodes == nodes && r.value.baseDegree == baseDegree
                        && r.value.hasher == hasher
                        && r.value.seed == crypto.domainSeed(DrSample, porepId)[..28]
    {
      if expansionDegree != 0 then Err(InvalidExpansionDegree)
      else if baseDegree == 0 then Abort(SubtractOverflow)
      else if nodes * (baseDegree - 1) > MAX_METAGRAPH_NODES then Err(TooManyMetagraphNodes)
      else Ok(BucketGraph(nodes, baseDegree, DrgSeed(porepId, crypto), hasher))
    }

    /** `BucketGraph::new` as compiled without overflow checks: both
        `base_degree - 1` and the `u64` product wrap before the bound is
        compared. */
    static function NewAsWritten(nodes: U64, baseDegree: U64, expansionDegree: U64, porepId: Bytes32,
                                 hasher: Hasher, crypto: Crypto): (r: Outcome<BucketGraph>)
      ensures !r.Abort?
      ensures r.Err? <==> expansionDegree != 0
                          || (nodes * ((baseDegree - 1) % TWO_64)) % TWO_64 > MAX_METAGRAPH_NODES
    {
      if expansionDegree != 0 then Err(InvalidExpansionDegree)
      else
        var mPrime := (baseDegree - 1) % TWO_64;
        var metagraphNodes := (nodes * mPrime) % TWO_64;
        if metagraphNodes > MAX_METAGRAPH_NODES then Err(TooManyMetagraphNodes)
        else Ok(BucketGraph(nodes, baseDegree, DrgSeed(porepId, crypto), hasher))
    }

    /** `parents`: writes the parents of `node` into the caller's buffer.
        Slots from the degree on are left alone; a buffer shorter than the
        degree is filled as far as it goes for nodes 0 and 1. */
    method Parents(node: U64, parents: array<U32>, rng: (Bytes32, nat) -> U64)
      requires SamplingInRange(node)
      requires node >= 2 ==> parents.Length >= baseDegree
      modifies parents
      ensures var k := Min(baseDegree, parents.Length);
              && parents[..k] == ParentsOf(node, rng)[..k]
              && parents[k..] == old(parents[k..])
    {
      if node < 2 {
        ZeroParents(node, parents, rng);
      } else {
        SampleParents(node, parents, rng);
      }
    }

    /** The `0 | 1` arm of `parents`: the first nodes have no one to point
        back to, and every parent slot is 0. */
    method ZeroParents(node: U64, parents: array<U32>, rng: (Bytes32, nat) -> U64)
      requires node < 2
      modifies parents
      ensures var k := Min(baseDegree, parents.Length);
              && parents[..k] == ParentsOf(node, rng)[..k]
              && parents[k..] == old(parents[k..])
    {
      var m := baseDegree;
      var i := 0;
      while i < parents.Length && i < m
        invariant 0 <= i <= parents.Length && i <= m
        invariant forall j :: 0 <= j < i ==> parents[j] == 0
        invariant forall j :: i <= j < parents.Length ==> parents[j] == old(parents[j])
      {
        parents[i] := 0;
        i := i + 1;
      }
      var ps := ParentsOf(node, rng);
      assert forall j :: 0 <= j < i ==> ps[j] == 0;
    }

    /** The general arm of `parents`: `degree - 1` sampled parents followed
        by the predecessor `node - 1`. */
    method SampleParents(node: U64, parents: array<U32>, rng: (Bytes32, nat) -> U64)
      requires node >= 2 && SamplingInRange(node)
      requires parents.Length >= baseDegree
      modifies parents
      ensures parents[..baseDegree] == ParentsOf(node, rng)
      ensures parents[baseDegree..] == old(parents[baseDegree..])
    {
      var mPrime: nat := baseDegree - 1;
      // Large sectors need `u64` metagraph indexes.
      var metagraphNode: nat := node * mPrime;
      var nBuckets := BucketCount(metagraphNode);
      if mPrime >= 1 {
        MetagraphHasBuckets(node, mPrime);
      }
      SampleInto(RngSeed(seed, node), node, mPrime, metagraphNode, nBuckets, parents, rng);
      parents[mPrime] := node - 1;
      ParentsOfSampled(node, rng);
    }

    /** For a node past the first two, the parent list is `degree - 1`
        sampled parents, then the predecessor. */
    lemma ParentsOfSampled(node: U64, rng: (Bytes32, nat) -> U64)
      requires node >= 2 && SamplingInRange(node)
      ensures var ps := ParentsOf(node, rng);
              && |ps| == baseDegree
              && (forall j :: 0 <= j < baseDegree - 1 ==>
                    ps[j] == SampledSlot(node, j, rng))
              && ps[baseDegree - 1] == node - 1
    {
    }

    /** The shape of a parent list: `degree` slots, all 0 for nodes 0 and 1;
        otherwise every slot lies below `node` and the last one is the
        predecessor `node - 1`. */
    lemma ParentsOfShape(node: U64, rng: (Bytes32, nat) -> U64)
      requires SamplingInRange(node)
      ensures var ps := ParentsOf(node, rng);
              && |ps| == baseDegree
              && (node < 2 ==> forall j :: 0 <= j < |ps| ==> ps[j] == 0)
              && (node >= 2 ==> (forall j :: 0 <= j < |ps| ==> ps[j] < node) && ps[|ps| - 1] == node - 1)
    {
      if node >= 2 {
        ParentsOfSampled(node, rng);
      }
    }

    /** `create_key`: the hash of `id` followed, unless `node` is its own
        first parent, by each parent's 32 bytes of `baseParentsData`. */
    method CreateKey(id: Bytes32, node: U64, parents: seq<U32>, baseParentsData: seq<Byte>,
                     crypto: Crypto) returns (key: Bytes32)
      requires |parents| >= 1
      requires node != parents[0] ==> ParentsInData(parents, baseParentsData)
      ensures key == crypto.frReprSafe(crypto.sha256(KeyPreimage(id, node, parents, baseParentsData)))
    {
      var absorbed: seq<Byte> := id;    // what the hasher has been fed so far
      if node != parents[0] {
        var i := 0;
        while i < |parents|
          invariant 0 <= i <= |parents|
          invariant absorbed == id + ParentBlocks(parents[..i], baseParentsData)
        {
          var offset := Util.DataAtNodeOffset(parents[i]);
          absorbed := absorbed + baseParentsData[offset..offset + Util.NODE_SIZE];
          assert parents[..i + 1][..i] == parents[..i];
          i := i + 1;
        }
        assert parents[..|parents|] == parents;
      }
      key := crypto.frReprSafe(crypto.sha256(absorbed));
    }
  }

  /** Every parent's 32-byte slice lies inside `data`. */
  predicate ParentsInData(parents: seq<U32>, data: seq<Byte>)
  {
    forall j :: 0 <= j < |parents| ==> parents[j] * Util.NODE_SIZE + Util.NODE_SIZE <= |data|
  }

  /** The parents' slices of `data`, concatenated in parent order. */
  function ParentBlocks(parents: seq<U32>, data: seq<Byte>): seq<Byte>
    requires ParentsInData(parents, data)
  {
    if parents == [] then []
    else
      var last := parents[|parents| - 1];
      ParentBlocks(parents[..|parents| - 1], data)
      + data[last * Util.NODE_SIZE..last * Util.NODE_SIZE + Util.NODE_SIZE]
  }

  /** The bytes `create_key` hashes. */
  function KeyPreimage(id: Bytes32, node: U64, parents: seq<U32>, data: seq<Byte>): seq<Byte>
    requires |parents| >= 1
    requires node != parents[0] ==> ParentsInData(parents, data)
  {
    if node == parents[0] then id else id + ParentBlocks(parents, data)
  }

  /** Parent slot `j`'s contribution to the key preimage is the 32-byte
      slice at `parents[j] * 32`, and the blocks follow parent order. */
  lemma {:induction false} ParentBlocksLayout(parents: seq<U32>, data: seq<Byte>)
    requires ParentsInData(parents, data)
    ensures |ParentBlocks(parents, data)| == Util.NODE_SIZE * |parents|
    ensures forall j :: 0 <= j < |parents| ==>
              ParentBlocks(parents, data)[Util.NODE_SIZE * j..Util.NODE_SIZE * j + Util.NODE_SIZE]
              == data[parents[j] * Util.NODE_SIZE..parents[j] * Util.NODE_SIZE + Util.NODE_SIZE]
  {
    if parents != [] {
      var n := |parents| - 1;
      var init := parents[..n];
      assert ParentsInData(init, data) by {
        assert forall j :: 0 <= j < |init| ==> init[j] == parents[j];
      }
      ParentBlocksLayout(init, data);
      var front := ParentBlocks(init, data);
      var whole := ParentBlocks(parents, data);
      assert whole == front + data[parents[n] * Util.NODE_SIZE..parents[n] * Util.NODE_SIZE + Util.NODE_SIZE];
      assert |front| == Util.NODE_SIZE * n;
      forall j | 0 <= j < |parents|
        ensures whole[Util.NODE_SIZE * j..Util.NODE_SIZE * j + Util.NODE_SIZE]
                == data[parents[j] * Util.NODE_SIZE..parents[j] * Util.NODE_SIZE + Util.NODE_SIZE]
      {
        var lo := Util.NODE_SIZE * j;
        if j < n {
          assert lo + Util.NODE_SIZE <= |front|;
          SliceOfFront(front, data[parents[n] * Util.NODE_SIZE..parents[n] * Util.NODE_SIZE + Util.NODE_SIZE],
                       lo, lo + Util.NODE_SIZE);
          assert init[j] == parents[j];
        } else {
          assert lo == |front|;
          SliceOfBack(front, data[parents[n] * Util.NODE_SIZE..parents[n] * Util.NODE_SIZE + Util.NODE_SIZE]);
        }
      }
    }
  }

  /** A slice inside the first part of a concatenation is a slice of that part. */
  lemma SliceOfFront(a: seq<Byte>, b: seq<Byte>, lo: nat, hi: nat)
    requires lo <= hi <= |a|
    ensures (a + b)[lo..hi] == a[lo..hi]
  {
    assert forall k :: lo <= k < hi ==> (a + b)[k] == a[k];
  }

  /** The slice after the first part of a concatenation is the second part. */
  lemma SliceOfBack(a: seq<Byte>, b: seq<Byte>)
    ensures (a + b)[|a|..|a| + |b|] == b
  {
    assert (a + b)[|a|..] == b;
  }

  /** `create_key` hashes `id` alone when the node is its own first parent,
      and otherwise `id` followed by one 32-byte block per parent, in order. */
  lemma KeyPreimageLayout(id: Bytes32, node: U64, parents: seq<U32>, data: seq<Byte>)
    requires |parents| >= 1
    requires node != parents[0] ==> ParentsInData(parents, data)
    ensures var pre := KeyPreimage(id, node, parents, data);
            && pre[..32] == id
            && (node == parents[0] ==> pre == id)
            && (node != parents[0] ==>
                  && |pre| == 32 + Util.NODE_SIZE * |parents|
                  && forall j :: 0 <= j < |parents| ==>
                       pre[32 + Util.NODE_SIZE * j..32 + Util.NODE_SIZE * j + Util.NODE_SIZE]
                       == data[parents[j] * Util.NODE_SIZE..parents[j] * Util.NODE_SIZE + Util.NODE_SIZE])
  {
    var pre := KeyPreimage(id, node, parents, data);
    if node != parents[0] {
      ParentBlocksLayout(parents, data);
      var blocks := ParentBlocks(parents, data);
      assert pre == id + blocks;
      forall j | 0 <= j < |parents|
        ensures pre[32 + Util.NODE_SIZE * j..32 + Util.NODE_SIZE * j + Util.NODE_SIZE]
                == data[parents[j] * Util.NODE_SIZE..parents[j] * Util.NODE_SIZE + Util.NODE_SIZE]
      {
        assert pre[32 + Util.NODE_SIZE * j..32 + Util.NODE_SIZE * j + Util.NODE_SIZE]
               == blocks[Util.NODE_SIZE * j..Util.NODE_SIZE * j + Util.NODE_SIZE];
      }
    }
  }

  /** The metagraph index never needs a bucket beyond 54, so `1 << bucket`
      stays well inside a `u64`. */
  lemma BucketExponentBound(metagraphNode: nat)
    requires 1 <= metagraphNode <= MAX_METAGRAPH_NODES
    ensures CeilLog2(metagraphNode) <= 54
  {
    Pow2FiftyFour();
    CeilLog2AtMost(metagraphNode, 54);
  }

  /** A sampled parent is the metagraph parent divided by `mPrime`, which
      already lies below `node`: the `mapped_parent == node` clamp never
      fires. */
  lemma MapToGraphNeverClamps(metagraphParent: nat, mPrime: nat, node: nat)
    requires mPrime >= 1 && node >= 1 && metagraphParent < node * mPrime
    ensures metagraphParent / mPrime < node
    ensures MapToGraph(metagraphParent, mPrime, node) == metagraphParent / mPrime
  {
    assert (metagraphParent / mPrime) * mPrime <= metagraphParent;
  }

  /** The RNG seed determines both the graph seed and the node. */
  lemma RngSeedInjective(s1: Bytes28, n1: U32, s2: Bytes28, n2: U32)
    requires RngSeed(s1, n1) == RngSeed(s2, n2)
    ensures s1 == s2 && n1 == n2
  {
    // Both parts are read back by the contract of `RngSeed`.
  }

  /** `parents` depends on the graph only through its seed and degree:
      the node count and the hasher play no part. */
  lemma ParentsDeterministic(g1: BucketGraph, g2: BucketGraph, node: U64, rng: (Bytes32, nat) -> U64)
    requires g1.seed == g2.seed && g1.baseDegree == g2.baseDegree
    requires g1.SamplingInRange(node)
    ensures g2.SamplingInRange(node)
    ensures g1.ParentsOf(node, rng) == g2.ParentsOf(node, rng)
  {
  }

  /** The identifier names the node count, the degree and the hasher
      unambiguously. */
  lemma IdentifierInjective(g1: BucketGraph, g2: BucketGraph)
    requires g1.Identifier() == g2.Identifier()
    ensures g1.nodes == g2.nodes && g1.baseDegree == g2.baseDegree && g1.hasher == g2.hasher
  {
    var t1 := DegreeAndHasher(g1);
    var t2 := DegreeAndHasher(g2);
    IdentifierSplits(g1);
    IdentifierSplits(g2);
    StripPrefix("drgraph::BucketGraph{size: ", NatToDecimal(g1.nodes) + t1, NatToDecimal(g2.nodes) + t2);
    DigitsThenNonDigit(NatToDecimal(g1.nodes), t1, NatToDecimal(g2.nodes), t2);
    NatToDecimalInjective(g1.nodes, g2.nodes);
    DegreeAndHasherInjective(g1, g2);
  }

  /** The part of the identifier after the node count. */
  function DegreeAndHasher(g: BucketGraph): (t: string)
    ensures |t| >= 1 && !IsDigit(t[0])
  {
    "; degree: " + (NatToDecimal(g.baseDegree) + HasherTail(g.hasher))
  }

  function HasherTail(h: Hasher): (t: string)
    ensures |t| >= 1 && !IsDigit(t[0])
  {
    "; hasher: " + (h.name + "}")
  }

  lemma IdentifierSplits(g: BucketGraph)
    ensures g.Identifier() == "drgraph::BucketGraph{size: " + (NatToDecimal(g.nodes) + DegreeAndHasher(g))
  {
  }

  lemma DegreeAndHasherInjective(g1: BucketGraph, g2: BucketGraph)
    requires DegreeAndHasher(g1) == DegreeAndHasher(g2)
    ensures g1.baseDegree == g2.baseDegree && g1.hasher == g2.hasher
  {
    var u1 := HasherTail(g1.hasher);
    var u2 := HasherTail(g2.hasher);
    StripPrefix("; degree: ", NatToDecimal(g1.baseDegree) + u1, NatToDecimal(g2.baseDegree) + u2);
    DigitsThenNonDigit(NatToDecimal(g1.baseDegree), u1, NatToDecimal(g2.baseDegree), u2);
    NatToDecimalInjective(g1.baseDegree, g2.baseDegree);
    StripPrefix("; hasher: ", g1.hasher.name + "}", g2.hasher.name + "}");
    StripSuffix(g1.hasher.name, g2.hasher.name, "}");
  }

  /** Neither the identifier nor the sector size sees the seed. */
  lemma IdentityIgnoresSeed(g: BucketGraph, seed: Bytes28)
    ensures g.(seed := seed).Identifier() == g.Identifier()
    ensures g.(seed := seed).SectorSize() == g.SectorSize()
  {
  }

  /** What a successfully built graph reports: `size()` is the node count
      and `degree()` the base degree it was given, and every node index a
      `u32` can name below the node count may be sampled. */
  lemma NewShape(nodes: U64, baseDegree: U64, porepId: Bytes32, hasher: Hasher, crypto: Crypto)
    requires BucketGraph.New(nodes, baseDegree, 0, porepId, hasher, crypto).Ok?
    ensures var g := BucketGraph.New(nodes, baseDegree, 0, porepId, hasher, crypto).value;
            && g.Size() == nodes && g.Degree() == baseDegree
            && g.seed == DrgSeed(porepId, crypto)
            && forall node: U64 :: node < nodes && node < TWO_32 ==> g.SamplingInRange(node)
  {
    var g := BucketGraph.New(nodes, baseDegree, 0, porepId, hasher, crypto).value;
    forall node: U64 | node < nodes && node < TWO_32
      ensures g.SamplingInRange(node)
    {
      MulMonotone(node, nodes, baseDegree - 1, baseDegree - 1);
    }
  }

  /** In a build without overflow checks, 2^62 nodes of degree 5 make the
      metagraph product wrap to 0, and the 2^54 bound lets the graph through. */
  lemma NewAsWrittenAcceptsOversized(porepId: Bytes32, hasher: Hasher, crypto: Crypto)
    ensures var nodes := 0x4000_0000_0000_0000;
            && nodes * (5 - 1) > MAX_METAGRAPH_NODES
            && BucketGraph.New(nodes, 5, 0, porepId, hasher, crypto) == Err(TooManyMetagraphNodes)
            && BucketGraph.NewAsWritten(nodes, 5, 0, porepId, hasher, crypto).Ok?
  {
    var nodes := 0x4000_0000_0000_0000;
    assert (nodes * ((5 - 1) % TWO_64)) % TWO_64 == 0;
  }

  /** Within the node counts `StackedGraph::new` lets through (at most
      `u32::MAX`) and a degree that is positive and fits `u32`, the wrapped
      and the exact guard agree. */
  lemma NewAgreesWithinStackedRange(nodes: U64, baseDegree: U64, expansionDegree: U64, porepId: Bytes32,
                                    hasher: Hasher, crypto: Crypto)
    requires nodes <= U32_MAX && 1 <= baseDegree <= TWO_32
    ensures BucketGraph.NewAsWritten(nodes, baseDegree, expansionDegree, porepId, hasher, crypto)
            == BucketGraph.New(nodes, baseDegree, expansionDegree, porepId, hasher, crypto)
  {
    var mPrime := baseDegree - 1;
    MulMonotone(nodes, U32_MAX, mPrime, U32_MAX);
    assert mPrime % TWO_64 == mPrime;
    assert nodes * mPrime < TWO_64;
    assert (nodes * mPrime) % TWO_64 == nodes * mPrime;
  }

  lemma MulMonotone(a: nat, b: nat, c: nat, d: nat)
    requires a <= b && c <= d
    ensures a * c <= b * d
  {
  }
}
