/** The cache prefix of the stacked PoRep circuit, and the full cache key
    of stacked public parameters. */
module CircuitProof {
  import opened Primitives
  import Hex
  import ParameterCache
  import StackedParams
  import StackedGraph
  import DrGraph

  /** `StackedCompound<Tree, G>`: an instance carries only its partition
      count; the tree and the piece hasher are part of its type. */
  datatype StackedCompound = StackedCompound(partitions: Option<nat>, tree: TreeShape, pieceHasher: Hasher)

  const PREFIX: string := "stacked-proof-of-replication-"

  /** `cache_prefix`: names the tree and the piece hasher. */
  function CachePrefix(tree: TreeShape, pieceHasher: Hasher): (prefix: string)
    ensures |prefix| >= |PREFIX| && prefix[..|PREFIX|] == PREFIX
  {
    PREFIX + tree.display + "-" + pieceHasher.name
  }

  /** The prefix of an instance, which ignores the instance's partitions
      and is the same for every circuit and parameter type. */
  function InstancePrefix(compound: StackedCompound): string
  {
    CachePrefix(compound.tree, compound.pieceHasher)
  }

  lemma PrefixIgnoresPartitions(a: StackedCompound, b: StackedCompound)
    requires a.tree == b.tree && a.pieceHasher == b.pieceHasher
    ensures InstancePrefix(a) == InstancePrefix(b)
  {
  }

  /** Stacked public parameters as a `ParameterSetMetadata`. */
  function StackedMetadata(challenges: Challenges): ParameterCache.Metadata<StackedParams.PublicParams>
  {
    ParameterCache.Metadata((p: StackedParams.PublicParams) => p.Identifier(challenges),
                            (p: StackedParams.PublicParams) => p.SectorSize())
  }

  /** The cache key of stacked public parameters. */
  function StackedCacheIdentifier(tree: TreeShape, pieceHasher: Hasher, pubParams: StackedParams.PublicParams,
                                  challenges: Challenges, crypto: Crypto): string
  {
    ParameterCache.CacheIdentifier(CachePrefix(tree, pieceHasher), StackedMetadata(challenges), pubParams, crypto)
  }

  /** The key reads `stacked-proof-of-replication-<tree>-<hasher>-` followed
      by the 64 lower-case hex digits of the parameters' identifier digest. */
  lemma StackedCacheIdentifierForm(tree: TreeShape, pieceHasher: Hasher, pubParams: StackedParams.PublicParams,
                                   challenges: Challenges, crypto: Crypto)
    ensures var key := StackedCacheIdentifier(tree, pieceHasher, pubParams, challenges, crypto);
            var head := PREFIX + tree.display + "-" + pieceHasher.name + "-";
            && |key| == |head| + 64
            && key[..|head|] == head
            && (forall i :: |head| <= i < |key| ==> Hex.IsLowerHex(key[i]))
            && Hex.FromHex(key[|head|..])
               == Some(ParameterCache.IdentifierDigest(pubParams.Identifier(challenges), crypto))
  {
    var prefix := CachePrefix(tree, pieceHasher);
    var key := StackedCacheIdentifier(tree, pieceHasher, pubParams, challenges, crypto);
    var head := PREFIX + tree.display + "-" + pieceHasher.name + "-";
    assert head == prefix + "-";
    assert key[..|prefix|] == prefix && key[|prefix|] == '-';
    assert key[..|head|] == head;
    ParameterCache.CacheIdentifierDigest(prefix, StackedMetadata(challenges), pubParams, crypto);
  }

  /** The stacked graph `new` builds, over its own base graph, for `nodes`
      nodes of `hasher`. */
  function BuiltGraph(nodes: U64, porepId: Bytes32, hasher: Hasher, crypto: Crypto): Outcome<StackedGraph.StackedGraph>
  {
    StackedGraph.StackedGraph.New(None, nodes, DrGraph.BASE_DEGREE, StackedGraph.EXP_DEGREE, porepId, hasher, crypto)
  }

  /** The cache metadata of parameters over a freshly built graph records
      32 bytes per node. */
  lemma CacheMetaRecordsNodeBytes(nodes: U64, porepId: Bytes32, hasher: Hasher, layerChallenges: LayerChallenges,
                                  tree: TreeShape, challenges: Challenges, crypto: Crypto)
    requires nodes <= U32_MAX
    ensures BuiltGraph(nodes, porepId, hasher, crypto).Ok?
    ensures var pp := StackedParams.PublicParams.New(BuiltGraph(nodes, porepId, hasher, crypto).value,
                                                     layerChallenges, tree);
            ParameterCache.CacheMeta(StackedMetadata(challenges), pp).sectorSize == nodes * 32
  {
  }

  /** The cache key of parameters over a freshly built graph does not depend
      on `porep_id`: the seeds it derives stay out of every identifier. */
  lemma CacheKeyIgnoresPorepId(nodes: U64, p1: Bytes32, p2: Bytes32, hasher: Hasher,
                               layerChallenges: LayerChallenges, tree: TreeShape, pieceHasher: Hasher,
                               challenges: Challenges, crypto: Crypto)
    requires nodes <= U32_MAX
    ensures BuiltGraph(nodes, p1, hasher, crypto).Ok? && BuiltGraph(nodes, p2, hasher, crypto).Ok?
    ensures StackedCacheIdentifier(tree, pieceHasher,
              StackedParams.PublicParams.New(BuiltGraph(nodes, p1, hasher, crypto).value, layerChallenges, tree),
              challenges, crypto)
            == StackedCacheIdentifier(tree, pieceHasher,
              StackedParams.PublicParams.New(BuiltGraph(nodes, p2, hasher, crypto).value, layerChallenges, tree),
              challenges, crypto)
  {
    var g1 := BuiltGraph(nodes, p1, hasher, crypto).value;
    var g2 := BuiltGraph(nodes, p2, hasher, crypto).value;
    DrGraph.IdentityIgnoresSeed(g1.baseGraph, g2.baseGraph.seed);
    assert g1.baseGraph.(seed := g2.baseGraph.seed) == g2.baseGraph;
    var pp1 := StackedParams.PublicParams.New(g1, layerChallenges, tree);
    var pp2 := StackedParams.PublicParams.New(g2, layerChallenges, tree);
    StackedParams.IdentifierIgnoresSeeds(pp1, pp2, challenges);
    ParameterCache.CacheIdentifierOnlyThroughIdentifier(CachePrefix(tree, pieceHasher), StackedMetadata(challenges),
                                                        pp1, StackedMetadata(challenges), pp2, crypto);
  }
}
