/** The stacked graph built over a bucket graph: its constructor's checks,
    the choice of base graph, the Feistel keys and the identifier. */
module StackedGraph {
  import opened Primitives
  import opened LittleEndian
  import opened Decimal
  import DrGraph

  /** Expansion parents of every stacked-graph node. */
  const EXP_DEGREE: nat := 8

  /** Base parents plus expansion parents. */
  const DEGREE: nat := DrGraph.BASE_DEGREE + EXP_DEGREE

  /** `derive_feistel_keys` as a value: the FEISTEL-domain seed of
      `porep_id`, read as four little-endian `u64`s. Key `i` re-encodes to
      bytes `[8i, 8i + 8)` of that seed. */
  function FeistelKeys(porepId: Bytes32, crypto: Crypto): (keys: seq<U64>)
    ensures |keys| == 4
    ensures forall i :: 0 <= i < 4 ==>
              LeBytes(keys[i], 8) == crypto.domainSeed(Feistel, porepId)[8 * i..8 * i + 8]
  {
    var raw := crypto.domainSeed(Feistel, porepId);
    [U64FromLe(raw[0..8]), U64FromLe(raw[8..16]), U64FromLe(raw[16..24]), U64FromLe(raw[24..32])]
  }

  /** `derive_feistel_keys`: fills a four-word buffer one key at a time. */
  method DeriveFeistelKeys(porepId: Bytes32, crypto: Crypto) returns (keys: seq<U64>)
    ensures keys == FeistelKeys(porepId, crypto)
  {
    var feistelKeys := new U64[4](_ => 0);
    var rawSeed := crypto.domainSeed(Feistel, porepId);
    feistelKeys[0] := U64FromLe(rawSeed[0..8]);
    feistelKeys[1] := U64FromLe(rawSeed[8..16]);
    feistelKeys[2] := U64FromLe(rawSeed[16..24]);
    feistelKeys[3] := U64FromLe(rawSeed[24..32]);
    keys := feistelKeys[..];
  }

  /** Re-encoding the four keys, in order, gives back the 32-byte seed. */
  lemma FeistelKeysRoundTrip(porepId: Bytes32, crypto: Crypto)
    ensures var keys := FeistelKeys(porepId, crypto);
            LeBytes(keys[0], 8) + LeBytes(keys[1], 8) + LeBytes(keys[2], 8) + LeBytes(keys[3], 8)
            == crypto.domainSeed(Feistel, porepId)
  {
    var raw := crypto.domainSeed(Feistel, porepId);
    var keys := FeistelKeys(porepId, crypto);
    assert LeBytes(keys[0], 8) == raw[0..8];
    assert LeBytes(keys[1], 8) == raw[8..16];
    assert LeBytes(keys[2], 8) == raw[16..24];
    assert LeBytes(keys[3], 8) == raw[24..32];
    assert raw == raw[0..8] + raw[8..16] + raw[16..24] + raw[24..32];
  }

  /** Each key is the one `u64` whose little-endian bytes are its slice of
      the seed. */
  lemma FeistelKeyUnique(porepId: Bytes32, crypto: Crypto, i: nat, x: U64)
    requires i < 4
    requires LeBytes(x, 8) == crypto.domainSeed(Feistel, porepId)[8 * i..8 * i + 8]
    ensures x == FeistelKeys(porepId, crypto)[i]
  {
    var keys := FeistelKeys(porepId, crypto);
    Pow256Eight();
    LeBytesInjective(x, keys[i], 8);
  }

  /** The identifier format of a stacked graph, around its base graph's. */
  function StackedId(expansionDegree: nat, baseGraphId: string): string
  {
    "stacked_graph::StackedGraph{expansion_degree: " + NatToDecimal(expansionDegree)
    + " base_graph: " + baseGraphId + " }"
  }

  /** A stacked identifier names its expansion degree and its base graph's
      identifier unambiguously. */
  lemma StackedIdInjective(e1: nat, id1: string, e2: nat, id2: string)
    requires StackedId(e1, id1) == StackedId(e2, id2)
    ensures e1 == e2 && id1 == id2
  {
    var p := "stacked_graph::StackedGraph{expansion_degree: ";
    var t1 := BaseGraphTail(id1);
    var t2 := BaseGraphTail(id2);
    StackedIdSplits(e1, id1);
    StackedIdSplits(e2, id2);
    StripPrefix(p, NatToDecimal(e1) + t1, NatToDecimal(e2) + t2);
    DigitsThenNonDigit(NatToDecimal(e1), t1, NatToDecimal(e2), t2);
    NatToDecimalInjective(e1, e2);
    StripPrefix(" base_graph: ", id1 + " }", id2 + " }");
    StripSuffix(id1, id2, " }");
  }

  /** The part of a stacked identifier after the expansion degree. */
  function BaseGraphTail(baseGraphId: string): (t: string)
    ensures |t| >= 1 && !IsDigit(t[0])
  {
    " base_graph: " + (baseGraphId + " }")
  }

  lemma StackedIdSplits(e: nat, baseGraphId: string)
    ensures StackedId(e, baseGraphId)
            == "stacked_graph::StackedGraph{expansion_degree: " + (NatToDecimal(e) + BaseGraphTail(baseGraphId))
  {
  }

  datatype StackedGraph = StackedGraph(expansionDegree: U64, baseGraph: DrGraph.BucketGraph,
                                       feistelKeys: seq<U64>, feistelPrecomputed: FeistelPrecomputed,
                                       id: string)
  {
    /** The stored identifier. */
    function Identifier(): string { id }

    /** The sector size of the base graph. */
    function SectorSize(): U64 { baseGraph.SectorSize() }

    /** `StackedGraph::new`. The degrees are asserted (a mismatch aborts);
        more nodes than `u32::MAX` is an error raised before any base graph
        is built; a supplied base graph is used as it is, and otherwise one
        is built with expansion degree 0, its error propagating. */
    static function New(baseGraph: Option<DrGraph.BucketGraph>, nodes: U64, baseDegree: U64,
                        expansionDegree: U64, porepId: Bytes32, hasher: Hasher,
                        crypto: Crypto): (r: Outcome<StackedGraph>)
      ensures r.Abort? <==> baseDegree != DrGraph.BASE_DEGREE || expansionDegree != EXP_DEGREE
      ensures r.Abort? ==> r.fault == if baseDegree != DrGraph.BASE_DEGREE then BaseDegreeMismatch
                                      else ExpansionDegreeMismatch
      ensures r.Err? <==> !r.Abort? && nodes > U32_MAX
      ensures r.Err? ==> r.error == TooManyNodes
      ensures r.Ok? ==>
                && r.value.expansionDegree == EXP_DEGREE
                && (baseGraph.Some? ==> r.value.baseGraph == baseGraph.value)
                && (baseGraph.None? ==>
                      Ok(r.value.baseGraph) == DrGraph.BucketGraph.New(nodes, baseDegree, 0, porepId, hasher, crypto))
                && r.value.feistelKeys == FeistelKeys(porepId, crypto)
                && r.value.feistelPrecomputed == crypto.feistelPrecompute(EXP_DEGREE * nodes)
                && r.value.id == StackedId(EXP_DEGREE, r.value.baseGraph.Identifier())
    {
      if baseDegree != DrGraph.BASE_DEGREE then Abort(BaseDegreeMismatch)
      else if expansionDegree != EXP_DEGREE then Abort(ExpansionDegreeMismatch)
      else if nodes > U32_MAX then Err(TooManyNodes)
      else
        var built := match baseGraph
          case Some(graph) => Ok(graph)
          case None => DrGraph.BucketGraph.New(nodes, baseDegree, 0, porepId, hasher, crypto);
        match built
        case Err(e) => Err(e)
        case Abort(f) => Abort(f)
        case Ok(bg) =>
          // `(expansion_degree * nodes) as u64`, exact here since nodes fit a u32
          var precomputeSize := WrapU64(expansionDegree * nodes);
          Ok(StackedGraph(expansionDegree, bg, FeistelKeys(porepId, crypto),
                          crypto.feistelPrecompute(precomputeSize),
                          StackedId(expansionDegree, bg.Identifier())))
    }
  }

  /** The base graph `new` builds for itself never fails: 5 * u32::MAX
      metagraph nodes stay below 2^54. */
  lemma InternalBaseGraphSucceeds(nodes: U64, porepId: Bytes32, hasher: Hasher, crypto: Crypto)
    requires nodes <= U32_MAX
    ensures DrGraph.BucketGraph.New(nodes, DrGraph.BASE_DEGREE, 0, porepId, hasher, crypto).Ok?
  {
    assert nodes * (DrGraph.BASE_DEGREE - 1) <= U32_MAX * 5;
  }

  /** Two stacked graphs built over their own base graphs have the same
      identifier exactly when they have the same node count and hasher;
      the `porep_id` does not enter it. */
  lemma IdentifierDeterminesShape(n1: U64, p1: Bytes32, h1: Hasher, n2: U64, p2: Bytes32, h2: Hasher,
                                  crypto: Crypto)
    requires StackedGraph.New(None, n1, DrGraph.BASE_DEGREE, EXP_DEGREE, p1, h1, crypto).Ok?
    requires StackedGraph.New(None, n2, DrGraph.BASE_DEGREE, EXP_DEGREE, p2, h2, crypto).Ok?
    ensures StackedGraph.New(None, n1, DrGraph.BASE_DEGREE, EXP_DEGREE, p1, h1, crypto).value.Identifier()
            == StackedGraph.New(None, n2, DrGraph.BASE_DEGREE, EXP_DEGREE, p2, h2, crypto).value.Identifier()
            <==> n1 == n2 && h1 == h2
  {
    var g1 := StackedGraph.New(None, n1, DrGraph.BASE_DEGREE, EXP_DEGREE, p1, h1, crypto).value;
    var g2 := StackedGraph.New(None, n2, DrGraph.BASE_DEGREE, EXP_DEGREE, p2, h2, crypto).value;
    if g1.Identifier() == g2.Identifier() {
      StackedIdInjective(EXP_DEGREE, g1.baseGraph.Identifier(), EXP_DEGREE, g2.baseGraph.Identifier());
      DrGraph.IdentifierInjective(g1.baseGraph, g2.baseGraph);
    }
  }

  /** The DRG seed and the Feistel keys come from the same `porep_id`
      under the two domain tags, and from nothing else. */
  lemma SeedsComeFromPorepId(n1: U64, n2: U64, porepId: Bytes32, hasher: Hasher, crypto: Crypto)
    requires StackedGraph.New(None, n1, DrGraph.BASE_DEGREE, EXP_DEGREE, porepId, hasher, crypto).Ok?
    requires StackedGraph.New(None, n2, DrGraph.BASE_DEGREE, EXP_DEGREE, porepId, hasher, crypto).Ok?
    ensures var g1 := StackedGraph.New(None, n1, DrGraph.BASE_DEGREE, EXP_DEGREE, porepId, hasher, crypto).value;
            var g2 := StackedGraph.New(None, n2, DrGraph.BASE_DEGREE, EXP_DEGREE, porepId, hasher, crypto).value;
            && g1.baseGraph.seed == g2.baseGraph.seed == crypto.domainSeed(DrSample, porepId)[..28]
            && g1.feistelKeys == g2.feistelKeys == FeistelKeys(porepId, crypto)
  {
  }
}
