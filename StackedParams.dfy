/** The stacked-DRG parameter records: what setup is given, and the public
    parameters with their identifier and sector size. */
module StackedParams {
  import opened Primitives
  import opened Decimal
  import Util
  import DrGraph
  import StackedGraph

  /** `stacked::SetupParams`. */
  datatype SetupParams = SetupParams(nodes: U64, degree: U64, expansionDegree: U64, porepId: Bytes32,
                                     layerChallenges: LayerChallenges)

  /** `PublicParams<Tree>`: the stacked graph over `Tree`'s hasher, the
      challenges, and the tree type, which the record only names. */
  datatype PublicParams = PublicParams(graph: StackedGraph.StackedGraph, layerChallenges: LayerChallenges,
                                       tree: TreeShape)
  {
    /** `PublicParams::new`: stores the graph and the challenges as given. */
    static function New(graph: StackedGraph.StackedGraph, layerChallenges: LayerChallenges,
                        tree: TreeShape): (r: PublicParams)
      ensures r.graph == graph && r.layerChallenges == layerChallenges && r.tree == tree
    {
      PublicParams(graph, layerChallenges, tree)
    }

    /** `clone`: a copy of the graph and of the challenges. */
    function Clone(): (r: PublicParams)
      ensures r == this
    {
      PublicParams(graph, layerChallenges, tree)
    }

    /** `From<&PublicParams>`: `new` applied to copies of the other's graph
        and challenges. */
    static function From(other: PublicParams): (r: PublicParams)
      ensures r == other
    {
      New(other.graph, other.layerChallenges, other.tree)
    }

    /** The identifier: the graph's identifier, the `Debug` rendering of
        the challenges and the tree's display name. */
    function Identifier(challenges: Challenges): string
    {
      PARAMS_HEAD + (graph.Identifier() + Rest(this, challenges))
    }

    /** The sector size is the graph's: 32 bytes per node of its base graph. */
    function SectorSize(): (r: U64)
      ensures graph.baseGraph.nodes <= Util.MAX_EXACT_NODE ==> r == graph.baseGraph.nodes * Util.NODE_SIZE
    {
      graph.SectorSize()
    }
  }

  const GRAPH_LEAD := PARAMS_HEAD + "stacked_graph::StackedGraph{expansion_degree: "

  const BASE_LEAD := " base_graph: " + "drgraph::BucketGraph{size: "

  const PARAMS_HEAD := "layered_drgporep::PublicParams{ graph: "

  /** The part of the identifier after the graph's. */
  function Rest(p: PublicParams, challenges: Challenges): string
  {
    ", challenges: " + challenges.debug(p.layerChallenges) + ", tree: " + p.tree.display + " }"
  }

  /** A stacked graph whose stored identifier is the one `new` renders. */
  predicate IdentifiedAsBuilt(g: StackedGraph.StackedGraph)
  {
    g.id == StackedGraph.StackedId(g.expansionDegree, g.baseGraph.Identifier())
  }

  /** The part of the identifier after the base graph's node count. */
  function AfterNodes(p: PublicParams, challenges: Challenges): (t: string)
    ensures |t| >= 1 && !IsDigit(t[0])
  {
    DrGraph.DegreeAndHasher(p.graph.baseGraph) + (" }" + Rest(p, challenges))
  }

  /** The part of the identifier after the expansion degree. */
  function AfterExpansion(p: PublicParams, challenges: Challenges): (t: string)
    ensures |t| >= 1 && !IsDigit(t[0])
  {
    BASE_LEAD + (NatToDecimal(p.graph.baseGraph.nodes) + AfterNodes(p, challenges))
  }

  lemma IdentifierSplits(p: PublicParams, challenges: Challenges)
    requires IdentifiedAsBuilt(p.graph)
    ensures p.Identifier(challenges)
            == GRAPH_LEAD + (NatToDecimal(p.graph.expansionDegree) + AfterExpansion(p, challenges))
  {
    var bg := p.graph.baseGraph;
    DrGraph.IdentifierSplits(bg);
    StackedGraph.StackedIdSplits(p.graph.expansionDegree, bg.Identifier());
    Regroup(PARAMS_HEAD, "stacked_graph::StackedGraph{expansion_degree: ", NatToDecimal(p.graph.expansionDegree),
            " base_graph: ", bg.Identifier(), " }", "drgraph::BucketGraph{size: ", NatToDecimal(bg.nodes),
            DrGraph.DegreeAndHasher(bg), Rest(p, challenges));
  }

  lemma Regroup(h: string, s: string, e: string, b: string, bid: string, c: string, d: string, n: string,
                dh: string, rest: string)
    requires bid == d + (n + dh)
    ensures h + ((s + (e + (b + (bid + c)))) + rest) == (h + s) + (e + ((b + d) + (n + (dh + (c + rest)))))
  {
  }

  /** The identifier names the expansion degree and the base graph's node
      count unambiguously, so parameter sets with one identifier have one
      sector size. */
  lemma IdentifierDeterminesSectorSize(p: PublicParams, q: PublicParams, challenges: Challenges)
    requires IdentifiedAsBuilt(p.graph) && IdentifiedAsBuilt(q.graph)
    requires p.Identifier(challenges) == q.Identifier(challenges)
    ensures p.graph.expansionDegree == q.graph.expansionDegree
    ensures p.graph.baseGraph.nodes == q.graph.baseGraph.nodes
    ensures p.SectorSize() == q.SectorSize()
  {
    var ep := NatToDecimal(p.graph.expansionDegree);
    var eq := NatToDecimal(q.graph.expansionDegree);
    var np := NatToDecimal(p.graph.baseGraph.nodes);
    var nq := NatToDecimal(q.graph.baseGraph.nodes);
    IdentifierSplits(p, challenges);
    IdentifierSplits(q, challenges);
    StripPrefix(GRAPH_LEAD, ep + AfterExpansion(p, challenges), eq + AfterExpansion(q, challenges));
    DigitsThenNonDigit(ep, AfterExpansion(p, challenges), eq, AfterExpansion(q, challenges));
    NatToDecimalInjective(p.graph.expansionDegree, q.graph.expansionDegree);
    StripPrefix(BASE_LEAD, np + AfterNodes(p, challenges), nq + AfterNodes(q, challenges));
    DigitsThenNonDigit(np, AfterNodes(p, challenges), nq, AfterNodes(q, challenges));
    NatToDecimalInjective(p.graph.baseGraph.nodes, q.graph.baseGraph.nodes);
  }

  /** A clone and a conversion name the same parameter set as the original. */
  lemma CopiesKeepIdentity(p: PublicParams, challenges: Challenges)
    ensures p.Clone().Identifier(challenges) == p.Identifier(challenges)
    ensures PublicParams.From(p).Identifier(challenges) == p.Identifier(challenges)
    ensures p.Clone().SectorSize() == PublicParams.From(p).SectorSize() == p.SectorSize()
  {
  }

  /** The identifier is determined by the graph's identifier, the
      challenges and the tree: the Feistel keys and the DRG seed, which
      come from `porep_id`, do not enter it. */
  lemma IdentifierIgnoresSeeds(p: PublicParams, q: PublicParams, challenges: Challenges)
    requires p.graph.Identifier() == q.graph.Identifier()
    requires p.layerChallenges == q.layerChallenges && p.tree == q.tree
    ensures p.Identifier(challenges) == q.Identifier(challenges)
  {
  }
}
