/** Deriving the stacked setup parameters of a sector size: the table
    lookups, the node count and the challenge-count search. */
module Parameters {
  import opened Primitives
  import opened Constants
  import StackedParams

  /** `count` challenges per layer, over all partitions, reach the minimum. */
  predicate Sufficient(partitions: nat, minimum: nat, layers: nat, challenges: Challenges, count: nat)
  {
    partitions * challenges.countAll(layers, count) >= minimum
  }

  /** `count` is the smallest positive count that is sufficient. */
  predicate IsLeastSufficient(partitions: nat, minimum: nat, layers: nat, challenges: Challenges, count: nat)
  {
    && count >= 1
    && Sufficient(partitions, minimum, layers, challenges, count)
    && forall c :: 1 <= c < count ==> !Sufficient(partitions, minimum, layers, challenges, c)
  }

  /** `select_challenges`: tries counts 1, 2, 3, ... and stops at the first
      sufficient one. The loop ends only if some count is sufficient. */
  method SelectChallenges(partitions: nat, minimum: nat, layers: nat, challenges: Challenges)
    returns (guess: LayerChallenges)
    requires exists c :: c >= 1 && Sufficient(partitions, minimum, layers, challenges, c)
    ensures guess.layers == layers
    ensures IsLeastSufficient(partitions, minimum, layers, challenges, guess.count)
  {
    ghost var bound :| bound >= 1 && Sufficient(partitions, minimum, layers, challenges, bound);
    var count := 1;
    guess := LayerChallenges(layers, count);
    while partitions * challenges.countAll(guess.layers, guess.count) < minimum
      invariant 1 <= count <= bound
      invariant guess == LayerChallenges(layers, count)
      invariant forall c :: 1 <= c < count ==> !Sufficient(partitions, minimum, layers, challenges, c)
      decreases bound - count
    {
      count := count + 1;
      guess := LayerChallenges(layers, count);
    }
  }

  /** At most one count is the least sufficient one. */
  lemma LeastSufficientUnique(partitions: nat, minimum: nat, layers: nat, challenges: Challenges,
                              c1: nat, c2: nat)
    requires IsLeastSufficient(partitions, minimum, layers, challenges, c1)
    requires IsLeastSufficient(partitions, minimum, layers, challenges, c2)
    ensures c1 == c2
  {
  }

  /** When one challenge per layer already suffices, the search returns 1. */
  lemma OneSuffices(partitions: nat, minimum: nat, layers: nat, challenges: Challenges, count: nat)
    requires Sufficient(partitions, minimum, layers, challenges, 1)
    requires IsLeastSufficient(partitions, minimum, layers, challenges, count)
    ensures count == 1
  {
    LeastSufficientUnique(partitions, minimum, layers, challenges, count, 1);
  }

  /** Some positive count yields at least `n` challenges. */
  ghost predicate Reaches(challenges: Challenges, layers: nat, n: nat)
  {
    exists c :: c >= 1 && challenges.countAll(layers, c) >= n
  }

  /** The search ends for at least one partition when the number of
      challenges grows without bound in the count. */
  lemma UnboundedCountsTerminate(partitions: nat, minimum: nat, layers: nat, challenges: Challenges)
    requires partitions >= 1
    requires forall n: nat :: Reaches(challenges, layers, n)
    ensures exists c :: c >= 1 && Sufficient(partitions, minimum, layers, challenges, c)
  {
    assert Reaches(challenges, layers, minimum);
    var c :| c >= 1 && challenges.countAll(layers, c) >= minimum;
    var total := challenges.countAll(layers, c);
    assert partitions * total >= total;
    assert Sufficient(partitions, minimum, layers, challenges, c);
  }

  /** With no partitions and a positive minimum no count is sufficient, and
      the search never ends. */
  lemma ZeroPartitionsNeverSuffice(minimum: nat, layers: nat, challenges: Challenges, count: nat)
    requires minimum > 0
    ensures !Sufficient(0, minimum, layers, challenges, count)
  {
  }

  /** Every size the tables know is a whole number of nodes, so the
      alignment check after the lookups never fails. */
  lemma TableSizesAligned(sectorBytes: nat)
    requires sectorBytes in POREP_MINIMUM_CHALLENGES && sectorBytes in LAYERS
    ensures sectorBytes % 32 == 0
  {
    TablesShareKeys();
    SectorSizesArePowersOfTwo();
  }

  /** `setup_params`. The two table lookups come first and abort on an
      unknown size; then the size must be a multiple of 32; the graph has
      one node per 32 bytes, degree 6 and expansion degree 8. */
  method SetupParams(sectorBytes: U64, partitions: nat, porepId: Bytes32, challenges: Challenges)
    returns (r: Outcome<StackedParams.SetupParams>)
    requires sectorBytes in POREP_MINIMUM_CHALLENGES && sectorBytes in LAYERS ==>
               exists c :: c >= 1 && Sufficient(partitions, POREP_MINIMUM_CHALLENGES[sectorBytes],
                                                LAYERS[sectorBytes], challenges, c)
    ensures r.Abort? <==> sectorBytes !in SECTOR_SIZES
    ensures r.Abort? ==> r.fault == UnknownSectorSize
    ensures !r.Err?
    ensures r.Ok? ==>
              && r.value.nodes == sectorBytes / 32
              && r.value.nodes * 32 == sectorBytes
              && r.value.degree == DRG_DEGREE && r.value.expansionDegree == EXP_DEGREE
              && r.value.porepId == porepId
              && r.value.layerChallenges.layers == LAYERS[sectorBytes]
              && IsLeastSufficient(partitions, POREP_MINIMUM_CHALLENGES[sectorBytes], LAYERS[sectorBytes],
                                   challenges, r.value.layerChallenges.count)
  {
    TablesShareKeys();
    if sectorBytes !in POREP_MINIMUM_CHALLENGES || sectorBytes !in LAYERS {
      return Abort(UnknownSectorSize);
    }
    var layerChallenges := SelectChallenges(partitions, POREP_MINIMUM_CHALLENGES[sectorBytes],
                                            LAYERS[sectorBytes], challenges);
    TableSizesAligned(sectorBytes);
    if sectorBytes % 32 != 0 {
      return Err(MisalignedSectorBytes);
    }
    var nodes := sectorBytes / 32;
    r := Ok(StackedParams.SetupParams(nodes, DRG_DEGREE, EXP_DEGREE, porepId, layerChallenges));
  }

  /** Should a challenge set count `count` challenges on each of `layers`
      layers, a 2 KiB sector (1 partition, minimum 2, 2 layers) needs one
      challenge per layer, and a 32 GiB sector (10 partitions, minimum 176,
      11 layers) two. */
  lemma ChallengeCountExamples(challenges: Challenges, c2KiB: nat, c32GiB: nat)
    requires forall layers: nat, count: nat :: challenges.countAll(layers, count) == layers * count
    requires IsLeastSufficient(POREP_PARTITIONS[SECTOR_SIZE_2_KIB], POREP_MINIMUM_CHALLENGES[SECTOR_SIZE_2_KIB],
                               LAYERS[SECTOR_SIZE_2_KIB], challenges, c2KiB)
    requires IsLeastSufficient(POREP_PARTITIONS[SECTOR_SIZE_32_GIB], POREP_MINIMUM_CHALLENGES[SECTOR_SIZE_32_GIB],
                               LAYERS[SECTOR_SIZE_32_GIB], challenges, c32GiB)
    ensures c2KiB == 1 && c32GiB == 2
  {
    assert Sufficient(1, 2, 2, challenges, 1);
    LeastSufficientUnique(1, 2, 2, challenges, c2KiB, 1);
    assert !Sufficient(10, 176, 11, challenges, 1);
    assert Sufficient(10, 176, 11, challenges, 2);
    LeastSufficientUnique(10, 176, 11, challenges, c32GiB, 2);
  }
}
