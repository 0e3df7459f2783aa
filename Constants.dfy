/** The supported sector sizes, the per-size parameter tables and the
    dispatch from a sector size to its shape. */
module Constants {
  import opened Primitives
  import DrGraph
  import StackedGraph

  const SECTOR_SIZE_2_KIB: nat := 0x800            // 1 << 11
  const SECTOR_SIZE_4_KIB: nat := 0x1000           // 1 << 12
  const SECTOR_SIZE_16_KIB: nat := 0x4000          // 1 << 14
  const SECTOR_SIZE_32_KIB: nat := 0x8000          // 1 << 15
  const SECTOR_SIZE_8_MIB: nat := 0x80_0000        // 1 << 23
  const SECTOR_SIZE_16_MIB: nat := 0x100_0000      // 1 << 24
  const SECTOR_SIZE_512_MIB: nat := 0x2000_0000    // 1 << 29
  const SECTOR_SIZE_1_GIB: nat := 0x4000_0000      // 1 << 30
  const SECTOR_SIZE_32_GIB: nat := 0x8_0000_0000   // 1 << 35
  const SECTOR_SIZE_64_GIB: nat := 0x10_0000_0000  // 1 << 36

  const SECTOR_SIZES: set<nat> := {
    SECTOR_SIZE_2_KIB, SECTOR_SIZE_4_KIB, SECTOR_SIZE_16_KIB, SECTOR_SIZE_32_KIB,
    SECTOR_SIZE_8_MIB, SECTOR_SIZE_16_MIB, SECTOR_SIZE_512_MIB, SECTOR_SIZE_1_GIB,
    SECTOR_SIZE_32_GIB, SECTOR_SIZE_64_GIB }

  const DRG_DEGREE: nat := DrGraph.BASE_DEGREE
  const EXP_DEGREE: nat := StackedGraph.EXP_DEGREE

  /** Minimum number of PoRep challenges per sector size. */
  const POREP_MINIMUM_CHALLENGES: map<nat, nat> := map[
    SECTOR_SIZE_2_KIB := 2, SECTOR_SIZE_4_KIB := 2, SECTOR_SIZE_16_KIB := 2,
    SECTOR_SIZE_32_KIB := 2, SECTOR_SIZE_8_MIB := 2, SECTOR_SIZE_16_MIB := 2,
    SECTOR_SIZE_512_MIB := 2, SECTOR_SIZE_1_GIB := 2,
    SECTOR_SIZE_32_GIB := 176, SECTOR_SIZE_64_GIB := 176]

  /** Number of proof partitions per sector size. */
  const POREP_PARTITIONS: map<nat, nat> := map[
    SECTOR_SIZE_2_KIB := 1, SECTOR_SIZE_4_KIB := 1, SECTOR_SIZE_16_KIB := 1,
    SECTOR_SIZE_32_KIB := 1, SECTOR_SIZE_8_MIB := 1, SECTOR_SIZE_16_MIB := 1,
    SECTOR_SIZE_512_MIB := 1, SECTOR_SIZE_1_GIB := 1,
    SECTOR_SIZE_32_GIB := 10, SECTOR_SIZE_64_GIB := 10]

  /** Number of stacked layers per sector size. */
  const LAYERS: map<nat, nat> := map[
    SECTOR_SIZE_2_KIB := 2, SECTOR_SIZE_4_KIB := 2, SECTOR_SIZE_16_KIB := 2,
    SECTOR_SIZE_32_KIB := 2, SECTOR_SIZE_8_MIB := 2, SECTOR_SIZE_16_MIB := 2,
    SECTOR_SIZE_512_MIB := 2, SECTOR_SIZE_1_GIB := 2,
    SECTOR_SIZE_32_GIB := 11, SECTOR_SIZE_64_GIB := 11]

  /** The sector shapes `with_shape` picks between. */
  datatype SectorShape =
    | SectorShape2KiB | SectorShape4KiB | SectorShape16KiB | SectorShape32KiB
    | SectorShape8MiB | SectorShape16MiB | SectorShape512MiB | SectorShape1GiB
    | SectorShape32GiB | SectorShape64GiB

  /** The sector size each shape stands for. */
  function ShapeSectorSize(shape: SectorShape): nat
  {
    match shape
    case SectorShape2KiB => SECTOR_SIZE_2_KIB
    case SectorShape4KiB => SECTOR_SIZE_4_KIB
    case SectorShape16KiB => SECTOR_SIZE_16_KIB
    case SectorShape32KiB => SECTOR_SIZE_32_KIB
    case SectorShape8MiB => SECTOR_SIZE_8_MIB
    case SectorShape16MiB => SECTOR_SIZE_16_MIB
    case SectorShape512MiB => SECTOR_SIZE_512_MIB
    case SectorShape1GiB => SECTOR_SIZE_1_GIB
    case SectorShape32GiB => SECTOR_SIZE_32_GIB
    case SectorShape64GiB => SECTOR_SIZE_64_GIB
  }

  /** The dispatch of `with_shape`: the shape whose size is `size`, matched
      in table order, and a panic for any other size. */
  function ShapeOf(size: nat): (r: Outcome<SectorShape>)
    ensures r.Ok? <==> size in SECTOR_SIZES
    ensures r.Ok? ==> ShapeSectorSize(r.value) == size
    ensures r.Abort? ==> r.fault == UnsupportedSectorSize
  {
    if size == SECTOR_SIZE_2_KIB then Ok(SectorShape2KiB)
    else if size == SECTOR_SIZE_4_KIB then Ok(SectorShape4KiB)
    else if size == SECTOR_SIZE_16_KIB then Ok(SectorShape16KiB)
    else if size == SECTOR_SIZE_32_KIB then Ok(SectorShape32KiB)
    else if size == SECTOR_SIZE_8_MIB then Ok(SectorShape8MiB)
    else if size == SECTOR_SIZE_16_MIB then Ok(SectorShape16MiB)
    else if size == SECTOR_SIZE_512_MIB then Ok(SectorShape512MiB)
    else if size == SECTOR_SIZE_1_GIB then Ok(SectorShape1GiB)
    else if size == SECTOR_SIZE_32_GIB then Ok(SectorShape32GiB)
    else if size == SECTOR_SIZE_64_GIB then Ok(SectorShape64GiB)
    else Abort(UnsupportedSectorSize)
  }

  /** `with_shape!(size, f)`: `f` instantiated at the shape of `size`. */
  function WithShape<T>(size: nat, f: SectorShape -> T): (r: Outcome<T>)
    ensures r.Ok? <==> size in SECTOR_SIZES
    ensures r.Ok? ==> exists shape :: ShapeSectorSize(shape) == size && r.value == f(shape)
    ensures r.Abort? ==> r.fault == UnsupportedSectorSize
  {
    match ShapeOf(size)
    case Ok(shape) => Ok(f(shape))
    case Err(e) => Err(e)
    case Abort(fault) => Abort(fault)
  }

  /** Each shape is selected by its own size and by no other. */
  lemma ShapeOfSectorSize(shape: SectorShape)
    ensures ShapeOf(ShapeSectorSize(shape)) == Ok(shape)
  {
  }

  /** The ten sizes are the powers of two 2^11, 2^12, 2^14, 2^15, 2^23,
      2^24, 2^29, 2^30, 2^35 and 2^36, and each is a whole number of
      32-byte nodes. */
  lemma SectorSizesArePowersOfTwo()
    ensures SECTOR_SIZES == {Pow2(11), Pow2(12), Pow2(14), Pow2(15), Pow2(23),
                             Pow2(24), Pow2(29), Pow2(30), Pow2(35), Pow2(36)}
    ensures forall s :: s in SECTOR_SIZES ==> s % 32 == 0
  {
    assert Pow2(5) == 32;
    Pow2Add(5, 6);
    Pow2Add(11, 1);
    Pow2Add(12, 2);
    Pow2Add(14, 1);
    Pow2Add(15, 8);
    Pow2Add(23, 1);
    Pow2Add(24, 5);
    Pow2Add(29, 1);
    Pow2Add(30, 5);
    Pow2Add(35, 1);
  }

  /** The three tables are keyed by exactly the ten sector sizes. */
  lemma TablesShareKeys()
    ensures POREP_MINIMUM_CHALLENGES.Keys == SECTOR_SIZES
    ensures POREP_PARTITIONS.Keys == SECTOR_SIZES
    ensures LAYERS.Keys == SECTOR_SIZES
  {
  }

  /** Sizes up to 1 GiB get 2 challenges, 1 partition and 2 layers; the 32
      and 64 GiB sizes get 176 challenges, 10 partitions and 11 layers. */
  lemma TableValues(s: nat)
    requires s in SECTOR_SIZES
    ensures s <= SECTOR_SIZE_1_GIB ==>
              POREP_MINIMUM_CHALLENGES[s] == 2 && POREP_PARTITIONS[s] == 1 && LAYERS[s] == 2
    ensures s > SECTOR_SIZE_1_GIB ==>
              POREP_MINIMUM_CHALLENGES[s] == 176 && POREP_PARTITIONS[s] == 10 && LAYERS[s] == 11
  {
  }

  /** The degrees the parameter setup uses: 6 base and 8 expansion parents,
      14 in all. */
  lemma Degrees()
    ensures DRG_DEGREE == DrGraph.BASE_DEGREE == 6
    ensures EXP_DEGREE == StackedGraph.EXP_DEGREE == 8
    ensures StackedGraph.DEGREE == DRG_DEGREE + EXP_DEGREE == 14
  {
  }
}
