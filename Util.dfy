/** Node layout of sector data: every node is one 32-byte field element. */
module Util {
  import opened Primitives

  const NODE_SIZE: nat := 32

  /** Largest node index whose offset `v * NODE_SIZE` fits in a `usize`. */
  const MAX_EXACT_NODE: nat := 0x800_0000_0000_0000 - 1

  /** `data_at_node_offset`: the byte offset of node `v`. The `usize`
      multiplication wraps in a build without overflow checks. */
  function DataAtNodeOffset(v: U64): (r: U64)
    ensures v <= MAX_EXACT_NODE ==> r == v * NODE_SIZE
  {
    (v * NODE_SIZE) % TWO_64
  }

  /** Offsets start at 0 and consecutive nodes are `NODE_SIZE` apart. */
  lemma OffsetStep(v: U64)
    requires v < MAX_EXACT_NODE
    ensures DataAtNodeOffset(0) == 0
    ensures DataAtNodeOffset(v) + NODE_SIZE == DataAtNodeOffset(v + 1)
  {
  }

  /** The 32-byte slices of two distinct nodes do not overlap. */
  lemma NodeSlicesDisjoint(v: U64, w: U64)
    requires v <= MAX_EXACT_NODE && w <= MAX_EXACT_NODE && v != w
    ensures DataAtNodeOffset(v) + NODE_SIZE <= DataAtNodeOffset(w)
         || DataAtNodeOffset(w) + NODE_SIZE <= DataAtNodeOffset(v)
  {
  }
}
