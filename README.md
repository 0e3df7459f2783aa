# Proof-of-Replication parameter derivation and cache key, in Dafny

This project models how the stacked-DRG Proof-of-Replication derives its
public parameters and the key under which their Groth parameters are cached.
It covers:

- **The base depth-robust graph (`BucketGraph`).**
  - Its constructor checks the expansion degree and keeps the metagraph
    within 2^54 nodes.
  - Its seed is the first 28 bytes of the DRSAMPLE-domain seed of `porep_id`.
  - `parents` fills a caller's buffer by bucket sampling.
  - `create_key` decides which bytes are hashed into a node's key.
  - Its identifier names the size, the degree and the hasher, but not the seed.
- **The stacked graph's constructor.**
  - It asserts the degrees 6 and 8 (a mismatch aborts).
  - More than `u32::MAX` nodes is an error.
  - It uses a supplied base graph as it is, or builds one.
  - It decodes four little-endian Feistel keys from the FEISTEL-domain seed.
  - It composes its identifier around the base graph's.
- **The constant tables and the sector-shape dispatch.** Ten sector sizes,
  with the minimum-challenge, partition and layer tables.
- **`setup_params`** and its search for the smallest sufficient challenge count.
- **The public-parameter records.** Their identifier and sector size, the
  generic `CompoundProof::setup`, `cache_meta`, and the cache key
  `prefix-hex(sha256(identifier))` with the stacked circuit's prefix.
- **The node byte offsets and Sloth encoding.** Sloth adds a key in the
  BLS12-381 scalar field.

Each module follows one source file:

- `DrGraph`: drgraph.rs
- `StackedGraph`: graph.rs
- `Constants`: constants.rs
- `Parameters`: parameters.rs
- `StackedParams`: params.rs
- `CompoundProof`: compound_proof.rs
- `ParameterCache`: parameter_cache.rs
- `CircuitProof`: circuit/proof.rs
- `Util`: util.rs
- `Sloth`: sloth.rs

`Primitives`, `LittleEndian`, `Decimal`, `Hex` and `Utf8` hold the value types
and the standard encodings the source relies on:

- `u64::from_le_bytes`;
- `format!("{}")` of an integer;
- `{:02x}` of a digest;
- `String::into_bytes`.

## How failures are modelled

- An `ensure!` or a propagated `?` is `Outcome.Err`.
- An `assert_eq!`, an `expect`, a `panic!` or a checked `usize` underflow is
  `Outcome.Abort`.
- An implicit slice-index panic is a precondition. This applies to:
  - `parents[0]` and a parent slice in `create_key`;
  - `parents[m_prime]`.
- A promise the source leaves to its callers is a precondition too.
  `parents` requires `node < 2^32`: the comment at drgraph.rs:145 promises
  it, and a larger index would be truncated silently by the `as u32` cast,
  not rejected.
- `BucketGraph::new` is modelled twice. `DrGraph.BucketGraph.New` is the
  intended behaviour: it tests the exact product `nodes * (base_degree - 1)`
  against 2^54. `DrGraph.BucketGraph.NewAsWritten` is the build without
  overflow checks, where that product wraps (see "## Findings").
- `usize` is 64 bits wide. Where the source's arithmetic can wrap, the model
  writes the wrap-around out: `sector_size`, `data_at_node_offset`, and the
  release build of `BucketGraph::new`.

## Where the model follows the code

- **Smallest distance in a bucket.** This is not the lower end of the
  textbook bucket range `[2^(b-1), 2^b]`. The code computes
  `max(2, largest >> 1)`, where `largest = min(metagraph_node, 2^bucket)`.
  `BucketDistance` follows the code.
- **The self-reference clamp never fires.** `MapToGraphNeverClamps` proves
  that the mapped parent is always already below `node`.

## Model

| member | source | states |
|---|---|---|
| `DrGraph.DrgSeed` | forest-digest/proof-params-id/storage-proofs/core/src/drgraph.rs:231-236 | the DRG seed: the leading 28 bytes of the DRSAMPLE-domain seed of `porep_id`; `DeriveDrgSeed` is proved to compute it |
| `DrGraph.RngSeed` | forest-digest/proof-params-id/storage-proofs/core/src/drgraph.rs:148-150 | the seed's first 28 bytes are the graph seed, and its last four bytes decode, little-endian, to the node index |
| `DrGraph.DeriveDrgSeed` | forest-digest/proof-params-id/storage-proofs/core/src/drgraph.rs:231-236 | the 28-byte seed is byte for byte the start of the DRSAMPLE-domain seed of `porep_id` |
| `DrGraph.RngSeedInjective` | forest-digest/proof-params-id/storage-proofs/core/src/drgraph.rs:148-151 | the 32-byte RNG seed `seed ‖ le32(node)` determines both the graph seed and the node |
| `DrGraph.CeilLog2` | forest-digest/proof-params-id/storage-proofs/core/src/drgraph.rs:156 | the bucket count is the least `r` with `2^r >= metagraph_node` |
| `DrGraph.BucketExponentBound` | forest-digest/proof-params-id/storage-proofs/core/src/drgraph.rs:156-160 | within the 2^54 bound no bucket exceeds 54, so `1 << bucket` fits a `u64` |
| `DrGraph.BucketDistance` | forest-digest/proof-params-id/storage-proofs/core/src/drgraph.rs:160-168 | every drawn distance lies in `[2, metagraph_node]`, so `metagraph_node - distance` never underflows |
| `DrGraph.MapToGraph` | forest-digest/proof-params-id/storage-proofs/core/src/drgraph.rs:170-179 | a metagraph parent mapped back onto the graph lies below `node` |
| `DrGraph.MapToGraphNeverClamps` | forest-digest/proof-params-id/storage-proofs/core/src/drgraph.rs:173-179 | the quotient is already below `node`, so `mapped_parent == node` never holds and the clamp is dead code |
| `DrGraph.BucketCount` | forest-digest/proof-params-id/storage-proofs/core/src/drgraph.rs:155-156 | the bucket count of a metagraph index is its exact ceil(log2), 0 for index 0, and at least 1 once the index is 2 or more |
| `DrGraph.SampledParent` | forest-digest/proof-params-id/storage-proofs/core/src/drgraph.rs:159-179 | a sampled parent, drawn from RNG positions `2*slot` and `2*slot+1`, is below `node` and so never equals it |
| `DrGraph.SampleInto` | forest-digest/proof-params-id/storage-proofs/core/src/drgraph.rs:158-179 | the sampling loop writes the sampled parent of every slot below `m_prime` and leaves every later slot as it was |
| `DrGraph.BucketGraph.SectorSize` | forest-digest/proof-params-id/storage-proofs/core/src/drgraph.rs:98-100 | the sector size is `nodes * 32` whenever that product fits a `usize` |
| `DrGraph.BucketGraph.ParentsOfSampled` | forest-digest/proof-params-id/storage-proofs/core/src/drgraph.rs:153-182 | for a node of 2 or more, the list is `degree - 1` sampled parents followed by `node - 1` |
| `DrGraph.BucketGraph.ParentsOfShape` | forest-digest/proof-params-id/storage-proofs/core/src/drgraph.rs:130-184 | a parent list has `degree` slots, all 0 for nodes 0 and 1; otherwise every slot is below `node` and the last is `node - 1` |
| `DrGraph.BucketGraph.Parents` | forest-digest/proof-params-id/storage-proofs/core/src/drgraph.rs:130-184 | the first `min(degree, len)` slots of the buffer get the node's parents and every later slot keeps its old value |
| `DrGraph.BucketGraph.ZeroParents` | forest-digest/proof-params-id/storage-proofs/core/src/drgraph.rs:133-142 | for nodes 0 and 1, exactly the first `degree` slots (as far as the buffer goes) become 0 and the rest are untouched |
| `DrGraph.BucketGraph.SampleParents` | forest-digest/proof-params-id/storage-proofs/core/src/drgraph.rs:143-183 | for later nodes, slots `[0, degree)` hold the sampled parents and the predecessor; slots from `degree` on are untouched |
| `DrGraph.BucketGraph.New` | forest-digest/proof-params-id/storage-proofs/core/src/drgraph.rs:203-229 | the intended guard: errors exactly when `expansion_degree != 0` or the exact product `nodes * (base_degree - 1)` exceeds 2^54 (equality is accepted); `base_degree == 0` aborts on the subtraction; success keeps `nodes`, `base_degree` and the hasher, and takes the 28-byte DRSAMPLE seed |
| `DrGraph.BucketGraph.NewAsWritten` | forest-digest/proof-params-id/storage-proofs/core/src/drgraph.rs:209-218 | without overflow checks, the guard tests the wrapped product `(nodes * (base_degree - 1)) mod 2^64` and never aborts |
| `DrGraph.NewAsWrittenAcceptsOversized` | forest-digest/proof-params-id/storage-proofs/core/src/drgraph.rs:213-218 | 2^62 nodes of degree 5 are rejected by the exact guard but accepted by the wrapping one |
| `DrGraph.NewAgreesWithinStackedRange` | forest-digest/proof-params-id/storage-proofs/core/src/drgraph.rs:213-218 | for at most `u32::MAX` nodes and a degree in `[1, 2^32]`, the wrapping and the exact guards agree |
| `DrGraph.NewShape` | forest-digest/proof-params-id/storage-proofs/core/src/drgraph.rs:186-229 | a built graph reports its node count as `size()` and its base degree as `degree()`, and every node below both the node count and 2^32 may be sampled |
| `DrGraph.BucketGraph.CreateKey` | forest-digest/proof-params-id/storage-proofs/core/src/drgraph.rs:106-128 | the key is `fr_repr_safe(sha256(preimage))`, where the preimage is `id` followed, unless `node == parents[0]`, by each parent's 32-byte block |
| `DrGraph.ParentBlocksLayout` | forest-digest/proof-params-id/storage-proofs/core/src/drgraph.rs:118-123 | block `j` of the hashed parent data is the 32 bytes at `parents[j] * 32`, in parent order |
| `DrGraph.KeyPreimageLayout` | forest-digest/proof-params-id/storage-proofs/core/src/drgraph.rs:114-124 | the preimage is `id` alone when the node is its first parent, and otherwise `id` then `32 * len` bytes in parent order |
| `DrGraph.ParentsDeterministic` | forest-digest/proof-params-id/storage-proofs/core/src/drgraph.rs:146-151 | the parent list depends on the graph only through its seed and degree |
| `DrGraph.BucketGraph.Identifier` | forest-digest/proof-params-id/storage-proofs/core/src/drgraph.rs:88-96 | the format `drgraph::BucketGraph{size: N; degree: D; hasher: H}`, without the seed; `IdentifierInjective` proves it unambiguous |
| `DrGraph.BucketGraph.Size` | forest-digest/proof-params-id/storage-proofs/core/src/drgraph.rs:188-191 | `size()` is the node count; `NewShape` proves a built graph reports the count it was given |
| `DrGraph.BucketGraph.Degree` | forest-digest/proof-params-id/storage-proofs/core/src/drgraph.rs:193-197 | `degree()` is the base degree; `NewShape` proves a built graph reports the degree it was given |
| `DrGraph.BucketGraph.ParentsOf` | forest-digest/proof-params-id/storage-proofs/core/src/drgraph.rs:130-184 | the reference parent list that `Parents` is proved to write; `ParentsOfShape` and `ParentsOfSampled` state its shape |
| `DrGraph.IdentifierInjective` | forest-digest/proof-params-id/storage-proofs/core/src/drgraph.rs:88-96 | equal identifiers mean equal node counts, degrees and hashers |
| `DrGraph.IdentityIgnoresSeed` | forest-digest/proof-params-id/storage-proofs/core/src/drgraph.rs:88-100 | changing the seed changes neither the identifier nor the sector size |
| `LittleEndian.U64FromLe` | forest-digest/proof-params-id/storage-proofs/porep/src/stacked/vanilla/graph.rs:59-62 | the decoded `u64` re-encodes to its eight input bytes |
| `LittleEndian.LeBytesInjective` | forest-digest/proof-params-id/storage-proofs/core/src/drgraph.rs:150 | distinct node indexes have distinct little-endian encodings |
| `Decimal.NatToDecimalInjective` | forest-digest/proof-params-id/storage-proofs/core/src/drgraph.rs:90-95 | distinct integers render as distinct decimal strings |
| `StackedGraph.FeistelKeys` | forest-digest/proof-params-id/storage-proofs/porep/src/stacked/vanilla/graph.rs:56-64 | there are four keys, and key `i` re-encodes to bytes `[8i, 8i+8)` of the FEISTEL-domain seed |
| `StackedGraph.DeriveFeistelKeys` | forest-digest/proof-params-id/storage-proofs/porep/src/stacked/vanilla/graph.rs:56-64 | filling the four-word buffer gives exactly those keys |
| `StackedGraph.FeistelKeysRoundTrip` | forest-digest/proof-params-id/storage-proofs/porep/src/stacked/vanilla/graph.rs:56-64 | re-encoding the four keys in order gives back the 32-byte seed |
| `StackedGraph.FeistelKeyUnique` | forest-digest/proof-params-id/storage-proofs/porep/src/stacked/vanilla/graph.rs:59-62 | key `i` is the only `u64` whose little-endian bytes are its slice of the seed |
| `StackedGraph.StackedId` | forest-digest/proof-params-id/storage-proofs/porep/src/stacked/vanilla/graph.rs:92-95 | the format `stacked_graph::StackedGraph{expansion_degree: E base_graph: B }`; `StackedIdInjective` proves it unambiguous |
| `StackedGraph.StackedIdInjective` | forest-digest/proof-params-id/storage-proofs/porep/src/stacked/vanilla/graph.rs:92-95 | the stacked identifier determines the expansion degree and the base graph's identifier |
| `StackedGraph.StackedGraph.New` | forest-digest/proof-params-id/storage-proofs/porep/src/stacked/vanilla/graph.rs:71-103 | aborts exactly when the degrees are not 6 and 8; errors exactly when `nodes > u32::MAX`; otherwise it uses the supplied base graph verbatim or one built for `nodes` with expansion 0, and sets the Feistel keys, the precompute of `8 * nodes` and the id string |
| `StackedGraph.InternalBaseGraphSucceeds` | forest-digest/proof-params-id/storage-proofs/porep/src/stacked/vanilla/graph.rs:80-85 | below the node bound the base graph that `new` builds for itself always succeeds |
| `StackedGraph.IdentifierDeterminesShape` | forest-digest/proof-params-id/storage-proofs/porep/src/stacked/vanilla/graph.rs:86-95 | two built stacked graphs share an identifier exactly when they share node count and hasher, whatever their `porep_id` |
| `StackedGraph.SeedsComeFromPorepId` | forest-digest/proof-params-id/storage-proofs/porep/src/stacked/vanilla/graph.rs:82-88 | the DRG seed (DRSAMPLE tag) and the Feistel keys (FEISTEL tag) depend on `porep_id` alone |
| `Constants.ShapeOf` | forest-digest/proof-params-id/filecoin-proofs/src/constants.rs:93-125 | a shape is selected exactly for the ten sector sizes, and it stands for that size; any other size panics |
| `Constants.WithShape` | forest-digest/proof-params-id/filecoin-proofs/src/constants.rs:88-129 | `with_shape!` calls `f` at the shape of a supported size and panics otherwise |
| `Constants.ShapeOfSectorSize` | forest-digest/proof-params-id/filecoin-proofs/src/constants.rs:93-125 | each shape is selected by its own size |
| `Constants.SectorSizesArePowersOfTwo` | forest-digest/proof-params-id/filecoin-proofs/src/constants.rs:7-16 | the sizes are exactly 2^11, 2^12, 2^14, 2^15, 2^23, 2^24, 2^29, 2^30, 2^35 and 2^36, each a multiple of 32 |
| `Constants.TablesShareKeys` | forest-digest/proof-params-id/filecoin-proofs/src/constants.rs:23-73 | the three tables are keyed by exactly the ten sizes |
| `Constants.TableValues` | forest-digest/proof-params-id/filecoin-proofs/src/constants.rs:23-73 | up to 1 GiB the tables give 2 challenges, 1 partition and 2 layers; at 32 and 64 GiB they give 176, 10 and 11 |
| `Constants.Degrees` | forest-digest/proof-params-id/filecoin-proofs/src/constants.rs:19-20 | `DRG_DEGREE` is 6, `EXP_DEGREE` is 8, and `DEGREE` is their sum, 14 |
| `Parameters.SelectChallenges` | proof/proof-params-id-2/filecoin-proofs/src/parameters.rs:47-59 | the result keeps `layers`, and its count is the least `c >= 1` with `partitions * count_all(layers, c) >= minimum` |
| `Parameters.LeastSufficientUnique` | proof/proof-params-id-2/filecoin-proofs/src/parameters.rs:52-58 | there is only one least sufficient count |
| `Parameters.OneSuffices` | proof/proof-params-id-2/filecoin-proofs/src/parameters.rs:52-54 | when count 1 already meets the minimum, the search returns 1 |
| `Parameters.UnboundedCountsTerminate` | proof/proof-params-id-2/filecoin-proofs/src/parameters.rs:54 | with at least one partition and unbounded `count_all`, some count is sufficient, so the loop ends |
| `Parameters.ZeroPartitionsNeverSuffice` | proof/proof-params-id-2/filecoin-proofs/src/parameters.rs:54 | with no partitions and a positive minimum no count suffices: the loop never ends |
| `Parameters.ChallengeCountExamples` | proof/proof-params-id-2/filecoin-proofs/src/parameters.rs:47-59 | if `count_all` were `layers * count`, the 2 KiB sizes would get 1 challenge per layer and the 32 GiB size 2 |
| `Parameters.TableSizesAligned` | proof/proof-params-id-2/filecoin-proofs/src/parameters.rs:28-32 | every size found in the tables is a multiple of 32 |
| `Parameters.SetupParams` | proof/proof-params-id-2/filecoin-proofs/src/parameters.rs:8-45 | aborts exactly for a size missing from the tables (before the alignment check); the alignment error cannot occur; on success, `nodes = bytes / 32`, the degrees are 6 and 8, `porep_id` is kept, and the challenges are the least sufficient ones for the size's layers |
| `StackedParams.PublicParams.New` | forest-digest/proof-params-id/storage-proofs/porep/src/stacked/vanilla/params.rs:48-54 | `new` stores the graph and the challenges unchanged |
| `StackedParams.PublicParams.Clone` | forest-digest/proof-params-id/storage-proofs/porep/src/stacked/vanilla/params.rs:35-41 | a clone equals the original |
| `StackedParams.PublicParams.From` | forest-digest/proof-params-id/storage-proofs/porep/src/stacked/vanilla/params.rs:79-81 | a conversion from a reference equals the original |
| `StackedParams.PublicParams.Identifier` | forest-digest/proof-params-id/storage-proofs/porep/src/stacked/vanilla/params.rs:61-67 | the graph's identifier, the `Debug` of the challenges and the tree's name; `IdentifierDeterminesSectorSize` proves that it fixes the node count |
| `StackedParams.PublicParams.SectorSize` | forest-digest/proof-params-id/storage-proofs/porep/src/stacked/vanilla/params.rs:70-72 | 32 bytes per node of the base graph, whenever that product fits a `u64` |
| `StackedParams.IdentifierDeterminesSectorSize` | forest-digest/proof-params-id/storage-proofs/porep/src/stacked/vanilla/params.rs:61-72 | for graphs whose stored identifier is the one `new` renders, equal parameter identifiers mean equal expansion degrees, equal node counts and so equal sector sizes |
| `StackedParams.CopiesKeepIdentity` | forest-digest/proof-params-id/storage-proofs/porep/src/stacked/vanilla/params.rs:61-81 | a clone and a conversion have the original's identifier and sector size |
| `StackedParams.IdentifierIgnoresSeeds` | forest-digest/proof-params-id/storage-proofs/porep/src/stacked/vanilla/params.rs:61-67 | the identifier depends only on the graph's identifier, the challenges and the tree |
| `CompoundProof.Setup` | forest-digest/proof-params-id/storage-proofs/core/src/compound_proof.rs:41-47 | succeeds exactly when the scheme's setup does, with its parameters and the copied partitions and priority; otherwise fails with the scheme's error |
| `ParameterCache.CacheMeta` | forest-digest/proof-params-id/storage-proofs/core/src/parameter_cache.rs:25-29 | the metadata records the parameters' sector size |
| `ParameterCache.CacheIdentifier` | forest-digest/proof-params-id/storage-proofs/core/src/parameter_cache.rs:31-41 | the key is the prefix, a dash, then 64 lower-case hex digits |
| `ParameterCache.CacheIdentifierDigest` | forest-digest/proof-params-id/storage-proofs/core/src/parameter_cache.rs:37-41 | the hex part decodes back to the SHA-256 digest of the identifier's UTF-8 bytes |
| `ParameterCache.CacheIdentifierOnlyThroughIdentifier` | forest-digest/proof-params-id/storage-proofs/core/src/parameter_cache.rs:31-36 | parameters with equal identifiers get equal keys |
| `ParameterCache.EqualKeysEqualDigests` | forest-digest/proof-params-id/storage-proofs/core/src/parameter_cache.rs:35-41 | under one prefix, equal keys mean equal identifier digests |
| `Hex.HexRoundTrip` | forest-digest/proof-params-id/storage-proofs/core/src/parameter_cache.rs:38-40 | the `{:02x}` rendering of a digest reads back to its bytes |
| `Hex.ToHex` | forest-digest/proof-params-id/storage-proofs/core/src/parameter_cache.rs:38-40 | two lower-case hex digits per byte |
| `Utf8.DecodeEncode` | forest-digest/proof-params-id/storage-proofs/core/src/parameter_cache.rs:35 | the UTF-8 bytes of the identifier decode back to it |
| `Utf8.EncodeInjective` | forest-digest/proof-params-id/storage-proofs/core/src/parameter_cache.rs:35 | distinct identifiers have distinct byte strings |
| `CircuitProof.CachePrefix` | forest-digest/proof-params-id/storage-proofs/porep/src/circuit/proof.rs:35-41 | the prefix begins `stacked-proof-of-replication-` and then names the tree and the hasher |
| `CircuitProof.PrefixIgnoresPartitions` | forest-digest/proof-params-id/storage-proofs/porep/src/circuit/proof.rs:26-35 | instances that differ only in `partitions` have the same prefix |
| `CircuitProof.StackedCacheIdentifier` | forest-digest/proof-params-id/storage-proofs/porep/src/circuit/proof.rs:32-42 | the cache key of the stacked compound proof: the default `cache_identifier` over the stacked prefix; its form is proved in `StackedCacheIdentifierForm` |
| `CircuitProof.StackedCacheIdentifierForm` | forest-digest/proof-params-id/storage-proofs/porep/src/circuit/proof.rs:35-41 | the full key is `stacked-proof-of-replication-<tree>-<hasher>-` then 64 hex digits that decode to the identifier's digest |
| `CircuitProof.CacheMetaRecordsNodeBytes` | forest-digest/proof-params-id/storage-proofs/porep/src/stacked/vanilla/params.rs:70-72 | over a freshly built graph, the cache metadata records 32 bytes per node |
| `CircuitProof.CacheKeyIgnoresPorepId` | forest-digest/proof-params-id/storage-proofs/core/src/drgraph.rs:88-96 | parameters over graphs built from different `porep_id`s get the same cache key |
| `Util.DataAtNodeOffset` | proof/proof-params-id-2/storage-proofs/core/src/util.rs:4-6 | the offset is `v * 32` whenever that product fits a `usize` |
| `Util.OffsetStep` | proof/proof-params-id-2/storage-proofs/core/src/util.rs:1-6 | `offset(0) == 0` and `offset(v) + 32 == offset(v + 1)` |
| `Util.NodeSlicesDisjoint` | proof/proof-params-id-2/storage-proofs/core/src/util.rs:4-6 | the 32-byte slices of distinct nodes do not overlap |
| `Sloth.Encode` | proof/proof-params-id-2/storage-proofs/core/src/crypto/sloth.rs:6-11 | `encode(k, p) == (p + k) mod r` |
| `Sloth.Decode` | proof/proof-params-id-2/storage-proofs/core/src/crypto/sloth.rs:15-21 | `decode(k, c) == (c - k) mod r` |
| `Sloth.DecodeEncode` | proof/proof-params-id-2/storage-proofs/core/src/crypto/sloth.rs:6-21 | decoding an encoding gives back the plaintext |
| `Sloth.EncodeDecode` | proof/proof-params-id-2/storage-proofs/core/src/crypto/sloth.rs:6-21 | encoding a decoding gives back the ciphertext |
| `Sloth.ZeroKeyIsIdentity` | proof/proof-params-id-2/storage-proofs/core/src/crypto/sloth.rs:9-18 | the zero key leaves every element unchanged both ways |

## Left out

- **The foreign primitives are uninterpreted functions of the right output length.**
  - The foreign primitives are fields of a `Crypto` value: SHA-256, `derive_porep_domain_seed`, `bytes_into_fr_repr_safe` and `feistel::precompute`.
  - The ChaCha8 generator is a stream of `u64` draws, indexed by seed and position. `parents` takes it as a parameter.
- **`f64` arithmetic.** The source computes `(metagraph_node as f64).log2().ceil()`; the model uses the exact integer ceiling of the base-2 logarithm (`DrGraph.CeilLog2`). The two do not agree everywhere below the 2^54 bound. Just above each power of two from 2^49 up, for example at 2^50 + 1, a correctly rounded `log2` returns the power itself, so the source takes one bucket fewer than the model. From 2^53 on, the cast to `f64` also rounds the index. For every base graph `StackedGraph::new` builds itself, the metagraph index is at most 5 * `u32::MAX` < 2^35, where a `log2` accurate to a few ulps gives the exact ceiling. The model does not prove this, since it has no `f64`.
- **`challenges_count_all` and the `Debug` output of `LayerChallenges`.** They are abstract functions, because the challenges module is not part of this model.
- **The rest of the stacked graph.** Its `parents`, `correspondent`, Feistel permutation and `Graph` implementation are not part of this model. `StackedGraph.StackedGraph.Identifier` returns the stored `id`. `StackedGraph.StackedGraph.SectorSize` is taken to be the base graph's, because its implementation is not shown.
- **Generic parameters.** `StackedGraph`'s base-graph parameter `G` is fixed to `BucketGraph`. The tree and hasher type parameters are carried as values (`TreeShape`, `Hasher`). The type system makes the tree's hasher equal the graph's; the model does not check that.
- **Trait defaults that reach Merkle row counts.** `merkle_tree_depth` and `graph_height` are left out, because the row count is a foreign function.
- **`expected_size`.** The trait default `self.size() * NODE_SIZE` (drgraph.rs:29-31) is type-level plumbing that no modelled operation calls, and it is not modelled.
- **`seed()`.** The accessor is the record's `seed` field.
- **`RwLock` and `lazy_static`.** The tables are immutable maps.
- **No I/O.** The `info!` log line in `cache_identifier` is left out.
- **The CLI entry points.** The two `main.rs` files are command-line wrappers (one of them does not compile) and are not modelled.
- **`POREP_PARTITIONS`.** `setup_params` does not consult it; the table is modelled, but no operation reads it.
- Parameters.SelectChallenges: takes the product `partitions * count_all` as exact, not as a wrapping `usize`. It returns the `LayerChallenges` directly, because the source's `Result` is always `Ok`.
- Parameters.SelectChallenges: requires that some count be sufficient. The source loops forever otherwise (see `Parameters.ZeroPartitionsNeverSuffice`).
- Parameters.SetupParams: requires the existence of a sufficient count for the size's table entries, because it inherits the precondition of `select_challenges`.
- DrGraph.BucketGraph.Parents: requires the node to fit a `u32` and, for sampled nodes, a degree of at least 1 and `node * (degree - 1) <= 2^54`. A degree of 0 stands for the `m - 1` underflow at drgraph.rs:153, which a checked build aborts on; here it is a precondition, not an `Abort`. The `u32` bound is the callers' promise (drgraph.rs:145); the source would truncate a larger index instead of failing. Both bounds hold for every node below the node count and below 2^32 of a graph that `New` accepts (`DrGraph.NewShape`). That covers every node of a base graph `StackedGraph::new` builds itself, whose node count is at most `u32::MAX`; a supplied base graph is taken as it is. The sampling follows the exact logarithm, which can differ from the source's `f64` one above 2^49 (see the `f64` line above).
- DrGraph.BucketGraph.New: returns `Err(TooManyMetagraphNodes)` whenever the exact product `nodes * (base_degree - 1)` exceeds 2^54. A build with overflow checks instead aborts on the multiplication when that product exceeds `u64::MAX`, and a build without them wraps (`DrGraph.BucketGraph.NewAsWritten`). The model does not include the checked build's multiplication abort.
- DrGraph.BucketGraph.CreateKey: requires at least one parent, for the `parents[0]` index at drgraph.rs:118, and every parent's 32-byte slice to lie inside the data, where the source would panic on the slice index.
- StackedGraph.StackedGraph.New: computes `(expansion_degree * nodes) as u64` with `% 2^64`. The product is exact for every input that reaches it.

## Findings

| source | as written | input that shows it | evidently intended | confidence | as-written member | corrected member |
|---|---|---|---|---|---|---|
| forest-digest/proof-params-id/storage-proofs/core/src/drgraph.rs:213-218 | `base_degree - 1` and `nodes as u64 * m_prime as u64` are computed in machine integers, so a release build wraps before the 2^54 test | `nodes = 2^62`, `base_degree = 5`: the product `2^64` wraps to 0 and the graph is accepted | reject whenever the exact product `nodes * (base_degree - 1)` exceeds 2^54 | not executed; `StackedGraph::new` bounds the nodes by `u32::MAX` first, where both guards agree (`DrGraph.NewAgreesWithinStackedRange`) | `DrGraph.NewAsWrittenAcceptsOversized` | `DrGraph.BucketGraph.New` |
