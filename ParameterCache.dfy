/** The cache key of a parameter set, and the metadata stored beside it. */
module ParameterCache {
  import opened Primitives
  import Hex
  import Utf8

  /** `ParameterSetMetadata` for a parameter type `P`: its identifier and
      its sector size. */
  datatype Metadata<-P> = Metadata(identifier: P -> string, sectorSize: P -> U64)

  /** `CacheEntryMetadata`. */
  datatype CacheEntryMetadata = CacheEntryMetadata(sectorSize: U64)

  /** `cache_meta`: records the parameters' sector size. */
  function CacheMeta<P>(meta: Metadata<P>, pubParams: P): (r: CacheEntryMetadata)
    ensures r.sectorSize == meta.sectorSize(pubParams)
  {
    CacheEntryMetadata(meta.sectorSize(pubParams))
  }

  /** The SHA-256 digest of the identifier's UTF-8 bytes. */
  function IdentifierDigest(identifier: string, crypto: Crypto): (digest: seq<Byte>)
    ensures |digest| == 32
  {
    crypto.sha256(Utf8.Encode(identifier))
  }

  /** `cache_identifier`: the prefix, a dash, and the digest of the
      identifier in lower-case hexadecimal. */
  function CacheIdentifier<P>(cachePrefix: string, meta: Metadata<P>, pubParams: P,
                              crypto: Crypto): (key: string)
    ensures |key| == |cachePrefix| + 1 + 64
    ensures key[..|cachePrefix|] == cachePrefix && key[|cachePrefix|] == '-'
    ensures forall i :: |cachePrefix| < i < |key| ==> Hex.IsLowerHex(key[i])
  {
    cachePrefix + "-" + Hex.ToHex(IdentifierDigest(meta.identifier(pubParams), crypto))
  }

  /** The hexadecimal part of the key reads back as the 32-byte digest. */
  lemma CacheIdentifierDigest<P>(cachePrefix: string, meta: Metadata<P>, pubParams: P, crypto: Crypto)
    ensures var key := CacheIdentifier(cachePrefix, meta, pubParams, crypto);
            Hex.FromHex(key[|cachePrefix| + 1..])
            == Some(IdentifierDigest(meta.identifier(pubParams), crypto))
  {
    var digest := IdentifierDigest(meta.identifier(pubParams), crypto);
    var key := CacheIdentifier(cachePrefix, meta, pubParams, crypto);
    assert key[|cachePrefix| + 1..] == Hex.ToHex(digest);
    Hex.HexRoundTrip(digest);
  }

  /** The key sees the parameters only through their identifier: equal
      identifiers give equal keys, whatever else differs. */
  lemma CacheIdentifierOnlyThroughIdentifier<P, Q>(cachePrefix: string, meta: Metadata<P>, p: P,
                                                   metaQ: Metadata<Q>, q: Q, crypto: Crypto)
    requires meta.identifier(p) == metaQ.identifier(q)
    ensures CacheIdentifier(cachePrefix, meta, p, crypto) == CacheIdentifier(cachePrefix, metaQ, q, crypto)
  {
  }

  /** Under one prefix, equal keys mean the identifiers' digests agree. */
  lemma EqualKeysEqualDigests<P>(cachePrefix: string, meta: Metadata<P>, p: P, q: P, crypto: Crypto)
    requires CacheIdentifier(cachePrefix, meta, p, crypto) == CacheIdentifier(cachePrefix, meta, q, crypto)
    ensures IdentifierDigest(meta.identifier(p), crypto) == IdentifierDigest(meta.identifier(q), crypto)
  {
    CacheIdentifierDigest(cachePrefix, meta, p, crypto);
    CacheIdentifierDigest(cachePrefix, meta, q, crypto);
  }
}
