/**
 The chained block hash (src/models/common/prefix.rs:8-16): two paths collide only where one step of the chain
 does, so it is enough that the hash function tells apart what it is applied to.
 */
module Hashing {
  import opened Network
  import opened Allocator
  import opened CacheState
  import opened Contents
  import opened CrossNode

  /** The chained hash before the last block of a path. */
  function ParentHash(cfg: Config, path: seq<Token>): Hash
    requires Aligned(path)
  {
    HashAt(cfg, path, |path| / BLOCK_SIZE - 1)
  }

  /** With every path, the path without its last block. */
  ghost predicate PrefixClosed(paths: set<seq<Token>>) {
    forall p :: p in paths && Aligned(p) && |p| > BLOCK_SIZE ==> p[..|p| - BLOCK_SIZE] in paths
  }

  /** The hash function tells apart what it is applied to on these paths, and never gives the seed. */
  ghost predicate StepsApart(cfg: Config, paths: set<seq<Token>>) {
    && (forall p, q | p in paths && q in paths && Aligned(p) && Aligned(q) ::
          cfg.hash(ParentHash(cfg, p), LastChunk(p)) == cfg.hash(ParentHash(cfg, q), LastChunk(q)) ==>
            ParentHash(cfg, p) == ParentHash(cfg, q) && LastChunk(p) == LastChunk(q))
    && (forall p | p in paths && Aligned(p) :: cfg.hash(ParentHash(cfg, p), LastChunk(p)) != PREFIX_HASH_SEED)
  }

  /** The hash of a path is one step on from the hash of the path without its last block. */
  lemma OneLink(cfg: Config, path: seq<Token>)
    requires Aligned(path)
    ensures |path| >= BLOCK_SIZE
    ensures PathHash(cfg, path) == cfg.hash(ParentHash(cfg, path), LastChunk(path))
    ensures |path| > BLOCK_SIZE ==> var front := path[..|path| - BLOCK_SIZE];
      Aligned(front) && ParentHash(cfg, path) == PathHash(cfg, front)
    ensures |path| == BLOCK_SIZE ==> ParentHash(cfg, path) == PREFIX_HASH_SEED
    ensures |path| > BLOCK_SIZE ==> path == path[..|path| - BLOCK_SIZE] + LastChunk(path)
    ensures |path| == BLOCK_SIZE ==> path == LastChunk(path)
  {
    var last := |path| / BLOCK_SIZE - 1;
    assert (last + 1) * BLOCK_SIZE == |path|;
    assert LastChunk(path) == Chunk(path, last);
    if |path| > BLOCK_SIZE {
      var front := path[..|path| - BLOCK_SIZE];
      var n := |path| / BLOCK_SIZE - 1;
      assert path[..n * BLOCK_SIZE] == front[..n * BLOCK_SIZE];
      HashOfPrefix(cfg, path, front, n);
    }
  }

  lemma {:induction false} SamePath(cfg: Config, paths: set<seq<Token>>, p: seq<Token>, q: seq<Token>)
    requires PrefixClosed(paths) && StepsApart(cfg, paths) && p in paths && q in paths && Aligned(p) && Aligned(q)
    requires PathHash(cfg, p) == PathHash(cfg, q)
    ensures p == q
    decreases |p|
  {
    hide PathHash, ParentHash, LastChunk, Aligned;
    OneLink(cfg, p);
    OneLink(cfg, q);
    if |p| > BLOCK_SIZE {
      OneLink(cfg, p[..|p| - BLOCK_SIZE]);
    }
    if |q| > BLOCK_SIZE {
      OneLink(cfg, q[..|q| - BLOCK_SIZE]);
    }
    if |p| > BLOCK_SIZE && |q| > BLOCK_SIZE {
      SamePath(cfg, paths, p[..|p| - BLOCK_SIZE], q[..|q| - BLOCK_SIZE]);
    }
  }

  /** What every result about contents and reuse asks of the hash, from what one step of it does. */
  lemma StepsApartIsEnough(cfg: Config, paths: set<seq<Token>>)
    requires PrefixClosed(paths) && StepsApart(cfg, paths)
    ensures HashesApart(cfg, paths) && NoCollision(cfg, paths)
  {
    forall p, q | p in paths && q in paths && Aligned(p) && Aligned(q) && PathHash(cfg, p) == PathHash(cfg, q)
      ensures p == q
    {
      SamePath(cfg, paths, p, q);
    }
  }
}
