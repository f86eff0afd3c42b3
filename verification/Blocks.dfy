/** Blocks, and the digest of a list of them. */
module Blocks {
  import opened Wrappers

  /** A digest as the program handles it: the hexadecimal text of a SHA-256 value. */
  type Hash = string

  const BLOCK_SIZE: nat := 128 * 1024

  datatype BlockInfo = BlockInfo(hash: Hash, offset: nat, size: nat)

  function Hashes(blocks: seq<BlockInfo>): seq<Hash> {
    seq(|blocks|, i requires 0 <= i < |blocks| => blocks[i].hash)
  }

  function HashBlocks(digest: string -> Hash, blocks: seq<BlockInfo>): Hash {
    digest(Join(",", Hashes(blocks)))
  }

  predicate IsDigest(hash: Hash) {
    hash != "" && ',' !in hash
  }

  lemma {:induction false} JoinedInjective(a: seq<Hash>, b: seq<Hash>)
    requires (forall h <- a :: IsDigest(h)) && forall h <- b :: IsDigest(h)
    requires Join(",", a) == Join(",", b)
    ensures a == b
    decreases |a|
  {
    if a == [] || b == [] {
      assert a != [] ==> IsDigest(a[0]);
      assert b != [] ==> IsDigest(b[0]);
    } else {
      var (x, y) := (a[0], b[0]);
      NoLonger(a, b);
      NoLonger(b, a);
      FirstField(a);
      FirstField(b);
      if |a| > 1 {
        JoinedInjective(a[1..], b[1..]);
        assert a == [x] + a[1..] && b == [y] + b[1..];
      }
    }
  }

  lemma {:induction false} NoLonger(a: seq<Hash>, b: seq<Hash>)
    requires a != [] && b != [] && Join(",", a) == Join(",", b)
    requires IsDigest(a[0]) && IsDigest(b[0])
    ensures |b[0]| <= |a[0]|
  {
    FirstField(a);
    FirstField(b);
    if |a[0]| < |b[0]| {
      assert false;
    }
  }

  lemma {:induction false} FirstField(a: seq<Hash>)
    requires a != []
    ensures var j := Join(",", a);
            && |a[0]| <= |j| && j[..|a[0]|] == a[0]
            && (|a| == 1 <==> |j| == |a[0]|)
            && (|a| > 1 ==> j[|a[0]|] == ',' && j[|a[0]| + 1..] == Join(",", a[1..]))
  {
    if |a| > 1 {
      assert Join(",", a) == a[0] + ("," + Join(",", a[1..]));
    }
  }

  /** Two files have one hash exactly when they have the same blocks, as far as the digest tells their texts apart. */
  lemma {:induction false} HashTellsBlocks(digest: string -> Hash, a: seq<BlockInfo>, b: seq<BlockInfo>)
    requires (forall i <- a :: IsDigest(i.hash)) && forall i <- b :: IsDigest(i.hash)
    requires digest(Join(",", Hashes(a))) == digest(Join(",", Hashes(b))) ==> Join(",", Hashes(a)) == Join(",", Hashes(b))
    ensures HashBlocks(digest, a) == HashBlocks(digest, b) <==> Hashes(a) == Hashes(b)
  {
    if HashBlocks(digest, a) == HashBlocks(digest, b) {
      JoinedInjective(Hashes(a), Hashes(b));
    }
  }
}
