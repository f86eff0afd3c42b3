/** The receiving side: blocks are collected by digest, from the cache and from whatever responses arrive. */
module BlockPuller {
  import opened Wrappers
  import opened Bytes
  import opened Blocks
  import opened BlockPusher
  import opened FileBlockCache

  datatype Pull = Pull(hashList: seq<Hash>, blocks: map<Hash, seq<byte>>, missing: set<Hash>, requestIds: set<int>, failed: bool)

  const NewPull := Pull([], map[], {}, {}, false)

  function Elements<T>(s: seq<T>): set<T> {
    set x <- s
  }

  /** Acquired and missing digests make up the file, and every block stored has the digest it is stored under. */
  predicate Consistent(digest: seq<byte> -> Hash, p: Pull) {
    && p.blocks.Keys + p.missing == Elements(p.hashList)
    && p.blocks.Keys !! p.missing
    && forall h <- p.blocks :: digest(p.blocks[h]) == h
  }

  // ----- starting a pull

  type Lookup = Hash -> Option<seq<byte>>

  ghost predicate Checked(digest: seq<byte> -> Hash, lookup: Lookup) {
    forall h :: lookup(h).Some? ==> digest(lookup(h).value) == h
  }

  /** The list grows by the digests of the blocks; of all that are listed, those in the cache are taken from there. */
  function Started(p: Pull, blocks: seq<BlockInfo>, lookup: Lookup): Pull {
    var wanted := p.missing + Elements(p.hashList + Hashes(blocks));
    p.(hashList := p.hashList + Hashes(blocks),
       blocks := p.blocks + (map h | h in wanted && lookup(h).Some? :: lookup(h).value),
       missing := set h | h in wanted && lookup(h).None?)
  }

  /** One request per block that is missing, also for blocks with one digest. */
  function Requests(folder: string, path: string, blocks: seq<BlockInfo>, missing: set<Hash>, ids: nat -> int): (r: seq<Request>)
    ensures |r| <= |blocks|
  {
    if blocks == [] then []
    else
      var before := Requests(folder, path, blocks[..|blocks| - 1], missing, ids);
      var b := blocks[|blocks| - 1];
      if b.hash in missing then before + [Request(ids(|before|), folder, path, b.offset, b.size, b.hash)] else before
  }

  function Ids(requests: seq<Request>): set<int> {
    set q <- requests :: q.id
  }

  lemma {:induction false} StartedConsistent(digest: seq<byte> -> Hash, blocks: seq<BlockInfo>, lookup: Lookup)
    requires Checked(digest, lookup)
    ensures Consistent(digest, Started(NewPull, blocks, lookup))
  {
    assert [] + Hashes(blocks) == Hashes(blocks);
  }

  /** A missing block of the file is asked for with its own offset and size. */
  lemma {:induction false} RequestsCover(folder: string, path: string, blocks: seq<BlockInfo>, missing: set<Hash>, ids: nat -> int, b: BlockInfo)
    requires b in blocks && b.hash in missing
    ensures exists q <- Requests(folder, path, blocks, missing, ids) ::
              q.folder == folder && q.name == path && q.offset == b.offset && q.size == b.size && q.hash == b.hash
    decreases |blocks|
  {
    var init := blocks[..|blocks| - 1];
    var before := Requests(folder, path, init, missing, ids);
    if b in init {
      RequestsCover(folder, path, init, missing, ids, b);
    } else {
      assert b == blocks[|blocks| - 1];
      assert Request(ids(|before|), folder, path, b.offset, b.size, b.hash) in Requests(folder, path, blocks, missing, ids);
    }
  }

  lemma {:induction false} RequestsAreForBlocks(folder: string, path: string, blocks: seq<BlockInfo>, missing: set<Hash>, ids: nat -> int, q: Request)
    requires q in Requests(folder, path, blocks, missing, ids)
    ensures exists b <- blocks :: q.folder == folder && q.name == path && q.offset == b.offset && q.size == b.size && q.hash == b.hash
    ensures q.hash in missing
    decreases |blocks|
  {
    var init := blocks[..|blocks| - 1];
    if q in Requests(folder, path, init, missing, ids) {
      RequestsAreForBlocks(folder, path, init, missing, ids, q);
    } else {
      assert blocks[|blocks| - 1] in blocks;
    }
  }

  // ----- responses

  function Handled(digest: seq<byte> -> Hash, p: Pull, r: Response): Pull {
    if r.id !in p.requestIds then p
    else if r.code != NO_ERROR then p.(failed := true)
    else
      var hash := digest(r.data);
      if hash in p.missing then p.(blocks := p.blocks[hash := r.data], missing := p.missing - {hash}) else p
  }

  function HandledAll(digest: seq<byte> -> Hash, p: Pull, rs: seq<Response>): Pull
    decreases |rs|
  {
    if rs == [] then p else HandledAll(digest, Handled(digest, p, rs[0]), rs[1..])
  }

  /** Whatever arrives, the partition is kept, nothing acquired is lost or replaced, and nothing becomes missing. */
  lemma {:induction false} HandledKeeps(digest: seq<byte> -> Hash, p: Pull, rs: seq<Response>)
    requires Consistent(digest, p)
    ensures var p' := HandledAll(digest, p, rs);
            && Consistent(digest, p')
            && p'.hashList == p.hashList && p'.requestIds == p.requestIds && p'.missing <= p.missing
            && p.blocks.Keys <= p'.blocks.Keys && (forall h <- p.blocks :: p'.blocks[h] == p.blocks[h])
    decreases |rs|
  {
    if rs != [] {
      var next := Handled(digest, p, rs[0]);
      assert Consistent(digest, next) by {
        assert next.blocks.Keys + next.missing == p.blocks.Keys + p.missing;
      }
      HandledKeeps(digest, next, rs[1..]);
    }
  }

  /** Closing drops what was listed, acquired and missing; the requests sent stay known. */
  function Closed(p: Pull): Pull {
    p.(hashList := [], blocks := map[], missing := {})
  }

  // ----- the result

  /** The blocks in the order of the list, once none is missing. */
  function Result(p: Pull): Outcome<seq<byte>> {
    if p.missing != {} || exists h <- p.hashList :: h !in p.blocks then Thrown else Done(Flatten(Pieces(p)))
  }

  function Pieces(p: Pull): seq<seq<byte>>
    requires forall h <- p.hashList :: h in p.blocks
  {
    PiecesOf(p.hashList, p.blocks)
  }

  function PiecesOf(hashes: seq<Hash>, blocks: map<Hash, seq<byte>>): seq<seq<byte>>
    requires forall h <- hashes :: h in blocks
  {
    seq(|hashes|, i requires 0 <= i < |hashes| => assert hashes[i] in hashes; blocks[hashes[i]])
  }

  /** A completed pull is a stream of blocks with exactly the digests asked for, in their order. */
  lemma {:induction false} CompletedResult(digest: seq<byte> -> Hash, p: Pull)
    requires Consistent(digest, p)
    ensures Result(p).Done? <==> p.missing == {}
    ensures p.missing == {} ==>
              && (forall h <- p.hashList :: h in p.blocks)
              && Result(p) == Done(Flatten(Pieces(p)))
              && (forall i :: 0 <= i < |p.hashList| ==> digest(Pieces(p)[i]) == p.hashList[i])
  {
    if p.missing == {} {
      forall h | h in p.hashList ensures h in p.blocks {
        assert h in Elements(p.hashList);
      }
    }
  }

  // ----- progress

  function Int32(n: int): int {
    (n + 0x8000_0000) % 0x1_0000_0000 - 0x8000_0000
  }

  /** Progress as computed: the products are 32 bits wide; `None` is a division by zero. */
  function Progress(acquired: nat, missing: nat): Option<real> {
    if missing == 0 then Some(1.0)
    else
      var total := Int32((acquired + missing) * BLOCK_SIZE);
      if total == 0 then None else Some(Int32(acquired * BLOCK_SIZE) as real / total as real)
  }

  predicate InUnit(x: Option<real>) {
    x.Some? && 0.0 <= x.value <= 1.0
  }

  const PROGRESS_LIMIT: nat := 0x8000_0000 / BLOCK_SIZE

  lemma {:induction false} ProgressBelowLimit(acquired: nat, missing: nat)
    requires acquired + missing < PROGRESS_LIMIT
    ensures var x := Progress(acquired, missing);
            && InUnit(x) && (x == Some(1.0) <==> missing == 0)
            && (missing > 0 ==> x.value < Progress(acquired + 1, missing - 1).value)
  {
    var total := acquired + missing;
    if missing > 0 {
      Ratio(acquired, total);
      if missing > 1 {
        Ratio(acquired + 1, total);
        Larger(acquired as real, (acquired + 1) as real, total as real);
      }
    }
  }

  lemma {:induction false} Ratio(a: nat, n: nat)
    requires a < n < PROGRESS_LIMIT
    ensures Progress(a, n - a) == Some(a as real / n as real)
    ensures 0.0 <= a as real / n as real < 1.0
  {
    var b := BLOCK_SIZE as real;
    assert Int32(n * BLOCK_SIZE) == n * BLOCK_SIZE && Int32(a * BLOCK_SIZE) == a * BLOCK_SIZE;
    assert (a * BLOCK_SIZE) as real == a as real * b && (n * BLOCK_SIZE) as real == n as real * b;
    Larger(a as real, n as real, n as real);
  }

  lemma {:induction false} Larger(x: real, y: real, n: real)
    requires 0.0 <= x < y && 0.0 < n
    ensures 0.0 <= x / n < y / n
  {
  }

  /** At the limit and above, one of the stages between nothing and everything acquired reports a progress outside the
      unit interval, or none. */
  lemma {:induction false} ProgressLimitExact(n: nat)
    ensures n < PROGRESS_LIMIT <==> forall a: nat, m: nat :: a + m == n ==> InUnit(Progress(a, m))
  {
    if n < PROGRESS_LIMIT {
      forall a: nat, m: nat | a + m == n ensures InUnit(Progress(a, m)) {
        ProgressBelowLimit(a, m);
      }
    } else {
      var a := BadStage(n);
      assert !InUnit(Progress(a, n - a));
    }
  }

  lemma {:induction false} BadStage(n: nat) returns (a: nat)
    requires n >= PROGRESS_LIMIT
    ensures a <= n && !InUnit(Progress(a, n - a))
  {
    var rest := n % (2 * PROGRESS_LIMIT);
    a := if rest == 0 then 0 else if rest >= PROGRESS_LIMIT then 1 else rest + 1;
    Wraps(n);
    Wraps(a);
    BadRatio(a, n - a);
  }

  lemma {:induction false} BadRatio(a: nat, m: nat)
    requires m > 0
    requires var (received, total) := (Int32(a * BLOCK_SIZE), Int32((a + m) * BLOCK_SIZE));
             total == 0 || (total < 0 < received) || (total > 0 && (received < 0 || received > total))
    ensures !InUnit(Progress(a, m))
  {
    var (received, total) := (Int32(a * BLOCK_SIZE), Int32((a + m) * BLOCK_SIZE));
    hide Int32;
    if total < 0 {
      Negative(received as real, total as real);
    } else if total > 0 {
      Outside(received as real, total as real);
    }
  }

  lemma {:induction false} Negative(x: real, n: real)
    requires 0.0 < x && n < 0.0
    ensures x / n < 0.0
  {
  }

  lemma {:induction false} Outside(x: real, n: real)
    requires 0.0 < n && (x < 0.0 || x > n)
    ensures x / n < 0.0 || x / n > 1.0
  {
  }

  /** The wrapped product has a period of twice the limit. */
  lemma {:induction false} Wraps(n: nat)
    ensures var rest := n % (2 * PROGRESS_LIMIT);
            Int32(n * BLOCK_SIZE) == (if rest < PROGRESS_LIMIT then rest else rest - 2 * PROGRESS_LIMIT) * BLOCK_SIZE
  {
  }

  // ----- the puller

  /** What the cache has given when the codes in `pending` have not been looked up yet. */
  ghost function Taken(wanted: set<Hash>, pending: set<Hash>, lookup: Lookup): map<Hash, seq<byte>> {
    map h | h in wanted && h !in pending && lookup(h).Some? :: lookup(h).value
  }

  ghost function StillMissing(wanted: set<Hash>, pending: set<Hash>, lookup: Lookup): set<Hash> {
    set h | h in wanted && (h in pending || lookup(h).None?)
  }

  lemma {:induction false} TakesOne(wanted: set<Hash>, pending: set<Hash>, lookup: Lookup, hash: Hash, blocks: map<Hash, seq<byte>>)
    requires hash in pending && pending <= wanted
    ensures var rest := pending - {hash};
            if lookup(hash).Some? then
              && blocks + Taken(wanted, rest, lookup) == (blocks + Taken(wanted, pending, lookup))[hash := lookup(hash).value]
              && StillMissing(wanted, rest, lookup) == StillMissing(wanted, pending, lookup) - {hash}
            else
              Taken(wanted, rest, lookup) == Taken(wanted, pending, lookup) && StillMissing(wanted, rest, lookup) == StillMissing(wanted, pending, lookup)
    ensures pending - {hash} <= StillMissing(wanted, pending - {hash}, lookup) <= wanted
  {
  }

  class BlockPuller {
    const digest: seq<byte> -> Hash
    const blockCache: FileBlockCache
    var hashList: seq<Hash>
    var blocksByHash: map<Hash, seq<byte>>
    var missingHashes: set<Hash>
    var requestIds: set<int>
    var error: bool

    constructor (digest: seq<byte> -> Hash, blockCache: FileBlockCache)
      requires blockCache.digest == digest
      ensures this.digest == digest && this.blockCache == blockCache && State() == NewPull
    {
      this.digest, this.blockCache := digest, blockCache;
      hashList, blocksByHash, missingHashes, requestIds, error := [], map[], {}, {}, false;
    }

    function State(): Pull
      reads this
    {
      Pull(hashList, blocksByHash, missingHashes, requestIds, error)
    }

    function Cached(readable: Hash -> bool): Lookup
      reads blockCache
    {
      var files := blockCache.files;
      h => Pulled(digest, files, h, true, readable(h))
    }

    /** Starts the pull of a file: what the cache has is taken from it, the rest is asked for. When a request
        cannot be sent, after `sends` of them, everything is cleared and the exception passed on. */
    method PullBlocks(folder: string, path: string, blocks: seq<BlockInfo>, shared: bool, readable: Hash -> bool, ids: nat -> int, sends: nat)
      returns (outcome: Outcome<seq<Request>>)
      requires blockCache.digest == digest
      modifies this, blockCache
      ensures !shared ==> outcome == Thrown && State() == old(State())
      ensures shared ==>
                var started := Started(old(State()), blocks, old(Cached(readable)));
                var requests := Requests(folder, path, blocks, started.missing, ids);
                if |requests| <= sends then
                  outcome == Done(requests) && State() == started.(requestIds := old(requestIds) + Ids(requests))
                else
                  outcome == Thrown && State() == NewPull.(requestIds := requestIds, failed := old(error))
    {
      if !shared {
        return Thrown;
      }
      hashList := hashList + Hashes(blocks);
      missingHashes := missingHashes + Elements(hashList);
      TakeCached(readable);
      assert State() == Started(old(State()), blocks, old(Cached(readable)));
      hide Started, Cached, Requests;
      outcome := SendRequests(folder, path, blocks, ids, sends);
    }

    method SendRequests(folder: string, path: string, blocks: seq<BlockInfo>, ids: nat -> int, sends: nat)
      returns (outcome: Outcome<seq<Request>>)
      modifies this
      ensures var requests := Requests(folder, path, blocks, old(missingHashes), ids);
              if |requests| <= sends then
                outcome == Done(requests) && State() == old(State()).(requestIds := old(requestIds) + Ids(requests))
              else
                outcome == Thrown && State() == NewPull.(requestIds := requestIds, failed := old(error))
    {
      hide Requests;
      var requests: seq<Request> := [];
      var i := 0;
      NoRequests(folder, path, blocks, missingHashes, ids);
      while i < |blocks|
        invariant 0 <= i <= |blocks|
        invariant requests == Requests(folder, path, blocks[..i], missingHashes, ids) && |requests| <= sends
        invariant State() == old(State()).(requestIds := old(requestIds) + Ids(requests))
      {
        var block := blocks[i];
        RequestsNext(folder, path, blocks, missingHashes, ids, i);
        if block.hash in missingHashes {
          var id := ids(|requests|);
          requestIds := requestIds + {id};
          if |requests| == sends {
            RequestsGrow(folder, path, blocks, missingHashes, ids, i + 1);
            Close();
            return Thrown;
          }
          requests := requests + [Request(id, folder, path, block.offset, block.size, block.hash)];
        }
        i := i + 1;
      }
      assert blocks[..i] == blocks;
      outcome := Done(requests);
    }

    method TakeCached(readable: Hash -> bool)
      requires blockCache.digest == digest
      modifies this`blocksByHash, this`missingHashes, blockCache
      ensures var lookup := old(Cached(readable));
              && blocksByHash == old(blocksByHash) + (map h | h in old(missingHashes) && lookup(h).Some? :: lookup(h).value)
              && missingHashes == set h | h in old(missingHashes) && lookup(h).None?
    {
      var pending := missingHashes;
      ghost var lookup := Cached(readable);
      while pending != {}
        invariant pending <= missingHashes <= old(missingHashes)
        invariant forall h <- pending :: Pulled(digest, blockCache.files, h, true, readable(h)) == lookup(h)
        invariant missingHashes == StillMissing(old(missingHashes), pending, lookup)
        invariant blocksByHash == old(blocksByHash) + Taken(old(missingHashes), pending, lookup)
        decreases pending
      {
        var hash :| hash in pending;
        forall h | h in pending ensures h != hash ==>
            Pulled(digest, AfterPull(digest, blockCache.files, hash, true, readable(hash)), h, true, readable(h)) == lookup(h) {
          PullsApart(digest, blockCache.files, hash, h, readable);
        }
        TakesOne(old(missingHashes), pending, lookup, hash, old(blocksByHash));
        hide Taken, StillMissing, AfterPull, Pulled;
        var block := blockCache.PullBlock(hash, readable(hash));
        pending := pending - {hash};
        if block.Some? {
          blocksByHash := blocksByHash[hash := block.value];
          missingHashes := missingHashes - {hash};
        }
      }
    }

    /** One response, taken under the lock; the cache keeps what arrives even if it is not needed. */
    method HandleResponse(response: Response)
      requires blockCache.digest == digest
      modifies this, blockCache`jobs
      ensures State() == Handled(digest, old(State()), response)
      ensures response.id in old(requestIds) && response.code == NO_ERROR ==>
                blockCache.jobs == old(blockCache.jobs) + [Store(digest(response.data), response.data)]
    {
      if response.id !in requestIds {
        return;
      }
      if response.code != NO_ERROR {
        error := true;
        return;
      }
      var hash := blockCache.PushBlock(response.data);
      if hash in missingHashes {
        missingHashes := missingHashes - {hash};
        blocksByHash := blocksByHash[hash := response.data];
      }
    }

    method GetProgress() returns (progress: Option<real>)
      ensures progress == Progress(|blocksByHash|, |missingHashes|)
      ensures missingHashes == {} ==> progress == Some(1.0)
      ensures |blocksByHash| + |missingHashes| < PROGRESS_LIMIT ==> InUnit(progress) && (progress == Some(1.0) <==> missingHashes == {})
    {
      if |blocksByHash| + |missingHashes| < PROGRESS_LIMIT {
        ProgressBelowLimit(|blocksByHash|, |missingHashes|);
      }
      if missingHashes == {} {
        return Some(1.0);
      }
      var received := Int32(|blocksByHash| * BLOCK_SIZE);
      var total := Int32((|blocksByHash| + |missingHashes|) * BLOCK_SIZE);
      progress := if total == 0 then None else Some(received as real / total as real);
    }

    method GetInputStream() returns (r: Outcome<seq<byte>>)
      ensures r == Result(State())
    {
      if missingHashes != {} {
        return Thrown;
      }
      var content: seq<byte> := [];
      var i := 0;
      while i < |hashList|
        invariant 0 <= i <= |hashList|
        invariant forall h <- hashList[..i] :: h in blocksByHash
        invariant content == Flatten(PiecesOf(hashList[..i], blocksByHash))
      {
        var hash := hashList[i];
        if hash !in blocksByHash {
          return Thrown;
        }
        assert hashList[..i + 1] == hashList[..i] + [hash];
        FlattenSnoc(PiecesOf(hashList[..i], blocksByHash), blocksByHash[hash]);
        assert PiecesOf(hashList[..i + 1], blocksByHash) == PiecesOf(hashList[..i], blocksByHash) + [blocksByHash[hash]];
        content := content + blocksByHash[hash];
        i := i + 1;
      }
      assert hashList[..i] == hashList;
      r := Done(content);
    }

    method Close()
      modifies this`hashList, this`blocksByHash, this`missingHashes
      ensures State() == Closed(old(State()))
    {
      missingHashes := {};
      hashList := [];
      blocksByHash := map[];
    }
  }

  lemma {:induction false} NoRequests(folder: string, path: string, blocks: seq<BlockInfo>, missing: set<Hash>, ids: nat -> int)
    ensures Requests(folder, path, blocks[..0], missing, ids) == []
  {
  }

  lemma {:induction false} RequestsNext(folder: string, path: string, blocks: seq<BlockInfo>, missing: set<Hash>, ids: nat -> int, i: nat)
    requires i < |blocks|
    ensures var before := Requests(folder, path, blocks[..i], missing, ids);
            var b := blocks[i];
            Requests(folder, path, blocks[..i + 1], missing, ids)
            == if b.hash in missing then before + [Request(ids(|before|), folder, path, b.offset, b.size, b.hash)] else before
  {
    assert blocks[..i + 1][..i] == blocks[..i];
  }

  lemma {:induction false} RequestsGrow(folder: string, path: string, blocks: seq<BlockInfo>, missing: set<Hash>, ids: nat -> int, i: nat)
    requires i <= |blocks|
    ensures |Requests(folder, path, blocks[..i], missing, ids)| <= |Requests(folder, path, blocks, missing, ids)|
    decreases |blocks| - i
  {
    if i < |blocks| {
      RequestsNext(folder, path, blocks, missing, ids, i);
      RequestsGrow(folder, path, blocks, missing, ids, i + 1);
    } else {
      assert blocks[..i] == blocks;
    }
  }
}
