/** A whole transfer: a stream is cut, announced, pulled and put together again. */
module BlockTransfer {
  import opened Wrappers
  import opened Bytes
  import opened Blocks
  import opened BlockPusher
  import opened BlockPuller

  /** Among the bytes offered, only a block of the stream has the digest of that block. */
  ghost predicate Distinguishes(digest: seq<byte> -> Hash, content: seq<byte>, blocks: seq<BlockInfo>, offered: set<seq<byte>>)
    requires forall b <- blocks :: b.offset + b.size <= |content|
  {
    forall b, d :: b in blocks && d in offered && digest(d) == b.hash ==> d == Slice(content, b)
  }

  /** All data a run offers: what the cache gives for the digests of the file, and what the responses carry. */
  ghost function Offered(blocks: seq<BlockInfo>, lookup: Lookup, rs: seq<Response>): set<seq<byte>> {
    (set b <- blocks | lookup(b.hash).Some? :: lookup(b.hash).value) + (set r <- rs :: r.data)
  }

  /** What a puller holds is what the cache or a response gave it. */
  lemma {:induction false} HeldWasOffered(digest: seq<byte> -> Hash, p: Pull, rs: seq<Response>, h: Hash)
    requires h in HandledAll(digest, p, rs).blocks
    ensures var d := HandledAll(digest, p, rs).blocks[h];
            (h in p.blocks && p.blocks[h] == d) || exists r <- rs :: r.data == d
    decreases |rs|
  {
    if rs != [] {
      HeldWasOffered(digest, Handled(digest, p, rs[0]), rs[1..], h);
    }
  }

  /** Whatever responses arrive, in whatever order, a completed pull is the stream that was cut, provided no
      data offered has the digest of a block without being that block. */
  lemma {:induction false} CompletedIsContent(digest: seq<byte> -> Hash, content: seq<byte>, blocks: seq<BlockInfo>, lookup: Lookup,
                                              ids: set<int>, rs: seq<Response>)
    requires CutFrom(digest, content, 0, blocks) && Checked(digest, lookup)
    requires forall b <- blocks :: b.offset + b.size <= |content|
    requires Distinguishes(digest, content, blocks, Offered(blocks, lookup, rs))
    ensures var p := HandledAll(digest, Started(NewPull, blocks, lookup).(requestIds := ids), rs);
            (Result(p).Done? <==> p.missing == {}) && (p.missing == {} ==> Result(p) == Done(content))
  {
    var p0 := Started(NewPull, blocks, lookup).(requestIds := ids);
    var p := HandledAll(digest, p0, rs);
    StartedConsistent(digest, blocks, lookup);
    assert Consistent(digest, p0) by { assert Consistent(digest, Started(NewPull, blocks, lookup)); }
    assert p0.hashList == Hashes(blocks) by { assert [] + Hashes(blocks) == Hashes(blocks); }
    HandledKeeps(digest, p0, rs);
    CompletedResult(digest, p);
    if p.missing == {} {
      hide HandledAll, Started, Consistent, CutFrom;
      forall i | 0 <= i < |blocks| ensures Pieces(p)[i] == Slice(content, blocks[i]) {
        var b := blocks[i];
        var d := Pieces(p)[i];
        assert b in blocks && p.hashList[i] == b.hash && digest(d) == b.hash;
        HeldWasOffered(digest, p0, rs, b.hash);
        if b.hash in p0.blocks && p0.blocks[b.hash] == d {
          StartedFromCache(blocks, lookup, ids, b.hash);
          assert d in Offered(blocks, lookup, rs);
        }
      }
      assert Pieces(p) == Slices(content, blocks);
      CutCovers(digest, content, 0, blocks);
      assert content[0..] == content;
    }
  }

  lemma {:induction false} StartedFromCache(blocks: seq<BlockInfo>, lookup: Lookup, ids: set<int>, h: Hash)
    requires h in Started(NewPull, blocks, lookup).(requestIds := ids).blocks
    ensures lookup(h) == Some(Started(NewPull, blocks, lookup).(requestIds := ids).blocks[h])
  {
  }

  /** A response with the right bytes, at any time, makes its block no longer missing. */
  lemma {:induction false} AnswerAcquires(digest: seq<byte> -> Hash, p: Pull, rs: seq<Response>, r: Response)
    requires r in rs && r.id in p.requestIds && r.code == NO_ERROR
    ensures digest(r.data) !in HandledAll(digest, p, rs).missing
    decreases |rs|
  {
    var next := Handled(digest, p, rs[0]);
    if r == rs[0] {
      MissingShrinks(digest, next, rs[1..]);
    } else {
      assert r in rs[1..];
      AnswerAcquires(digest, next, rs[1..], r);
    }
  }

  lemma {:induction false} MissingShrinks(digest: seq<byte> -> Hash, p: Pull, rs: seq<Response>)
    ensures HandledAll(digest, p, rs).missing <= p.missing
    decreases |rs|
  {
    if rs != [] {
      MissingShrinks(digest, Handled(digest, p, rs[0]), rs[1..]);
    }
  }

  /** End to end: once every request has been answered by the sender, in any order and among any other responses,
      nothing is missing, so the stream comes out exactly. */
  lemma {:induction false} TransferComplete(digest: seq<byte> -> Hash, content: seq<byte>, blocks: seq<BlockInfo>, lookup: Lookup,
                                            folder: string, path: string, ids: nat -> int, rs: seq<Response>)
    requires CutFrom(digest, content, 0, blocks) && Checked(digest, lookup)
    requires forall b <- blocks :: b.offset + b.size <= |content|
    requires Distinguishes(digest, content, blocks, Offered(blocks, lookup, rs))
    requires var requests := Requests(folder, path, blocks, Started(NewPull, blocks, lookup).missing, ids);
             forall q <- requests :: Answer(digest, content, folder, path, q).Some? && Answer(digest, content, folder, path, q).value in rs
    ensures var p0 := Started(NewPull, blocks, lookup);
            var requests := Requests(folder, path, blocks, p0.missing, ids);
            Result(HandledAll(digest, p0.(requestIds := Ids(requests)), rs)) == Done(content)
  {
    var started := Started(NewPull, blocks, lookup);
    var requests := Requests(folder, path, blocks, started.missing, ids);
    var p0 := started.(requestIds := Ids(requests));
    var p := HandledAll(digest, p0, rs);
    CompletedIsContent(digest, content, blocks, lookup, Ids(requests), rs);
    MissingShrinks(digest, p0, rs);
    hide HandledAll, CutFrom, Distinguishes, Requests;
    if h :| h in p.missing {
      assert h in started.missing;
      var b := BlockOf(blocks, lookup, h);
      RequestsCover(folder, path, blocks, started.missing, ids, b);
      var q :| q in requests && q.folder == folder && q.name == path && q.offset == b.offset && q.size == b.size && q.hash == b.hash;
      CutAnswered(digest, content, blocks, b);
      var r := Answer(digest, content, folder, path, q).value;
      assert r == Response(q.id, NO_ERROR, Slice(content, b)) && digest(r.data) == h by {
        CutInside(digest, content, 0, blocks);
      }
      AnswerAcquires(digest, p0, rs, r);
    }
  }

  lemma {:induction false} BlockOf(blocks: seq<BlockInfo>, lookup: Lookup, h: Hash) returns (b: BlockInfo)
    requires h in Started(NewPull, blocks, lookup).missing
    ensures b in blocks && b.hash == h
  {
    assert h in Hashes(blocks) by {
      assert [] + Hashes(blocks) == Hashes(blocks);
    }
    hide Started;
    b := WithHash(blocks, h);
  }

  lemma {:induction false} WithHash(blocks: seq<BlockInfo>, h: Hash) returns (b: BlockInfo)
    requires h in Hashes(blocks)
    ensures b in blocks && b.hash == h
  {
    var i :| 0 <= i < |Hashes(blocks)| && Hashes(blocks)[i] == h;
    b := blocks[i];
  }

  // ----- a puller that is used again

  /** A response that is taken in carries data with this digest. */
  predicate Arrives(digest: seq<byte> -> Hash, ids: set<int>, rs: seq<Response>, h: Hash) {
    exists r <- rs :: r.id in ids && r.code == NO_ERROR && digest(r.data) == h
  }

  /** Exactly what arrives stops being missing. */
  lemma {:induction false} MissingExactly(digest: seq<byte> -> Hash, p: Pull, rs: seq<Response>, h: Hash)
    ensures h in HandledAll(digest, p, rs).missing <==> h in p.missing && !Arrives(digest, p.requestIds, rs, h)
    decreases |rs|
  {
    if rs != [] {
      MissingExactly(digest, Handled(digest, p, rs[0]), rs[1..], h);
      assert forall r :: r in rs <==> r == rs[0] || r in rs[1..];
    }
  }

  /** Whatever is listed is held or missing, and what is held has the digest it is held under. */
  ghost predicate Covered(digest: seq<byte> -> Hash, p: Pull) {
    Elements(p.hashList) <= p.blocks.Keys + p.missing && forall h <- p.blocks :: digest(p.blocks[h]) == h
  }

  lemma {:induction false} HandledCovers(digest: seq<byte> -> Hash, p: Pull, rs: seq<Response>)
    requires Covered(digest, p)
    ensures Covered(digest, HandledAll(digest, p, rs)) && HandledAll(digest, p, rs).hashList == p.hashList
    decreases |rs|
  {
    if rs != [] {
      HandledCovers(digest, Handled(digest, p, rs[0]), rs[1..]);
    }
  }

  /** All data that is offered to a puller in the state `p`, with what it holds already. */
  ghost function OfferedAgain(p: Pull, hashes: seq<Hash>, lookup: Lookup, rs: seq<Response>): set<seq<byte>> {
    p.blocks.Values + (set h <- hashes | lookup(h).Some? :: lookup(h).value) + (set r <- rs :: r.data)
  }

  /** The state of a puller that has pulled `first`, or part of it, after a pull of a second file and some responses. */
  function Again(digest: seq<byte> -> Hash, p: Pull, blocks: seq<BlockInfo>, lookup: Lookup, ids: set<int>, rs: seq<Response>): Pull {
    HandledAll(digest, Started(p, blocks, lookup).(requestIds := ids), rs)
  }

  /** A second pull waits for the blocks of both files: it is complete exactly when every digest on either list has been
      given by the cache or has arrived in a response since it was started. */
  lemma {:induction false} SecondPullCompletes(digest: seq<byte> -> Hash, p: Pull, blocks: seq<BlockInfo>, lookup: Lookup, ids: set<int>,
                                               rs: seq<Response>)
    requires Consistent(digest, p) && Checked(digest, lookup)
    ensures Covered(digest, Again(digest, p, blocks, lookup, ids, rs))
    ensures Again(digest, p, blocks, lookup, ids, rs).hashList == p.hashList + Hashes(blocks)
    ensures Result(Again(digest, p, blocks, lookup, ids, rs)).Done?
            <==> forall h <- p.hashList + Hashes(blocks) :: lookup(h).Some? || Arrives(digest, ids, rs, h)
  {
    var start := Started(p, blocks, lookup).(requestIds := ids);
    var end := HandledAll(digest, start, rs);
    assert Covered(digest, start);
    HandledCovers(digest, start, rs);
    forall h ensures h in end.missing <==> h in start.missing && !Arrives(digest, ids, rs, h) {
      MissingExactly(digest, start, rs, h);
    }
    assert forall h :: h in start.missing <==> h in p.hashList + Hashes(blocks) && lookup(h).None?;
    assert end.missing == {} ==> forall h <- end.hashList :: h in end.blocks by {
      assert forall h <- end.hashList :: h in Elements(end.hashList);
    }
  }

  /** If the cache or the responses give every block of the second file, a second pull is complete exactly when every
      digest of the first list is in the cache, on the second list as well, or happens to arrive. */
  lemma {:induction false} ReuseCompletes(digest: seq<byte> -> Hash, p: Pull, blocks: seq<BlockInfo>, lookup: Lookup, ids: set<int>,
                                          rs: seq<Response>)
    requires Consistent(digest, p) && Checked(digest, lookup)
    requires forall h <- Hashes(blocks) :: lookup(h).Some? || Arrives(digest, ids, rs, h)
    ensures Result(Again(digest, p, blocks, lookup, ids, rs)).Done?
            <==> forall h <- p.hashList :: lookup(h).Some? || h in Hashes(blocks) || Arrives(digest, ids, rs, h)
  {
    SecondPullCompletes(digest, p, blocks, lookup, ids, rs);
    assert forall h :: h in p.hashList + Hashes(blocks) <==> h in p.hashList || h in Hashes(blocks);
    hide *;
  }

  /** A second pull that is complete gives both streams, one after the other: so it gives the second one exactly if the
      list was empty when it started, because nothing had been pulled, or an empty file, or the puller had been closed. */
  lemma {:induction false} SecondPullGives(digest: seq<byte> -> Hash, p: Pull, first: seq<byte>, firstBlocks: seq<BlockInfo>,
                                           content: seq<byte>, blocks: seq<BlockInfo>, lookup: Lookup, ids: set<int>, rs: seq<Response>)
    requires Consistent(digest, p) && Checked(digest, lookup) && p.hashList == Hashes(firstBlocks)
    requires CutFrom(digest, first, 0, firstBlocks) && CutFrom(digest, content, 0, blocks)
    requires (forall b <- firstBlocks :: b.offset + b.size <= |first|) && forall b <- blocks :: b.offset + b.size <= |content|
    requires var offered := OfferedAgain(p, p.hashList + Hashes(blocks), lookup, rs);
             Distinguishes(digest, first, firstBlocks, offered) && Distinguishes(digest, content, blocks, offered)
    ensures var r := Result(Again(digest, p, blocks, lookup, ids, rs));
            r.Done? ==> r == Done(first + content) && (r == Done(content) <==> p.hashList == [])
  {
    var end := Again(digest, p, blocks, lookup, ids, rs);
    SecondPullCompletes(digest, p, blocks, lookup, ids, rs);
    if Result(end).Done? {
      var offered := OfferedAgain(p, p.hashList + Hashes(blocks), lookup, rs);
      forall h | h in end.blocks ensures digest(end.blocks[h]) == h && end.blocks[h] in offered {
        HeldWasOfferedAgain(digest, p, blocks, lookup, ids, rs, h);
      }
      hide *;
      var held := DoneHolds(end);
      JoinedPieces(digest, first, firstBlocks, content, blocks, held, offered);
      EmptyCut(digest, first, firstBlocks);
      HashesLength(firstBlocks);
      assert |first + content| == |first| + |content|;
      assert first == [] ==> first + content == content;
    }
  }

  lemma {:induction false} DoneHolds(p: Pull) returns (held: map<Hash, seq<byte>>)
    requires Result(p).Done?
    ensures held == p.blocks && (forall h <- p.hashList :: h in held) && Result(p) == Done(Flatten(PiecesOf(p.hashList, held)))
  {
    held := p.blocks;
  }

  lemma {:induction false} JoinedPieces(digest: seq<byte> -> Hash, first: seq<byte>, firstBlocks: seq<BlockInfo>, content: seq<byte>,
                                        blocks: seq<BlockInfo>, held: map<Hash, seq<byte>>, offered: set<seq<byte>>)
    requires CutFrom(digest, first, 0, firstBlocks) && CutFrom(digest, content, 0, blocks)
    requires (forall b <- firstBlocks :: b.offset + b.size <= |first|) && forall b <- blocks :: b.offset + b.size <= |content|
    requires Distinguishes(digest, first, firstBlocks, offered) && Distinguishes(digest, content, blocks, offered)
    requires (forall h <- Hashes(firstBlocks) + Hashes(blocks) :: h in held) && forall h <- held :: digest(held[h]) == h && held[h] in offered
    ensures Flatten(PiecesOf(Hashes(firstBlocks) + Hashes(blocks), held)) == first + content
  {
    hide CutFrom, Distinguishes;
    HeldPieces(digest, first, firstBlocks, held, offered);
    HeldPieces(digest, content, blocks, held, offered);
    var (a, b) := (PiecesOf(Hashes(firstBlocks), held), PiecesOf(Hashes(blocks), held));
    assert PiecesOf(Hashes(firstBlocks) + Hashes(blocks), held) == a + b;
    FlattenAppend(a, b);
  }

  lemma {:induction false} HashesLength(blocks: seq<BlockInfo>)
    ensures |Hashes(blocks)| == |blocks|
  {
  }

  lemma {:induction false} EmptyCut(digest: seq<byte> -> Hash, content: seq<byte>, blocks: seq<BlockInfo>)
    requires CutFrom(digest, content, 0, blocks)
    ensures blocks == [] <==> content == []
  {
  }

  lemma {:induction false} HeldWasOfferedAgain(digest: seq<byte> -> Hash, p: Pull, blocks: seq<BlockInfo>, lookup: Lookup, ids: set<int>,
                                               rs: seq<Response>, h: Hash)
    requires Consistent(digest, p) && h in Again(digest, p, blocks, lookup, ids, rs).blocks
    ensures Again(digest, p, blocks, lookup, ids, rs).blocks[h] in OfferedAgain(p, p.hashList + Hashes(blocks), lookup, rs)
  {
    var start := Started(p, blocks, lookup).(requestIds := ids);
    HeldWasOffered(digest, start, rs, h);
    var d := HandledAll(digest, start, rs).blocks[h];
    hide HandledAll;
    if h in start.blocks && start.blocks[h] == d {
      if h in p.missing + Elements(p.hashList + Hashes(blocks)) && lookup(h).Some? {
        assert h in p.hashList + Hashes(blocks);
      } else {
        assert d in p.blocks.Values;
      }
    }
  }

  /** What is held under the digests of a cut is the stream. */
  lemma {:induction false} HeldPieces(digest: seq<byte> -> Hash, content: seq<byte>, blocks: seq<BlockInfo>, held: map<Hash, seq<byte>>,
                                      offered: set<seq<byte>>)
    requires CutFrom(digest, content, 0, blocks) && forall b <- blocks :: b.offset + b.size <= |content|
    requires Distinguishes(digest, content, blocks, offered)
    requires (forall h <- Hashes(blocks) :: h in held) && forall h <- held :: digest(held[h]) == h && held[h] in offered
    ensures Flatten(PiecesOf(Hashes(blocks), held)) == content
  {
    var pieces := PiecesOf(Hashes(blocks), held);
    forall i | 0 <= i < |blocks| ensures pieces[i] == Slice(content, blocks[i]) {
      assert blocks[i] in blocks && Hashes(blocks)[i] in Hashes(blocks);
    }
    assert pieces == Slices(content, blocks);
    CutCovers(digest, content, 0, blocks);
    assert content[0..] == content;
  }

  /** Closing makes a puller as good as new: a pull started after it goes as with a fresh one. */
  lemma {:induction false} ClosedIsFresh(digest: seq<byte> -> Hash, p: Pull, blocks: seq<BlockInfo>, lookup: Lookup, ids: set<int>, rs: seq<Response>)
    ensures var (again, anew) := (Again(digest, Closed(p), blocks, lookup, ids, rs), Again(digest, NewPull, blocks, lookup, ids, rs));
            && again.(failed := anew.failed) == anew
            && Result(again) == Result(anew)
  {
    var (again, anew) := (Started(Closed(p), blocks, lookup), Started(NewPull, blocks, lookup));
    FailedApart(digest, again.(requestIds := ids), anew.(requestIds := ids), rs);
  }

  lemma {:induction false} FailedApart(digest: seq<byte> -> Hash, p: Pull, q: Pull, rs: seq<Response>)
    requires p.(failed := q.failed) == q
    ensures var (x, y) := (HandledAll(digest, p, rs), HandledAll(digest, q, rs)); x.(failed := y.failed) == y
    decreases |rs|
  {
    if rs != [] {
      FailedApart(digest, Handled(digest, p, rs[0]), Handled(digest, q, rs[0]), rs[1..]);
    }
  }
}
