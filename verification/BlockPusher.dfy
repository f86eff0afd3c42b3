/** The sending side: a data source is cut into hashed blocks, and requests for them are answered. */
module BlockPusher {
  import opened Wrappers
  import opened Bytes
  import opened Blocks

  // ----- cutting

  function Sum(counts: seq<nat>): nat {
    if counts == [] then 0 else counts[0] + Sum(counts[1..])
  }

  /** A legal pattern of reads: each returns between one byte and a whole block, until the stream ends. */
  predicate ReadPattern(counts: seq<nat>, length: nat) {
    (forall c <- counts :: 1 <= c <= BLOCK_SIZE) && Sum(counts) == length
  }

  function Slice(content: seq<byte>, block: BlockInfo): seq<byte>
    requires block.offset + block.size <= |content|
  {
    content[block.offset..block.offset + block.size]
  }

  /** `blocks` covers the bytes from `offset` on, one block after the other, each with its own digest. */
  predicate CutFrom(digest: seq<byte> -> Hash, content: seq<byte>, offset: nat, blocks: seq<BlockInfo>)
    decreases |blocks|
  {
    if blocks == [] then offset == |content|
    else
      var b := blocks[0];
      && b.offset == offset && 1 <= b.size <= BLOCK_SIZE && offset + b.size <= |content|
      && b.hash == digest(Slice(content, b))
      && CutFrom(digest, content, offset + b.size, blocks[1..])
  }

  function Slices(content: seq<byte>, blocks: seq<BlockInfo>): seq<seq<byte>>
    requires forall b <- blocks :: b.offset + b.size <= |content|
  {
    seq(|blocks|, i requires 0 <= i < |blocks| => assert blocks[i] in blocks; Slice(content, blocks[i]))
  }

  /** Each block of a cut is a non-empty piece of the content with its own digest. */
  lemma {:induction false} CutInside(digest: seq<byte> -> Hash, content: seq<byte>, offset: nat, blocks: seq<BlockInfo>)
    requires offset <= |content| && CutFrom(digest, content, offset, blocks)
    ensures forall b <- blocks :: 1 <= b.size <= BLOCK_SIZE && offset <= b.offset && b.offset + b.size <= |content| && b.hash == digest(Slice(content, b))
    decreases |blocks|
  {
    if blocks != [] {
      CutInside(digest, content, offset + blocks[0].size, blocks[1..]);
      forall b | b in blocks
        ensures 1 <= b.size <= BLOCK_SIZE && offset <= b.offset && b.offset + b.size <= |content| && b.hash == digest(Slice(content, b))
      {
        assert b == blocks[0] || b in blocks[1..];
      }
    }
  }

  /** The blocks of a cut follow each other without gap or overlap. */
  lemma {:induction false} CutContiguous(digest: seq<byte> -> Hash, content: seq<byte>, offset: nat, blocks: seq<BlockInfo>, i: nat)
    requires CutFrom(digest, content, offset, blocks) && i < |blocks|
    ensures blocks[i].offset == if i == 0 then offset else blocks[i - 1].offset + blocks[i - 1].size
    ensures i == |blocks| - 1 ==> blocks[i].offset + blocks[i].size == |content|
    decreases |blocks|
  {
    var next := offset + blocks[0].size;
    if i > 0 {
      CutContiguous(digest, content, next, blocks[1..], i - 1);
    }
  }

  /** Joined together, the pieces are the content. */
  lemma {:induction false} CutCovers(digest: seq<byte> -> Hash, content: seq<byte>, offset: nat, blocks: seq<BlockInfo>)
    requires offset <= |content| && CutFrom(digest, content, offset, blocks)
    requires forall b <- blocks :: b.offset + b.size <= |content|
    ensures Flatten(Slices(content, blocks)) == content[offset..]
    decreases |blocks|
  {
    if blocks != [] {
      var b, rest := blocks[0], blocks[1..];
      CutCovers(digest, content, offset + b.size, rest);
      hide CutFrom, Flatten;
      assert Slices(content, blocks) == [Slice(content, b)] + Slices(content, rest);
      Join2(Slice(content, b), Slices(content, rest));
      assert content[offset..] == Slice(content, b) + content[offset + b.size..] by {
        assert b.offset == offset;
      }
    }
  }

  lemma {:induction false} Join2(x: seq<byte>, rest: seq<seq<byte>>)
    ensures Flatten([x] + rest) == x + Flatten(rest)
  {
    assert ([x] + rest)[1..] == rest;
  }

  lemma {:induction false} CutSnoc(digest: seq<byte> -> Hash, content: seq<byte>, start: nat, blocks: seq<BlockInfo>, more: seq<byte>, b: BlockInfo)
    requires start <= |content| && CutFrom(digest, content, start, blocks)
    requires b == BlockInfo(digest(more), |content|, |more|) && 1 <= |more| <= BLOCK_SIZE
    ensures CutFrom(digest, content + more, start, blocks + [b])
    decreases |blocks|
  {
    var whole := content + more;
    if blocks == [] {
      assert Slice(whole, b) == more;
      assert [b][1..] == [];
    } else {
      var first := blocks[0];
      assert (blocks + [b])[0] == first && (blocks + [b])[1..] == blocks[1..] + [b];
      assert Slice(whole, first) == Slice(content, first);
      CutSnoc(digest, content, start + first.size, blocks[1..], more, b);
    }
  }

  // ----- answering

  datatype Request = Request(id: int, folder: string, name: string, offset: int, size: int, hash: Hash)

  datatype Response = Response(id: int, code: nat, data: seq<byte>)

  const NO_ERROR: nat := 0
  const GENERIC: nat := 1

  /** The bytes asked for, if they exist and have the digest asked for. */
  function BlockAt(digest: seq<byte> -> Hash, content: seq<byte>, offset: int, size: int, hash: Hash): Outcome<seq<byte>> {
    if size < 0 || offset < 0 || offset + size > |content| then Thrown
    else
      var data := content[offset..offset + size];
      if digest(data) == hash then Done(data) else Thrown
  }

  /** Every block of a cut is answered with its own bytes. */
  lemma {:induction false} CutAnswered(digest: seq<byte> -> Hash, content: seq<byte>, blocks: seq<BlockInfo>, b: BlockInfo)
    requires CutFrom(digest, content, 0, blocks) && b in blocks
    ensures b.offset + b.size <= |content| && BlockAt(digest, content, b.offset, b.size, b.hash) == Done(Slice(content, b))
  {
    CutInside(digest, content, 0, blocks);
  }

  /** A file to send. What it was cut into is remembered. */
  class DataSource {
    const digest: seq<byte> -> Hash
    const content: seq<byte>
    const isFile: bool
    var size: Option<nat>
    var blocks: Option<seq<BlockInfo>>
    var hashes: Option<set<Hash>>

    constructor (digest: seq<byte> -> Hash, content: seq<byte>, isFile: bool)
      ensures this.digest == digest && this.content == content && Valid() && blocks.None?
    {
      this.digest := digest;
      this.content := content;
      this.isFile := isFile;
      size, blocks, hashes := None, None, None;
    }

    predicate Valid()
      reads this
    {
      && (size.Some? ==> size.value == |content|)
      && (blocks.Some? ==> size.Some? && CutFrom(digest, content, 0, blocks.value))
      && (hashes.Some? ==> blocks.Some? && hashes.value == set h <- Hashes(blocks.value))
    }

    /** Reads the stream once; `counts` is how many bytes each read returns. */
    method ProcessStream(counts: seq<nat>)
      requires Valid() && hashes.None? && ReadPattern(counts, |content|)
      modifies this`size, this`blocks
      ensures Valid() && size == Some(|content|) && blocks.Some? && |blocks.value| == |counts|
      ensures forall i :: 0 <= i < |counts| ==> blocks.value[i].size == counts[i]
    {
      var list: seq<BlockInfo> := [];
      var offset: nat := 0;
      var i := 0;
      assert counts[0..] == counts && content[..0] == [];
      while i < |counts|
        invariant 0 <= i == |list| <= |counts| && offset <= |content|
        invariant Sum(counts[i..]) == |content| - offset
        invariant CutFrom(digest, content[..offset], 0, list)
        invariant forall k :: 0 <= k < i ==> list[k].size == counts[k]
      {
        var blockSize := counts[i];
        assert blockSize in counts && counts[i..][0] == blockSize && counts[i..][1..] == counts[i + 1..];
        var block := content[offset..offset + blockSize];
        var info := BlockInfo(digest(block), offset, blockSize);
        CutSnoc(digest, content[..offset], 0, list, block, info);
        assert content[..offset] + block == content[..offset + blockSize];
        list := list + [info];
        offset := offset + blockSize;
        i := i + 1;
      }
      assert content[..offset] == content;
      size := Some(offset);
      blocks := Some(list);
    }

    /** The length of a file is known without reading it. */
    method GetSize(counts: seq<nat>) returns (n: nat)
      requires Valid() && ReadPattern(counts, |content|)
      modifies this`size, this`blocks
      ensures Valid() && n == |content|
      ensures old(blocks).Some? ==> blocks == old(blocks)
    {
      if size.None? {
        if isFile {
          size := Some(|content|);
        } else {
          ProcessStream(counts);
        }
      }
      n := size.value;
    }

    method GetBlocks(counts: seq<nat>) returns (list: seq<BlockInfo>)
      requires Valid() && ReadPattern(counts, |content|)
      modifies this`size, this`blocks
      ensures Valid() && CutFrom(digest, content, 0, list) && blocks == Some(list)
      ensures old(blocks).Some? ==> list == old(blocks).value
    {
      if blocks.None? {
        ProcessStream(counts);
      }
      list := blocks.value;
    }

    method GetHashes(counts: seq<nat>) returns (all: set<Hash>)
      requires Valid() && ReadPattern(counts, |content|)
      modifies this
      ensures Valid() && blocks.Some? && all == set h <- Hashes(blocks.value)
      ensures old(blocks).Some? ==> blocks == old(blocks)
    {
      if hashes.None? {
        var list := GetBlocks(counts);
        hashes := Some(set h <- Hashes(list));
      }
      all := hashes.value;
    }

    method GetBlock(offset: int, size: int, hash: Hash) returns (r: Outcome<seq<byte>>)
      ensures r == BlockAt(digest, content, offset, size, hash)
      ensures r.Done? ==> digest(r.value) == hash && |r.value| == size
    {
      if size < 0 || offset < 0 || offset + size > |content| {
        return Thrown;
      }
      var buffer := content[offset..offset + size];
      r := if digest(buffer) == hash then Done(buffer) else Thrown;
    }
  }

  /** The upload of one file: its request listener and what it reports. */
  class FileUpload {
    const folder: string
    const path: string
    const source: DataSource
    var sentBlocks: set<Hash>
    var uploadError: bool

    constructor (folder: string, path: string, source: DataSource)
      ensures this.folder == folder && this.path == path && this.source == source && sentBlocks == {} && !uploadError
    {
      this.folder, this.path, this.source := folder, path, source;
      sentBlocks, uploadError := {}, false;
    }

    /** Answers a request for this file; `sends` tells whether the answer could be sent. */
    method HandleRequest(request: Request, sends: bool) returns (answer: Option<Response>)
      modifies this
      ensures answer == Answer(source.digest, source.content, folder, path, request)
      ensures sentBlocks == old(sentBlocks) + if answer.Some? && answer.value.code == NO_ERROR && sends then {request.hash} else {}
      ensures uploadError == (old(uploadError) || (answer.Some? && (answer.value.code != NO_ERROR || !sends)))
    {
      if request.folder != folder || request.name != path {
        return None;
      }
      var data := source.GetBlock(request.offset, request.size, request.hash);
      if data.Done? {
        answer := Some(Response(request.id, NO_ERROR, data.value));
        if sends {
          sentBlocks := sentBlocks + {request.hash};
        } else {
          uploadError := true;
        }
      } else {
        answer := Some(Response(request.id, GENERIC, []));
        uploadError := true;
      }
    }
  }

  function Answer(digest: seq<byte> -> Hash, content: seq<byte>, folder: string, path: string, request: Request): Option<Response> {
    if request.folder != folder || request.name != path then None
    else
      var data := BlockAt(digest, content, request.offset, request.size, request.hash);
      Some(if data.Done? then Response(request.id, NO_ERROR, data.value) else Response(request.id, GENERIC, []))
  }
}
