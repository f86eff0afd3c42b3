/** The block cache on disk: one file per code, written by a background thread, checked when it is read. */
module FileBlockCache {
  import opened Wrappers
  import opened Bytes
  import opened Blocks

  datatype CachedFile = CachedFile(data: seq<byte>, modified: nat)

  /** What the writer thread still has to do. */
  datatype Job = Touch(code: Hash) | Store(code: Hash, data: seq<byte>) | Clear

  const MAX_SIZE: int := 50 * 1024 * 1024

  /** A read of the file under `code`; `readable` is false when the read itself fails. */
  function Pulled(digest: seq<byte> -> Hash, files: map<Hash, CachedFile>, code: Hash, shouldCheck: bool, readable: bool): Option<seq<byte>> {
    if code in files && readable && (shouldCheck ==> digest(files[code].data) == code) then Some(files[code].data) else None
  }

  function AfterPull(digest: seq<byte> -> Hash, files: map<Hash, CachedFile>, code: Hash, shouldCheck: bool, readable: bool): map<Hash, CachedFile> {
    if Pulled(digest, files, code, shouldCheck, readable).None? then files - {code} else files
  }

  /** Reading one code says nothing about another, and what a checked read returns has the digest asked for. */
  lemma {:induction false} PullsApart(digest: seq<byte> -> Hash, files: map<Hash, CachedFile>, code: Hash, other: Hash, readable: Hash -> bool)
    ensures var r := Pulled(digest, files, code, true, readable(code));
            r.Some? ==> digest(r.value) == code
    ensures code != other ==>
              Pulled(digest, AfterPull(digest, files, code, true, readable(code)), other, true, readable(other))
              == Pulled(digest, files, other, true, readable(other))
    ensures Pulled(digest, files, code, true, readable(code)).None? ==>
              code !in AfterPull(digest, files, code, true, readable(code))
  {
  }

  function AfterJob(files: map<Hash, CachedFile>, job: Job, now: nat, writable: bool): map<Hash, CachedFile> {
    match job
    case Touch(code) => if code in files && writable then files[code := files[code].(modified := now)] else files
    case Store(code, data) =>
      if code in files then files
      else if writable then files[code := CachedFile(data, now)]
      else files
    case Clear => map[]
  }

  /** Data that has been stored comes back, unless a file of its digest was there before; if that one is bad, reading it
      makes room, and the data stored again come back. */
  lemma {:induction false} StoredComesBack(digest: seq<byte> -> Hash, files: map<Hash, CachedFile>, data: seq<byte>, now: nat)
    ensures var code := digest(data);
            var after := AfterJob(files, Store(code, data), now, true);
            var read := Pulled(digest, after, code, true, true);
            var again := AfterJob(AfterPull(digest, after, code, true, true), Store(code, data), now, true);
            && (code !in files ==> read == Some(data))
            && (read.None? <==> code in files && digest(files[code].data) != code)
            && (read.None? ==> Pulled(digest, again, code, true, true) == Some(data))
            && forall other <- files :: other != code ==> other in after && after[other] == files[other]
  {
  }

  /** The directory from the oldest file to the newest. */
  ghost predicate Listing(files: map<Hash, CachedFile>, codes: seq<Hash>) {
    && (forall c :: c in codes <==> c in files)
    && (forall i, j :: 0 <= i < j < |codes| ==> codes[i] != codes[j])
    && (forall i, j :: 0 <= i < j < |codes| ==> codes[i] in files && codes[j] in files && files[codes[i]].modified <= files[codes[j]].modified)
  }

  /** The files of the listing from `n` on. */
  function From(files: map<Hash, CachedFile>, codes: seq<Hash>, n: nat): map<Hash, CachedFile>
    requires n <= |codes|
  {
    map c | c in files && c in codes[n..] :: files[c]
  }

  function Newest(files: map<Hash, CachedFile>, codes: seq<Hash>): map<Hash, CachedFile> {
    From(files, codes, |codes| / 2)
  }

  lemma {:induction false} Position(files: map<Hash, CachedFile>, codes: seq<Hash>, code: Hash, n: nat) returns (i: nat)
    requires Listing(files, codes) && code in files && n <= |codes|
    ensures i < |codes| && codes[i] == code
    ensures code in codes[n..] <==> n <= i
  {
    assert code in codes;
    assert forall k :: n <= k < |codes| ==> codes[k] == codes[n..][k - n];
    if code in codes[n..] {
      var k :| 0 <= k < |codes[n..]| && codes[n..][k] == code;
      i := k + n;
    } else {
      i :| 0 <= i < |codes| && codes[i] == code;
    }
  }

  lemma {:induction false} DropOldest(files: map<Hash, CachedFile>, codes: seq<Hash>, n: nat)
    requires Listing(files, codes) && n < |codes|
    ensures From(files, codes, n) - {codes[n]} == From(files, codes, n + 1)
  {
    forall c | c in files ensures c in codes[n..] && c != codes[n] <==> c in codes[n + 1..] {
      var i := Position(files, codes, c, n);
      var j := Position(files, codes, c, n + 1);
      assert i == j;
    }
  }

  lemma {:induction false} AllListed(files: map<Hash, CachedFile>, codes: seq<Hash>)
    requires Listing(files, codes)
    ensures From(files, codes, 0) == files
  {
    assert codes[0..] == codes;
  }

  /** A cleanup removes no file that is newer than one it keeps, and never the one written last. */
  lemma {:induction false} CleanupSparesNewest(files: map<Hash, CachedFile>, codes: seq<Hash>, code: Hash)
    requires Listing(files, codes) && code in files
    ensures (forall c <- files :: c != code ==> files[c].modified < files[code].modified) ==> code in Newest(files, codes)
    ensures code in Newest(files, codes) ==>
              forall gone <- files :: gone !in Newest(files, codes) ==> files[gone].modified <= files[code].modified
  {
    var half := |codes| / 2;
    var i := Position(files, codes, code, half);
    if i < half {
      assert codes[|codes| - 1] in files;
    }
    forall gone | gone in files && gone !in Newest(files, codes) && half <= i ensures files[gone].modified <= files[code].modified {
      var g := Position(files, codes, gone, half);
    }
  }

  class FileBlockCache {
    const digest: seq<byte> -> Hash
    var files: map<Hash, CachedFile>
    var size: int
    var jobs: seq<Job>

    constructor (digest: seq<byte> -> Hash, files: map<Hash, CachedFile>, size: int)
      ensures this.digest == digest && this.files == files && this.size == size && jobs == []
    {
      this.digest, this.files, this.size, this.jobs := digest, files, size, [];
    }

    method PullFile(code: Hash, shouldCheck: bool, readable: bool) returns (r: Option<seq<byte>>)
      modifies this`files, this`jobs
      ensures r == Pulled(digest, old(files), code, shouldCheck, readable)
      ensures files == AfterPull(digest, old(files), code, shouldCheck, readable)
      ensures jobs == old(jobs) + if r.Some? then [Touch(code)] else []
    {
      r := None;
      if code in files {
        if readable && (!shouldCheck || digest(files[code].data) == code) {
          r := Some(files[code].data);
          jobs := jobs + [Touch(code)];
        } else {
          files := files - {code};
        }
      }
    }

    method PullBlock(code: Hash, readable: bool) returns (r: Option<seq<byte>>)
      modifies this`files, this`jobs
      ensures r == Pulled(digest, old(files), code, true, readable)
      ensures files == AfterPull(digest, old(files), code, true, readable)
      ensures r.Some? ==> digest(r.value) == code
    {
      r := PullFile(code, true, readable);
    }

    method PullData(code: Hash, readable: bool) returns (r: Option<seq<byte>>)
      modifies this`files, this`jobs
      ensures r == Pulled(digest, old(files), code, false, readable)
      ensures files == AfterPull(digest, old(files), code, false, readable)
    {
      r := PullFile(code, false, readable);
    }

    method PushBlock(data: seq<byte>) returns (code: Hash)
      modifies this`jobs
      ensures code == digest(data) && jobs == old(jobs) + [Store(code, data)]
    {
      code := digest(data);
      PushData(code, data);
    }

    method PushData(code: Hash, data: seq<byte>)
      modifies this`jobs
      ensures jobs == old(jobs) + [Store(code, data)]
    {
      jobs := jobs + [Store(code, data)];
    }

    method Empty()
      modifies this`jobs
      ensures jobs == old(jobs) + [Clear]
    {
      jobs := jobs + [Clear];
    }

    /** The writer thread does its next job; `codes` is the directory listed by age, `measured` its size. */
    method RunJob(now: nat, writable: bool, codes: seq<Hash>, measured: int)
      requires jobs != []
      requires Listing(AfterJob(files, jobs[0], now, writable), codes)
      modifies this
      ensures jobs == old(jobs)[1..]
      ensures var after := AfterJob(old(files), old(jobs)[0], now, writable);
              files == after || (old(jobs)[0].Store? && files == Newest(after, codes) && size == measured)
      ensures old(jobs)[0].Store? && old(jobs)[0].code !in old(files) && writable
              && (forall c <- old(files) :: old(files)[c].modified < now) ==>
                old(jobs)[0].code in files && files[old(jobs)[0].code].data == old(jobs)[0].data
    {
      var job := jobs[0];
      jobs := jobs[1..];
      match job
      case Touch(code) =>
        if code in files && writable {
          files := files[code := files[code].(modified := now)];
        }
      case Store(code, data) =>
        if code !in files && writable {
          ghost var before := files;
          files := files[code := CachedFile(data, now)];
          size := size + |data|;
          if forall c <- before :: before[c].modified < now {
            CleanupSparesNewest(files, codes, code);
          }
          RunCleanup(codes, measured);
        }
      case Clear => files := map[];
    }

    method RunCleanup(codes: seq<Hash>, measured: int)
      requires Listing(files, codes)
      modifies this`files, this`size
      ensures files == if old(size) > MAX_SIZE then Newest(old(files), codes) else old(files)
      ensures size == if old(size) > MAX_SIZE then measured else old(size)
    {
      if size > MAX_SIZE {
        var i := 0;
        AllListed(files, codes);
        while i < |codes| / 2
          invariant 0 <= i <= |codes| / 2
          invariant files == From(old(files), codes, i)
        {
          DropOldest(old(files), codes, i);
          files := files - {codes[i]};
          i := i + 1;
        }
        size := measured;
      }
    }
  }
}
