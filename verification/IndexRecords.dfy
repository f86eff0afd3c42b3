/** The index: the latest record of every path, and how far each device has announced and sent its own. */
module IndexRecords {
  import opened Wrappers
  import opened Blocks

  datatype Version = Version(id: int, value: int)

  datatype FileInfo = FileInfo(folder: string, path: string, parent: string, isDirectory: bool, size: int, hash: Hash,
                               lastModified: int, versions: seq<Version>, deleted: bool)

  datatype Kind = FILE | DIRECTORY | UNSUPPORTED

  /** A record as it is received. */
  datatype BepFile = BepFile(name: string, kind: Kind, modifiedS: int, modifiedNs: int, versions: seq<Version>, deleted: bool,
                             size: int, blocks: seq<BlockInfo>, sequence: int)

  datatype IndexInfo = IndexInfo(indexId: int, localSequence: int, maxSequence: int)

  /** Folder and path of a file; device and folder of an index. */
  type Key = (string, string)

  datatype Index = Index(files: map<Key, FileInfo>, blocks: map<Key, seq<BlockInfo>>, infos: map<Key, IndexInfo>)

  const EmptyIndex := Index(map[], map[], map[])

  /** What the program gets from elsewhere: the digest of block texts and the parent of a path. */
  datatype Env = Env(digest: string -> Hash, parentOf: string -> string)

  // ----- from a received record to a file

  /** Integer division as the machine does it, towards zero. */
  function Quotient(a: int, b: int): int
    requires b > 0
  {
    if a >= 0 then a / b else -(-a / b)
  }

  function TotalSize(blocks: seq<BlockInfo>): nat {
    if blocks == [] then 0 else blocks[0].size + TotalSize(blocks[1..])
  }

  /** The file that a record describes; `Done(None)` for a kind that is not supported. */
  function Described(env: Env, folder: string, r: BepFile): Outcome<Option<FileInfo>> {
    if r.kind == UNSUPPORTED then Done(None)
    else if folder == "" || (r.kind == FILE && (r.name == "" || HashBlocks(env.digest, r.blocks) == "")) then Thrown
    else
      var parent := if r.name == ".." || r.name == "" then "" else env.parentOf(r.name);
      var modified := r.modifiedS * 1000 + Quotient(r.modifiedNs, 1000000);
      if r.kind == FILE then
        Done(Some(FileInfo(folder, r.name, parent, false, r.size, HashBlocks(env.digest, r.blocks), modified, r.versions, r.deleted)))
      else
        Done(Some(FileInfo(folder, r.name, parent, true, 0, "", modified, r.versions, r.deleted)))
  }

  /** The repository takes a record only with a version, and a file only with blocks of its size. */
  predicate Storable(f: FileInfo, blocks: seq<BlockInfo>) {
    f.versions != [] && (!f.isDirectory ==> TotalSize(blocks) == f.size)
  }

  /** A record is stored if it is the first of its path or later than the one stored; the result is what was
      stored, nothing, or an exception. */
  function Added(ix: Index, f: FileInfo, blocks: seq<BlockInfo>): (Index, Outcome<Option<FileInfo>>) {
    var key := (f.folder, f.path);
    if key in ix.files && !(f.lastModified > ix.files[key].lastModified) then (ix, Done(None))
    else if !Storable(f, blocks) then (ix, Thrown)
    else
      (ix.(files := ix.files[key := f], blocks := if f.isDirectory then ix.blocks else ix.blocks[key := blocks]), Done(Some(f)))
  }

  function Pushed(env: Env, ix: Index, folder: string, r: BepFile): (Index, Outcome<Option<FileInfo>>) {
    var d := Described(env, folder, r);
    if d.Thrown? || d.value.None? then (ix, d) else Added(ix, d.value.value, r.blocks)
  }

  datatype Push = Push(folder: string, record: BepFile)

  function PushedAll(env: Env, ix: Index, pushes: seq<Push>): Index
    decreases |pushes|
  {
    if pushes == [] then ix else PushedAll(env, Pushed(env, ix, pushes[0].folder, pushes[0].record).0, pushes[1..])
  }

  // ----- last writer wins

  /** The file that a push stores when nothing stands in its way. */
  function Storing(env: Env, p: Push): Option<FileInfo> {
    var d := Described(env, p.folder, p.record);
    if d.Done? && d.value.Some? && Storable(d.value.value, p.record.blocks) then d.value else None
  }

  function KeyOf(f: FileInfo): Key {
    (f.folder, f.path)
  }

  predicate Competes(env: Env, p: Push, key: Key) {
    Storing(env, p).Some? && KeyOf(Storing(env, p).value) == key
  }

  /** Push `i` is the first among those of its path that have the latest time. */
  ghost predicate Wins(env: Env, pushes: seq<Push>, key: Key, i: nat) {
    && i < |pushes| && Competes(env, pushes[i], key)
    && forall j :: 0 <= j < |pushes| && Competes(env, pushes[j], key) ==>
         Storing(env, pushes[j]).value.lastModified <= Storing(env, pushes[i]).value.lastModified
         && (j < i ==> Storing(env, pushes[j]).value.lastModified < Storing(env, pushes[i]).value.lastModified)
  }

  lemma {:induction false} PushedSnoc(env: Env, ix: Index, pushes: seq<Push>, p: Push)
    ensures PushedAll(env, ix, pushes + [p]) == Pushed(env, PushedAll(env, ix, pushes), p.folder, p.record).0
    decreases |pushes|
  {
    if pushes == [] {
      assert pushes + [p] == [p];
      assert [p][1..] == [];
    } else {
      assert (pushes + [p])[0] == pushes[0] && (pushes + [p])[1..] == pushes[1..] + [p];
      PushedSnoc(env, Pushed(env, ix, pushes[0].folder, pushes[0].record).0, pushes[1..], p);
    }
  }

  /** A push changes the index as if only storable records existed. */
  lemma {:induction false} PushedIs(env: Env, ix: Index, p: Push)
    ensures var files := Pushed(env, ix, p.folder, p.record).0.files;
            var s := Storing(env, p);
            files == if s.Some? && (KeyOf(s.value) !in ix.files || s.value.lastModified > ix.files[KeyOf(s.value)].lastModified)
                     then ix.files[KeyOf(s.value) := s.value] else ix.files
  {
  }

  /** After any run of pushes the record of a path is the winner among all pushed for it. */
  lemma {:induction false} LatestWins(env: Env, pushes: seq<Push>, key: Key)
    ensures var files := PushedAll(env, EmptyIndex, pushes).files;
            && (key in files <==> exists p <- pushes :: Competes(env, p, key))
            && (key in files ==> exists i: nat :: Wins(env, pushes, key, i) && files[key] == Storing(env, pushes[i]).value)
    decreases |pushes|
  {
    if pushes != [] {
      var n := |pushes| - 1;
      var (init, p) := (pushes[..n], pushes[n]);
      assert pushes == init + [p];
      PushedSnoc(env, EmptyIndex, init, p);
      var ix := PushedAll(env, EmptyIndex, init);
      PushedIs(env, ix, p);
      LatestWins(env, init, key);
      hide Storing, PushedAll, Pushed;
      var files := PushedAll(env, EmptyIndex, pushes).files;
      assert forall q :: q in pushes <==> q in init || q == p;
      if key in files {
        if key in ix.files && files[key] == ix.files[key] {
          var i: nat :| Wins(env, init, key, i) && ix.files[key] == Storing(env, init[i]).value;
          WinsOver(env, init, p, key, i);
        } else {
          NewWinner(env, init, p, key);
        }
      }
    }
  }

  lemma {:induction false} WinsOver(env: Env, init: seq<Push>, p: Push, key: Key, i: nat)
    requires Wins(env, init, key, i)
    requires Competes(env, p, key) ==> Storing(env, p).value.lastModified <= Storing(env, init[i]).value.lastModified
    ensures Wins(env, init + [p], key, i) && (init + [p])[i] == init[i]
  {
    hide Storing;
    var pushes := init + [p];
    forall j | 0 <= j < |pushes| && Competes(env, pushes[j], key)
      ensures Storing(env, pushes[j]).value.lastModified <= Storing(env, pushes[i]).value.lastModified
    {
      assert pushes[j] == if j < |init| then init[j] else p;
    }
    assert forall j :: 0 <= j < i ==> pushes[j] == init[j];
  }

  lemma {:induction false} NewWinner(env: Env, init: seq<Push>, p: Push, key: Key)
    requires Competes(env, p, key)
    requires forall j :: 0 <= j < |init| && Competes(env, init[j], key) ==>
               Storing(env, init[j]).value.lastModified < Storing(env, p).value.lastModified
    ensures Wins(env, init + [p], key, |init|) && (init + [p])[|init|] == p
  {
  }

  predicate SameTime(env: Env, p: Push, q: Push) {
    && Storing(env, p).Some? && Storing(env, q).Some?
    && KeyOf(Storing(env, p).value) == KeyOf(Storing(env, q).value)
    && Storing(env, p).value.lastModified == Storing(env, q).value.lastModified
  }

  /** Different records of one path never carry the same time. */
  ghost predicate TimesDistinct(env: Env, pushes: seq<Push>) {
    forall p, q :: p in pushes && q in pushes && SameTime(env, p, q) ==> Storing(env, p) == Storing(env, q)
  }

  /** Any two orders of the same records, repeats included, end in the same files; and where a file is kept, in the same
      blocks, if the records of one path with one time have the same blocks. */
  lemma {:induction false} Converges(env: Env, a: seq<Push>, b: seq<Push>)
    requires TimesDistinct(env, a) && SameMembers(a, b)
    ensures var (x, y) := (PushedAll(env, EmptyIndex, a), PushedAll(env, EmptyIndex, b));
            && x.files == y.files
            && (RecordsDistinct(env, a) ==> forall key <- x.files :: !x.files[key].isDirectory ==>
                  key in x.blocks && key in y.blocks && x.blocks[key] == y.blocks[key])
  {
    SameFiles(env, a, b);
    if RecordsDistinct(env, a) {
      var x, y := PushedAll(env, EmptyIndex, a), PushedAll(env, EmptyIndex, b);
      forall key | key in x.files && !x.files[key].isDirectory
        ensures key in x.blocks && key in y.blocks && x.blocks[key] == y.blocks[key]
      {
        LatestWins(env, a, key);
        var w: nat :| Wins(env, a, key, w) && x.files[key] == Storing(env, a[w]).value;
        assert OfFile(env, a[w]) && SameMembers(a, a) && SameMembers(b, a);
        KeptInOrder(env, a, a, key, w);
        KeptInOrder(env, a, b, key, w);
      }
    }
  }

  lemma {:induction false} SameFiles(env: Env, a: seq<Push>, b: seq<Push>)
    requires TimesDistinct(env, a) && SameMembers(a, b)
    ensures PushedAll(env, EmptyIndex, a).files == PushedAll(env, EmptyIndex, b).files
  {
    var fa, fb := PushedAll(env, EmptyIndex, a).files, PushedAll(env, EmptyIndex, b).files;
    hide Storing, PushedAll;
    forall key: Key ensures (key in fa <==> key in fb) && (key in fa ==> fa[key] == fb[key]) {
      LatestWins(env, a, key);
      LatestWins(env, b, key);
      assert (exists p <- a :: Competes(env, p, key)) <==> exists p <- b :: Competes(env, p, key);
      if key in fa {
        var i: nat :| Wins(env, a, key, i) && fa[key] == Storing(env, a[i]).value;
        var j: nat :| Wins(env, b, key, j) && fb[key] == Storing(env, b[j]).value;
        SameWinner(env, a, b, key, i, j);
      }
    }
  }

  lemma {:induction false} SameWinner(env: Env, a: seq<Push>, b: seq<Push>, key: Key, i: nat, j: nat)
    requires TimesDistinct(env, a) && SameMembers(a, b)
    requires Wins(env, a, key, i) && Wins(env, b, key, j)
    ensures Storing(env, a[i]) == Storing(env, b[j])
  {
    hide Storing;
    assert a[i] in b && b[j] in a;
    var i' :| 0 <= i' < |b| && b[i'] == a[i];
    var j' :| 0 <= j' < |a| && a[j'] == b[j];
    assert Competes(env, b[i'], key) && Competes(env, a[j'], key);
  }

  // ----- the block lists beside the files

  /** Push `i` is stored when it comes: it is later than all before it. */
  ghost predicate Stores(env: Env, pushes: seq<Push>, key: Key, i: nat) {
    && i < |pushes| && Competes(env, pushes[i], key)
    && forall j :: 0 <= j < i && Competes(env, pushes[j], key) ==>
         Storing(env, pushes[j]).value.lastModified < Storing(env, pushes[i]).value.lastModified
  }

  predicate OfFile(env: Env, p: Push) {
    Storing(env, p).Some? && !Storing(env, p).value.isDirectory
  }

  ghost predicate LastFile(env: Env, pushes: seq<Push>, key: Key, i: nat) {
    && Stores(env, pushes, key, i) && OfFile(env, pushes[i])
    && forall j :: i < j < |pushes| && Stores(env, pushes, key, j) ==> !OfFile(env, pushes[j])
  }

  function BlocksAt(env: Env, pushes: seq<Push>, key: Key): Option<seq<BlockInfo>> {
    var blocks := PushedAll(env, EmptyIndex, pushes).blocks;
    if key in blocks then Some(blocks[key]) else None
  }

  lemma {:induction false} PushedBlocksAre(env: Env, ix: Index, p: Push)
    ensures var blocks := Pushed(env, ix, p.folder, p.record).0.blocks;
            var s := Storing(env, p);
            blocks == if s.Some? && !s.value.isDirectory
                         && (KeyOf(s.value) !in ix.files || s.value.lastModified > ix.files[KeyOf(s.value)].lastModified)
                      then ix.blocks[KeyOf(s.value) := p.record.blocks] else ix.blocks
  {
  }

  lemma {:induction false} StoresSnoc(env: Env, init: seq<Push>, p: Push, key: Key)
    ensures forall i: nat :: i < |init| ==> (Stores(env, init + [p], key, i) <==> Stores(env, init, key, i))
  {
    hide Storing, Competes;
    forall i: nat | i < |init| ensures Stores(env, init + [p], key, i) <==> Stores(env, init, key, i) {
      assert (init + [p])[i] == init[i] && forall j :: 0 <= j < i ==> (init + [p])[j] == init[j];
    }
  }

  /** After any run of pushes the block list of a path is that of the last file that was stored for it, even if a
      directory was stored after it. */
  lemma {:induction false} BlocksOfLastFile(env: Env, pushes: seq<Push>, key: Key)
    ensures BlocksAt(env, pushes, key).Some? <==> exists i: nat :: Stores(env, pushes, key, i) && OfFile(env, pushes[i])
    ensures BlocksAt(env, pushes, key).Some? ==>
              exists i: nat :: LastFile(env, pushes, key, i) && BlocksAt(env, pushes, key) == Some(pushes[i].record.blocks)
    decreases |pushes|
  {
    if pushes != [] {
      var n := |pushes| - 1;
      var (init, p) := (pushes[..n], pushes[n]);
      assert pushes == init + [p];
      PushedSnoc(env, EmptyIndex, init, p);
      var ix := PushedAll(env, EmptyIndex, init);
      PushedBlocksAre(env, ix, p);
      BlocksOfLastFile(env, init, key);
      StoresSnoc(env, init, p, key);
      StoresLast(env, init, p, key);
      hide Storing, PushedAll, Pushed, Stores;
      assert forall i: nat :: i < n ==> pushes[i] == init[i];
      if Stores(env, pushes, key, n) && OfFile(env, p) {
        assert LastFile(env, pushes, key, n);
      } else if BlocksAt(env, init, key).Some? {
        var i: nat :| LastFile(env, init, key, i) && BlocksAt(env, init, key) == Some(init[i].record.blocks);
        assert LastFile(env, pushes, key, i);
      }
    }
  }

  lemma {:induction false} StoresLast(env: Env, init: seq<Push>, p: Push, key: Key)
    ensures var files := PushedAll(env, EmptyIndex, init).files;
            Stores(env, init + [p], key, |init|) <==>
              && Competes(env, p, key)
              && (key !in files || Storing(env, p).value.lastModified > files[key].lastModified)
  {
    LatestWins(env, init, key);
    hide Storing, PushedAll;
    var files := PushedAll(env, EmptyIndex, init).files;
    var pushes := init + [p];
    assert pushes[|init|] == p && forall j :: 0 <= j < |init| ==> pushes[j] == init[j];
    if key in files {
      var i: nat :| Wins(env, init, key, i) && files[key] == Storing(env, init[i]).value;
      assert Competes(env, pushes[i], key);
    }
  }

  /** Nothing is stored after the winner, so a file that is kept has its own blocks. */
  lemma {:induction false} KeptFileHasItsBlocks(env: Env, pushes: seq<Push>, key: Key, w: nat)
    requires Wins(env, pushes, key, w) && OfFile(env, pushes[w])
    ensures BlocksAt(env, pushes, key) == Some(pushes[w].record.blocks)
  {
    BlocksOfLastFile(env, pushes, key);
    hide Storing, BlocksAt;
    assert Stores(env, pushes, key, w);
    var i: nat :| LastFile(env, pushes, key, i) && BlocksAt(env, pushes, key) == Some(pushes[i].record.blocks);
    assert i <= w;
  }

  ghost predicate SameMembers(a: seq<Push>, b: seq<Push>) {
    forall p :: p in a <==> p in b
  }

  /** Records of one path with one time have one block list as well. */
  ghost predicate RecordsDistinct(env: Env, pushes: seq<Push>) {
    && TimesDistinct(env, pushes)
    && forall p, q :: p in pushes && q in pushes && SameTime(env, p, q) ==> p.record.blocks == q.record.blocks
  }

  /** The block list of the path is the same for any two orders of these records. */
  ghost predicate BlocksConverge(env: Env, pushes: seq<Push>, key: Key) {
    forall a, b :: SameMembers(a, pushes) && SameMembers(b, pushes) ==> BlocksAt(env, a, key) == BlocksAt(env, b, key)
  }

  /** Files converge, and the block list of a path does exactly if what is kept for the path is a file or no file was
      pushed for it: a file that came before a later directory leaves its blocks, and one that came after it does not. */
  lemma {:induction false} BlocksConvergeExactly(env: Env, pushes: seq<Push>, key: Key)
    requires RecordsDistinct(env, pushes)
    ensures var files := PushedAll(env, EmptyIndex, pushes).files;
            BlocksConverge(env, pushes, key) <==>
              (key in files && !files[key].isDirectory) || forall p <- pushes :: Competes(env, p, key) ==> !OfFile(env, p)
  {
    var files := PushedAll(env, EmptyIndex, pushes).files;
    LatestWins(env, pushes, key);
    hide Storing, PushedAll, BlocksAt;
    if forall p <- pushes :: Competes(env, p, key) ==> !OfFile(env, p) {
      forall a | SameMembers(a, pushes) ensures BlocksAt(env, a, key).None? {
        BlocksOfLastFile(env, a, key);
      }
    } else {
      var w: nat :| Wins(env, pushes, key, w) && files[key] == Storing(env, pushes[w]).value;
      if OfFile(env, pushes[w]) {
        forall a | SameMembers(a, pushes) ensures BlocksAt(env, a, key) == Some(pushes[w].record.blocks) {
          KeptInOrder(env, pushes, a, key, w);
        }
      } else {
        var q :| q in pushes && Competes(env, q, key) && OfFile(env, q);
        TwoOrders(env, pushes, key, w, q);
      }
    }
  }

  lemma {:induction false} KeptInOrder(env: Env, pushes: seq<Push>, a: seq<Push>, key: Key, w: nat)
    requires RecordsDistinct(env, pushes) && SameMembers(a, pushes)
    requires Wins(env, pushes, key, w) && OfFile(env, pushes[w])
    ensures BlocksAt(env, a, key) == Some(pushes[w].record.blocks)
  {
    LatestWins(env, a, key);
    hide Storing, PushedAll, BlocksAt;
    assert pushes[w] in a;
    var files := PushedAll(env, EmptyIndex, a).files;
    var i: nat :| Wins(env, a, key, i) && files[key] == Storing(env, a[i]).value;
    SameWinner(env, pushes, a, key, w, i);
    assert a[i] in pushes && SameTime(env, a[i], pushes[w]);
    KeptFileHasItsBlocks(env, a, key, i);
  }

  /** With the directory first no blocks are stored; with the file in front of it they are. */
  lemma {:induction false} TwoOrders(env: Env, pushes: seq<Push>, key: Key, w: nat, q: Push)
    requires Wins(env, pushes, key, w) && !OfFile(env, pushes[w])
    requires q in pushes && Competes(env, q, key) && OfFile(env, q)
    ensures !BlocksConverge(env, pushes, key)
  {
    assert w < |pushes|;
    hide Storing, BlocksAt, Stores, Wins, LastFile;
    var a := [pushes[w]] + pushes;
    FileInFront(env, q, a, key);
    DirectoryInFront(env, pushes, key, w);
    SameMembersInFront(pushes[w], pushes, pushes);
    SameMembersInFront(q, a, pushes);
    assert SameMembers(a, pushes) && SameMembers([q] + a, pushes);
  }

  lemma {:induction false} SameMembersInFront(p: Push, a: seq<Push>, pushes: seq<Push>)
    requires p in pushes && SameMembers(a, pushes)
    ensures SameMembers([p] + a, pushes)
  {
  }

  lemma {:induction false} FileInFront(env: Env, q: Push, pushes: seq<Push>, key: Key)
    requires Competes(env, q, key) && OfFile(env, q)
    ensures BlocksAt(env, [q] + pushes, key).Some?
  {
    BlocksOfLastFile(env, [q] + pushes, key);
    hide Storing, BlocksAt;
    assert ([q] + pushes)[0] == q && Stores(env, [q] + pushes, key, 0);
  }

  lemma {:induction false} DirectoryInFront(env: Env, pushes: seq<Push>, key: Key, w: nat)
    requires Wins(env, pushes, key, w) && !OfFile(env, pushes[w])
    ensures BlocksAt(env, [pushes[w]] + pushes, key).None?
  {
    var a := [pushes[w]] + pushes;
    BlocksOfLastFile(env, a, key);
    hide Storing, BlocksAt;
    forall i: nat | Stores(env, a, key, i) ensures !OfFile(env, a[i]) {
      assert a[0] == pushes[w] && Competes(env, a[0], key);
      if i > 0 {
        assert a[i] == pushes[i - 1];
      }
    }
  }

  /** Without looking at the records: if digests tell the block texts apart, two orders end with the same block digests
      for every file that is kept. */
  lemma {:induction false} KeptDigestsConverge(env: Env, a: seq<Push>, b: seq<Push>, key: Key)
    requires TimesDistinct(env, a) && SameMembers(a, b)
    requires forall p <- a, i <- p.record.blocks :: IsDigest(i.hash)
    requires forall p, q :: p in a && q in a ==>
               var (x, y) := (Join(",", Hashes(p.record.blocks)), Join(",", Hashes(q.record.blocks)));
               env.digest(x) == env.digest(y) ==> x == y
    requires key in PushedAll(env, EmptyIndex, a).files && !PushedAll(env, EmptyIndex, a).files[key].isDirectory
    ensures BlocksAt(env, a, key).Some? && BlocksAt(env, b, key).Some?
    ensures Hashes(BlocksAt(env, a, key).value) == Hashes(BlocksAt(env, b, key).value)
  {
    SameFiles(env, a, b);
    LatestWins(env, a, key);
    LatestWins(env, b, key);
    hide Storing, PushedAll, BlocksAt, Join, IsDigest;
    var files := PushedAll(env, EmptyIndex, a).files;
    var i: nat :| Wins(env, a, key, i) && files[key] == Storing(env, a[i]).value;
    var j: nat :| Wins(env, b, key, j) && files[key] == Storing(env, b[j]).value;
    KeptFileHasItsBlocks(env, a, key, i);
    KeptFileHasItsBlocks(env, b, key, j);
    assert a[i] in a && b[j] in a;
    SameFileSameDigests(env, a[i], b[j]);
  }

  lemma {:induction false} SameFileSameDigests(env: Env, p: Push, q: Push)
    requires OfFile(env, p) && Storing(env, p) == Storing(env, q)
    requires (forall i <- p.record.blocks :: IsDigest(i.hash)) && forall i <- q.record.blocks :: IsDigest(i.hash)
    requires var (x, y) := (Join(",", Hashes(p.record.blocks)), Join(",", Hashes(q.record.blocks)));
             env.digest(x) == env.digest(y) ==> x == y
    ensures Hashes(p.record.blocks) == Hashes(q.record.blocks)
  {
    hide Join, IsDigest;
    HashTellsBlocks(env.digest, p.record.blocks, q.record.blocks);
  }

  /** A file and then, later in time, a directory of the same path: the files converge, the block lists do not. */
  lemma {:induction false} DirectoryOverFile(env: Env)
    requires env.digest("h") != ""
    ensures var p := Push("d", BepFile("x", FILE, 1, 0, [Version(1, 1)], false, 5, [BlockInfo("h", 0, 5)], 1));
            var q := Push("d", BepFile("x", DIRECTORY, 2, 0, [Version(1, 2)], false, 0, [], 2));
            && PushedAll(env, EmptyIndex, [p, q]).files == PushedAll(env, EmptyIndex, [q, p]).files
            && BlocksAt(env, [p, q], ("d", "x")) == Some([BlockInfo("h", 0, 5)])
            && BlocksAt(env, [q, p], ("d", "x")) == None
  {
    var p := Push("d", BepFile("x", FILE, 1, 0, [Version(1, 1)], false, 5, [BlockInfo("h", 0, 5)], 1));
    var q := Push("d", BepFile("x", DIRECTORY, 2, 0, [Version(1, 2)], false, 0, [], 2));
    assert Hashes(p.record.blocks) == ["h"] && Join(",", ["h"]) == "h";
    assert p.record.blocks[1..] == [];
    TwoPushes(env, p, q);
    TwoPushes(env, q, p);
    assert [p, q][1..] == [q] && [q, p][1..] == [p] && [p][1..] == [] && [q][1..] == [];
  }

  /** Without distinct times the order decides: of two records with one time the first pushed stays. */
  lemma {:induction false} TiesGoToTheFirst(env: Env, p: Push, q: Push)
    requires Storing(env, p).Some? && Storing(env, q).Some? && KeyOf(Storing(env, p).value) == KeyOf(Storing(env, q).value)
    ensures var key := KeyOf(Storing(env, p).value);
            var pq, qp := PushedAll(env, EmptyIndex, [p, q]).files, PushedAll(env, EmptyIndex, [q, p]).files;
            && key in pq && key in qp
            && (pq[key] == qp[key] <==>
                Storing(env, p).value.lastModified != Storing(env, q).value.lastModified || Storing(env, p) == Storing(env, q))
  {
    hide PushedAll, Pushed;
    TwoPushes(env, p, q);
    TwoPushes(env, q, p);
  }

  lemma {:induction false} TwoPushes(env: Env, p: Push, q: Push)
    requires Storing(env, p).Some? && Storing(env, q).Some? && KeyOf(Storing(env, p).value) == KeyOf(Storing(env, q).value)
    ensures var (f, g) := (Storing(env, p).value, Storing(env, q).value);
            PushedAll(env, EmptyIndex, [p, q]).files == map[KeyOf(f) := if g.lastModified > f.lastModified then g else f]
  {
    hide Pushed, Storing;
    var ix := Pushed(env, EmptyIndex, p.folder, p.record).0;
    PushedIs(env, EmptyIndex, p);
    PushedIs(env, ix, q);
    assert [p, q][1..] == [q];
    assert PushedAll(env, ix, [q]) == PushedAll(env, Pushed(env, ix, q.folder, q.record).0, []) by {
      assert [q][1..] == [];
    }
    assert PushedAll(env, EmptyIndex, [p, q]) == PushedAll(env, ix, [q]);
  }

  /** Every file in the index has blocks, and they are the blocks its size and digest were taken from. */
  predicate BlocksFit(env: Env, ix: Index) {
    forall key <- ix.files ::
      && KeyOf(ix.files[key]) == key
      && (!ix.files[key].isDirectory ==>
            key in ix.blocks && ix.files[key].size == TotalSize(ix.blocks[key]) && ix.files[key].hash == HashBlocks(env.digest, ix.blocks[key]))
  }

  lemma {:induction false} PushKeepsBlocks(env: Env, ix: Index, p: Push)
    requires BlocksFit(env, ix)
    ensures BlocksFit(env, Pushed(env, ix, p.folder, p.record).0)
  {
    hide HashBlocks;
  }

  // ----- how far an index has come

  function Initial(indexId: int): IndexInfo {
    IndexInfo(indexId, 0, -1)
  }

  function Raised(was: int, now: Option<int>): int {
    if now.Some? && now.value > was then now.value else was
  }

  /** An index is only known once its id has been announced; its numbers never go down. */
  function Updated(ix: Index, key: Key, indexId: Option<int>, maxSequence: Option<int>, localSequence: Option<int>): Outcome<Index> {
    if key !in ix.infos && indexId.None? then Thrown
    else
      var info := if key in ix.infos then ix.infos[key] else Initial(indexId.value);
      Done(ix.(infos := ix.infos[key := IndexInfo(if indexId.Some? then indexId.value else info.indexId,
                                                  Raised(info.localSequence, localSequence), Raised(info.maxSequence, maxSequence))]))
  }

  datatype Message = Message(device: string, folder: string, files: seq<BepFile>)

  /** The highest sequence number of the records, or -1. */
  function LastSequence(files: seq<BepFile>): int {
    if files == [] then -1
    else
      var before := LastSequence(files[..|files| - 1]);
      var s := files[|files| - 1].sequence;
      if s > before then s else before
  }

  function Pushes(m: Message): seq<Push> {
    seq(|m.files|, i requires 0 <= i < |m.files| => Push(m.folder, m.files[i]))
  }

  /** The highest sequence of a message is lost when the index was never announced. */
  function Sequenced(ix: Index, m: Message): Index {
    var r := Updated(ix, (m.device, m.folder), None, None, Some(LastSequence(m.files)));
    if r.Done? then r.value else ix
  }

  /** Records are pushed first. */
  function Processed(env: Env, ix: Index, m: Message): Index {
    Sequenced(PushedAll(env, ix, Pushes(m)), m)
  }

  datatype Event = Announced(device: string, folder: string, indexId: int, maxSequence: int) | Received(message: Message)

  function Handled(env: Env, ix: Index, e: Event): Index {
    match e
    case Announced(device, folder, indexId, maxSequence) => Updated(ix, (device, folder), Some(indexId), Some(maxSequence), None).value
    case Received(m) => Processed(env, ix, m)
  }

  function HandledAll(env: Env, ix: Index, events: seq<Event>): Index {
    if events == [] then ix else Handled(env, HandledAll(env, ix, events[..|events| - 1]), events[|events| - 1])
  }

  predicate Announces(e: Event, key: Key) {
    e.Announced? && (e.device, e.folder) == key
  }

  predicate Announcing(events: seq<Event>, key: Key) {
    exists e <- events :: Announces(e, key)
  }

  function MaxInt(a: int, b: int): int {
    if a < b then b else a
  }

  /** The highest of 0 and all sequence numbers received for the index after it was first announced. */
  function Local(events: seq<Event>, key: Key): int {
    if events == [] then 0
    else
      var init := events[..|events| - 1];
      var e := events[|events| - 1];
      if e.Received? && (e.message.device, e.message.folder) == key && Announcing(init, key)
      then MaxInt(Local(init, key), LastSequence(e.message.files)) else Local(init, key)
  }

  /** The highest of -1 and all announced numbers. */
  function Announcement(events: seq<Event>, key: Key): int {
    if events == [] then -1
    else
      var init := events[..|events| - 1];
      var e := events[|events| - 1];
      if Announces(e, key) then MaxInt(Announcement(init, key), e.maxSequence) else Announcement(init, key)
  }

  lemma {:induction false} PushesKeepInfos(env: Env, ix: Index, pushes: seq<Push>)
    ensures PushedAll(env, ix, pushes).infos == ix.infos
    decreases |pushes|
  {
    if pushes != [] {
      PushesKeepInfos(env, Pushed(env, ix, pushes[0].folder, pushes[0].record).0, pushes[1..]);
    }
  }

  /** In every run from an empty index the numbers kept for a device and folder are these two. */
  lemma {:induction false} SequencesTracked(env: Env, events: seq<Event>, key: Key)
    ensures var infos := HandledAll(env, EmptyIndex, events).infos;
            && (key in infos <==> Announcing(events, key))
            && (key in infos ==> infos[key].localSequence == Local(events, key) && infos[key].maxSequence == Announcement(events, key))
            && (key !in infos ==> Local(events, key) == 0 && Announcement(events, key) == -1)
    decreases |events|
  {
    if events != [] {
      var init := events[..|events| - 1];
      var e := events[|events| - 1];
      SequencesTracked(env, init, key);
      assert events == init + [e];
      assert Announcing(events, key) <==> Announcing(init, key) || Announces(e, key) by {
        AnnouncingSnoc(init, e, key);
      }
      if e.Received? {
        PushesKeepInfos(env, HandledAll(env, EmptyIndex, init), Pushes(e.message));
      }
      LastAtLeast(if e.Received? then e.message.files else []);
    }
  }

  lemma {:induction false} AnnouncingSnoc(init: seq<Event>, e: Event, key: Key)
    ensures Announcing(init + [e], key) <==> Announcing(init, key) || Announces(e, key)
  {
    assert forall x :: x in init + [e] <==> x in init || x == e;
  }

  lemma {:induction false} LastAtLeast(files: seq<BepFile>)
    ensures LastSequence(files) >= -1
    decreases |files|
  {
    if files != [] {
      LastAtLeast(files[..|files| - 1]);
    }
  }

  /** Both numbers only grow as the run goes on. */
  lemma {:induction false} SequencesGrow(events: seq<Event>, more: seq<Event>, key: Key)
    ensures Local(events, key) <= Local(events + more, key) && Announcement(events, key) <= Announcement(events + more, key)
    decreases |more|
  {
    if more == [] {
      assert events + more == events;
    } else {
      assert (events + more)[..|events + more| - 1] == events + more[..|more| - 1];
      SequencesGrow(events, more[..|more| - 1], key);
    }
  }

  /** Once an index is known, neither the order nor the repetition of what follows matters: its numbers are the
      largest of all that occur. */
  lemma {:induction false} SequencesAreMaxima(first: seq<Event>, events: seq<Event>, key: Key, bound: int)
    requires Announcing(first, key)
    ensures Local(first + events, key) <= bound <==>
              Local(first, key) <= bound && forall e <- events :: Raises(e, key) ==> LastSequence(e.message.files) <= bound
    ensures Announcement(first + events, key) <= bound <==>
              Announcement(first, key) <= bound && forall e <- events :: Announces(e, key) ==> e.maxSequence <= bound
    decreases |events|
  {
    if events == [] {
      assert first + events == first;
    } else {
      var (init, e) := (events[..|events| - 1], events[|events| - 1]);
      assert (first + events)[..|first + events| - 1] == first + init;
      SequencesAreMaxima(first, init, key, bound);
      assert events == init + [e] && forall x :: x in events <==> x in init || x == e;
      StillAnnouncing(first, init, key);
    }
  }

  predicate Raises(e: Event, key: Key) {
    e.Received? && (e.message.device, e.message.folder) == key
  }

  lemma {:induction false} StillAnnouncing(first: seq<Event>, more: seq<Event>, key: Key)
    requires Announcing(first, key)
    ensures Announcing(first + more, key)
  {
    var e :| e in first && Announces(e, key);
    assert e in first + more;
  }

  /** Whether a device has sent all it announced for every shared folder. */
  predicate Acquired(ix: Index, shared: seq<string>, device: string) {
    forall folder <- shared :: (device, folder) in ix.infos && ix.infos[(device, folder)].localSequence >= ix.infos[(device, folder)].maxSequence
  }

  lemma {:induction false} AcquiredExactly(env: Env, events: seq<Event>, shared: seq<string>, device: string)
    ensures Acquired(HandledAll(env, EmptyIndex, events), shared, device)
       <==> forall folder <- shared ::
              Announcing(events, (device, folder)) && Announcement(events, (device, folder)) <= Local(events, (device, folder))
  {
    forall folder | folder in shared
      ensures var (infos, key) := (HandledAll(env, EmptyIndex, events).infos, (device, folder));
              && (key in infos <==> Announcing(events, key))
              && (key in infos ==> infos[key].localSequence == Local(events, key) && infos[key].maxSequence == Announcement(events, key))
    {
      SequencesTracked(env, events, (device, folder));
    }
  }
}
