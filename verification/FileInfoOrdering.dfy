/** The two orders in which files are listed. */
module FileInfoOrdering {
  import opened IndexRecords

  datatype Ordering = AlphaAscDirFirst | LastModDesc

  const PARENT_PATH: string := ".."
  const ROOT_PATH: string := ""

  function Sign(a: int, b: int): int {
    if a < b then -1 else if a > b then 1 else 0
  }

  /** Texts compare by their first different character, and a prefix comes first. */
  function CompareText(a: string, b: string): int {
    if a == "" || b == "" then Sign(|a|, |b|)
    else if a[0] != b[0] then Sign(a[0] as int, b[0] as int)
    else CompareText(a[1..], b[1..])
  }

  /** The first comparison that decides. */
  function First(x: int, y: int, z: int): int {
    if x != 0 then x else if y != 0 then y else z
  }

  function ParentFirst(a: FileInfo, b: FileInfo): int {
    Sign(if a.path == PARENT_PATH then 0 else 1, if b.path == PARENT_PATH then 0 else 1)
  }

  function Compare(o: Ordering, a: FileInfo, b: FileInfo): int {
    match o
    case AlphaAscDirFirst =>
      First(ParentFirst(a, b), Sign(if a.isDirectory then 1 else 2, if b.isDirectory then 1 else 2), CompareText(a.path, b.path))
    case LastModDesc => First(ParentFirst(a, b), Sign(b.lastModified, a.lastModified), CompareText(a.path, b.path))
  }

  lemma {:induction false} TextOrder(a: string, b: string)
    ensures CompareText(a, b) == 0 <==> a == b
    ensures CompareText(b, a) == -CompareText(a, b)
    decreases |a|
  {
    if a != "" && b != "" {
      assert a == [a[0]] + a[1..] && b == [b[0]] + b[1..];
      TextOrder(a[1..], b[1..]);
    }
  }

  lemma {:induction false} TextTransitive(a: string, b: string, c: string)
    requires CompareText(a, b) <= 0 && CompareText(b, c) <= 0
    ensures CompareText(a, c) <= 0
    decreases |a|
  {
    if a != "" && b != "" && c != "" && a[0] == b[0] == c[0] {
      TextTransitive(a[1..], b[1..], c[1..]);
    }
  }

  /** Both orders are total, antisymmetric and transitive, and only files of one path can compare equal. */
  lemma {:induction false} TotalOrder(o: Ordering, a: FileInfo, b: FileInfo, c: FileInfo)
    ensures Compare(o, b, a) == -Compare(o, a, b)
    ensures a.path != b.path ==> Compare(o, a, b) != 0
    ensures Compare(o, a, b) <= 0 && Compare(o, b, c) <= 0 ==> Compare(o, a, c) <= 0
  {
    TextOrder(a.path, b.path);
    TextOrder(b.path, c.path);
    TextOrder(a.path, c.path);
    hide CompareText;
    if CompareText(a.path, b.path) <= 0 && CompareText(b.path, c.path) <= 0 {
      TextTransitive(a.path, b.path, c.path);
    }
  }

  // ----- sorting

  predicate Ordered(o: Ordering, list: seq<FileInfo>) {
    list == [] || ((forall f <- list[1..] :: Compare(o, list[0], f) <= 0) && Ordered(o, list[1..]))
  }

  predicate DistinctPaths(list: seq<FileInfo>) {
    list == [] || ((forall f <- list[1..] :: f.path != list[0].path) && DistinctPaths(list[1..]))
  }

  /** Before the first file that is not smaller, so that equal files keep their order. */
  function Insert(o: Ordering, f: FileInfo, list: seq<FileInfo>): seq<FileInfo> {
    if list == [] || Compare(o, list[0], f) >= 0 then [f] + list else [list[0]] + Insert(o, f, list[1..])
  }

  function Sort(o: Ordering, list: seq<FileInfo>): seq<FileInfo> {
    if list == [] then [] else Insert(o, list[0], Sort(o, list[1..]))
  }

  function Files(list: seq<FileInfo>): set<FileInfo> {
    set f <- list
  }

  lemma {:induction false} NoFiles(list: seq<FileInfo>)
    ensures list == [] <==> Files(list) == {}
  {
    if list != [] {
      assert list[0] in Files(list);
    }
  }

  lemma {:induction false} FilesJoin(a: seq<FileInfo>, b: seq<FileInfo>)
    ensures Files(a + b) == Files(a) + Files(b)
  {
  }

  lemma {:induction false} OrderedJoin(o: Ordering, f: FileInfo, rest: seq<FileInfo>)
    ensures Ordered(o, [f] + rest) <==> Ordered(o, rest) && forall g <- rest :: Compare(o, f, g) <= 0
    ensures DistinctPaths([f] + rest) <==> DistinctPaths(rest) && forall g <- rest :: g.path != f.path
  {
    assert ([f] + rest)[1..] == rest;
  }

  lemma {:induction false} InsertOrders(o: Ordering, f: FileInfo, list: seq<FileInfo>)
    ensures var r := Insert(o, f, list);
            && Files(r) == {f} + Files(list)
            && (Ordered(o, list) ==> Ordered(o, r))
            && (DistinctPaths([f] + list) ==> DistinctPaths(r))
    decreases |list|
  {
    hide Ordered, DistinctPaths, Compare;
    OrderedJoin(o, f, list);
    FilesJoin([f], list);
    if list != [] {
      var (g, rest) := (list[0], list[1..]);
      assert list == [g] + rest;
      OrderedJoin(o, g, rest);
      FilesJoin([g], rest);
      if Compare(o, g, f) >= 0 {
        forall h | h in list && Ordered(o, list) ensures Compare(o, f, h) <= 0 {
          TotalOrder(o, f, g, h);
          TotalOrder(o, g, f, h);
        }
      } else {
        InsertOrders(o, f, rest);
        var tail := Insert(o, f, rest);
        hide Insert;
        OrderedJoin(o, f, rest);
        OrderedJoin(o, g, tail);
        FilesJoin([g], tail);
        assert forall h :: h in tail <==> h == f || h in rest by {
          assert forall h :: h in tail <==> h in Files(tail);
          assert forall h :: h in rest <==> h in Files(rest);
        }
      }
    }
  }

  lemma {:induction false} SortOrders(o: Ordering, list: seq<FileInfo>)
    ensures Ordered(o, Sort(o, list)) && Files(Sort(o, list)) == Files(list)
    ensures DistinctPaths(list) ==> DistinctPaths(Sort(o, list))
    decreases |list|
  {
    if list != [] {
      var (f, rest) := (list[0], list[1..]);
      assert list == [f] + rest;
      SortOrders(o, rest);
      var sorted := Sort(o, rest);
      hide Ordered, DistinctPaths, Compare, Insert;
      InsertOrders(o, f, sorted);
      OrderedJoin(o, f, rest);
      OrderedJoin(o, f, sorted);
      assert forall g :: g in sorted <==> g in rest by {
        assert forall g :: g in sorted <==> g in Files(sorted);
        assert forall g :: g in rest <==> g in Files(rest);
      }
      FilesJoin([f], rest);
    }
  }

  /** With distinct paths there is only one ordered list of the same files. */
  lemma {:induction false} OrderUnique(o: Ordering, a: seq<FileInfo>, b: seq<FileInfo>)
    requires Ordered(o, a) && Ordered(o, b) && DistinctPaths(a) && DistinctPaths(b) && Files(a) == Files(b)
    ensures a == b
    decreases |a|
  {
    NoFiles(a);
    NoFiles(b);
    if a != [] {
      var (f, g, as', bs) := (a[0], b[0], a[1..], b[1..]);
      assert a == [f] + as' && b == [g] + bs;
      OrderedJoin(o, f, as');
      OrderedJoin(o, g, bs);
      assert f in Files(b) && g in Files(a);
      FilesJoin([f], as');
      FilesJoin([g], bs);
      TotalOrder(o, f, g, f);
      assert f == g;
      assert Files(as') == Files(a) - {f} && Files(bs) == Files(b) - {g};
      OrderUnique(o, as', bs);
    }
  }

  /** Sorting forgets the order it starts from. */
  lemma {:induction false} SortUnique(o: Ordering, a: seq<FileInfo>, b: seq<FileInfo>)
    requires DistinctPaths(a) && DistinctPaths(b) && Files(a) == Files(b)
    ensures Sort(o, a) == Sort(o, b)
  {
    SortOrders(o, a);
    SortOrders(o, b);
    OrderUnique(o, Sort(o, a), Sort(o, b));
  }

  // ----- a parent entry in front

  predicate Overtakes(o: Ordering, f: FileInfo, parent: FileInfo) {
    o.LastModDesc? && f.path == PARENT_PATH && f.lastModified > parent.lastModified
  }

  /** Re-sorting a list that starts with the parent entry gives the entry followed by the newly sorted rest, unless
      the newest first order meets a file that is itself called like the parent and has a later time. */
  lemma {:induction false} ResortExactly(o: Ordering, was: Ordering, parent: FileInfo, list: seq<FileInfo>)
    requires parent.path == PARENT_PATH && parent.isDirectory && DistinctPaths(list)
    ensures Sort(o, [parent] + Sort(was, list)) == [parent] + Sort(o, list)
       <==> !exists f <- list :: Overtakes(o, f, parent)
  {
    var s, again := Sort(o, list), [parent] + Sort(was, list);
    SortOrders(was, list);
    SortOrders(o, list);
    SortUnique(o, Sort(was, list), list);
    assert again[1..] == Sort(was, list) && Sort(o, again) == Insert(o, parent, s);
    assert forall f :: f in s <==> f in list by {
      assert forall f :: f in s <==> f in Files(s);
      assert forall f :: f in list <==> f in Files(list);
    }
    hide Sort;
    InsertFirst(o, parent, s);
    if s != [] {
      OvertakesExactly(o, s[0], parent);
    }
    if f :| f in list && Overtakes(o, f, parent) {
      var i :| 0 <= i < |s| && s[i] == f;
      OvertakesExactly(o, f, parent);
      FirstIsLeast(o, s, i);
      hide Overtakes, Compare;
      TotalOrder(o, parent, s[0], f);
      TotalOrder(o, f, parent, f);
    }
  }

  lemma {:induction false} OvertakesExactly(o: Ordering, f: FileInfo, parent: FileInfo)
    requires parent.path == PARENT_PATH && parent.isDirectory
    ensures Compare(o, f, parent) < 0 <==> Overtakes(o, f, parent)
  {
    TextOrder(f.path, parent.path);
  }

  lemma {:induction false} FirstIsLeast(o: Ordering, s: seq<FileInfo>, i: nat)
    requires Ordered(o, s) && i < |s|
    ensures Compare(o, s[0], s[i]) <= 0
  {
    TotalOrder(o, s[0], s[i], s[0]);
    assert i > 0 ==> s[i] == s[1..][i - 1];
  }

  lemma {:induction false} InsertFirst(o: Ordering, f: FileInfo, s: seq<FileInfo>)
    ensures Insert(o, f, s) == [f] + s <==> s == [] || Compare(o, s[0], f) >= 0
  {
    if s != [] && Compare(o, s[0], f) < 0 {
      TotalOrder(o, f, f, f);
      assert Insert(o, f, s)[0] == s[0] != ([f] + s)[0];
    }
  }
}
