/** The browser of one folder: cached listings and file infos over the index. */
module IndexBrowser {
  import opened Wrappers
  import opened IndexRecords
  import opened FileInfoOrdering
  import opened PreloadQueue
  import IndexHandler

  datatype Settings = Settings(folder: string, includeParentInList: bool, allowParentInRoot: bool)

  function ParentInfo(b: Settings): FileInfo {
    FileInfo(b.folder, PARENT_PATH, ROOT_PATH, true, 0, "", 0, [], false)
  }

  function RootInfo(b: Settings): FileInfo {
    FileInfo(b.folder, ROOT_PATH, ROOT_PATH, true, 0, "", 0, [], false)
  }

  predicate HasParent(b: Settings, path: string) {
    b.includeParentInList && (path != ROOT_PATH || b.allowParentInRoot)
  }

  datatype Cache = Cache(lists: map<string, seq<FileInfo>>, infos: map<string, FileInfo>)

  const Cold := Cache(map[], map[])

  type Files = map<Key, FileInfo>

  predicate Keyed(files: Files) {
    forall key <- files :: KeyOf(files[key]) == key
  }

  // ----- what the repository answers

  predicate Live(b: Settings, files: Files, f: FileInfo) {
    (b.folder, f.path) in files && files[(b.folder, f.path)] == f && !f.deleted
  }

  /** The answer to a query for a folder and parent: each matching record once, in any order. */
  ghost predicate IsQuery(b: Settings, files: Files, path: string, list: seq<FileInfo>) {
    DistinctPaths(list) && forall f :: f in list <==> Live(b, files, f) && f.parent == path
  }

  /** A fresh listing: the parent entry if there is one, then the query in order. */
  function Listed(b: Settings, path: string, o: Ordering, query: seq<FileInfo>): seq<FileInfo> {
    (if HasParent(b, path) then [ParentInfo(b)] else []) + Sort(o, query)
  }

  ghost predicate IsFresh(b: Settings, files: Files, path: string, o: Ordering, list: seq<FileInfo>) {
    exists query: seq<FileInfo> :: IsQuery(b, files, path, query) && list == Listed(b, path, o, query)
  }

  /** Both caches agree with the index. */
  ghost predicate Coherent(b: Settings, files: Files, o: Ordering, c: Cache) {
    && (forall path <- c.lists :: IsFresh(b, files, path, o, c.lists[path]))
    && (forall path <- c.infos :: c.infos[path].path == path && Live(b, files, c.infos[path]))
  }

  /** There is only one fresh listing of a path, so a cached one is what a load would give now. */
  lemma {:induction false} FreshUnique(b: Settings, files: Files, path: string, o: Ordering, x: seq<FileInfo>, y: seq<FileInfo>)
    requires IsFresh(b, files, path, o, x) && IsFresh(b, files, path, o, y)
    ensures x == y
  {
    var p :| IsQuery(b, files, path, p) && x == Listed(b, path, o, p);
    var q :| IsQuery(b, files, path, q) && y == Listed(b, path, o, q);
    assert FileInfoOrdering.Files(p) == FileInfoOrdering.Files(q);
    SortUnique(o, p, q);
  }

  // ----- operations on the caches

  function AllByPath(list: seq<FileInfo>): map<string, FileInfo> {
    if list == [] then map[] else AllByPath(list[..|list| - 1])[list[|list| - 1].path := list[|list| - 1]]
  }

  /** A listing that is not cached is loaded; its records go into the cache of file infos. */
  function Listing(b: Settings, o: Ordering, c: Cache, path: string, query: seq<FileInfo>): (Cache, seq<FileInfo>) {
    if path in c.lists then (c, c.lists[path])
    else
      var list := Listed(b, path, o, query);
      (Cache(c.lists[path := list], c.infos + AllByPath(query)), list)
  }

  function LookedUp(b: Settings, files: Files, c: Cache, path: string): (Cache, Outcome<FileInfo>) {
    if path == ROOT_PATH then (c, Done(RootInfo(b)))
    else if path in c.infos then (c, Done(c.infos[path]))
    else if (b.folder, path) in files && !files[(b.folder, path)].deleted
    then (c.(infos := c.infos[path := files[(b.folder, path)]]), Done(files[(b.folder, path)]))
    else (c, Thrown)
  }

  function Resorted(o: Ordering, lists: map<string, seq<FileInfo>>): map<string, seq<FileInfo>> {
    map path <- lists :: Sort(o, lists[path])
  }

  /** The listings while those in `keys` are still in the old order. */
  function Partly(o: Ordering, lists: map<string, seq<FileInfo>>, keys: set<string>): map<string, seq<FileInfo>> {
    map path <- lists :: if path in keys then lists[path] else Sort(o, lists[path])
  }

  lemma {:induction false} AllLeft(o: Ordering, lists: map<string, seq<FileInfo>>)
    ensures Partly(o, lists, lists.Keys) == lists && Partly(o, lists, {}) == Resorted(o, lists)
  {
  }

  lemma {:induction false} OneResorted(o: Ordering, lists: map<string, seq<FileInfo>>, keys: set<string>, path: string)
    requires path in keys && keys <= lists.Keys
    ensures var before := Partly(o, lists, keys);
            path in before && before[path := Sort(o, before[path])] == Partly(o, lists, keys - {path})
  {
  }

  lemma {:induction false} AllByPathIs(list: seq<FileInfo>)
    ensures forall path <- AllByPath(list) :: AllByPath(list)[path].path == path && AllByPath(list)[path] in list
    decreases |list|
  {
    if list != [] {
      AllByPathIs(list[..|list| - 1]);
    }
  }

  lemma {:induction false} ListingCoherent(b: Settings, files: Files, o: Ordering, c: Cache, path: string, query: seq<FileInfo>)
    requires Coherent(b, files, o, c) && IsQuery(b, files, path, query)
    ensures var (c', list) := Listing(b, o, c, path, query);
            Coherent(b, files, o, c') && IsFresh(b, files, path, o, list)
  {
    AllByPathIs(query);
    assert IsFresh(b, files, path, o, Listed(b, path, o, query));
  }

  lemma {:induction false} LookupCoherent(b: Settings, files: Files, o: Ordering, c: Cache, path: string)
    requires Coherent(b, files, o, c) && Keyed(files)
    ensures var (c', r) := LookedUp(b, files, c, path);
            && Coherent(b, files, o, c')
            && (path != ROOT_PATH ==> (r.Done? <==> (b.folder, path) in files && !files[(b.folder, path)].deleted))
            && (path != ROOT_PATH && r.Done? ==> r.value == files[(b.folder, path)])
  {
  }

  /** A file of the listing that the given order puts before the parent entry. */
  ghost predicate Usurps(b: Settings, files: Files, path: string, o: Ordering, f: FileInfo) {
    HasParent(b, path) && Live(b, files, f) && f.parent == path && Overtakes(o, f, ParentInfo(b))
  }

  /** Re-sorting a fresh listing gives a fresh listing exactly if no file is put before the parent entry: with the
      parent entry shown, newest first and a file called `..` that is later than the entry, a fresh load differs. */
  lemma {:induction false} ResortFresh(b: Settings, files: Files, path: string, was: Ordering, o: Ordering, list: seq<FileInfo>)
    requires IsFresh(b, files, path, was, list)
    ensures IsFresh(b, files, path, o, Sort(o, list)) <==> !exists f :: Usurps(b, files, path, o, f)
  {
    var q :| IsQuery(b, files, path, q) && list == Listed(b, path, was, q);
    SortOrders(was, q);
    assert IsFresh(b, files, path, o, Listed(b, path, o, q));
    if IsFresh(b, files, path, o, Sort(o, list)) {
      FreshUnique(b, files, path, o, Sort(o, list), Listed(b, path, o, q));
    }
    hide IsFresh;
    if HasParent(b, path) {
      ResortExactly(o, was, ParentInfo(b), q);
      assert forall f :: Usurps(b, files, path, o, f) <==> f in q && Overtakes(o, f, ParentInfo(b));
    } else {
      assert list == Sort(was, q);
      SortUnique(o, list, q);
      assert Sort(o, list) == Listed(b, path, o, q);
    }
  }

  /** Newest first, a record called `..` that is later than the parent entry stands before it in one of these listings. */
  predicate Overtaken(b: Settings, files: Files, o: Ordering, lists: set<string>) {
    var key := (b.folder, PARENT_PATH);
    && key in files && !files[key].deleted && Overtakes(o, files[key], ParentInfo(b))
    && files[key].parent in lists && HasParent(b, files[key].parent)
  }

  lemma {:induction false} OvertakenIs(b: Settings, files: Files, o: Ordering, lists: set<string>)
    requires Keyed(files)
    ensures Overtaken(b, files, o, lists) <==> exists path, f :: path in lists && Usurps(b, files, path, o, f)
  {
    var key := (b.folder, PARENT_PATH);
    if Overtaken(b, files, o, lists) {
      assert Usurps(b, files, files[key].parent, o, files[key]);
    }
  }

  /** Sorting the cached listings again keeps them coherent exactly if none of them has its parent entry overtaken. */
  lemma {:induction false} ResortCoherent(b: Settings, files: Files, was: Ordering, o: Ordering, c: Cache)
    requires Coherent(b, files, was, c) && Keyed(files)
    ensures Coherent(b, files, o, c.(lists := Resorted(o, c.lists))) <==> !Overtaken(b, files, o, c.lists.Keys)
  {
    hide IsFresh, Sort, Overtaken;
    var lists := Resorted(o, c.lists);
    forall path | path in c.lists
      ensures IsFresh(b, files, path, o, lists[path]) <==> !exists f :: Usurps(b, files, path, o, f)
    {
      ResortFresh(b, files, path, was, o, c.lists[path]);
    }
    OvertakenIs(b, files, o, c.lists.Keys);
    hide Usurps;
  }

  // ----- runs

  datatype Action = Add(push: Push) | List(path: string, query: seq<FileInfo>) | Lookup(path: string) | Order(ordering: Ordering)

  datatype State = State(index: Index, ordering: Ordering, cache: Cache)

  /** A record that is stored posts a change, and a change in the folder empties both caches. */
  ghost function Act(env: Env, b: Settings, s: State, a: Action): Option<State> {
    match a
    case Add(p) =>
      var (ix, r) := Pushed(env, s.index, p.folder, p.record);
      Some(s.(index := ix, cache := if r.Done? && r.value.Some? && r.value.value.folder == b.folder then Cold else s.cache))
    case List(path, query) =>
      if IsQuery(b, s.index.files, path, query) then Some(s.(cache := Listing(b, s.ordering, s.cache, path, query).0)) else None
    case Lookup(path) => Some(s.(cache := LookedUp(b, s.index.files, s.cache, path).0))
    case Order(o) => Some(s.(ordering := o, cache := s.cache.(lists := Resorted(o, s.cache.lists))))
  }

  ghost function ActAll(env: Env, b: Settings, s: State, actions: seq<Action>): Option<State>
    decreases |actions|
  {
    if actions == [] then Some(s)
    else
      var next :- Act(env, b, s, actions[0]);
      ActAll(env, b, next, actions[1..])
  }

  /** The order asked for leaves the parent entry of every cached listing in front. */
  predicate KeepsParents(b: Settings, s: State, a: Action) {
    a.Order? ==> !Overtaken(b, s.index.files, a.ordering, s.cache.lists.Keys)
  }

  ghost predicate Good(b: Settings, s: State) {
    Keyed(s.index.files) && Coherent(b, s.index.files, s.ordering, s.cache)
  }

  lemma {:induction false} AddGood(env: Env, b: Settings, s: State, p: Push)
    requires Good(b, s)
    ensures Good(b, Act(env, b, s, Add(p)).value)
  {
    hide Storing, Pushed;
    var ix := Pushed(env, s.index, p.folder, p.record).0;
    PushedIs(env, s.index, p);
    PushPosts(env, s.index, p);
    var next := Act(env, b, s, Add(p)).value;
    if next.cache != Cold {
      assert forall path :: (b.folder, path) in ix.files <==> (b.folder, path) in s.index.files;
      forall path | path in s.cache.lists ensures IsFresh(b, ix.files, path, s.ordering, s.cache.lists[path]) {
        var q :| IsQuery(b, s.index.files, path, q) && s.cache.lists[path] == Listed(b, path, s.ordering, q);
        assert forall f :: Live(b, ix.files, f) <==> Live(b, s.index.files, f);
        assert IsQuery(b, ix.files, path, q);
      }
    }
  }

  /** The index changes exactly when a record is stored and posted, and then at the key of that record alone. */
  lemma {:induction false} PushPosts(env: Env, ix: Index, p: Push)
    ensures var (ix', r) := Pushed(env, ix, p.folder, p.record);
            if r.Done? && r.value.Some?
            then ix'.files == ix.files[KeyOf(r.value.value) := r.value.value] && r.value.value.path == p.record.name
            else ix'.files == ix.files
  {
  }

  /** An action leaves the caches agreeing with the index exactly if it does not sort a listing anew whose parent entry
      is overtaken. */
  lemma {:induction false} ActGood(env: Env, b: Settings, s: State, a: Action)
    requires Good(b, s) && Act(env, b, s, a).Some?
    ensures Good(b, Act(env, b, s, a).value) <==> KeepsParents(b, s, a)
  {
    match a
    case Add(p) => AddGood(env, b, s, p);
    case List(path, query) => ListingCoherent(b, s.index.files, s.ordering, s.cache, path, query);
    case Lookup(path) => LookupCoherent(b, s.index.files, s.ordering, s.cache, path);
    case Order(o) => ResortCoherent(b, s.index.files, s.ordering, o, s.cache);
  }

  /** Whether no step of a run sorts a listing anew whose parent entry is overtaken. */
  ghost predicate ParentsKept(env: Env, b: Settings, s: State, actions: seq<Action>)
    decreases |actions|
  {
    actions != [] ==>
      KeepsParents(b, s, actions[0])
      && (Act(env, b, s, actions[0]).Some? ==> ParentsKept(env, b, Act(env, b, s, actions[0]).value, actions[1..]))
  }

  /** Whether the caches agree with the index after every step of a run. */
  ghost predicate AlwaysGood(env: Env, b: Settings, s: State, actions: seq<Action>)
    decreases |actions|
  {
    Good(b, s)
    && (actions != [] && Act(env, b, s, actions[0]).Some? ==> AlwaysGood(env, b, Act(env, b, s, actions[0]).value, actions[1..]))
  }

  /** In every run of changes, listings, lookups and orderings, what is cached is what the index holds, all the time,
      exactly if no step sorts a cached listing newest first that has a record called `..` later than its parent entry. */
  lemma {:induction false} CachesCoherent(env: Env, b: Settings, o: Ordering, actions: seq<Action>)
    requires ActAll(env, b, State(EmptyIndex, o, Cold), actions).Some?
    ensures AlwaysGood(env, b, State(EmptyIndex, o, Cold), actions) <==> ParentsKept(env, b, State(EmptyIndex, o, Cold), actions)
  {
    RunGood(env, b, State(EmptyIndex, o, Cold), actions);
  }

  lemma {:induction false} RunGood(env: Env, b: Settings, s: State, actions: seq<Action>)
    requires Good(b, s) && ActAll(env, b, s, actions).Some?
    ensures AlwaysGood(env, b, s, actions) <==> ParentsKept(env, b, s, actions)
    decreases |actions|
  {
    hide Good, Act, KeepsParents;
    if actions != [] {
      var next := Act(env, b, s, actions[0]).value;
      ActGood(env, b, s, actions[0]);
      if KeepsParents(b, s, actions[0]) {
        RunGood(env, b, next, actions[1..]);
      } else {
        assert !Good(b, next);
      }
    }
  }

  // ----- the browser

  class IndexBrowser {
    const settings: Settings
    const indexHandler: IndexHandler.IndexHandler
    var listFolderCache: map<string, seq<FileInfo>>
    var fileInfoCache: map<string, FileInfo>
    var ordering: Ordering
    var currentPath: string
    var preloadJobs: seq<string>
    var queuedTasks: nat
    var running: Option<string>

    constructor (settings: Settings, indexHandler: IndexHandler.IndexHandler, ordering: Ordering)
      requires Keyed(indexHandler.files)
      ensures this.settings == settings && this.indexHandler == indexHandler && this.ordering == ordering
      ensures Caches() == Cold && currentPath == ROOT_PATH && Preloads() == Idle && Valid()
    {
      this.settings, this.indexHandler, this.ordering := settings, indexHandler, ordering;
      listFolderCache, fileInfoCache, currentPath, preloadJobs, queuedTasks, running := map[], map[], ROOT_PATH, [], 0, None;
    }

    function Caches(): Cache
      reads this
    {
      Cache(listFolderCache, fileInfoCache)
    }

    function Preloads(): Preload
      reads this
    {
      Preload(preloadJobs, queuedTasks, running)
    }

    ghost predicate Valid()
      reads this, indexHandler
    {
      && Keyed(indexHandler.files)
      && Coherent(settings, indexHandler.files, ordering, Caches())
      && PreloadQueue.Sound(Preloads())
    }

    /** The listener for changes of the index: the handler has already stored the record. */
    method HandleIndexChanged(folder: string)
      requires Keyed(indexHandler.files) && PreloadQueue.Sound(Preloads())
      requires folder != settings.folder ==> Coherent(settings, indexHandler.files, ordering, Caches())
      modifies this`listFolderCache, this`fileInfoCache, this`preloadJobs, this`queuedTasks
      ensures Valid()
      ensures folder == settings.folder ==> Caches() == Cold && Preloads() == Triggered(old(Preloads()), currentPath)
      ensures folder != settings.folder ==> Caches() == old(Caches()) && Preloads() == old(Preloads())
    {
      if folder == settings.folder {
        listFolderCache, fileInfoCache := map[], map[];
        PreloadFileInfoForCurrentPath();
      }
    }

    method PreloadFileInfoForCurrentPath()
      requires PreloadQueue.Sound(Preloads())
      modifies this`preloadJobs, this`queuedTasks
      ensures Preloads() == Triggered(old(Preloads()), currentPath) && PreloadQueue.Sound(Preloads())
    {
      WithoutIs(preloadJobs, currentPath);
      AppendNew(Without(preloadJobs, currentPath), currentPath);
      if currentPath in preloadJobs {
        preloadJobs := Without(preloadJobs, currentPath);
        preloadJobs := preloadJobs + [currentPath];
      } else {
        preloadJobs := preloadJobs + [currentPath];
        queuedTasks := queuedTasks + 1;
      }
    }

    /** The query of the repository, in whatever order it comes. */
    method FindNotDeleted(path: string) returns (list: seq<FileInfo>)
      requires Keyed(indexHandler.files)
      ensures IsQuery(settings, indexHandler.files, path, list)
    {
      list := [];
      var keys := indexHandler.files.Keys;
      while keys != {}
        invariant keys <= indexHandler.files.Keys && DistinctPaths(list)
        invariant forall f :: f in list <==> Live(settings, indexHandler.files, f) && f.parent == path && KeyOf(f) !in keys
        decreases keys
      {
        var key :| key in keys;
        keys := keys - {key};
        var f := indexHandler.files[key];
        if key.0 == settings.folder && f.parent == path && !f.deleted {
          OrderedJoin(ordering, f, list);
          list := [f] + list;
        }
      }
    }

    method DoListFiles(path: string) returns (list: seq<FileInfo>)
      requires Valid()
      modifies this`fileInfoCache
      ensures Valid() && IsFresh(settings, indexHandler.files, path, ordering, list)
    {
      var query := FindNotDeleted(path);
      var i := 0;
      while i < |query|
        invariant 0 <= i <= |query|
        invariant forall p <- fileInfoCache :: fileInfoCache[p].path == p && Live(settings, indexHandler.files, fileInfoCache[p])
      {
        assert query[i] in query;
        fileInfoCache := fileInfoCache[query[i].path := query[i]];
        i := i + 1;
      }
      list := Sort(ordering, query);
      if HasParent(settings, path) {
        list := [ParentInfo(settings)] + list;
      }
      assert list == Listed(settings, path, ordering, query) by {
        assert [] + Sort(ordering, query) == Sort(ordering, query);
      }
    }

    method ListFiles(path: string) returns (list: seq<FileInfo>)
      requires Valid()
      modifies this`fileInfoCache, this`listFolderCache
      ensures Valid() && IsFresh(settings, indexHandler.files, path, ordering, list)
      ensures listFolderCache.Keys == old(listFolderCache).Keys + {path}
    {
      if path in listFolderCache {
        return listFolderCache[path];
      }
      list := DoListFiles(path);
      listFolderCache := listFolderCache[path := list];
    }

    method GetFileInfoByAbsolutePath(path: string) returns (r: Outcome<FileInfo>)
      requires Valid()
      modifies this`fileInfoCache
      ensures Valid() && (Caches(), r) == LookedUp(settings, indexHandler.files, old(Caches()), path)
      ensures path != ROOT_PATH ==> (r.Done? <==> (settings.folder, path) in indexHandler.files && !indexHandler.files[(settings.folder, path)].deleted)
      ensures path != ROOT_PATH && r.Done? ==> r.value == indexHandler.files[(settings.folder, path)]
    {
      LookupCoherent(settings, indexHandler.files, ordering, Caches(), path);
      if path == ROOT_PATH {
        return Done(RootInfo(settings));
      }
      if path in fileInfoCache {
        return Done(fileInfoCache[path]);
      }
      var key := (settings.folder, path);
      if key !in indexHandler.files || indexHandler.files[key].deleted {
        return Thrown;
      }
      fileInfoCache := fileInfoCache[path := indexHandler.files[key]];
      r := Done(indexHandler.files[key]);
    }

    method SetOrdering(o: Ordering)
      requires Valid()
      modifies this`ordering, this`listFolderCache
      ensures ordering == o && listFolderCache == Resorted(o, old(listFolderCache))
      ensures Valid() <==> !Overtaken(settings, indexHandler.files, o, old(listFolderCache.Keys))
    {
      ResortCoherent(settings, indexHandler.files, ordering, o, Caches());
      hide Coherent, Keyed, Sort, PreloadQueue.Sound, Resorted, Overtaken;
      ordering := o;
      Resort();
    }

    /** Sorts every cached listing again. */
    method Resort()
      modifies this`listFolderCache
      ensures listFolderCache == Resorted(ordering, old(listFolderCache))
    {
      hide Sort;
      var keys := listFolderCache.Keys;
      AllLeft(ordering, listFolderCache);
      while keys != {}
        invariant keys <= old(listFolderCache).Keys
        invariant listFolderCache == Partly(ordering, old(listFolderCache), keys)
        decreases keys
      {
        var path :| path in keys;
        OneResorted(ordering, old(listFolderCache), keys, path);
        keys := keys - {path};
        listFolderCache := listFolderCache[path := Sort(ordering, listFolderCache[path])];
      }
    }

    method NavigateToAbsolutePath(newPath: string) returns (ok: bool)
      requires Valid()
      modifies this`fileInfoCache, this`currentPath, this`preloadJobs, this`queuedTasks
      ensures Valid()
      ensures ok == (newPath == ROOT_PATH || ((settings.folder, newPath) in indexHandler.files
                                              && !indexHandler.files[(settings.folder, newPath)].deleted
                                              && indexHandler.files[(settings.folder, newPath)].isDirectory))
      ensures currentPath == (if ok then newPath else old(currentPath))
      ensures Preloads() == if ok then Triggered(old(Preloads()), currentPath) else old(Preloads())
    {
      if newPath != ROOT_PATH {
        var info := GetFileInfoByAbsolutePath(newPath);
        if info.Thrown? || !info.value.isDirectory {
          return false;
        }
        currentPath := info.value.path;
      } else {
        currentPath := ROOT_PATH;
      }
      PreloadFileInfoForCurrentPath();
      ok := true;
    }

    /** A preload task begins ... */
    method BeginPreload() returns (path: Option<string>)
      requires Valid() && queuedTasks > 0 && running.None?
      modifies this`queuedTasks, this`running
      ensures Valid() && Stepped(old(Preloads()), Begin) == Some(Preloads()) && path == running
    {
      queuedTasks := queuedTasks - 1;
      if preloadJobs == [] {
        return None;
      }
      running := Some(preloadJobs[|preloadJobs| - 1]);
      path := running;
    }

    /** ... looks up what its path needs ... */
    method Preloading(path: string) returns (ok: bool)
      requires Valid()
      modifies this`fileInfoCache, this`listFolderCache
      ensures Valid()
      ensures ok ==> path in listFolderCache
      ensures ok <==> path == ROOT_PATH || (
                       && (settings.folder, path) in indexHandler.files && !indexHandler.files[(settings.folder, path)].deleted
                       && var parent := indexHandler.env.parentOf(path);
                       && (parent == ROOT_PATH || ((settings.folder, parent) in indexHandler.files && !indexHandler.files[(settings.folder, parent)].deleted)))
    {
      hide Coherent, Keyed, IsFresh, PreloadQueue.Sound;
      var info := GetFileInfoByAbsolutePath(path);
      if info.Thrown? {
        return false;
      }
      if path != ROOT_PATH {
        var parent := indexHandler.env.parentOf(path);
        info := GetFileInfoByAbsolutePath(parent);
        if info.Thrown? {
          return false;
        }
        var siblings := ListFiles(parent);
      }
      var list := ListFiles(path);
      var i := 0;
      while i < |list|
        invariant 0 <= i <= |list| && Valid() && path in listFolderCache
      {
        if list[i].path != PARENT_PATH && list[i].isDirectory {
          var below := ListFiles(list[i].path);
        }
        i := i + 1;
      }
      ok := true;
    }

    /** ... and ends: it comes back as long as jobs are left. A lookup that threw ends it for good. */
    method EndPreload(ok: bool) returns (ready: bool)
      requires Valid() && running.Some?
      modifies this`preloadJobs, this`queuedTasks, this`running
      ensures Valid() && Stepped(old(Preloads()), if ok then End else Fail) == Some(Preloads())
      ensures ready == (ok && preloadJobs == [])
    {
      WithoutIs(preloadJobs, running.value);
      ready := false;
      if ok {
        preloadJobs := Without(preloadJobs, running.value);
        ready := preloadJobs == [];
        if !ready {
          queuedTasks := queuedTasks + 1;
        }
      }
      running := None;
    }
  }
}
