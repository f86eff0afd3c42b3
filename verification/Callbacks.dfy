/** Callback lists that may be changed and fired again while they fire. */
module Callbacks {
  import opened Wrappers

  datatype Options = Options(once: bool, memory: bool, unique: bool, stopOnFalse: bool)

  /** A callback in the list; `tag` tells apart the times the same function was added. */
  datatype Entry<F> = Entry(fn: F, tag: nat)

  /** The variables of a callback list. No `list` stands for a disabled one. `passing` is set inside the inner loop,
      `running` while one of the callbacks runs. `pushed`, `fires` and `log` record what was added, how many values
      were fired, and which entries ran for which of them. */
  datatype Calls<F, V> = Calls(
    options: Options, list: Option<seq<Entry<F>>>, queue: seq<V>, firingIndex: int,
    firing: bool, passing: bool, running: bool, memory: Option<V>, fired: bool, locked: bool,
    pushed: seq<F>, fires: nat, log: seq<(nat, nat)>)

  function New<F, V>(options: Options): Calls<F, V> {
    Calls(options, Some([]), [], -1, false, false, false, None, false, false, [], 0, [])
  }

  function Items<F, V>(c: Calls<F, V>): seq<Entry<F>> {
    if c.list.Some? then c.list.value else []
  }

  /** Code outside the list has control: nothing fires, or one of the callbacks is running. */
  predicate Outside<F, V>(c: Calls<F, V>) {
    !c.firing || c.running
  }

  predicate Has<F(==)>(entries: seq<Entry<F>>, f: F) {
    exists e <- entries :: e.fn == f
  }

  // ----- firing

  function Started<F, V>(c: Calls<F, V>): Calls<F, V> {
    c.(locked := c.options.once, fired := true, firing := true)
  }

  datatype Went<F, V> = Ran(entry: Entry<F>, value: V) | Quiet

  /** One turn of the loops: a value is taken, a callback is called, a pass ends, or the firing does. */
  function Turn<F, V>(c: Calls<F, V>): (Calls<F, V>, Went<F, V>) {
    if !c.firing || c.running then (c, Quiet)
    else if !c.passing then
      if c.queue != [] then
        (c.(memory := Some(c.queue[0]), queue := c.queue[1..], passing := true,
            fires := if c.firingIndex == -1 then c.fires + 1 else c.fires), Quiet)
      else
        var memory := if c.options.memory then c.memory else None;
        (c.(memory := memory, firing := false,
            list := if c.locked then (if memory.Some? then Some([]) else None) else c.list), Quiet)
    else
      var next := c.firingIndex + 1;
      if 0 <= next < |Items(c)| && c.memory.Some? then
        (c.(firingIndex := next, running := true, log := c.log + [(c.fires, Items(c)[next].tag)]), Ran(Items(c)[next], c.memory.value))
      else (c.(firingIndex := -1, passing := false), Quiet)
  }

  /** The running callback returns; `isFalse` tells whether it returned false. */
  function Returned<F, V>(c: Calls<F, V>, isFalse: bool): Calls<F, V> {
    if !c.running then c
    else if isFalse && c.options.stopOnFalse then c.(running := false, firingIndex := |Items(c)|, memory := None)
    else c.(running := false)
  }

  // ----- what can be done to a list

  function Pushed<F(==), V>(c: Calls<F, V>, fs: seq<F>): Calls<F, V>
    requires c.list.Some?
    decreases |fs|
  {
    if fs == [] then c
    else if c.options.unique && Has(c.list.value, fs[0]) then Pushed(c, fs[1..])
    else Pushed(c.(list := Some(c.list.value + [Entry(fs[0], |c.pushed|)]), pushed := c.pushed + [fs[0]]), fs[1..])
  }

  function Added<F(==), V>(c: Calls<F, V>, fs: seq<F>): Calls<F, V> {
    if c.list.None? then c
    else if c.memory.Some? && !c.firing then
      Started(Pushed(c.(firingIndex := |c.list.value| - 1, queue := c.queue + [c.memory.value]), fs))
    else Pushed(c, fs)
  }

  function FiredWith<F, V>(c: Calls<F, V>, v: V): Calls<F, V> {
    if c.locked then c
    else if c.firing then c.(queue := c.queue + [v])
    else Started(c.(queue := c.queue + [v]))
  }

  function Dropped<F(==)>(entries: seq<Entry<F>>, f: F): seq<Entry<F>> {
    if entries == [] then []
    else
      var init := Dropped(entries[..|entries| - 1], f);
      var e := entries[|entries| - 1];
      if e.fn == f then init else init + [e]
  }

  function Clip<F>(entries: seq<Entry<F>>, n: int): seq<Entry<F>> {
    if n <= 0 then [] else if n >= |entries| then entries else entries[..n]
  }

  /** All entries of the function go, and the firing index moves down by those that stood at or before it. */
  function Removed<F(==), V>(c: Calls<F, V>, f: F): Calls<F, V> {
    if c.list.None? then c
    else
      var upTo := Clip(c.list.value, c.firingIndex + 1);
      c.(list := Some(Dropped(c.list.value, f)), firingIndex := c.firingIndex - (|upTo| - |Dropped(upTo, f)|))
  }

  function Emptied<F, V>(c: Calls<F, V>): Calls<F, V> {
    if c.list.None? then c else c.(list := Some([]))
  }

  function Disabled<F, V>(c: Calls<F, V>): Calls<F, V> {
    c.(locked := true, queue := [], list := None, memory := None)
  }

  function Locked<F, V>(c: Calls<F, V>): Calls<F, V> {
    if c.memory.None? then Disabled(c) else c.(locked := true)
  }

  // ----- what every run keeps

  predicate Growing<F>(entries: seq<Entry<F>>) {
    forall i, j :: 0 <= i < j < |entries| ==> entries[i].tag < entries[j].tag
  }

  /** Tags grow along the list, and each belongs to the function that was added under it. */
  predicate Tagged<F(==), V>(c: Calls<F, V>) {
    && (forall i :: 0 <= i < |Items(c)| ==> Items(c)[i].tag < |c.pushed| && c.pushed[Items(c)[i].tag] == Items(c)[i].fn)
    && Growing(Items(c))
  }

  predicate Once<T(==)>(s: seq<T>) {
    s == [] || (s[|s| - 1] !in s[..|s| - 1] && Once(s[..|s| - 1]))
  }

  predicate Seen<F, V>(c: Calls<F, V>, tag: nat) {
    (c.fires, tag) in c.log
  }

  /** The entries up to `n` have run for the current value, and no others. */
  predicate SeenTo<F, V>(c: Calls<F, V>, n: int) {
    forall i :: 0 <= i < |Items(c)| ==> (Seen(c, Items(c)[i].tag) <==> i <= n)
  }

  predicate AllSeen<F, V>(c: Calls<F, V>) {
    forall i :: 0 <= i < |Items(c)| ==> Seen(c, Items(c)[i].tag)
  }

  /** What the flags say about each other. */
  predicate Consistent<F, V>(c: Calls<F, V>) {
    && -1 <= c.firingIndex
    && (!c.firing ==> !c.passing && !c.running && c.queue == [] && c.firingIndex == -1)
    && (c.running ==> c.passing)
    && (c.list.None? ==> c.memory.None? && c.queue == [] && c.locked)
    && (c.firing && !c.passing && c.firingIndex >= 0 ==> c.queue != [])
  }

  predicate Logged<F, V>(c: Calls<F, V>) {
    Once(c.log) && forall x <- c.log :: x.0 <= c.fires && x.1 < |c.pushed|
  }

  /** For the current value exactly the entries up to the firing index have run; a list that has gone through its
      queue and remembers a value has shown it to all its entries. */
  predicate PassKept<F(==), V>(c: Calls<F, V>) {
    && Consistent(c) && Tagged(c) && Logged(c)
    && (c.passing && c.memory.Some? ==> c.firingIndex < |Items(c)| && SeenTo(c, c.firingIndex))
    && (c.firing && !c.passing && c.firingIndex >= 0 ==> c.firingIndex < |Items(c)| && SeenTo(c, c.firingIndex))
    && (!c.passing && c.queue == [] && c.memory.Some? ==> AllSeen(c))
  }

  datatype Action<F, V> = Add(fs: seq<F>) | Remove(f: F) | Fire(value: V) | Empty | Disable | Lock | Loop | Return(isFalse: bool)

  function Act<F(==), V>(c: Calls<F, V>, a: Action<F, V>): Option<Calls<F, V>> {
    match a
    case Loop => if Outside(c) then None else Some(Turn(c).0)
    case Return(isFalse) => if c.running then Some(Returned(c, isFalse)) else None
    case _ =>
      if !Outside(c) then None
      else Some(match a
                case Add(fs) => Added(c, fs)
                case Remove(f) => Removed(c, f)
                case Fire(v) => FiredWith(c, v)
                case Empty => Emptied(c)
                case Disable => Disabled(c)
                case _ => Locked(c))
  }

  /** A firing list must not be emptied: see `EmptyingSkips`. */
  predicate Allowed<F, V>(c: Calls<F, V>, a: Action<F, V>) {
    a.Empty? ==> !c.firing
  }

  function PushedOne<F, V>(c: Calls<F, V>, f: F): Calls<F, V>
    requires c.list.Some?
  {
    c.(list := Some(c.list.value + [Entry(f, |c.pushed|)]), pushed := c.pushed + [f])
  }

  lemma {:induction false} PushOneKeeps<F, V>(c: Calls<F, V>, f: F)
    requires c.list.Some? && Tagged(c) && Logged(c)
    ensures Tagged(PushedOne(c, f)) && Logged(PushedOne(c, f)) && !Seen(PushedOne(c, f), |c.pushed|)
  {
    var d := PushedOne(c, f);
    forall i | 0 <= i < |Items(d)| ensures Items(d)[i].tag < |d.pushed| && d.pushed[Items(d)[i].tag] == Items(d)[i].fn
      ensures i < |Items(c)| ==> Items(d)[i] == Items(c)[i]
    {
      assert i < |Items(c)| ==> Items(d)[i] == Items(c)[i];
    }
  }

  lemma {:induction false} PushKeeps<F, V>(c: Calls<F, V>, fs: seq<F>)
    requires c.list.Some? && Tagged(c) && Logged(c)
    ensures var d := Pushed(c, fs);
            && d.list.Some? && d == c.(list := d.list, pushed := d.pushed)
            && Tagged(d) && Logged(d) && Items(c) <= Items(d)
            && forall i :: |Items(c)| <= i < |Items(d)| ==> !Seen(d, Items(d)[i].tag)
    decreases |fs|
  {
    if fs != [] {
      if c.options.unique && Has(c.list.value, fs[0]) {
        PushKeeps(c, fs[1..]);
      } else {
        var c' := PushedOne(c, fs[0]);
        PushOneKeeps(c, fs[0]);
        hide Tagged, Logged;
        PushKeeps(c', fs[1..]);
        var d := Pushed(c', fs[1..]);
        assert Items(d)[|Items(c)|] == Items(c')[|Items(c)|];
      }
    }
  }

  /** New entries keep what is known about the old ones. */
  lemma {:induction false} PushedSeen<F, V>(c: Calls<F, V>, d: Calls<F, V>, n: int)
    requires Items(c) <= Items(d) && c.fires == d.fires && c.log == d.log && n < |Items(c)|
    requires forall i :: |Items(c)| <= i < |Items(d)| ==> !Seen(d, Items(d)[i].tag)
    requires SeenTo(c, n)
    ensures SeenTo(d, n)
  {
    forall i | 0 <= i < |Items(d)| ensures Seen(d, Items(d)[i].tag) <==> i <= n {
      assert i < |Items(c)| ==> Items(d)[i] == Items(c)[i];
    }
  }

  lemma {:induction false} AddKeeps<F, V>(c: Calls<F, V>, fs: seq<F>)
    requires PassKept(c) && Outside(c)
    ensures PassKept(Added(c, fs))
  {
    if c.list.Some? {
      PushKeeps(c, fs);
      var d := Pushed(c, fs);
      if c.memory.Some? && !c.firing {
        var c' := c.(firingIndex := |c.list.value| - 1, queue := c.queue + [c.memory.value]);
        SamePushes(c, c', fs);
        hide Pushed, Tagged, Logged;
        PushedSeen(c, d, |Items(c)| - 1);
        SeenSame(d, Started(Pushed(c', fs)), |Items(c)| - 1);
      } else {
        hide Pushed, Tagged, Logged;
        if c.passing && c.memory.Some? {
          PushedSeen(c, d, c.firingIndex);
        }
      }
    }
  }

  lemma {:induction false} SeenSame<F, V>(c: Calls<F, V>, d: Calls<F, V>, n: int)
    requires c.list == d.list && c.fires == d.fires && c.log == d.log && SeenTo(c, n)
    ensures SeenTo(d, n)
  {
    forall i | 0 <= i < |Items(d)| ensures Seen(d, Items(d)[i].tag) <==> i <= n {
      assert Seen(c, Items(c)[i].tag) <==> i <= n;
    }
  }

  lemma {:induction false} SamePushes<F, V>(c: Calls<F, V>, d: Calls<F, V>, fs: seq<F>)
    requires c.list.Some? && d == c.(firingIndex := d.firingIndex, queue := d.queue)
    ensures Pushed(d, fs) == Pushed(c, fs).(firingIndex := d.firingIndex, queue := d.queue)
    decreases |fs|
  {
    if fs != [] {
      if c.options.unique && Has(c.list.value, fs[0]) {
        SamePushes(c, d, fs[1..]);
      } else {
        SamePushes(PushedOne(c, fs[0]), PushedOne(d, fs[0]), fs[1..]);
      }
    }
  }

  lemma {:induction false} TurnKeeps<F, V>(c: Calls<F, V>)
    requires PassKept(c) && !Outside(c)
    ensures PassKept(Turn(c).0)
    ensures var (d, went) := Turn(c);
            && (went.Ran? ==> went.entry in Items(c) && !Seen(c, went.entry.tag) && Seen(d, went.entry.tag) && Some(went.value) == c.memory)
            && (c.passing && !d.passing && c.memory.Some? ==> AllSeen(d))
  {
    var (d, went) := Turn(c);
    if went.Ran? {
      var tag := went.entry.tag;
      assert d.log[..|c.log|] == c.log;
      assert forall x :: x in d.log <==> x in c.log || x == (c.fires, tag);
      assert SeenTo(d, d.firingIndex);
    }
  }

  lemma {:induction false} DroppedIs<F>(entries: seq<Entry<F>>, f: F, n: nat)
    requires n <= |entries|
    ensures var r := Dropped(entries, f);
            && |Dropped(entries[..n], f)| <= |r| && r[..|Dropped(entries[..n], f)|] == Dropped(entries[..n], f)
            && (forall e <- r :: e in entries && e.fn != f)
            && (forall e <- r[|Dropped(entries[..n], f)|..] :: e in entries[n..])
            && (forall e <- Dropped(entries[..n], f) :: e in entries[..n])
            && |Dropped(entries[..n], f)| <= n
    decreases |entries|
  {
    if n < |entries| {
      var init := entries[..|entries| - 1];
      DroppedIs(init, f, n);
      assert init[..n] == entries[..n];
      assert entries[n..] == init[n..] + [entries[|entries| - 1]];
    } else {
      assert entries[..n] == entries;
      if entries != [] {
        var init := entries[..|entries| - 1];
        DroppedIs(init, f, n - 1);
        assert init[..n - 1] == init;
      }
    }
  }

  lemma {:induction false} DroppedGrowing<F>(entries: seq<Entry<F>>, f: F)
    requires Growing(entries)
    ensures Growing(Dropped(entries, f))
    decreases |entries|
  {
    if entries != [] {
      var (init, e) := (entries[..|entries| - 1], entries[|entries| - 1]);
      DroppedGrowing(init, f);
      var r := Dropped(init, f);
      DroppedIs(init, f, 0);
      forall i | 0 <= i < |r| ensures r[i].tag < e.tag {
        assert r[i] in init;
      }
    }
  }

  lemma {:induction false} RemovedTagged<F, V>(c: Calls<F, V>, f: F)
    requires c.list.Some? && Tagged(c)
    ensures Tagged(Removed(c, f))
  {
    DroppedGrowing(c.list.value, f);
    DroppedIs(c.list.value, f, 0);
    var d := Removed(c, f);
    forall i | 0 <= i < |Items(d)| ensures Items(d)[i].tag < |d.pushed| && d.pushed[Items(d)[i].tag] == Items(d)[i].fn {
      assert Items(d)[i] in c.list.value;
    }
  }

  /** An entry that stays has run exactly if it stood up to the firing index. */
  lemma {:induction false} RemovedSeen<F, V>(c: Calls<F, V>, f: F, n: nat, i: nat)
    requires c.list.Some? && n <= |c.list.value| && i < |Dropped(c.list.value, f)|
    requires forall j :: 0 <= j < |Items(c)| ==> (Seen(c, Items(c)[j].tag) <==> j < n)
    ensures Seen(Removed(c, f), Items(Removed(c, f))[i].tag) <==> i < |Dropped(c.list.value[..n], f)|
  {
    var list := c.list.value;
    DroppedIs(list, f, n);
    var (r, m) := (Dropped(list, f), |Dropped(list[..n], f)|);
    var x := r[i];
    if i < m {
      assert r[..m][i] == x && x in Dropped(list[..n], f);
      assert x in list[..n];
      var j :| 0 <= j < n && list[j] == x;
      assert Items(c)[j] == x;
    } else {
      assert r[m..][i - m] == x && x in r[m..];
      assert x in list[n..];
      var j :| n <= j < |list| && list[j] == x;
      assert Items(c)[j] == x;
    }
  }

  lemma {:induction false} RemoveKeeps<F, V>(c: Calls<F, V>, f: F)
    requires PassKept(c) && Outside(c)
    ensures PassKept(Removed(c, f)) && -1 <= c.firingIndex
  {
    if c.list.Some? {
      var d := Removed(c, f);
      RemovedTagged(c, f);
      var list := c.list.value;
      var n := if !c.firing || c.firingIndex + 1 >= |list| then |list| else c.firingIndex + 1;
      DroppedIs(list, f, n);
      AllDropped(c, f);
      hide Tagged, Logged, Dropped;
      if c.memory.Some? {
        forall i | 0 <= i < |Items(d)| ensures Seen(d, Items(d)[i].tag) <==> i < |Dropped(list[..n], f)| {
          assert c.firing ==> SeenTo(c, c.firingIndex);
          assert !c.firing ==> AllSeen(c);
          RemovedSeen(c, f, n, i);
        }
      }
    }
  }

  /** How the firing index moves. */
  lemma {:induction false} AllDropped<F, V>(c: Calls<F, V>, f: F)
    requires c.list.Some? && -1 <= c.firingIndex
    ensures var list := c.list.value;
            var n := UpTo(|list|, c.firingIndex);
            && Removed(c, f) == c.(list := Some(Dropped(list, f)), firingIndex := c.firingIndex - n + |Dropped(list[..n], f)|)
            && |Dropped(list[..n], f)| <= n
  {
    var list := c.list.value;
    var n := UpTo(|list|, c.firingIndex);
    assert Clip(list, c.firingIndex + 1) == list[..n];
    DroppedIs(list, f, n);
  }

  lemma {:induction false} ActKeeps<F, V>(c: Calls<F, V>, a: Action<F, V>)
    requires PassKept(c) && Allowed(c, a) && Act(c, a).Some?
    ensures PassKept(Act(c, a).value)
  {
    match a
    case Add(fs) => AddKeeps(c, fs);
    case Remove(f) => RemoveKeeps(c, f);
    case Loop => TurnKeeps(c);
    case Return(isFalse) => ReturnKeeps(c, isFalse);
    case Fire(v) => FireKeeps(c, v);
    case Empty =>
    case Disable =>
    case Lock =>
  }

  lemma {:induction false} ReturnKeeps<F, V>(c: Calls<F, V>, isFalse: bool)
    requires PassKept(c) && c.running
    ensures PassKept(Returned(c, isFalse))
  {
    if c.memory.Some? {
      SeenSame(c, Returned(c, isFalse), c.firingIndex);
    }
  }

  lemma {:induction false} FireKeeps<F, V>(c: Calls<F, V>, v: V)
    requires PassKept(c) && Outside(c)
    ensures PassKept(FiredWith(c, v))
  {
    if c.memory.Some? && c.firing {
      SeenSame(c, FiredWith(c, v), c.firingIndex);
    }
  }

  function Run<F(==), V>(c: Calls<F, V>, actions: seq<Action<F, V>>): Option<Calls<F, V>>
    decreases |actions|
  {
    if actions == [] then Some(c)
    else
      var next :- Act(c, actions[0]);
      Run(next, actions[1..])
  }

  predicate AllAllowed<F(==), V>(c: Calls<F, V>, actions: seq<Action<F, V>>)
    decreases |actions|
  {
    actions != [] ==>
      Allowed(c, actions[0]) && (Act(c, actions[0]).Some? ==> AllAllowed(Act(c, actions[0]).value, actions[1..]))
  }

  /** In every run, whatever the callbacks add, remove, fire, lock or disable while they run, no entry runs twice
      for one fired value. When a pass ends without having been broken off, every entry then in the list has
      run for the value; a list at rest has shown the value it remembers to all its entries, and, if it was not disabled,
      has given every value it accepted its own pass, in the order in which they were fired. */
  lemma {:induction false} EachRunsOnce<F, V>(options: Options, actions: seq<Action<F, V>>)
    requires AllAllowed(New(options), actions)
    ensures var r := Run(New<F, V>(options), actions);
            r.Some? ==>
              && Once(r.value.log)
              && (!r.value.firing && r.value.memory.Some? ==> AllSeen(r.value))
              && (r.value.passing && !r.value.running && r.value.memory.Some? && !Turn(r.value).0.passing ==> AllSeen(r.value))
              && (!r.value.firing && r.value.list.Some? ==> Passes(New<F, V>(options), actions) == Offered(New<F, V>(options), actions))
  {
    var c := New<F, V>(options);
    assert PassKept(c);
    RunKeeps(c, actions);
    EachFireItsPass<F, V>(options, actions);
    hide Passes, Offered;
    var r := Run(c, actions);
    if r.Some? && r.value.passing && !r.value.running {
      TurnKeeps(r.value);
      assert SeenTo(r.value, r.value.firingIndex) || r.value.memory.None?;
    }
  }

  lemma {:induction false} RunKeeps<F, V>(c: Calls<F, V>, actions: seq<Action<F, V>>)
    requires PassKept(c) && AllAllowed(c, actions)
    ensures Run(c, actions).Some? ==> PassKept(Run(c, actions).value)
    decreases |actions|
  {
    hide PassKept, Act;
    if actions != [] && Act(c, actions[0]).Some? {
      ActKeeps(c, actions[0]);
      RunKeeps(Act(c, actions[0]).value, actions[1..]);
    }
  }

  // ----- one pass for every fire

  /** A value on its way through the list: in a pass of its own, or only past the callbacks added since the last one. */
  datatype Pass<V> = Pass(value: V, whole: bool)

  /** What an action puts in line: a value fired on a list that is not locked, or the remembered value once more. */
  function Offer<F, V>(c: Calls<F, V>, a: Action<F, V>): seq<Pass<V>> {
    match a
    case Fire(v) => if c.locked then [] else [Pass(v, true)]
    case Add(_) => if c.list.Some? && c.memory.Some? && !c.firing then [Pass(c.memory.value, c.list.value == [])] else []
    case _ => []
  }

  /** The pass that a turn begins: with the first callback, or behind the firing index. */
  function Begun<F, V>(c: Calls<F, V>, a: Action<F, V>): seq<Pass<V>> {
    if a.Loop? && c.firing && !c.running && !c.passing && c.queue != [] then [Pass(c.queue[0], c.firingIndex == -1)] else []
  }

  function Offered<F(==), V>(c: Calls<F, V>, actions: seq<Action<F, V>>): seq<Pass<V>>
    decreases |actions|
  {
    if actions == [] || Act(c, actions[0]).None? then []
    else Offer(c, actions[0]) + Offered(Act(c, actions[0]).value, actions[1..])
  }

  function Passes<F(==), V>(c: Calls<F, V>, actions: seq<Action<F, V>>): seq<Pass<V>>
    decreases |actions|
  {
    if actions == [] || Act(c, actions[0]).None? then []
    else Begun(c, actions[0]) + Passes(Act(c, actions[0]).value, actions[1..])
  }

  function WholeCount<V>(passes: seq<Pass<V>>): nat {
    if passes == [] then 0 else WholeCount(passes[..|passes| - 1]) + if passes[|passes| - 1].whole then 1 else 0
  }

  /** The passes that the queue still stands for. */
  function Pending<F, V>(c: Calls<F, V>): seq<Pass<V>> {
    seq(|c.queue|, i requires 0 <= i < |c.queue| => Pass(c.queue[i], i > 0 || c.passing || c.firingIndex == -1))
  }

  lemma {:induction false} ActConsistent<F, V>(c: Calls<F, V>, a: Action<F, V>)
    requires Consistent(c) && Act(c, a).Some?
    ensures Consistent(Act(c, a).value)
    ensures Act(c, a).value.fires == c.fires + WholeCount(Begun(c, a))
  {
    match a
    case Add(fs) =>
      if c.list.Some? {
        PushTags(c, fs);
        PushTags(c.(firingIndex := |c.list.value| - 1, queue := if c.memory.Some? then c.queue + [c.memory.value] else c.queue), fs);
        hide Pushed;
      }
    case Remove(f) =>
      if c.list.Some? {
        AllDropped(c, f);
        hide Dropped, Removed;
      }
    case Loop =>
      if Begun(c, a) != [] {
        assert Begun(c, a)[..0] == [];
      }
    case _ =>
  }

  /** As long as the list is not disabled, what is put in line joins the queue and what begins leaves it. */
  lemma {:induction false} ActPending<F, V>(c: Calls<F, V>, a: Action<F, V>)
    requires Consistent(c) && Act(c, a).Some?
    ensures var d := Act(c, a).value;
            if d.list.Some? then c.list.Some? && Pending(c) + Offer(c, a) == Begun(c, a) + Pending(d)
            else Offer(c, a) == [] && Begun(c, a) == []
  {
    match a
    case Add(fs) =>
      if c.list.Some? {
        PushTags(c, fs);
        PushTags(c.(firingIndex := |c.list.value| - 1, queue := if c.memory.Some? then c.queue + [c.memory.value] else c.queue), fs);
        hide Pushed;
      }
    case Remove(f) =>
      if c.list.Some? {
        AllDropped(c, f);
        hide Dropped, Removed;
      }
    case _ =>
  }

  /** In every run the passes begin in the order in which the values were fired, and none without one. A list that is at
      rest and was not disabled has given every fire it accepted a pass of its own, from the first callback on, and every
      addition to a list that remembers a value a pass over what was added. */
  lemma {:induction false} EachFireItsPass<F, V>(options: Options, actions: seq<Action<F, V>>)
    ensures var r := Run(New<F, V>(options), actions);
            r.Some? ==>
              var (offered, passes) := (Offered(New<F, V>(options), actions), Passes(New<F, V>(options), actions));
              && passes <= offered && r.value.fires == WholeCount(passes)
              && (r.value.list.Some? ==> offered == passes + Pending(r.value))
              && (r.value.list.Some? && !r.value.firing ==> passes == offered)
  {
    var c := New<F, V>(options);
    if Run(c, actions).Some? {
      RunPasses(c, actions, [], []);
      assert [] + Offered(c, actions) == Offered(c, actions) && [] + Passes(c, actions) == Passes(c, actions);
    }
  }

  lemma {:induction false} RunPasses<F, V>(c: Calls<F, V>, actions: seq<Action<F, V>>, offered: seq<Pass<V>>, passes: seq<Pass<V>>)
    requires Consistent(c) && Run(c, actions).Some?
    requires passes <= offered && c.fires == WholeCount(passes) && (c.list.Some? ==> offered == passes + Pending(c))
    ensures var (end, o, p) := (Run(c, actions).value, offered + Offered(c, actions), passes + Passes(c, actions));
            Consistent(end) && p <= o && end.fires == WholeCount(p) && (end.list.Some? ==> o == p + Pending(end))
    decreases |actions|
  {
    hide Consistent, Act, Offer, Begun, Pending;
    if actions == [] {
      assert offered + [] == offered && passes + [] == passes;
    } else {
      var (a, d) := (actions[0], Act(c, actions[0]).value);
      ActConsistent(c, a);
      ActPending(c, a);
      WholeBoth(passes, Begun(c, a));
      var (o, p) := (offered + Offer(c, a), passes + Begun(c, a));
      if d.list.Some? {
        assert o == passes + (Pending(c) + Offer(c, a)) == p + Pending(d);
      }
      RunPasses(d, actions[1..], o, p);
      assert o + Offered(d, actions[1..]) == offered + Offered(c, actions);
      assert p + Passes(d, actions[1..]) == passes + Passes(c, actions);
    }
  }

  lemma {:induction false} WholeBoth<V>(a: seq<Pass<V>>, b: seq<Pass<V>>)
    ensures WholeCount(a + b) == WholeCount(a) + WholeCount(b)
    decreases |b|
  {
    if b == [] {
      assert a + b == a;
    } else {
      assert (a + b)[..|a + b| - 1] == a + b[..|b| - 1];
      WholeBoth(a, b[..|b| - 1]);
    }
  }

  /** A list emptied while one of its callbacks runs keeps its firing index: the next callback added runs in this
      pass exactly if the running entry has been removed down to the front before. */
  lemma {:induction false} EmptyingSkips<F, V>(c: Calls<F, V>, f: F)
    requires PassKept(c) && c.running && c.list.Some? && c.memory.Some?
    ensures var d := Returned(Added(Emptied(c), [f]), false);
            (Turn(d).1.Ran? <==> c.firingIndex == -1) && (c.firingIndex >= 0 ==> !AllSeen(Turn(d).0))
  {
    var e := Emptied(c);
    assert Pushed(e, [f]) == PushedOne(e, f) by {
      assert [f][1..] == [];
    }
    var d := Returned(Added(e, [f]), false);
    assert Items(d) == [Entry(f, |c.pushed|)];
    assert !Seen(d, |c.pushed|);
    if c.firingIndex >= 0 {
      assert Items(Turn(d).0)[0].tag == |c.pushed|;
    }
  }

  /** Adding to a list at rest that remembers a value fires again, and that resets the lock: a locked list stays
      locked through an addition exactly if it may fire only once or remembers nothing. */
  lemma {:induction false} AddingUnlocks<F, V>(c: Calls<F, V>, fs: seq<F>)
    requires PassKept(c) && !c.firing && c.locked && c.list.Some?
    ensures Added(c, fs).locked <==> c.options.once || c.memory.None?
  {
    PushKeeps(c, fs);
    var c' := c.(firingIndex := |c.list.value| - 1, queue := if c.memory.Some? then c.queue + [c.memory.value] else c.queue);
    SamePushes(c, c', fs);
  }

  // ----- disabled and emptied lists

  predicate IsDisabled<F, V>(c: Calls<F, V>) {
    c.locked && c.list.None? && c.queue == [] && c.memory.None?
  }

  /** Once disabled, a list stays so whatever is done to it: nothing can be added or fired, and no callback runs again. */
  lemma {:induction false} DisabledForGood<F, V>(c: Calls<F, V>, actions: seq<Action<F, V>>)
    requires IsDisabled(c)
    ensures Run(c, actions).Some? ==>
              var end := Run(c, actions).value;
              IsDisabled(end) && end.log == c.log && end.pushed == c.pushed && end.fires == c.fires
    ensures IsDisabled(Disabled(c))
    decreases |actions|
  {
    if actions != [] && Act(c, actions[0]).Some? {
      DisabledForGood(Act(c, actions[0]).value, actions[1..]);
    }
  }

  /** Everything in the list was added after the first `base` additions. */
  predicate AddedSince<F, V>(c: Calls<F, V>, base: nat) {
    base <= |c.pushed| && TagsFrom(Items(c), base)
  }

  predicate TagsFrom<F>(entries: seq<Entry<F>>, base: nat) {
    forall i :: 0 <= i < |entries| ==> entries[i].tag >= base
  }

  lemma {:induction false} PushedSince<F, V>(c: Calls<F, V>, fs: seq<F>, base: nat)
    requires c.list.Some? && AddedSince(c, base)
    ensures AddedSince(Pushed(c, fs), base) && Pushed(c, fs).log == c.log
    decreases |fs|
  {
    if fs != [] {
      if c.options.unique && Has(c.list.value, fs[0]) {
        PushedSince(c, fs[1..], base);
      } else {
        PushedSince(c.(list := Some(c.list.value + [Entry(fs[0], |c.pushed|)]), pushed := c.pushed + [fs[0]]), fs[1..], base);
      }
    }
  }

  lemma {:induction false} DroppedSince<F>(entries: seq<Entry<F>>, f: F, base: nat)
    requires TagsFrom(entries, base)
    ensures TagsFrom(Dropped(entries, f), base)
    decreases |entries|
  {
    if entries != [] {
      DroppedSince(entries[..|entries| - 1], f, base);
    }
  }

  /** What ran since the first `from` entries of the log was added after the first `base` additions. */
  predicate RanSince<F, V>(c: Calls<F, V>, from: nat, base: nat) {
    from <= |c.log| && forall i :: from <= i < |c.log| ==> c.log[i].1 >= base
  }

  lemma {:induction false} ActSince<F, V>(c: Calls<F, V>, a: Action<F, V>, from: nat, base: nat)
    requires AddedSince(c, base) && RanSince(c, from, base) && Act(c, a).Some?
    ensures AddedSince(Act(c, a).value, base) && RanSince(Act(c, a).value, from, base)
  {
    match a
    case Add(fs) =>
      if c.list.Some? {
        PushedSince(c, fs, base);
        PushedSince(c.(firingIndex := |c.list.value| - 1, queue := if c.memory.Some? then c.queue + [c.memory.value] else c.queue), fs, base);
      }
      hide Pushed;
    case Remove(f) =>
      if c.list.Some? {
        DroppedSince(c.list.value, f, base);
      }
      hide Dropped;
    case _ =>
  }

  /** What is in a list when it is emptied never runs again, whatever is done to the list afterwards. */
  lemma {:induction false} EmptiedForGood<F, V>(c: Calls<F, V>, actions: seq<Action<F, V>>)
    ensures var r := Run(Emptied(c), actions);
            r.Some? ==> RanSince(r.value, |c.log|, |c.pushed|)
  {
    RunSince(Emptied(c), actions, |c.log|, |c.pushed|);
  }

  lemma {:induction false} RunSince<F, V>(c: Calls<F, V>, actions: seq<Action<F, V>>, from: nat, base: nat)
    requires AddedSince(c, base) && RanSince(c, from, base)
    ensures Run(c, actions).Some? ==> RanSince(Run(c, actions).value, from, base)
    decreases |actions|
  {
    if actions != [] && Act(c, actions[0]).Some? {
      hide AddedSince, RanSince;
      ActSince(c, actions[0], from, base);
      RunSince(Act(c, actions[0]).value, actions[1..], from, base);
    }
  }

  // ----- the list object

  /** Turns of the loops up to the next callback, or to the end of the firing. */
  function Resumed<F, V>(c: Calls<F, V>): (Calls<F, V>, Went<F, V>)
    decreases |c.queue|, if c.passing then 1 else 0, if c.firing then 1 else 0
  {
    if !c.firing || c.running then (c, Quiet)
    else
      var (d, went) := Turn(c);
      if went.Ran? then (d, went) else Resumed(d)
  }

  /** How many of the first `done` positions are at or before the firing index. */
  function UpTo(done: nat, firingIndex: int): (n: nat)
    ensures n <= done
  {
    if firingIndex + 1 <= 0 then 0 else if done <= firingIndex + 1 then done else firingIndex + 1
  }

  lemma {:induction false} DroppedStep<F>(entries: seq<Entry<F>>, f: F, n: nat)
    requires n < |entries|
    ensures Dropped(entries[..n + 1], f) == Dropped(entries[..n], f) + if entries[n].fn == f then [] else [entries[n]]
  {
    assert entries[..n + 1][..n] == entries[..n];
    assert Dropped(entries[..n], f) + [] == Dropped(entries[..n], f);
  }

  lemma {:induction false} NoneDropped<F>(entries: seq<Entry<F>>, f: F)
    ensures Dropped(entries[..0], f) == [] && entries[..0] == [] && entries == [] + entries[0..]
  {
  }

  lemma {:induction false} DroppedFirst<F>(entries: seq<Entry<F>>, f: F, m: nat, n: nat)
    requires m <= n <= |entries|
    ensures |Dropped(entries[..m], f)| <= |Dropped(entries[..n], f)|
    ensures m < n ==> |Dropped(entries[..n], f)| - |Dropped(entries[..m], f)| <= n - m
    ensures |Dropped(entries[..n], f)| <= n
    decreases n
  {
    if m < n {
      DroppedFirst(entries, f, m, n - 1);
      DroppedStep(entries, f, n - 1);
    } else if n > 0 {
      DroppedFirst(entries, f, n - 1, n - 1);
      DroppedStep(entries, f, n - 1);
    }
  }

  lemma {:induction false} TurnKeepsAll<F, V>(c: Calls<F, V>)
    requires PassKept(c) && !Outside(c)
    ensures PassKept(Turn(c).0)
  {
    TurnKeeps(c);
  }

  lemma {:induction false} PushTags<F, V>(c: Calls<F, V>, fs: seq<F>)
    requires c.list.Some?
    ensures var d := Pushed(c, fs); d == c.(list := d.list, pushed := d.pushed) && d.list.Some?
    decreases |fs|
  {
    if fs != [] {
      PushTags(if c.options.unique && Has(c.list.value, fs[0]) then c else PushedOne(c, fs[0]), fs[1..]);
    }
  }

  /** The first entry that is left, and the list without it. */
  lemma {:induction false} Splice<F>(kept: seq<Entry<F>>, rest: seq<Entry<F>>)
    requires rest != []
    ensures var list := kept + rest;
            && list[|kept|] == rest[0]
            && list[..|kept|] + list[|kept| + 1..] == kept + rest[1..]
            && list == kept + [rest[0]] + rest[1..]
  {
  }

  /** What the search has come to after the first `done` entries: those it left, then the rest, and the index moved. */
  ghost predicate Searched<F>(entries: seq<Entry<F>>, f: F, firingIndex: int, done: nat, list: seq<Entry<F>>, index: nat, moved: int)
    requires done <= |entries|
  {
    && list == Dropped(entries[..done], f) + entries[done..] && index == |Dropped(entries[..done], f)|
    && moved == Moved(entries, f, firingIndex, done)
  }

  lemma {:induction false} SearchBegins<F>(entries: seq<Entry<F>>, f: F, firingIndex: int)
    ensures Searched(entries, f, firingIndex, 0, entries, 0, firingIndex)
  {
    NoneDropped(entries, f);
  }

  lemma {:induction false} SearchStep<F>(entries: seq<Entry<F>>, f: F, firingIndex: int, done: nat, list: seq<Entry<F>>, index: nat, moved: int)
    requires done < |entries| && Searched(entries, f, firingIndex, done, list, index, moved)
    ensures index < |list| && list[index] == entries[done]
    ensures if list[index].fn == f
            then Searched(entries, f, firingIndex, done + 1, list[..index] + list[index + 1..], index, if index <= moved then moved - 1 else moved)
            else Searched(entries, f, firingIndex, done + 1, list, index + 1, moved)
  {
    var kept := Dropped(entries[..done], f);
    DroppedStep(entries, f, done);
    MovedStep(entries, f, firingIndex, done);
    Splice(kept, entries[done..]);
    assert entries[done..][1..] == entries[done + 1..];
    hide Dropped, UpTo, Moved;
    assert kept + [] == kept && list[index] == entries[done];
  }

  /** Where the firing index stands after the first `done` entries. */
  ghost function Moved<F>(entries: seq<Entry<F>>, f: F, firingIndex: int, done: nat): int
    requires done <= |entries|
  {
    firingIndex - UpTo(done, firingIndex) + |Dropped(entries[..UpTo(done, firingIndex)], f)|
  }

  lemma {:induction false} MovedStep<F>(entries: seq<Entry<F>>, f: F, firingIndex: int, done: nat)
    requires done < |entries|
    ensures var (moved, hit) := (Moved(entries, f, firingIndex, done), entries[done].fn == f);
            Moved(entries, f, firingIndex, done + 1) == if hit && |Dropped(entries[..done], f)| <= moved then moved - 1 else moved
  {
    var limit := UpTo(done, firingIndex);
    DroppedStep(entries, f, done);
    DroppedFirst(entries, f, limit, done);
    hide Dropped;
    if firingIndex >= done {
      assert limit == done && UpTo(done + 1, firingIndex) == done + 1;
    } else {
      assert UpTo(done + 1, firingIndex) == limit && (limit == 0 || limit == firingIndex + 1);
    }
  }

  /** The search goes on from where the last match was cut out. */
  method RemoveAll<F(==)>(entries: seq<Entry<F>>, f: F, firingIndex: int) returns (list: seq<Entry<F>>, moved: int)
    ensures list == Dropped(entries, f)
    ensures moved == firingIndex - UpTo(|entries|, firingIndex) + |Dropped(entries[..UpTo(|entries|, firingIndex)], f)|
  {
    hide Dropped;
    list, moved := entries, firingIndex;
    var index := 0;
    ghost var done: nat := 0;
    SearchBegins(entries, f, firingIndex);
    while index < |list|
      invariant done <= |entries| && 0 <= index
      invariant Searched(entries, f, firingIndex, done, list, index, moved)
      decreases |entries| - done
    {
      SearchStep(entries, f, firingIndex, done, list, index, moved);
      if list[index].fn == f {
        list := list[..index] + list[index + 1..];
        if index <= moved {
          moved := moved - 1;
        }
      } else {
        index := index + 1;
      }
      done := done + 1;
    }
    assert entries[..done] == entries;
  }

  class CallbackList<F(==), V> {
    const options: Options
    var list: Option<seq<Entry<F>>>
    var queue: seq<V>
    var firingIndex: int
    var firing: bool
    var passing: bool
    var running: bool
    var memory: Option<V>
    var fired: bool
    var locked: bool
    ghost var pushed: seq<F>
    ghost var fires: nat
    ghost var log: seq<(nat, nat)>
    var tags: nat

    constructor (options: Options)
      ensures this.options == options && State() == New(options) && Valid()
    {
      this.options := options;
      list, queue, firingIndex, firing, passing, running := Some([]), [], -1, false, false, false;
      memory, fired, locked, pushed, fires, log, tags := None, false, false, [], 0, [], 0;
    }

    ghost function State(): Calls<F, V>
      reads this
    {
      Calls(options, list, queue, firingIndex, firing, passing, running, memory, fired, locked, pushed, fires, log)
    }

    ghost predicate Valid()
      reads this
    {
      PassKept(State()) && tags == |pushed|
    }

    method Add(fs: seq<F>) returns (calls: Went<F, V>)
      requires Valid() && Outside(State())
      modifies this
      ensures Valid()
      ensures var added := Added(old(State()), fs);
              (State(), calls) == if !old(firing) && added.firing then Resumed(added) else (added, Quiet)
    {
      AddKeeps(State(), fs);
      calls := Quiet;
      if list.None? {
        return;
      }
      ghost var was := State();
      PushTags(was, fs);
      var refire := memory.Some? && !firing;
      if refire {
        firingIndex := |list.value| - 1;
        queue := queue + [memory.value];
        SamePushes(was, State(), fs);
      }
      hide PassKept, Pushed, Resumed;
      PushAll(fs);
      if refire {
        calls := Start();
      }
    }

    method PushAll(fs: seq<F>)
      requires list.Some? && tags == |pushed|
      modifies this`list, this`pushed, this`tags
      ensures list.Some? && State() == Pushed(old(State()), fs) && tags == |pushed|
    {
      ghost var c := State();
      var i := 0;
      while i < |fs|
        invariant 0 <= i <= |fs| && list.Some? && tags == |pushed|
        invariant State() == c.(list := list, pushed := pushed) && Pushed(State(), fs[i..]) == Pushed(c, fs)
      {
        assert fs[i..][0] == fs[i] && fs[i..][1..] == fs[i + 1..];
        if !options.unique || !Has(list.value, fs[i]) {
          list := Some(list.value + [Entry(fs[i], tags)]);
          pushed := pushed + [fs[i]];
          tags := tags + 1;
        }
        i := i + 1;
      }
    }

    /** Begins the firing and runs to the first callback. */
    method Start() returns (calls: Went<F, V>)
      requires PassKept(Started(State())) && !running && tags == |pushed|
      modifies this
      ensures Valid() && (State(), calls) == Resumed(Started(old(State())))
    {
      locked := options.once;
      fired, firing := true, true;
      calls := Resume();
    }

    /** The loops, until a callback is to be called. */
    method Resume() returns (calls: Went<F, V>)
      requires Valid() && firing && !running
      modifies this
      ensures Valid() && (State(), calls) == Resumed(old(State()))
    {
      hide PassKept, Turn;
      calls := OneTurn();
      while firing && calls.Quiet?
        invariant Valid() && (calls.Quiet? ==> !running)
        invariant (if calls.Ran? then (State(), calls) else Resumed(State())) == Resumed(old(State()))
        decreases |queue|, if passing then 1 else 0, if firing then 1 else 0, if calls.Quiet? then 1 else 0
      {
        calls := OneTurn();
      }
    }

    method OneTurn() returns (calls: Went<F, V>)
      requires Valid() && firing && !running
      modifies this
      ensures Valid() && (State(), calls) == Turn(old(State()))
      ensures calls.Quiet? ==> !running
      ensures calls.Ran? ==> queue == old(queue) && passing == old(passing) && firing
      ensures calls.Quiet? ==> |queue| < |old(queue)| || (queue == old(queue) && ((old(passing) && !passing) || (passing == old(passing) && !firing)))
    {
      TurnKeepsAll(State());
      hide PassKept;
      if passing {
        calls := NextEntry();
      } else {
        TakeOrEnd();
        calls := Quiet;
      }
    }

    /** The outer loop takes the next value or is done. */
    method TakeOrEnd()
      requires firing && !running && !passing
      modifies this`memory, this`queue, this`passing, this`fires, this`firing, this`list
      ensures State() == Turn(old(State())).0
      ensures |queue| < |old(queue)| || (queue == old(queue) && passing == old(passing) && !firing)
    {
      if queue != [] {
        memory, queue, passing := Some(queue[0]), queue[1..], true;
        fires := if firingIndex == -1 then fires + 1 else fires;
      } else {
        if !options.memory {
          memory := None;
        }
        firing := false;
        if locked {
          list := if memory.Some? then Some([]) else None;
        }
      }
    }

    /** The inner loop calls the next entry or ends the pass. */
    method NextEntry() returns (calls: Went<F, V>)
      requires firing && !running && passing
      modifies this`firingIndex, this`running, this`log, this`passing
      ensures (State(), calls) == Turn(old(State()))
      ensures if calls.Ran? then passing else !passing && !running
    {
      var next := firingIndex + 1;
      if list.Some? && 0 <= next < |list.value| && memory.Some? {
        firingIndex, running := next, true;
        log := log + [(fires, list.value[next].tag)];
        calls := Ran(list.value[next], memory.value);
      } else {
        firingIndex, passing := -1, false;
        calls := Quiet;
      }
    }

    /** The callback that was called has returned. */
    method Return(isFalse: bool) returns (calls: Went<F, V>)
      requires Valid() && running
      modifies this
      ensures Valid() && (State(), calls) == Resumed(Returned(old(State()), isFalse))
    {
      ReturnKeeps(State(), isFalse);
      if isFalse && options.stopOnFalse {
        firingIndex := if list.Some? then |list.value| else 0;
        memory := None;
      }
      running := false;
      calls := Resume();
    }

    method Remove(f: F)
      requires Valid() && Outside(State())
      modifies this`list, this`firingIndex
      ensures Valid() && State() == Removed(old(State()), f)
    {
      hide PassKept, Dropped;
      RemoveKeeps(State(), f);
      if list.None? {
        return;
      }
      AllDropped(State(), f);
      hide Removed;
      var rest, index := RemoveAll(list.value, f, firingIndex);
      list, firingIndex := Some(rest), index;
    }

    method FireWith(v: V) returns (calls: Went<F, V>)
      requires Valid() && Outside(State())
      modifies this
      ensures Valid()
      ensures var fired := FiredWith(old(State()), v);
              (State(), calls) == if !old(firing) && fired.firing then Resumed(fired) else (fired, Quiet)
    {
      FireKeeps(State(), v);
      calls := Quiet;
      if !locked {
        queue := queue + [v];
        if !firing {
          calls := Start();
        }
      }
    }

    method Disable()
      requires Valid() && Outside(State())
      modifies this`locked, this`queue, this`list, this`memory
      ensures Valid() && State() == Disabled(old(State()))
    {
      locked, queue, list, memory := true, [], None, None;
    }

    method Lock()
      requires Valid() && Outside(State())
      modifies this`locked, this`queue, this`list, this`memory
      ensures Valid() && State() == Locked(old(State()))
    {
      locked := true;
      if memory.None? {
        Disable();
      }
    }

    /** Emptying while firing is what `EmptyingSkips` is about. */
    method Empty()
      requires Valid() && Outside(State())
      modifies this`list
      ensures State() == Emptied(old(State())) && (!firing ==> Valid())
    {
      if list.Some? {
        list := Some([]);
      }
    }
  }
}
