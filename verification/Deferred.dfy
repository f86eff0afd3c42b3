/** Deferreds: three callback lists that settle each other. */
module Deferred {
  import opened Wrappers
  import opened Callbacks

  datatype Which = OnDone | OnFail | OnProgress

  datatype Final = Resolved | Rejected

  /** A callback of the user, or one of the three that a deferred puts in front of its own lists. */
  datatype Fn = User(id: nat) | SetState(final: Final) | DisableList(which: Which) | LockList(which: Which)

  type Value = int

  type List = Calls<Fn, Value>

  /** `stack` holds the lists that are firing, the innermost last. */
  datatype Deferred = Deferred(state: Option<Final>, done: List, fail: List, progress: List, stack: seq<Which>)

  const OnceMemory := Options(true, true, false, false)
  const Memory := Options(false, true, false, false)

  function FinalOf(w: Which): Final {
    if w == OnDone then Resolved else Rejected
  }

  function Other(w: Which): Which {
    if w == OnDone then OnFail else OnDone
  }

  function First(w: Which): seq<Fn> {
    [SetState(FinalOf(w)), DisableList(Other(w)), LockList(OnProgress)]
  }

  function NewDeferred(): Deferred {
    Deferred(None, Added(New(OnceMemory), First(OnDone)), Added(New(OnceMemory), First(OnFail)), New(Memory), [])
  }

  function Of(d: Deferred, w: Which): List {
    match w
    case OnDone => d.done
    case OnFail => d.fail
    case OnProgress => d.progress
  }

  function With(d: Deferred, w: Which, c: List): Deferred {
    match w
    case OnDone => d.(done := c)
    case OnFail => d.(fail := c)
    case OnProgress => d.(progress := c)
  }

  /** The user's code has control: nothing fires, or the innermost firing list runs one of its callbacks. */
  predicate UserControl(d: Deferred) {
    d.stack == [] || Of(d, d.stack[|d.stack| - 1]).running
  }

  function Effect(d: Deferred, fn: Fn): Deferred {
    match fn
    case User(_) => d
    case SetState(final) => d.(state := Some(final))
    case DisableList(w) => With(d, w, Disabled(Of(d, w)))
    case LockList(w) => With(d, w, Locked(Of(d, w)))
  }

  /** A list that starts firing goes on the stack. */
  function Entered(d: Deferred, w: Which, c: List): Deferred {
    var d' := With(d, w, c);
    if c.firing && !Of(d, w).firing then d'.(stack := d.stack + [w]) else d'
  }

  /** A turn of the innermost list. A callback of the user gets control; the deferred's own have their effect and return. */
  function Looped(d: Deferred): Deferred
    requires d.stack != []
  {
    var w := d.stack[|d.stack| - 1];
    var (c, went) := Turn(Of(d, w));
    if went.Ran? && !went.entry.fn.User? then
      var e := Effect(With(d, w, c), went.entry.fn);
      With(e, w, Returned(Of(e, w), false))
    else
      var e := With(d, w, c);
      if c.firing then e else e.(stack := d.stack[..|d.stack| - 1])
  }

  datatype Action = Adds(which: Which, ids: seq<nat>) | Fires(which: Which, value: Value) | Loops | Returns

  function Users(ids: seq<nat>): seq<Fn> {
    seq(|ids|, i requires 0 <= i < |ids| => User(ids[i]))
  }

  function Act(d: Deferred, a: Action): Option<Deferred> {
    match a
    case Adds(w, ids) => if UserControl(d) then Some(Entered(d, w, Added(Of(d, w), Users(ids)))) else None
    case Fires(w, v) => if UserControl(d) then Some(Entered(d, w, FiredWith(Of(d, w), v))) else None
    case Loops => if UserControl(d) then None else Some(Looped(d))
    case Returns =>
      if !UserControl(d) || d.stack == [] then None
      else
        var w := d.stack[|d.stack| - 1];
        Some(With(d, w, Returned(Of(d, w), false)))
  }

  function Run(d: Deferred, actions: seq<Action>): Option<Deferred>
    decreases |actions|
  {
    if actions == [] then Some(d)
    else
      var next :- Act(d, actions[0]);
      Run(next, actions[1..])
  }

  // ----- a list that fires once and remembers

  /** The list holds the last callbacks added, under the tags in which they were added. */
  predicate Suffix(c: List) {
    && |Items(c)| <= |c.pushed|
    && forall i :: 0 <= i < |Items(c)| ==>
         Items(c)[i] == Entry(c.pushed[|c.pushed| - |Items(c)| + i], |c.pushed| - |Items(c)| + i)
  }

  /** What ran is the first callbacks added, in the order in which they were added, each once. */
  predicate RanInOrder(c: List) {
    |c.log| <= |c.pushed| && forall k :: 0 <= k < |c.log| ==> c.log[k].1 == k
  }

  predicate OnceList(c: List, w: Which) {
    && c.options == OnceMemory && Suffix(c) && RanInOrder(c)
    && First(w) <= c.pushed && (forall k :: 3 <= k < |c.pushed| ==> c.pushed[k].User?)
  }

  predicate Unfired(c: List) {
    && !c.firing && !c.passing && !c.running && !c.locked && c.memory.None? && c.queue == []
    && c.list.Some? && |Items(c)| == |c.pushed| && c.firingIndex == -1 && c.log == []
  }

  predicate Dead(c: List) {
    && !c.firing && !c.passing && !c.running && c.locked && c.memory.None? && c.queue == [] && c.list.None? && c.log == []
  }

  predicate Live(c: List) {
    && c.locked && c.list.Some? && -1 <= c.firingIndex < |Items(c)|
    && (!c.firing ==> !c.passing && !c.running && c.queue == [] && c.memory.Some? && Items(c) == [] && |c.log| == |c.pushed|)
    && (c.running ==> c.passing)
    && (c.firing && !c.passing && c.queue == [] ==> c.memory.Some? && c.firingIndex == -1 && |c.log| == |c.pushed|)
    && (c.firing && !c.passing && c.queue != [] ==> |c.queue| == 1 && c.firingIndex == -1 && |c.log| == |c.pushed| - |Items(c)|)
    && (c.passing ==> c.firing && c.queue == [] && c.memory.Some? && |c.log| == |c.pushed| - |Items(c)| + c.firingIndex + 1)
  }

  lemma {:induction false} UsersPushed(c: List, fs: seq<Fn>)
    requires c.list.Some? && !c.options.unique && Suffix(c)
    ensures var d := Pushed(c, fs);
            && d == c.(list := d.list, pushed := c.pushed + fs) && d.list.Some? && |Items(d)| == |Items(c)| + |fs| && Suffix(d)
    decreases |fs|
  {
    if fs == [] {
      assert c.pushed + [] == c.pushed;
    } else {
      SuffixNext(c, fs[0]);
      hide Suffix;
      UsersPushed(PushedOne(c, fs[0]), fs[1..]);
      assert c.pushed + [fs[0]] + fs[1..] == c.pushed + fs;
    }
  }

  lemma {:induction false} SuffixNext(c: List, f: Fn)
    requires c.list.Some? && Suffix(c)
    ensures Suffix(PushedOne(c, f))
  {
  }

  lemma {:induction false} PushedOnceList(c: List, d: List, w: Which, ids: seq<nat>)
    requires OnceList(c, w) && Suffix(d)
    requires d.options == c.options && d.log == c.log && d.pushed == c.pushed + Users(ids)
    ensures OnceList(d, w)
  {
    forall k | 3 <= k < |d.pushed| ensures d.pushed[k].User? {
      assert k >= |c.pushed| ==> d.pushed[k] == Users(ids)[k - |c.pushed|];
    }
  }

  lemma {:induction false} AddToUnfired(c: List, w: Which, ids: seq<nat>)
    requires OnceList(c, w) && Unfired(c)
    ensures OnceList(Added(c, Users(ids)), w) && Unfired(Added(c, Users(ids)))
  {
    UsersPushed(c, Users(ids));
    PushedOnceList(c, Added(c, Users(ids)), w, ids);
  }

  lemma {:induction false} AddToLive(c: List, w: Which, ids: seq<nat>)
    requires OnceList(c, w) && Live(c) && Outside(c)
    ensures OnceList(Added(c, Users(ids)), w) && Live(Added(c, Users(ids)))
    ensures Added(c, Users(ids)).log == c.log && Added(c, Users(ids)).running == c.running
  {
    if c.firing {
      UsersPushed(c, Users(ids));
    } else {
      var c' := c.(firingIndex := |c.list.value| - 1, queue := c.queue + [c.memory.value]);
      UsersPushed(c', Users(ids));
    }
    var d := Added(c, Users(ids));
    assert |Items(d)| == |Items(c)| + |ids| && d.pushed == c.pushed + Users(ids);
    hide Pushed;
    PushedOnceList(c, d, w, ids);
    assert |Items(c)| <= |c.pushed|;
    hide OnceList, Suffix;
  }

  /** A turn of a live list runs the callback that is next in the order of additions, if one is left. */
  lemma {:induction false} TurnLive(c: List, w: Which)
    requires OnceList(c, w) && Live(c) && c.firing && !c.running
    ensures var (d, went) := Turn(c);
            && OnceList(d, w) && Live(d) && d.pushed == c.pushed
            && (went.Ran? ==> |c.log| < |c.pushed| && went.entry.fn == c.pushed[|c.log|] && |d.log| == |c.log| + 1 && d.running && d.firing)
            && (went.Quiet? ==> d.log == c.log && !d.running)
  {
    var (d, went) := Turn(c);
    if went.Ran? {
      assert went.entry == Items(c)[c.firingIndex + 1];
    }
  }

  // ----- what every run keeps

  predicate Control(d: Deferred) {
    && (forall w :: Of(d, w).firing <==> w in d.stack)
    && (forall w :: Of(d, w).running ==> Of(d, w).firing)
    && (forall i :: 0 <= i < |d.stack| - 1 ==> Of(d, d.stack[i]).running)
    && (forall i, j :: 0 <= i < j < |d.stack| ==> d.stack[i] != d.stack[j])
  }

  predicate Untouched(d: Deferred) {
    d.state.None? && Unfired(d.done) && Unfired(d.fail)
  }

  /** The list `w` has begun to fire first: it sets the state, disables the other list, and runs the user's callbacks last. */
  predicate SettledBy(d: Deferred, w: Which) {
    var (c, other, n) := (Of(d, w), Of(d, Other(w)), |Of(d, w).log|);
    && w != OnProgress && Live(c)
    && (n <= 3 ==> !c.running)
    && (n <= 1 ==> c.firing)
    && d.state == (if n == 0 then None else Some(FinalOf(w)))
    && (if n <= 1 then Unfired(other) else Dead(other))
  }

  /** The progress list holds callbacks of the user only. */
  predicate ProgressList(c: List) {
    forall e <- Items(c) :: e.fn.User?
  }

  predicate Kept(d: Deferred) {
    && Control(d) && OnceList(d.done, OnDone) && OnceList(d.fail, OnFail) && ProgressList(d.progress)
    && (Untouched(d) || SettledBy(d, OnDone) || SettledBy(d, OnFail))
  }

  lemma {:induction false} StartList(w: Which)
    ensures var c := Added(New(OnceMemory), First(w));
            OnceList(c, w) && Unfired(c)
  {
    UsersPushed(New(OnceMemory), First(w));
    hide Pushed;
    assert [] + First(w) == First(w);
  }

  lemma {:induction false} StartKept()
    ensures Kept(NewDeferred())
  {
    StartList(OnDone);
    StartList(OnFail);
    hide Added, OnceList;
  }

  // ----- what the user does

  /** When the user has control, every list that fires is running one of its callbacks. */
  lemma {:induction false} AllOutside(d: Deferred, w: Which)
    requires Control(d) && UserControl(d)
    ensures Outside(Of(d, w))
  {
    if Of(d, w).firing {
      var i :| 0 <= i < |d.stack| && d.stack[i] == w;
      assert i < |d.stack| - 1 ==> Of(d, d.stack[i]).running;
    }
  }

  lemma {:induction false} EnteredControl(d: Deferred, w: Which, c: List)
    requires Control(d) && UserControl(d)
    requires c.running == Of(d, w).running && (Of(d, w).firing ==> c.firing)
    ensures Control(Entered(d, w, c))
  {
    var e := Entered(d, w, c);
    forall x ensures Of(e, x).firing <==> x in e.stack {
      assert x != w ==> Of(e, x) == Of(d, x);
    }
    forall i | 0 <= i < |e.stack| - 1 ensures Of(e, e.stack[i]).running {
      assert e.stack[i] == d.stack[i];
      assert e.stack[i] != w ==> Of(e, e.stack[i]) == Of(d, d.stack[i]);
    }
  }

  /** Other lists do not notice. */
  lemma {:induction false} WithOthers(d: Deferred, w: Which, c: List, x: Which)
    ensures Of(Entered(d, w, c), x) == (if x == w then c else Of(d, x)) && Entered(d, w, c).state == d.state
  {
  }

  /** While the user has control the list that settles has done so, or nothing has happened. */
  lemma {:induction false} Decided(d: Deferred, w: Which)
    requires Control(d) && UserControl(d) && SettledBy(d, w)
    ensures |Of(d, w).log| >= 2 && Dead(Of(d, Other(w))) && d.state == Some(FinalOf(w))
  {
    AllOutside(d, w);
  }

  lemma {:induction false} AddedFlags(c: List, fs: seq<Fn>)
    ensures var d := Added(c, fs);
            d.running == c.running && (c.firing ==> d.firing)
  {
    if c.list.Some? {
      PushTags(c, fs);
      PushTags(c.(firingIndex := |c.list.value| - 1, queue := if c.memory.Some? then c.queue + [c.memory.value] else c.queue), fs);
    }
  }

  lemma {:induction false} UsersOnly(c: List, ids: seq<nat>)
    requires ProgressList(c)
    ensures ProgressList(Added(c, Users(ids)))
  {
    if c.list.Some? {
      PushUsers(c, Users(ids));
      PushUsers(c.(firingIndex := |c.list.value| - 1, queue := if c.memory.Some? then c.queue + [c.memory.value] else c.queue), Users(ids));
    }
  }

  lemma {:induction false} PushUsers(c: List, fs: seq<Fn>)
    requires c.list.Some? && ProgressList(c) && forall f <- fs :: f.User?
    ensures ProgressList(Pushed(c, fs))
    decreases |fs|
  {
    if fs != [] {
      assert fs[0] in fs;
      PushUsers(if c.options.unique && Has(c.list.value, fs[0]) then c else PushedOne(c, fs[0]), fs[1..]);
    }
  }

  lemma {:induction false} AddKept(d: Deferred, w: Which, ids: seq<nat>)
    requires Kept(d) && UserControl(d)
    ensures Kept(Act(d, Adds(w, ids)).value)
  {
    var c := Of(d, w);
    var added := Added(c, Users(ids));
    AddedFlags(c, Users(ids));
    AllOutside(d, w);
    EnteredControl(d, w, added);
    WithOthers(d, w, added, OnDone);
    WithOthers(d, w, added, OnFail);
    WithOthers(d, w, added, OnProgress);
    if SettledBy(d, OnDone) {
      Decided(d, OnDone);
    } else if SettledBy(d, OnFail) {
      Decided(d, OnFail);
    }
    if w == OnProgress {
      UsersOnly(c, ids);
    } else if Unfired(c) {
      AddToUnfired(c, w, ids);
    } else if c.list.Some? {
      AddToLive(c, w, ids);
    }
    hide Added, Control, OnceList, Suffix;
  }

  lemma {:induction false} FireKept(d: Deferred, w: Which, v: Value)
    requires Kept(d) && UserControl(d)
    ensures Kept(Act(d, Fires(w, v)).value)
    ensures Untouched(d) && w != OnProgress ==> SettledBy(Act(d, Fires(w, v)).value, w)
  {
    var c := Of(d, w);
    var fired := FiredWith(c, v);
    hide Suffix, RanInOrder;
    AllOutside(d, w);
    EnteredControl(d, w, fired);
    WithOthers(d, w, fired, OnDone);
    WithOthers(d, w, fired, OnFail);
    WithOthers(d, w, fired, OnProgress);
    if SettledBy(d, OnDone) {
      Decided(d, OnDone);
    } else if SettledBy(d, OnFail) {
      Decided(d, OnFail);
    }
    if w != OnProgress {
      if Unfired(c) {
        FireUnfired(c, w, v);
      } else {
        assert fired == c;
      }
    }
    hide Control, OnceList, FiredWith, Live;
  }

  lemma {:induction false} FireUnfired(c: List, w: Which, v: Value)
    requires OnceList(c, w) && Unfired(c)
    ensures var d := FiredWith(c, v);
            OnceList(d, w) && Live(d) && d.firing && !d.running && d.log == []
  {
  }

  // ----- what the lists do

  /** The innermost list goes on firing, or it is done and leaves the stack. */
  lemma {:induction false} TopControl(d: Deferred, e: Deferred)
    requires Control(d) && d.stack != []
    requires var w := d.stack[|d.stack| - 1];
             && (forall x :: x != w ==> Of(e, x).firing == Of(d, x).firing && Of(e, x).running == Of(d, x).running)
             && (Of(e, w).running ==> Of(e, w).firing)
             && e.stack == if Of(e, w).firing then d.stack else d.stack[..|d.stack| - 1]
    ensures Control(e)
  {
    var n := |d.stack| - 1;
    var w := d.stack[n];
    forall x ensures Of(e, x).firing <==> x in e.stack {
      assert d.stack == d.stack[..n] + [w];
    }
    forall i | 0 <= i < |e.stack| - 1 ensures Of(e, e.stack[i]).running {
      assert e.stack[i] == d.stack[i] && d.stack[i] != w;
    }
  }

  /** The turn of the list that settles: the state first, then the other list, then progress, then the user's callbacks. */
  lemma {:induction false} LoopIs(d: Deferred, w: Which)
    requires OnceList(Of(d, w), w) && Live(Of(d, w)) && Of(d, w).firing && !Of(d, w).running
    requires d.stack != [] && w == d.stack[|d.stack| - 1] && w != OnProgress
    ensures var (c, went) := Turn(Of(d, w));
            var (e, n) := (Looped(d), |Of(d, w).log|);
            && (went.Ran? && n == 0 ==> e == With(d.(state := Some(FinalOf(w))), w, Returned(c, false)))
            && (went.Ran? && n == 1 ==> e == With(With(d, Other(w), Disabled(Of(d, Other(w)))), w, Returned(c, false)))
            && (went.Ran? && n == 2 ==> e == With(d.(progress := Locked(d.progress)), w, Returned(c, false)))
            && (went.Ran? && n >= 3 ==> e == With(d, w, c))
            && (went.Quiet? ==> e == With(d, w, c).(stack := if c.firing then d.stack else d.stack[..|d.stack| - 1]))
  {
    TurnLive(Of(d, w), w);
    hide Suffix, RanInOrder, Live, Turn;
    assert First(w)[0] == SetState(FinalOf(w)) && First(w)[1] == DisableList(Other(w)) && First(w)[2] == LockList(OnProgress);
  }

  lemma {:induction false} ReturnOnce(c: List, w: Which)
    requires OnceList(c, w) && Live(c) && c.firing
    ensures OnceList(Returned(c, false), w) && Live(Returned(c, false))
  {
  }

  lemma {:induction false} LoopSettled(d: Deferred, w: Which)
    requires Kept(d) && !UserControl(d) && w == d.stack[|d.stack| - 1] && w != OnProgress
    ensures SettledBy(d, w) && SettledBy(Looped(d), w)
    ensures OnceList(Of(Looped(d), w), w) && OnceList(Of(Looped(d), Other(w)), Other(w)) && ProgressList(Looped(d).progress)
    ensures d.state.Some? ==> Looped(d).state == d.state
  {
    hide Suffix, RanInOrder;
    assert w in d.stack && Of(d, w).firing;
    TurnLive(Of(d, w), w);
    LoopIs(d, w);
    var (c, went) := Turn(Of(d, w));
    hide Turn, Control;
    if went.Ran? {
      ReturnOnce(c, w);
    }
    var (e, r) := (Looped(d), Of(Looped(d), w));
    hide Looped;
    assert r == if went.Ran? && |Of(d, w).log| <= 2 then Returned(c, false) else c;
    LiveFlags(r);
    hide Suffix, RanInOrder, Live, OnceList;
    var other := Of(d, Other(w));
    DisabledOnce(other, Other(w));
    assert Of(e, Other(w)) == if went.Ran? && |Of(d, w).log| == 1 then Disabled(other) else other;
  }

  lemma {:induction false} LiveFlags(c: List)
    requires Live(c)
    ensures !c.firing ==> |c.log| == |c.pushed| && !c.running
  {
  }

  lemma {:induction false} DisabledOnce(c: List, w: Which)
    requires OnceList(c, w)
    ensures OnceList(Disabled(c), w) && (Unfired(c) ==> Dead(Disabled(c)))
  {
  }

  lemma {:induction false} LoopFlags(d: Deferred)
    requires d.stack != []
    ensures var (w, e) := (d.stack[|d.stack| - 1], Looped(d));
            && (forall x :: x != w ==> Of(e, x).firing == Of(d, x).firing && Of(e, x).running == Of(d, x).running)
  {
    hide Turn, Returned;
  }

  lemma {:induction false} LoopProgress(d: Deferred)
    requires Kept(d) && !UserControl(d) && d.stack[|d.stack| - 1] == OnProgress
    ensures Looped(d).done == d.done && Looped(d).fail == d.fail && Looped(d).state == d.state && ProgressList(Looped(d).progress)
  {
    hide OnceList, SettledBy, Untouched, Control;
    var (c, went) := Turn(d.progress);
    assert went.Ran? ==> went.entry == Items(d.progress)[c.firingIndex];
    assert ProgressList(c);
  }

  lemma {:induction false} LoopKept(d: Deferred)
    requires Kept(d) && !UserControl(d)
    ensures Kept(Looped(d))
    ensures d.state.Some? ==> Looped(d).state == d.state
  {
    var w := d.stack[|d.stack| - 1];
    LoopFlags(d);
    LoopTop(d);
    TopControl(d, Looped(d));
    if w == OnProgress {
      LoopProgress(d);
    } else {
      LoopSettled(d, w);
    }
    hide Control, Looped, OnceList;
  }

  lemma {:induction false} LoopTop(d: Deferred)
    requires Kept(d) && !UserControl(d)
    ensures var (w, e) := (d.stack[|d.stack| - 1], Looped(d));
            && (Of(e, w).running ==> Of(e, w).firing)
            && e.stack == if Of(e, w).firing then d.stack else d.stack[..|d.stack| - 1]
  {
    hide Suffix, RanInOrder;
    var w := d.stack[|d.stack| - 1];
    assert w in d.stack && Of(d, w).firing;
    if w == OnProgress {
      hide Kept, Control;
      ProgressTop(d);
    } else {
      TurnLive(Of(d, w), w);
      LoopIs(d, w);
      hide Turn, Looped, Control, Live;
    }
  }

  lemma {:induction false} ProgressTop(d: Deferred)
    requires d.stack != [] && d.stack[|d.stack| - 1] == OnProgress && ProgressList(d.progress) && d.progress.firing && !d.progress.running
    ensures var e := Looped(d);
            && (e.progress.running ==> e.progress.firing)
            && e.stack == if e.progress.firing then d.stack else d.stack[..|d.stack| - 1]
  {
    var (c, went) := Turn(d.progress);
    assert went.Ran? ==> went.entry == Items(d.progress)[c.firingIndex];
  }

  lemma {:induction false} ReturnKept(d: Deferred)
    requires Kept(d) && UserControl(d) && d.stack != []
    ensures Kept(Act(d, Returns).value)
  {
    var w := d.stack[|d.stack| - 1];
    var e := Act(d, Returns).value;
    assert w in d.stack && Of(d, w).firing;
    TopControl(d, e);
    hide Control;
    if w != OnProgress {
      ReturnOnce(Of(d, w), w);
    } else {
      assert ProgressList(e.progress);
    }
    hide Suffix, RanInOrder;
  }

  lemma {:induction false} ActKept(d: Deferred, a: Action)
    requires Kept(d) && Act(d, a).Some?
    ensures Kept(Act(d, a).value)
    ensures d.state.Some? ==> Act(d, a).value.state == d.state
  {
    match a
    case Adds(w, ids) =>
      AddKept(d, w, ids);
      WithOthers(d, w, Added(Of(d, w), Users(ids)), w);
    case Fires(w, v) =>
      FireKept(d, w, v);
      WithOthers(d, w, FiredWith(Of(d, w), v), w);
    case Loops => LoopKept(d);
    case Returns => ReturnKept(d);
  }

  lemma {:induction false} RunKept(d: Deferred, actions: seq<Action>)
    requires Kept(d)
    ensures var r := Run(d, actions);
            r.Some? ==> Kept(r.value) && (d.state.Some? ==> r.value.state == d.state)
    decreases |actions|
  {
    hide Kept, Act;
    if actions != [] && Act(d, actions[0]).Some? {
      ActKept(d, actions[0]);
      RunKept(Act(d, actions[0]).value, actions[1..]);
    }
  }

  /** A deferred settles at most once: whatever happens after, the state stays. */
  lemma {:induction false} SettlesOnce(before: seq<Action>, after: seq<Action>)
    requires Run(NewDeferred(), before).Some?
    ensures var (d, r) := (Run(NewDeferred(), before).value, Run(Run(NewDeferred(), before).value, after));
            r.Some? && d.state.Some? ==> r.value.state == d.state
  {
    StartKept();
    RunKept(NewDeferred(), before);
    RunKept(Run(NewDeferred(), before).value, after);
  }

  /** Of the two lists that settle a deferred only one ever runs a callback, the one the state names, and it runs
      each callback once and in the order of additions. When everything that was called has returned, a resolved
      deferred has run all its done callbacks, added before, during or after it was resolved, and no fail callback;
      a rejected one the other way round; and one that is pending has run none. */
  lemma {:induction false} EachCallbackOnce(actions: seq<Action>)
    requires Run(NewDeferred(), actions).Some?
    ensures var d := Run(NewDeferred(), actions).value;
            && RanInOrder(d.done) && RanInOrder(d.fail)
            && (d.done.log == [] || d.fail.log == [])
            && (d.stack == [] ==>
                  match d.state
                  case None => d.done.log == [] && d.fail.log == []
                  case Some(Resolved) => |d.done.log| == |d.done.pushed| && d.fail.log == []
                  case Some(Rejected) => |d.fail.log| == |d.fail.pushed| && d.done.log == [])
  {
    StartKept();
    RunKept(NewDeferred(), actions);
    var d := Run(NewDeferred(), actions).value;
    if d.stack == [] {
      assert !d.done.firing && !d.fail.firing;
    }
  }
}
