/** The index handler: records, index numbers, and the queue of index messages, part of it in temporary storage. */
module IndexHandler {
  import opened Wrappers
  import opened Blocks
  import opened IndexRecords

  /** A message waiting to be processed, or the key it is stored under. */
  datatype Job = Direct(message: Message) | Stored(key: string)

  datatype Queue = Queue(jobs: seq<Job>, temp: map<string, Message>, queuedMessages: int)

  const NoMessages := Queue([], map[], 0)

  /** Only the first of a queue stays in memory. */
  function Enqueued(q: Queue, m: Message, key: string): Queue {
    if q.queuedMessages > 0
    then Queue(q.jobs + [Stored(key)], q.temp[key := m], q.queuedMessages + 1)
    else Queue(q.jobs + [Direct(m)], q.temp, q.queuedMessages + 1)
  }

  function Dequeued(q: Queue): Queue
    requires q.jobs != []
  {
    q.(jobs := q.jobs[1..], temp := if q.jobs[0].Stored? then q.temp - {q.jobs[0].key} else q.temp)
  }

  /** A message counts as queued until it has been processed. */
  function Finished(q: Queue): Queue {
    q.(queuedMessages := q.queuedMessages - 1)
  }

  predicate Sound(q: Queue, busy: bool) {
    && q.queuedMessages == |q.jobs| + (if busy then 1 else 0)
    && (forall i :: 0 <= i < |q.jobs| && q.jobs[i].Stored? ==> q.jobs[i].key in q.temp)
    && (forall i, j :: 0 <= i < j < |q.jobs| && q.jobs[i].Stored? && q.jobs[j].Stored? ==> q.jobs[i].key != q.jobs[j].key)
    && (forall k <- q.temp :: Stored(k) in q.jobs)
  }

  function MessageOf(q: Queue, job: Job): Message
    requires job.Stored? ==> job.key in q.temp
  {
    if job.Direct? then job.message else q.temp[job.key]
  }

  /** The messages of the queue in their order, wherever they are kept. */
  function Messages(q: Queue, busy: bool): seq<Message>
    requires Sound(q, busy)
  {
    seq(|q.jobs|, i requires 0 <= i < |q.jobs| => MessageOf(q, q.jobs[i]))
  }

  lemma {:induction false} EnqueuedLast(q: Queue, busy: bool, m: Message, key: string)
    requires Sound(q, busy) && key !in q.temp
    ensures Sound(Enqueued(q, m, key), busy) && Messages(Enqueued(q, m, key), busy) == Messages(q, busy) + [m]
  {
    var q' := Enqueued(q, m, key);
    forall k | k in q'.temp ensures Stored(k) in q'.jobs {
      if k == key && q.queuedMessages > 0 {
        assert q'.jobs[|q.jobs|] == Stored(k);
      } else {
        assert Stored(k) in q.jobs;
      }
    }
    assert forall i :: 0 <= i < |q.jobs| ==> q'.jobs[i] == q.jobs[i];
  }

  lemma {:induction false} DequeuedSound(q: Queue)
    requires Sound(q, false) && q.jobs != []
    ensures Sound(Dequeued(q), true)
  {
    var q' := Dequeued(q);
    forall k | k in q'.temp ensures Stored(k) in q'.jobs {
      var i :| 0 <= i < |q.jobs| && q.jobs[i] == Stored(k);
      assert q'.jobs[i - 1] == Stored(k);
    }
    assert forall i :: 0 <= i < |q'.jobs| ==> q'.jobs[i] == q.jobs[i + 1];
  }

  /** Taking a job gives the oldest message, and temporary storage keeps nothing but what still waits. */
  lemma {:induction false} DequeuedFirst(q: Queue)
    requires Sound(q, false) && q.jobs != []
    ensures Sound(Dequeued(q), true) && Messages(q, false) == [MessageOf(q, q.jobs[0])] + Messages(Dequeued(q), true)
    ensures Dequeued(q).jobs == [] ==> Dequeued(q).temp == map[]
  {
    DequeuedSound(q);
    var q' := Dequeued(q);
    forall i | 0 <= i < |q'.jobs| ensures Messages(q', true)[i] == Messages(q, false)[i + 1] {
      assert q'.jobs[i] == q.jobs[i + 1];
    }
    if q'.jobs == [] {
      EmptyQueue(q', true);
    }
  }

  lemma {:induction false} EmptyQueue(q: Queue, busy: bool)
    requires Sound(q, busy) && q.jobs == []
    ensures q.temp == map[]
  {
    if k :| k in q.temp {
      assert false;
    }
  }

  // ----- runs of the handler

  /** What happens to the handler: a message arrives (with a fresh key for it), a cluster configuration announces an
      index, and the processor takes a job, pushes the next record of its message, or is done with it. */
  datatype Action = Arrives(message: Message, key: string) | Announces(event: Event) | Takes | PushesNext | Finishes

  /** The message being processed, and how many of its records have been pushed. */
  datatype Working = Working(message: Message, pushed: nat)

  datatype State = State(index: Index, queue: Queue, current: Option<Working>)

  function Act(env: Env, s: State, a: Action): Option<State> {
    match a
    case Arrives(m, key) => if key in s.queue.temp then None else Some(s.(queue := Enqueued(s.queue, m, key)))
    case Announces(e) => if e.Announced? then Some(s.(index := Handled(env, s.index, e))) else None
    case Takes =>
      if s.current.Some? || s.queue.jobs == [] || (s.queue.jobs[0].Stored? && s.queue.jobs[0].key !in s.queue.temp) then None
      else Some(s.(queue := Dequeued(s.queue), current := Some(Working(MessageOf(s.queue, s.queue.jobs[0]), 0))))
    case PushesNext =>
      if s.current.None? || s.current.value.pushed >= |s.current.value.message.files| then None
      else
        var Working(m, n) := s.current.value;
        Some(s.(index := Pushed(env, s.index, m.folder, m.files[n]).0, current := Some(Working(m, n + 1))))
    case Finishes =>
      if s.current.None? || s.current.value.pushed != |s.current.value.message.files| then None
      else Some(State(Sequenced(s.index, s.current.value.message), Finished(s.queue), None))
  }

  function ActAll(env: Env, s: State, actions: seq<Action>): Option<State>
    decreases |actions|
  {
    if actions == [] then Some(s)
    else
      var s' :- Act(env, s, actions[0]);
      ActAll(env, s', actions[1..])
  }

  /** The events of a run without a queue, in which a message is handled at once where its processing ends here. */
  function Unqueued(waiting: seq<Message>, actions: seq<Action>): seq<Event>
    decreases |actions|
  {
    if actions == [] then []
    else match actions[0]
      case Arrives(m, _) => Unqueued(waiting + [m], actions[1..])
      case Announces(e) => [e] + Unqueued(waiting, actions[1..])
      case Finishes => if waiting == [] then [] else [Received(waiting[0])] + Unqueued(waiting[1..], actions[1..])
      case _ => Unqueued(waiting, actions[1..])
  }

  function Apply(env: Env, ix: Index, events: seq<Event>): Index
    decreases |events|
  {
    if events == [] then ix else Apply(env, Handled(env, ix, events[0]), events[1..])
  }

  lemma {:induction false} ApplyIsHandledAll(env: Env, first: seq<Event>, events: seq<Event>)
    ensures Apply(env, HandledAll(env, EmptyIndex, first), events) == HandledAll(env, EmptyIndex, first + events)
    decreases |events|
  {
    if events == [] {
      assert first + events == first;
    } else {
      assert (first + [events[0]])[..|first|] == first;
      ApplyIsHandledAll(env, first + [events[0]], events[1..]);
      assert first + [events[0]] + events[1..] == first + events;
    }
  }

  predicate StateSound(s: State) {
    Sound(s.queue, s.current.Some?) && (s.current.Some? ==> s.current.value.pushed <= |s.current.value.message.files|)
  }

  /** All messages that have not been processed to the end, oldest first. */
  function Unfinished(s: State): seq<Message>
    requires StateSound(s)
  {
    (if s.current.Some? then [s.current.value.message] else []) + Messages(s.queue, s.current.Some?)
  }

  /** The index is `direct`, but for the records of the current message that have been pushed. */
  predicate AheadOf(env: Env, s: State, direct: Index) {
    if s.current.None? then s.index == direct
    else
      var Working(m, n) := s.current.value;
      n <= |m.files| && s.index == PushedAll(env, direct, Pushes(m)[..n])
  }

  /** An announcement in the middle of a message is as good as one before it. */
  lemma {:induction false} AnnouncedBefore(env: Env, ix: Index, e: Event, pushes: seq<Push>)
    requires e.Announced?
    ensures Handled(env, PushedAll(env, ix, pushes), e) == PushedAll(env, Handled(env, ix, e), pushes)
    decreases |pushes|
  {
    if pushes != [] {
      var next := Pushed(env, ix, pushes[0].folder, pushes[0].record).0;
      AnnouncedBefore(env, next, e, pushes[1..]);
      hide Described;
      assert Pushed(env, Handled(env, ix, e), pushes[0].folder, pushes[0].record).0 == Handled(env, next, e);
    }
  }

  /** What one action changes, seen from direct processing: announcements, and messages that are done. */
  lemma {:induction false} ActAhead(env: Env, s: State, direct: Index, a: Action)
    requires StateSound(s) && AheadOf(env, s, direct) && Act(env, s, a).Some?
    ensures var next := Act(env, s, a).value;
            && StateSound(next)
            && match a
               case Arrives(m, _) => Unfinished(next) == Unfinished(s) + [m] && AheadOf(env, next, direct)
               case Announces(e) => Unfinished(next) == Unfinished(s) && AheadOf(env, next, Handled(env, direct, e))
               case Finishes =>
                 && Unfinished(s) != [] && Unfinished(next) == Unfinished(s)[1..]
                 && AheadOf(env, next, Handled(env, direct, Received(Unfinished(s)[0])))
               case _ => Unfinished(next) == Unfinished(s) && AheadOf(env, next, direct)
  {
    hide Pushed, PushedAll;
    match a
    case Arrives(m, key) =>
      EnqueuedLast(s.queue, s.current.Some?, m, key);
      hide Enqueued, Sound;
    case Announces(e) =>
      if s.current.Some? {
        AnnouncedBefore(env, direct, e, Pushes(s.current.value.message)[..s.current.value.pushed]);
      }
      hide Handled;
    case Takes =>
      TakeAhead(env, s, direct);
    case PushesNext =>
      var Working(m, n) := s.current.value;
      assert Pushes(m)[..n + 1] == Pushes(m)[..n] + [Push(m.folder, m.files[n])];
      PushedSnoc(env, direct, Pushes(m)[..n], Push(m.folder, m.files[n]));
    case Finishes =>
      var m := s.current.value.message;
      assert Pushes(m)[..|m.files|] == Pushes(m);
      FinishedMessages(s.queue);
      hide Sound;
  }

  lemma {:induction false} FinishedMessages(q: Queue)
    requires Sound(q, true)
    ensures Sound(Finished(q), false) && Messages(Finished(q), false) == Messages(q, true)
  {
  }

  lemma {:induction false} TakeAhead(env: Env, s: State, direct: Index)
    requires StateSound(s) && AheadOf(env, s, direct) && Act(env, s, Takes).Some?
    ensures var next := Act(env, s, Takes).value;
            StateSound(next) && Unfinished(next) == Unfinished(s) && AheadOf(env, next, direct)
  {
    DequeuedFirst(s.queue);
    hide Sound, Dequeued, Messages;
    var m := MessageOf(s.queue, s.queue.jobs[0]);
    assert Pushes(m)[..0] == [];
  }

  /** Spilling to temporary storage changes nothing. In every interleaving of arrivals and announcements with the steps of
      the processor the index is that of direct processing, but for the records of the message being processed; and an
      empty queue leaves no temporary data. */
  lemma {:induction false} SpillingIsInvisible(env: Env, s: State, direct: Index, actions: seq<Action>)
    requires StateSound(s) && AheadOf(env, s, direct) && ActAll(env, s, actions).Some?
    ensures var end := ActAll(env, s, actions).value;
            && StateSound(end)
            && AheadOf(env, end, Apply(env, direct, Unqueued(Unfinished(s), actions)))
            && (end.current.None? ==> end.index == Apply(env, direct, Unqueued(Unfinished(s), actions)))
            && (end.queue.jobs == [] ==> end.queue.temp == map[])
    decreases |actions|
  {
    if actions != [] {
      var (a, next) := (actions[0], Act(env, s, actions[0]).value);
      ActAhead(env, s, direct, a);
      hide Act, AheadOf, StateSound, Unfinished, Handled;
      var events := match a
                    case Announces(e) => [e]
                    case Finishes => [Received(Unfinished(s)[0])]
                    case _ => [];
      var rest := Unqueued(Unfinished(next), actions[1..]);
      assert Unqueued(Unfinished(s), actions) == events + rest;
      assert events != [] ==> (events + rest)[1..] == rest;
      assert events == [] ==> events + rest == rest;
      SpillingIsInvisible(env, next, if events == [] then direct else Handled(env, direct, events[0]), actions[1..]);
    } else if s.queue.jobs == [] {
      EmptyQueue(s.queue, s.current.Some?);
    }
  }

  // ----- the handler

  class IndexHandler {
    const env: Env
    var files: map<Key, FileInfo>
    var blocks: map<Key, seq<BlockInfo>>
    var infos: map<Key, IndexInfo>
    var posted: seq<FileInfo>
    var jobs: seq<Job>
    var temp: map<string, Message>
    var queuedMessages: int
    ghost var busy: bool

    constructor (env: Env)
      ensures this.env == env && Contents() == EmptyIndex && posted == [] && Waiting() == NoMessages && !busy && Valid()
    {
      this.env := env;
      files, blocks, infos, posted, jobs, temp, queuedMessages := map[], map[], map[], [], [], map[], 0;
      busy := false;
    }

    function Contents(): Index
      reads this
    {
      Index(files, blocks, infos)
    }

    function Waiting(): Queue
      reads this
    {
      Queue(jobs, temp, queuedMessages)
    }

    ghost predicate Valid()
      reads this
    {
      BlocksFit(env, Contents()) && Sound(Waiting(), busy)
    }

    /** Stores a record that is new or later, and posts the change. */
    method AddRecord(f: FileInfo, fileBlocks: seq<BlockInfo>) returns (r: Outcome<Option<FileInfo>>)
      modifies this`files, this`blocks, this`posted
      ensures (Contents(), r) == Added(old(Contents()), f, fileBlocks)
      ensures posted == old(posted) + if r.Done? && r.value.Some? then [f] else []
    {
      var key := (f.folder, f.path);
      if key in files && f.lastModified <= files[key].lastModified {
        return Done(None);
      }
      if !Storable(f, fileBlocks) {
        return Thrown;
      }
      if !f.isDirectory {
        blocks := blocks[key := fileBlocks];
      }
      files := files[key := f];
      posted := posted + [f];
      r := Done(Some(f));
    }

    method PushRecord(folder: string, record: BepFile) returns (r: Outcome<Option<FileInfo>>)
      requires Valid()
      modifies this`files, this`blocks, this`posted
      ensures Valid() && (Contents(), r) == Pushed(env, old(Contents()), folder, record)
      ensures posted == old(posted) + if r.Done? && r.value.Some? then [r.value.value] else []
    {
      PushKeepsBlocks(env, Contents(), Push(folder, record));
      var d := Described(env, folder, record);
      if d.Thrown? || d.value.None? {
        return d;
      }
      r := AddRecord(d.value.value, record.blocks);
    }

    method UpdateIndexInfo(key: Key, indexId: Option<int>, maxSequence: Option<int>, localSequence: Option<int>) returns (ok: bool)
      modifies this`infos
      ensures ok == Updated(old(Contents()), key, indexId, maxSequence, localSequence).Done?
      ensures Contents() == if ok then Updated(old(Contents()), key, indexId, maxSequence, localSequence).value else old(Contents())
    {
      var info;
      if key !in infos {
        if indexId.None? {
          return false;
        }
        info := Initial(indexId.value);
      } else {
        info := infos[key];
      }
      if indexId.Some? && indexId.value != info.indexId {
        info := info.(indexId := indexId.value);
      }
      if maxSequence.Some? && maxSequence.value > info.maxSequence {
        info := info.(maxSequence := maxSequence.value);
      }
      if localSequence.Some? && localSequence.value > info.localSequence {
        info := info.(localSequence := localSequence.value);
      }
      infos := infos[key := info];
      ok := true;
    }

    /** A cluster configuration announces the indexes of devices that give an id and a number. */
    method HandleClusterConfig(announcements: seq<Event>)
      requires Valid() && forall a <- announcements :: a.Announced?
      modifies this`infos
      ensures Valid() && Contents() == Apply(env, old(Contents()), announcements)
    {
      var i := 0;
      while i < |announcements|
        invariant 0 <= i <= |announcements| && Valid()
        invariant Apply(env, Contents(), announcements[i..]) == Apply(env, old(Contents()), announcements)
      {
        var a := announcements[i];
        assert a in announcements && announcements[i..][1..] == announcements[i + 1..];
        var ok := UpdateIndexInfo((a.device, a.folder), Some(a.indexId), Some(a.maxSequence), None);
        i := i + 1;
      }
    }

    method IsRemoteIndexAcquired(shared: seq<string>, device: string) returns (ready: bool)
      ensures ready == Acquired(Contents(), shared, device)
    {
      ready := true;
      var i := 0;
      while i < |shared|
        invariant 0 <= i <= |shared|
        invariant ready == Acquired(Contents(), shared[..i], device)
      {
        var key := (device, shared[i]);
        assert shared[..i + 1] == shared[..i] + [shared[i]];
        if key !in infos || infos[key].localSequence < infos[key].maxSequence {
          ready := false;
        }
        i := i + 1;
      }
      assert shared[..i] == shared;
    }

    method ProcessMessage(m: Message)
      requires Valid()
      modifies this`files, this`blocks, this`infos, this`posted
      ensures Valid() && Contents() == Processed(env, old(Contents()), m)
    {
      var sequence := -1;
      var i := 0;
      while i < |m.files|
        invariant 0 <= i <= |m.files| && Valid() && infos == old(infos)
        invariant sequence == LastSequence(m.files[..i])
        invariant PushedAll(env, Contents(), Pushes(m)[i..]) == PushedAll(env, old(Contents()), Pushes(m))
      {
        assert Pushes(m)[i..][0] == Push(m.folder, m.files[i]) && Pushes(m)[i..][1..] == Pushes(m)[i + 1..];
        assert m.files[..i + 1][..i] == m.files[..i];
        var r := PushRecord(m.folder, m.files[i]);
        sequence := if m.files[i].sequence > sequence then m.files[i].sequence else sequence;
        i := i + 1;
      }
      assert m.files[..i] == m.files;
      var ok := UpdateIndexInfo((m.device, m.folder), None, None, Some(sequence));
    }

    /** A message arrives; behind others it is put into temporary storage under a fresh key. */
    method HandleIndexMessage(m: Message, freshKey: string)
      requires Valid() && freshKey !in temp
      modifies this`jobs, this`temp, this`queuedMessages
      ensures Valid() && Waiting() == Enqueued(old(Waiting()), m, freshKey)
    {
      EnqueuedLast(Waiting(), busy, m, freshKey);
      if queuedMessages > 0 {
        temp := temp[freshKey := m];
        jobs := jobs + [Stored(freshKey)];
      } else {
        jobs := jobs + [Direct(m)];
      }
      queuedMessages := queuedMessages + 1;
    }

    method RunNext()
      requires Valid() && !busy && jobs != []
      modifies this
      ensures Valid() && !busy && Waiting() == Finished(Dequeued(old(Waiting())))
      ensures Contents() == Processed(env, old(Contents()), old(MessageOf(Waiting(), jobs[0])))
    {
      var m := TakeNext();
      ProcessMessage(m);
      Finish();
    }

    /** The next message, from memory or from temporary storage. */
    method TakeNext() returns (m: Message)
      requires Valid() && !busy && jobs != []
      modifies this`jobs, this`temp, this`busy
      ensures Valid() && busy && Waiting() == Dequeued(old(Waiting())) && m == old(MessageOf(Waiting(), jobs[0]))
    {
      DequeuedFirst(Waiting());
      var job := jobs[0];
      jobs := jobs[1..];
      if job.Direct? {
        m := job.message;
      } else {
        m := temp[job.key];
        temp := temp - {job.key};
      }
      busy := true;
    }

    method Finish()
      requires Valid() && busy
      modifies this`queuedMessages, this`busy
      ensures Valid() && !busy && Waiting() == Finished(old(Waiting()))
    {
      FinishedMessages(Waiting());
      queuedMessages := queuedMessages - 1;
      busy := false;
    }
  }
}
