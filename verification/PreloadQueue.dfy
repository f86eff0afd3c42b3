/** The queue of preload jobs: one executor thread, and tasks that resubmit themselves. */
module PreloadQueue {
  import opened Wrappers

  /** `queued` tasks wait for the thread; the running one, if any, works on the path it took. */
  datatype Preload = Preload(jobs: seq<string>, queued: nat, running: Option<string>)

  const Idle := Preload([], 0, None)

  function Without(jobs: seq<string>, path: string): seq<string> {
    if jobs == [] then [] else (if jobs[0] == path then [] else [jobs[0]]) + Without(jobs[1..], path)
  }

  /** A path that is already waiting moves to the end; a new one comes with a task. */
  function Triggered(p: Preload, path: string): Preload {
    if path in p.jobs then p.(jobs := Without(p.jobs, path) + [path])
    else p.(jobs := p.jobs + [path], queued := p.queued + 1)
  }

  datatype Step = Begin | End | Fail

  /** A task takes the last job; without one it gives up. At its end it removes the job and goes on if others are
      left; a lookup that throws ends it before that. */
  function Stepped(p: Preload, step: Step): Option<Preload> {
    match step
    case Begin =>
      if p.queued == 0 || p.running.Some? then None
      else if p.jobs == [] then Some(p.(queued := p.queued - 1))
      else Some(p.(queued := p.queued - 1, running := Some(p.jobs[|p.jobs| - 1])))
    case End =>
      if p.running.None? then None
      else
        var rest := Without(p.jobs, p.running.value);
        Some(Preload(rest, if rest == [] then p.queued else p.queued + 1, None))
    case Fail => if p.running.None? then None else Some(p.(running := None))
  }

  function Tasks(p: Preload): nat {
    p.queued + if p.running.Some? then 1 else 0
  }

  predicate NoRepeats(jobs: seq<string>) {
    jobs == [] || (jobs[0] !in jobs[1..] && NoRepeats(jobs[1..]))
  }

  predicate Sound(p: Preload) {
    NoRepeats(p.jobs) && (p.running.Some? ==> p.running.value in p.jobs)
  }

  lemma {:induction false} WithoutIs(jobs: seq<string>, path: string)
    ensures forall x :: x in Without(jobs, path) <==> x in jobs && x != path
    ensures NoRepeats(jobs) ==> NoRepeats(Without(jobs, path)) && |Without(jobs, path)| == |jobs| - if path in jobs then 1 else 0
    ensures path !in jobs ==> Without(jobs, path) == jobs
    decreases |jobs|
  {
    if jobs != [] {
      WithoutIs(jobs[1..], path);
      var rest := Without(jobs[1..], path);
      assert jobs == [jobs[0]] + jobs[1..];
      assert ([jobs[0]] + rest)[1..] == rest && [] + rest == rest;
    }
  }

  lemma {:induction false} AppendNew(jobs: seq<string>, path: string)
    requires NoRepeats(jobs) && path !in jobs
    ensures NoRepeats(jobs + [path])
    decreases |jobs|
  {
    if jobs == [] {
      assert ([] + [path])[1..] == [];
    } else {
      assert (jobs + [path])[0] == jobs[0] && (jobs + [path])[1..] == jobs[1..] + [path];
      AppendNew(jobs[1..], path);
    }
  }

  /** As long as no lookup fails there are at least as many tasks as jobs. */
  lemma {:induction false} TasksCoverJobs(p: Preload, path: string, step: Step)
    requires Sound(p) && |p.jobs| <= Tasks(p)
    ensures Sound(Triggered(p, path)) && |Triggered(p, path).jobs| <= Tasks(Triggered(p, path))
    ensures var r := Stepped(p, step);
            r.Some? ==> Sound(r.value) && (!step.Fail? ==> |r.value.jobs| <= Tasks(r.value))
  {
    WithoutIs(p.jobs, path);
    AppendNew(Without(p.jobs, path), path);
    if p.running.Some? {
      WithoutIs(p.jobs, p.running.value);
    }
  }

  /** A schedule is any sequence of steps that can be taken one after the other. */
  function Scheduled(p: Preload, steps: seq<Step>): Option<Preload>
    decreases |steps|
  {
    if steps == [] then Some(p)
    else
      var next :- Stepped(p, steps[0]);
      Scheduled(next, steps[1..])
  }

  /** Whether nothing is left to do. */
  predicate Finished(p: Preload) {
    forall step :: Stepped(p, step).None?
  }

  /** Every step without a new job brings this down: jobs only go, and a task is begun before it comes back. */
  function Bound(p: Preload): nat {
    3 * |p.jobs| + 2 * p.queued + if p.running.Some? then 1 else 0
  }

  function Fails(steps: seq<Step>): nat {
    if steps == [] then 0 else (if steps[0].Fail? then 1 else 0) + Fails(steps[1..])
  }

  /** A step takes jobs away or leaves them all; a task goes only when its lookup fails or no job is left. */
  lemma {:induction false} StepKeeps(p: Preload, step: Step)
    requires Sound(p) && Stepped(p, step).Some?
    ensures var q := Stepped(p, step).value;
            && Sound(q) && Bound(q) < Bound(p)
            && (|q.jobs| < |p.jobs| || q.jobs == p.jobs)
            && (step.Fail? ==> q.jobs == p.jobs != [] && Tasks(q) == Tasks(p) - 1)
            && (!step.Fail? && q.jobs != [] ==> Tasks(q) == Tasks(p))
            && (!step.Fail? && p.jobs == [] ==> Tasks(q) == Tasks(p) - 1)
            && (q.jobs == [] && p.jobs != [] ==> Tasks(p) > 0)
  {
    if p.running.Some? {
      WithoutIs(p.jobs, p.running.value);
    }
  }

  /** Without new jobs every schedule ends, whatever lookups fail in it. When it has ended the job set is empty exactly
      if there was no job to begin with or there were more tasks than lookups that failed. */
  lemma {:induction false} Drains(p: Preload, steps: seq<Step>)
    requires Sound(p) && Scheduled(p, steps).Some?
    ensures var end := Scheduled(p, steps).value;
            && Sound(end) && |steps| + Bound(end) <= Bound(p) && (p.jobs == [] ==> Fails(steps) == 0)
            && (Finished(end) ==> (end.jobs == [] <==> p.jobs == [] || Fails(steps) < Tasks(p)))
    decreases |steps|
  {
    if steps == [] {
      assert Stepped(p, Begin).None? ==> p.queued == 0 || p.running.Some?;
      assert p.running.Some? ==> Stepped(p, End).Some?;
    } else {
      StepKeeps(p, steps[0]);
      Drains(Stepped(p, steps[0]).value, steps[1..]);
    }
  }

  // ----- paths whose lookup fails

  /** The lookups of a task fail exactly if the path it took is one of those that are gone. */
  predicate Answers(gone: set<string>, p: Preload, steps: seq<Step>)
    requires Scheduled(p, steps).Some?
    decreases |steps|
  {
    steps == []
    || (&& (steps[0].Fail? ==> p.running.value in gone) && (steps[0].End? ==> p.running.value !in gone)
        && Answers(gone, Stepped(p, steps[0]).value, steps[1..]))
  }

  /** The jobs up to the last one that is gone. */
  function UpToGone(jobs: seq<string>, gone: set<string>): seq<string> {
    if jobs == [] || jobs[|jobs| - 1] in gone then jobs else UpToGone(jobs[..|jobs| - 1], gone)
  }

  /** Whether the running task will get its own path done, and so come back for the others. */
  predicate Completes(p: Preload, gone: set<string>) {
    p.running.Some? && p.running.value !in gone
  }

  /** What is left once all tasks are: a running task that can still finishes its own path, and from then on jobs are
      taken from the end, up to one that is gone, on which all tasks fail one after the other. */
  function Stranded(p: Preload, gone: set<string>): seq<string> {
    if Completes(p, gone) then UpToGone(Without(p.jobs, p.running.value), gone)
    else if p.queued == 0 then p.jobs
    else UpToGone(p.jobs, gone)
  }

  lemma {:induction false} UpToGoneIs(jobs: seq<string>, gone: set<string>)
    ensures UpToGone(jobs, gone) <= jobs
    ensures UpToGone(jobs, gone) == [] <==> forall j :: j in jobs ==> j !in gone
    decreases |jobs|
  {
    if jobs != [] {
      var (init, last) := (jobs[..|jobs| - 1], jobs[|jobs| - 1]);
      assert jobs == init + [last];
      if last !in gone {
        UpToGoneIs(init, gone);
      }
    }
  }

  lemma {:induction false} WithoutLast(jobs: seq<string>)
    requires jobs != [] && NoRepeats(jobs)
    ensures Without(jobs, jobs[|jobs| - 1]) == jobs[..|jobs| - 1]
    decreases |jobs|
  {
    var last := jobs[|jobs| - 1];
    if |jobs| == 1 {
      assert jobs[1..] == [] && jobs[..0] == [];
    } else {
      assert jobs[1..][|jobs| - 2] == last;
      WithoutLast(jobs[1..]);
      assert jobs[..|jobs| - 1] == [jobs[0]] + jobs[1..][..|jobs| - 2];
    }
  }

  /** A step that answers to `gone` does not change what will be left. */
  lemma {:induction false} StrandedKept(p: Preload, step: Step, gone: set<string>)
    requires Sound(p) && Stepped(p, step).Some?
    requires (step.Fail? ==> p.running.value in gone) && (step.End? ==> p.running.value !in gone)
    ensures Stranded(Stepped(p, step).value, gone) == Stranded(p, gone)
  {
    var q := Stepped(p, step).value;
    match step
    case Begin =>
      if p.jobs != [] {
        WithoutLast(p.jobs);
      }
    case End =>
      WithoutIs(p.jobs, p.running.value);
    case Fail =>
  }

  /** Whichever way the tasks are scheduled, the jobs that are left in the end are exactly the same: all up to the last
      one whose lookup fails. So nothing is left if and only if there was no job, or some task and no path that is gone. */
  lemma {:induction false} StrandedExactly(p: Preload, steps: seq<Step>, gone: set<string>)
    requires Sound(p) && Scheduled(p, steps).Some? && Answers(gone, p, steps)
    ensures var end := Scheduled(p, steps).value;
            Finished(end) ==>
              && end.jobs == Stranded(p, gone)
              && (end.jobs == [] <==> p.jobs == [] || (Tasks(p) > 0 && forall j <- p.jobs :: j !in gone))
    decreases |steps|
  {
    if steps == [] {
      assert Stepped(p, Begin).None? ==> p.queued == 0 || p.running.Some?;
      assert p.running.Some? ==> Stepped(p, End).Some?;
    } else {
      var q := Stepped(p, steps[0]).value;
      StepKeeps(p, steps[0]);
      StrandedKept(p, steps[0], gone);
      StrandedExactly(q, steps[1..], gone);
    }
    StrandedEmpty(p, gone);
  }

  lemma {:induction false} StrandedEmpty(p: Preload, gone: set<string>)
    requires Sound(p)
    ensures Stranded(p, gone) == [] <==> p.jobs == [] || (Tasks(p) > 0 && forall j <- p.jobs :: j !in gone)
  {
    UpToGoneIs(if Completes(p, gone) then Without(p.jobs, p.running.value) else p.jobs, gone);
    if p.running.Some? {
      WithoutIs(p.jobs, p.running.value);
    }
  }

  /** A failed lookup that ends the last task strands its job: asking for a waiting path again submits no task. */
  lemma {:induction false} FailureStrands(p: Preload, path: string)
    requires Sound(p) && p.running.Some? && Tasks(p) == 1 && path in p.jobs
    ensures var q := Triggered(Stepped(p, Fail).value, path);
            && Finished(q) && q.jobs != [] && Tasks(q) == 0
  {
    WithoutIs(p.jobs, path);
  }
}
