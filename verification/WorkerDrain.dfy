/** Once nothing more is published, deliveries, retries and all work on entries end
    (python/app/worker/diagnosis_worker.py, python/app/infrastructure/task_queue.py). */
module WorkerDrain {
  import opened Collections
  import opened TaskMessages
  import opened Broker
  import opened WorkerProtocol
  import opened WorkerSteps

  // ---------- Retry bound and termination ----------

  function IdOf(): TaskMessage -> string
  {
    (m: TaskMessage) => m.id
  }

  /** Retries left over all messages that first published a task. */
  function Slack(b: Broker, first: seq<TaskMessage>): int
  {
    if first == [] then 0
    else Slack(b, first[..|first| - 1]) + (MAX_RETRIES - RetriesOf(Record(b, first[|first| - 1].id)))
  }

  function Measure(s: System): int
  {
    2 * Slack(s.b, FirstOccurrences(s.log, IdOf())) + (|s.b.stream| - s.b.cursor)
  }

  lemma {:induction false} SlackSame(b: Broker, c: Broker, first: seq<TaskMessage>)
    requires forall i :: 0 <= i < |first| ==> RetriesOf(Record(b, first[i].id)) == RetriesOf(Record(c, first[i].id))
    ensures Slack(b, first) == Slack(c, first)
  {
    if first != [] {
      SlackSame(b, c, first[..|first| - 1]);
    }
  }

  lemma {:induction false} SlackDrops(b: Broker, c: Broker, first: seq<TaskMessage>, i: nat)
    requires DistinctKeys(first, IdOf()) && i < |first|
    requires RetriesOf(Record(c, first[i].id)) == RetriesOf(Record(b, first[i].id)) + 1
    requires forall id :: id != first[i].id ==> RetriesOf(Record(b, id)) == RetriesOf(Record(c, id))
    ensures Slack(c, first) == Slack(b, first) - 1
  {
    var n := |first| - 1;
    forall k | 0 <= k < |first| && k != i ensures first[k].id != first[i].id
    {
      assert IdOf()(first[k]) != IdOf()(first[i]);
    }
    if i == n {
      SlackSame(b, c, first[..n]);
    } else {
      SlackDrops(b, c, first[..n], i);
    }
  }

  lemma {:induction false} SlackNonnegative(s: System, first: seq<TaskMessage>)
    requires Books(s)
    ensures Slack(s.b, first) >= 0
  {
    if first != [] {
      SlackNonnegative(s, first[..|first| - 1]);
      assert Balanced(s, first[|first| - 1].id);
    }
  }

  lemma RetryDrops(env: Env, s: System, w: string, why: string, now: int)
    requires Inv(s) && w in s.workers && s.workers[w].phase != Finished
    ensures var t := FailStep(env, s, w, why, now);
            Measure(t) == Measure(s) - (|t.b.stream| - |s.b.stream|) && t.b.cursor == s.b.cursor
  {
    var t, id := FailStep(env, s, w, why, now), s.workers[w].task.id;
    var first := FirstOccurrences(s.log, IdOf());
    if RetriesOf(Record(s.b, id)) < MAX_RETRIES {
      assert Holding(s, w);
      LiveIsPublished(s, s.workers[w].msg);
      var k := CountWitness(s.log, OfTask(id));
      FirstOccurrencesKeys(s.log, IdOf());
      assert IdOf()(s.log[k]) == id;
      assert HasKey(first, IdOf(), id);
      var i :| 0 <= i < |first| && IdOf()(first[i]) == id;
      FirstOccurrencesDistinct(s.log, IdOf());
      SlackDrops(s.b, t.b, first, i);
    } else {
      SlackSame(s.b, t.b, first);
    }
  }

  lemma ClaimLowers(env: Env, s: System, w: string, now: int)
    requires Inv(s) && w !in s.workers
    ensures var t := Step(env, s, Claiming(w, now));
            Measure(t) == Measure(s) - (t.b.cursor - s.b.cursor) && t.b.stream == s.b.stream
  {
    var t := Step(env, s, Claiming(w, now));
    OneClaim(env, s.b, w, now);
    SlackSame(s.b, t.b, FirstOccurrences(s.log, IdOf()));
  }

  lemma OthersKeepMeasure(env: Env, s: System, a: Action)
    requires Inv(s) && Enabled(s, a) && !a.Publishing? && !a.Claiming? && !Fails(env, s, a)
    ensures var t := Step(env, s, a); Measure(t) == Measure(s) && t.b.cursor == s.b.cursor && t.b.stream == s.b.stream
  {
    SlackSame(s.b, Step(env, s, a).b, FirstOccurrences(s.log, IdOf()));
  }

  /** Every delivery and every retry lowers the measure by exactly one; without new
      publishes no other step changes it. */
  lemma StepLowersMeasure(env: Env, s: System, a: Action)
    requires Inv(s) && Enabled(s, a) && !a.Publishing?
    ensures var t := Step(env, s, a);
            Measure(t) == Measure(s) - (t.b.cursor - s.b.cursor) - (|t.b.stream| - |s.b.stream|)
  {
    if Fails(env, s, a) {
      RetryDrops(env, s, a.w, Reason(env, s, a), a.now);
    } else if a.Claiming? {
      ClaimLowers(env, s, a.w, a.now);
    } else {
      OthersKeepMeasure(env, s, a);
    }
  }

  ghost predicate NoPublishing(acts: seq<Action>)
  {
    forall i :: 0 <= i < |acts| ==> !acts[i].Publishing?
  }

  lemma {:induction false} RunLowersMeasure(env: Env, s: System, acts: seq<Action>)
    requires Inv(s) && Run(env, s, acts).Some? && NoPublishing(acts)
    ensures var t := Run(env, s, acts).value;
            && Measure(t) == Measure(s) - (t.b.cursor - s.b.cursor) - (|t.b.stream| - |s.b.stream|)
            && Measure(t) >= 0
  {
    RunKeepsInv(env, s, acts);
    var t := Run(env, s, acts).value;
    SlackNonnegative(t, FirstOccurrences(t.log, IdOf()));
    if acts != [] {
      var before := acts[..|acts| - 1];
      RunLowersMeasure(env, s, before);
      RunKeepsInv(env, s, before);
      StepLowersMeasure(env, Run(env, s, before).value, acts[|acts| - 1]);
    }
  }

  /** A drain terminates: however the workers interleave, crash or fail, the number of
      deliveries and retries in a run without publishing is at most the initial measure. */
  lemma {:induction false} DrainIsBounded(env: Env, s: System, acts: seq<Action>)
    requires Inv(s) && Run(env, s, acts).Some? && NoPublishing(acts)
    ensures var t := Run(env, s, acts).value;
            (t.b.cursor - s.b.cursor) + (|t.b.stream| - |s.b.stream|) <= Measure(s)
  {
    RunLowersMeasure(env, s, acts);
  }

  lemma {:induction false} CountPrefix<T>(xs: seq<T>, k: nat, p: T -> bool)
    requires k <= |xs|
    ensures Count(xs[..k], p) <= Count(xs, p)
  {
    SplitAt(xs, k);
    CountConcat(xs[..k], xs[k..], p);
  }

  /** Entries of a task number its publishes plus its stored retries, which never
      exceed three; so a task published once is delivered at most four times. */
  lemma {:induction false} RetriesAreBounded(env: Env, acts: seq<Action>, id: string)
    requires Run(env, Init(), acts).Some?
    ensures var s := Run(env, Init(), acts).value;
            && Entries(s, id) == Publishes(s, id) + Retries(s, id) && 0 <= Retries(s, id) <= 3
            && s.b.cursor <= |s.b.stream|
            && Count(s.b.stream[..s.b.cursor], OfTask(id)) <= Publishes(s, id) + 3
  {
    var s := Run(env, Init(), acts).value;
    ReachableInv(env, acts);
    assert Balanced(s, id);
    CountPrefix(s.b.stream, s.b.cursor, OfTask(id));
  }

  // ---------- Work per entry ----------

  /** Steps a worker still has before it lets go of its entry. */
  function StepsLeft(phase: Phase): nat
  {
    match phase
    case Checking => 5
    case Vetted => 4
    case Prepared => 3
    case Running => 2
    case SeenCancelled => 1
    case Finished => 1
  }

  ghost function Load(workers: map<string, Hold>): nat
    decreases |workers|
  {
    if workers == map[] then 0
    else
      var w :| w in workers;
      StepsLeft(workers[w].phase) + Load(workers - {w})
  }

  lemma {:induction false} LoadSplit(workers: map<string, Hold>, w: string)
    requires w in workers
    ensures Load(workers) == StepsLeft(workers[w].phase) + Load(workers - {w})
    decreases |workers|
  {
    var v :| v in workers && Load(workers) == StepsLeft(workers[v].phase) + Load(workers - {v});
    if v != w {
      LoadSplit(workers - {v}, w);
      LoadSplit(workers - {w}, v);
      assert workers - {v} - {w} == workers - {w} - {v};
    }
  }

  lemma LoadUpdate(workers: map<string, Hold>, w: string, h: Hold)
    ensures Load(workers[w := h]) == StepsLeft(h.phase) + Load(workers - {w})
  {
    LoadSplit(workers[w := h], w);
    assert workers[w := h] - {w} == workers - {w};
  }

  /** A step in which a worker takes an entry or works on the one it holds. */
  predicate Busy(s: System, a: Action)
  {
    match a
    case Publishing(_, _) => false
    case Cancelling(_, _) => false
    case Claiming(_, _) => s.b.cursor < |s.b.stream|
    case _ => true
  }

  function Work(env: Env, s: System, acts: seq<Action>): nat
  {
    if acts == [] then 0
    else
      Work(env, s, acts[..|acts| - 1]) +
      (match Run(env, s, acts[..|acts| - 1])
       case None => 0
       case Some(t) => if Busy(t, acts[|acts| - 1]) then 1 else 0)
  }

  ghost function Potential(s: System): int
  {
    6 * Measure(s) + Load(s.workers)
  }

  lemma ClaimHolds(env: Env, s: System, w: string, now: int)
    requires Inv(s) && w !in s.workers
    ensures var t := Step(env, s, Claiming(w, now));
            t.b.cursor == (if s.b.cursor == |s.b.stream| then s.b.cursor else s.b.cursor + 1)
    ensures var t := Step(env, s, Claiming(w, now));
            t.workers == (if s.b.cursor < |s.b.stream| &&
                          CheckDeadline(env, s.b.stream[s.b.cursor].deadline, now) == InTime
                          then s.workers[w := Hold(s.b.cursor, s.b.stream[s.b.cursor], Checking)] else s.workers)
  {
    OneClaim(env, s.b, w, now);
  }

  lemma ClaimIsPaid(env: Env, s: System, w: string, now: int)
    requires Inv(s) && w !in s.workers
    ensures Potential(Step(env, s, Claiming(w, now))) + (if Busy(s, Claiming(w, now)) then 1 else 0) <= Potential(s)
  {
    ClaimLowers(env, s, w, now);
    ClaimHolds(env, s, w, now);
    if s.b.cursor < |s.b.stream| {
      LoadUpdate(s.workers, w, Hold(s.b.cursor, s.b.stream[s.b.cursor], Checking));
      assert s.workers - {w} == s.workers;
    }
  }

  /** A working worker lets go of its entry or comes closer to that. */
  lemma WorkMoves(env: Env, s: System, a: Action)
    requires Inv(s) && Enabled(s, a) && !a.Publishing? && !a.Cancelling? && !a.Claiming?
    ensures var t := Step(env, s, a);
            || t.workers == s.workers - {a.w}
            || (a.w in t.workers && t.workers == s.workers[a.w := t.workers[a.w]] &&
                StepsLeft(t.workers[a.w].phase) < StepsLeft(s.workers[a.w].phase))
  {}

  lemma WorkIsPaid(env: Env, s: System, a: Action)
    requires Inv(s) && Enabled(s, a) && !a.Publishing? && !a.Cancelling? && !a.Claiming?
    ensures Load(Step(env, s, a).workers) + 1 <= Load(s.workers)
  {
    WorkMoves(env, s, a);
    LoadMoves(s.workers, Step(env, s, a).workers, a.w);
  }

  lemma LoadMoves(before: map<string, Hold>, after: map<string, Hold>, w: string)
    requires w in before
    requires after == before - {w} ||
             (w in after && after == before[w := after[w]] && StepsLeft(after[w].phase) < StepsLeft(before[w].phase))
    ensures Load(after) + 1 <= Load(before)
  {
    LoadSplit(before, w);
    if w in after {
      LoadUpdate(before, w, after[w]);
    }
  }

  lemma StepIsPaid(env: Env, s: System, a: Action)
    requires Inv(s) && Enabled(s, a) && !a.Publishing?
    ensures Potential(Step(env, s, a)) + (if Busy(s, a) then 1 else 0) <= Potential(s)
  {
    if a.Claiming? {
      ClaimIsPaid(env, s, a.w, a.now);
    } else {
      var t := Step(env, s, a);
      StepLowersMeasure(env, s, a);
      assert |t.b.stream| >= |s.b.stream| && t.b.cursor == s.b.cursor;
      if !a.Cancelling? {
        WorkIsPaid(env, s, a);
      }
    }
  }

  lemma {:induction false} RunIsPaid(env: Env, s: System, acts: seq<Action>)
    requires Inv(s) && Run(env, s, acts).Some? && NoPublishing(acts)
    ensures Potential(Run(env, s, acts).value) + Work(env, s, acts) <= Potential(s)
  {
    if acts != [] {
      var before := acts[..|acts| - 1];
      RunIsPaid(env, s, before);
      RunKeepsInv(env, s, before);
      StepIsPaid(env, Run(env, s, before).value, acts[|acts| - 1]);
    }
  }

  /** All the work of a drain is bounded: deliveries, checks, acknowledgements, failures,
      completions and crashes together are at most six times the initial measure, plus
      the steps left to the workers that hold an entry at the start. */
  lemma {:induction false} DrainTerminates(env: Env, s: System, acts: seq<Action>)
    requires Inv(s) && Run(env, s, acts).Some? && NoPublishing(acts)
    ensures Work(env, s, acts) <= 6 * Measure(s) + Load(s.workers)
  {
    RunIsPaid(env, s, acts);
    RunLowersMeasure(env, s, acts);
  }
}
