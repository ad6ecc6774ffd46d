/** DiagnosisWorker._process_one against the Redis queue: running it without
    interruption is a run of the protocol's steps
    (python/app/worker/diagnosis_worker.py). */
module DiagnosisWorker {
  import opened Collections
  import opened TaskMessages
  import opened TaskQueue
  import B = Broker
  import opened WorkerProtocol
  import opened WorkerSteps

  /** How parsing the incident and running the agent end: a payload that cannot be read
      never gets to the agent. */
  datatype Outcome = Unreadable(why: string) | Succeeds(result: Json) | Throws(why: string) | Interrupted

  /** The readings of the clock in one round: by the claim, by the deadline check, by the
      failure of a task found cancelled, and by the final write. */
  datatype Clock = Clock(claimed: int, checked: int, started: int, ended: int)

  /** The run acts leads from s to t. */
  ghost predicate Reached(env: Env, s: System, acts: seq<Action>, t: System)
  {
    Run(env, s, acts) == Some(t) && Inv(t)
  }

  lemma ReachesOne(env: Env, s: System, a: Action)
    requires Inv(s) && Enabled(s, a)
    ensures Reached(env, s, [a], Step(env, s, a))
  {
    assert [a][..0] == [];
    assert Run(env, s, []) == Some(s);
    StepKeepsInv(env, s, a);
  }

  lemma ReachesNext(env: Env, s: System, acts: seq<Action>, t: System, a: Action)
    requires Reached(env, s, acts, t) && Enabled(t, a)
    ensures Reached(env, s, acts + [a], Step(env, t, a))
  {
    assert (acts + [a])[..|acts|] == acts;
    StepKeepsInv(env, t, a);
  }

  lemma ReachesTwo(env: Env, s: System, a: Action, b: Action)
    requires Inv(s) && Enabled(s, a) && Inv(Step(env, s, a)) && Enabled(Step(env, s, a), b)
    ensures Reached(env, s, [a, b], Step(env, Step(env, s, a), b))
  {
    ReachesOne(env, s, a);
    ReachesNext(env, s, [a], Step(env, s, a), b);
    assert [a] + [b] == [a, b];
  }

  lemma {:induction false} ReachesOn(env: Env, s: System, first: seq<Action>, t: System, rest: seq<Action>, u: System)
    requires Reached(env, s, first, t) && Reached(env, t, rest, u)
    ensures Reached(env, s, first + rest, u)
  {
    if rest == [] {
      assert first + rest == first;
    } else {
      var n := |rest| - 1;
      assert (first + rest)[..|first + rest| - 1] == first + rest[..n];
      RunKeepsInv(env, t, rest[..n]);
      ReachesOn(env, s, first, t, rest[..n], Run(env, t, rest[..n]).value);
    }
  }

  /** How a started task ends: completed and acknowledged, or failed. */
  function Ending(w: string, outcome: Outcome, now: int): seq<Action>
  {
    if outcome.Succeeds? then [Completing(w, outcome.result, now), AckingFinished(w)]
    else [Failing(w, if outcome.Interrupted? then "Task cancelled" else outcome.why, now)]
  }

  /** How a task in time is diagnosed: the agent is not started on a payload that cannot be
      read, nor on a cancelled task. */
  function Diagnosing(w: string, outcome: Outcome, cancelled: bool, startedAt: int, endedAt: int): seq<Action>
  {
    if outcome.Unreadable? then Ending(w, outcome, endedAt)
    else [Starting(w, startedAt)] + (if cancelled then [] else Ending(w, outcome, endedAt))
  }

  /** The steps of worker w on a task it claimed, when nobody interferes. */
  function Handling(env: Env, w: string, task: TaskMessage, cancelled: bool, clock: Clock,
                    outcome: Outcome): seq<Action>
  {
    [CheckingCancelled(w)] +
    (if cancelled then [AckingCancelled(w)]
     else [CheckingDeadline(w, clock.checked)] +
          (if WorkerInTime(env, task.deadline, clock.checked)
           then Diagnosing(w, outcome, cancelled, clock.started, clock.ended) else []))
  }

  /** The steps of one uninterrupted round of worker w: a claim, and the handling of the
      task if it got one. */
  function Round(env: Env, s: System, w: string, clock: Clock, outcome: Outcome): seq<Action>
    requires s.b.cursor <= |s.b.stream| && w !in s.workers
  {
    var c := Step(env, s, Claiming(w, clock.claimed));
    [Claiming(w, clock.claimed)] +
    (if w in c.workers
     then Handling(env, w, c.workers[w].task, B.IsCancelled(c.b, c.workers[w].task.id), clock, outcome) else [])
  }

  /** What a claim makes of the deadline of the next entry, if there is one. */
  function NextDeadline(env: Env, s: System, now: int): Option<B.Deadline>
  {
    if s.b.cursor < |s.b.stream| then Some(B.CheckDeadline(env, s.b.stream[s.b.cursor].deadline, now)) else None
  }

  /** What a claim of one task hands out, and when it raises. */
  lemma ClaimYields(env: Env, s: System, w: string, now: int)
    requires Inv(s) && w !in s.workers
    ensures var c, t := B.ClaimTasks(env, s.b, w, 1, now), Step(env, s, Claiming(w, now));
            && (c.raised <==> NextDeadline(env, s, now) == Some(B.Raises))
            && (c.taken != [] <==> NextDeadline(env, s, now) == Some(B.InTime))
            && (c.taken == [] ==> w !in t.workers)
            && (c.taken != [] ==> w in t.workers && t.workers[w] == Hold(c.taken[0].0, c.taken[0].1, Checking))
            && (c.raised ==> t.b.stream == s.b.stream && t.tokens == Marked(s.tokens, s.b.cursor, InFlight))
  {
    OneClaim(env, s.b, w, now);
  }

  class Worker {
    const name: string
    const queue: TaskQueue
    var currentTask: Option<string>

    constructor (name: string, queue: TaskQueue)
      ensures this.name == name && this.queue == queue && currentTask == None
    {
      this.name, this.queue, currentTask := name, queue, None;
    }

    ghost predicate Synced(s: System)
      reads queue
    {
      queue.Valid() && queue.view == s.b && Inv(s)
    }

    ghost predicate Holds(s: System, msg: nat, task: TaskMessage, phase: Phase)
    {
      name in s.workers && s.workers[name] == Hold(msg, task, phase)
    }

    method Claim(now: int, ghost s: System) returns (raised: bool, held: Option<(nat, TaskMessage)>, ghost t: System)
      requires Synced(s) && name !in s.workers
      modifies queue`cursor, queue`pending, queue`dlq, queue`claims, queue`states, queue`view
      ensures t == Step(queue.env, s, Claiming(name, now)) && Synced(t)
      ensures held.Some? ==> Holds(t, held.value.0, held.value.1, Checking)
      ensures held.None? ==> name !in t.workers
      ensures raised <==> NextDeadline(queue.env, s, now) == Some(B.Raises)
      ensures raised ==> held.None? && t.b.stream == s.b.stream && t.tokens == Marked(s.tokens, s.b.cursor, InFlight)
      ensures held.Some? <==> NextDeadline(queue.env, s, now) == Some(B.InTime)
    {
      var claimed;
      claimed, raised := queue.ClaimTasks(name, 1, now);
      ClaimYields(queue.env, s, name, now);
      t := Step(queue.env, s, Claiming(name, now));
      ClaimKeepsInv(queue.env, s, name, now);
      held := if claimed == [] then None else Some(claimed[0]);
    }

    method CheckCancelled(msg: nat, task: TaskMessage, ghost s: System) returns (cancelled: bool, ghost t: System)
      requires Synced(s) && Holds(s, msg, task, Checking)
      ensures cancelled == B.IsCancelled(s.b, task.id)
      ensures t == Step(queue.env, s, CheckingCancelled(name)) && Synced(t) && t.b == s.b
      ensures Holds(t, msg, task, if cancelled then SeenCancelled else Vetted)
    {
      cancelled := queue.IsCancelled(task.id);
      PhaseKeepsInv(s, name, if cancelled then SeenCancelled else Vetted);
      t := Step(queue.env, s, CheckingCancelled(name));
    }

    method AckCancelled(msg: nat, task: TaskMessage, ghost s: System) returns (ghost t: System)
      requires Synced(s) && Holds(s, msg, task, SeenCancelled)
      modifies queue`pending, queue`view
      ensures t == Step(queue.env, s, AckingCancelled(name)) && Synced(t) && name !in t.workers
    {
      AckKeepsInv(queue.env, s, name, AckingCancelled(name));
      queue.Ack(msg);
      t := Step(queue.env, s, AckingCancelled(name));
    }

    method CheckDeadline(msg: nat, task: TaskMessage, now: int, ghost s: System) returns (inTime: bool, ghost t: System)
      requires Synced(s) && Holds(s, msg, task, Vetted)
      modifies queue`states, queue`stream, queue`dlq, queue`claims, queue`view
      ensures t == Step(queue.env, s, CheckingDeadline(name, now)) && Synced(t)
      ensures inTime == WorkerInTime(queue.env, task.deadline, now)
      ensures if inTime then Holds(t, msg, task, Prepared) && t.b == s.b else name !in t.workers
    {
      StepKeepsInv(queue.env, s, CheckingDeadline(name, now));
      inTime := WorkerInTime(queue.env, task.deadline, now);
      if !inTime {
        queue.Fail(task.id, LateReason(queue.env, task.deadline), Some(msg), now);
      }
      t := Step(queue.env, s, CheckingDeadline(name, now));
    }

    /** The check right before the agent: a cancelled task fails. */
    method Start(msg: nat, task: TaskMessage, now: int, ghost s: System) returns (started: bool, ghost t: System)
      requires Synced(s) && Holds(s, msg, task, Prepared)
      modifies queue`states, queue`stream, queue`dlq, queue`claims, queue`view
      ensures t == Step(queue.env, s, Starting(name, now)) && Synced(t)
      ensures started == !B.IsCancelled(s.b, task.id)
      ensures if started then Holds(t, msg, task, Running) && t.b == s.b else name !in t.workers
    {
      StepKeepsInv(queue.env, s, Starting(name, now));
      var cancelled := queue.IsCancelled(task.id);
      started := !cancelled;
      if cancelled {
        queue.Fail(task.id, "Task cancelled", Some(msg), now);
      }
      t := Step(queue.env, s, Starting(name, now));
    }

    /** The except branches: whatever was raised, the task fails. */
    method Abandon(msg: nat, task: TaskMessage, why: string, now: int, ghost s: System) returns (ghost t: System)
      requires Synced(s) && (Holds(s, msg, task, Prepared) || Holds(s, msg, task, Running))
      modifies queue`states, queue`stream, queue`dlq, queue`claims, queue`view
      ensures t == Step(queue.env, s, Failing(name, why, now)) && Synced(t) && name !in t.workers
    {
      FailKeepsInv(queue.env, s, name, why, now);
      queue.Fail(task.id, why, Some(msg), now);
      t := Step(queue.env, s, Failing(name, why, now));
    }

    method CompleteTask(msg: nat, task: TaskMessage, result: Json, now: int, ghost s: System) returns (ghost t: System)
      requires Synced(s) && Holds(s, msg, task, Running)
      modifies queue`states, queue`claims, queue`view
      ensures t == Step(queue.env, s, Completing(name, result, now)) && Synced(t) && Holds(t, msg, task, Finished)
    {
      CompleteKeepsInv(queue.env, s, name, result, now);
      queue.Complete(task.id, result, now);
      t := Step(queue.env, s, Completing(name, result, now));
    }

    method AckFinished(msg: nat, task: TaskMessage, ghost s: System) returns (ghost t: System)
      requires Synced(s) && Holds(s, msg, task, Finished)
      modifies queue`pending, queue`view
      ensures t == Step(queue.env, s, AckingFinished(name)) && Synced(t) && name !in t.workers
    {
      AckKeepsInv(queue.env, s, name, AckingFinished(name));
      queue.Ack(msg);
      t := Step(queue.env, s, AckingFinished(name));
    }

    /** The agent ends, and its task is completed or failed. */
    method Finish(msg: nat, task: TaskMessage, outcome: Outcome, now: int, ghost s: System)
      returns (ghost acts: seq<Action>, ghost t: System)
      requires Synced(s) && (Holds(s, msg, task, Running) || (Holds(s, msg, task, Prepared) && outcome.Unreadable?))
      modifies queue
      ensures Reached(queue.env, s, acts, t) && Synced(t) && name !in t.workers
      ensures acts == Ending(name, outcome, now)
    {
      if outcome.Succeeds? {
        ghost var c := CompleteTask(msg, task, outcome.result, now, s);
        t := AckFinished(msg, task, c);
        ReachesTwo(queue.env, s, Completing(name, outcome.result, now), AckingFinished(name));
        acts := [Completing(name, outcome.result, now), AckingFinished(name)];
      } else {
        var why := if outcome.Interrupted? then "Task cancelled" else outcome.why;
        t := Abandon(msg, task, why, now, s);
        ReachesOne(queue.env, s, Failing(name, why, now));
        acts := [Failing(name, why, now)];
      }
    }

    /** Parses the incident, checks for a cancellation and runs the agent. */
    method RunDiagnosis(msg: nat, task: TaskMessage, outcome: Outcome, startedAt: int, endedAt: int, ghost s: System)
      returns (ghost acts: seq<Action>, ghost t: System)
      requires Synced(s) && Holds(s, msg, task, Prepared)
      modifies queue
      ensures Reached(queue.env, s, acts, t) && Synced(t) && name !in t.workers
      ensures acts == Diagnosing(name, outcome, B.IsCancelled(s.b, task.id), startedAt, endedAt)
    {
      if outcome.Unreadable? {
        acts, t := Finish(msg, task, outcome, endedAt, s);
        return;
      }
      var started;
      started, t := Start(msg, task, startedAt, s);
      ReachesOne(queue.env, s, Starting(name, startedAt));
      acts := [Starting(name, startedAt)];
      if started {
        ghost var running, more := t, [];
        more, t := Finish(msg, task, outcome, endedAt, running);
        ReachesOn(queue.env, s, acts, running, more, t);
        acts := acts + more;
      }
    }

    /** The deadline check of a vetted task, and the diagnosis when it is in time. */
    method CheckAndRun(msg: nat, task: TaskMessage, clock: Clock, outcome: Outcome, ghost s: System)
      returns (ghost acts: seq<Action>, ghost t: System)
      requires Synced(s) && Holds(s, msg, task, Vetted)
      modifies queue
      ensures Reached(queue.env, s, acts, t) && Synced(t) && name !in t.workers
      ensures acts == [CheckingDeadline(name, clock.checked)] +
                      (if WorkerInTime(queue.env, task.deadline, clock.checked)
                       then Diagnosing(name, outcome, B.IsCancelled(s.b, task.id), clock.started, clock.ended) else [])
    {
      var inTime;
      inTime, t := CheckDeadline(msg, task, clock.checked, s);
      ReachesOne(queue.env, s, CheckingDeadline(name, clock.checked));
      acts := [CheckingDeadline(name, clock.checked)];
      if inTime {
        ghost var prepared, more := t, [];
        more, t := RunDiagnosis(msg, task, outcome, clock.started, clock.ended, prepared);
        ReachesOn(queue.env, s, acts, prepared, more, t);
        acts := acts + more;
      }
    }

    /** The try block: a claimed task is acknowledged when cancelled, else checked and run. */
    method Handle(msg: nat, task: TaskMessage, clock: Clock, outcome: Outcome, ghost s: System)
      returns (ghost acts: seq<Action>, ghost t: System)
      requires Synced(s) && Holds(s, msg, task, Checking)
      modifies queue
      ensures Reached(queue.env, s, acts, t) && Synced(t) && name !in t.workers
      ensures acts == Handling(queue.env, name, task, B.IsCancelled(s.b, task.id), clock, outcome)
    {
      var cancelled;
      cancelled, t := CheckCancelled(msg, task, s);
      ReachesOne(queue.env, s, CheckingCancelled(name));
      ghost var checked, more := t, [];
      if cancelled {
        t := AckCancelled(msg, task, checked);
        ReachesOne(queue.env, checked, AckingCancelled(name));
        more := [AckingCancelled(name)];
      } else {
        more, t := CheckAndRun(msg, task, clock, outcome, checked);
      }
      ReachesOn(queue.env, s, [CheckingCancelled(name)], checked, more, t);
      acts := [CheckingCancelled(name)] + more;
    }

    /** Claim one task and see it through; raised tells that the claim itself raised, which
        the worker loop reports and survives: the entry then stays in flight with nobody
        holding it. */
    method ProcessOne(clock: Clock, outcome: Outcome, ghost s: System)
      returns (raised: bool, ghost acts: seq<Action>, ghost t: System)
      requires Synced(s) && name !in s.workers
      modifies queue, this`currentTask
      ensures Reached(queue.env, s, acts, t) && Synced(t)
      ensures name !in t.workers && currentTask == None
      ensures acts == Round(queue.env, s, name, clock, outcome)
      ensures raised <==> NextDeadline(queue.env, s, clock.claimed) == Some(B.Raises)
      ensures raised ==> t.tokens == Marked(s.tokens, s.b.cursor, InFlight) && t.b.stream == s.b.stream
    {
      currentTask := None;
      var held;
      raised, held, t := Claim(clock.claimed, s);
      acts := [Claiming(name, clock.claimed)];
      ReachesOne(queue.env, s, Claiming(name, clock.claimed));
      if held == None {
        return;
      }
      var (msg, task) := held.value;
      currentTask := Some(task.id);
      ghost var claimed, more := t, [];
      more, t := Handle(msg, task, clock, outcome, claimed);
      ReachesOn(queue.env, s, acts, claimed, more, t);
      acts := acts + more;
      currentTask := None;
    }
  }
}
