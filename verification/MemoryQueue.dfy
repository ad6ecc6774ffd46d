/** InMemoryTaskQueue, and the workers that share it: on one event loop, cancels
    interleave only at await points (python/app/infrastructure/task_queue.py,
    python/app/worker/diagnosis_worker.py). */
module MemoryQueue {
  import opened Collections
  import opened TaskMessages
  import WorkerProtocol

  datatype Entry = Entry(msg: string, task: TaskMessage)

  datatype MemState = MemState(state: TaskStatus, created: int, updated: int, claimedBy: string, claimedAt: Option<int>,
                               outcome: Json, failure: string)

  datatype Memory = Memory(states: map<string, MemState>, queue: seq<Entry>, cancelled: set<string>)

  // ---------- Operations on values ----------

  function Publish(v: Memory, e: Entry, now: int): Memory
  {
    v.(states := v.states[e.task.id := MemState(QUEUED, now, now, "", None, JObject(map[]), "")],
       queue := v.queue + [e])
  }

  function WithState(v: Memory, id: string, s: TaskStatus, now: int): Memory
  {
    if id in v.states then v.(states := v.states[id := v.states[id].(state := s, updated := now)]) else v
  }

  /** A popped entry is handed out unless its task was cancelled. */
  function Taken(v: Memory, e: Entry, consumer: string, now: int): Memory
  {
    if e.task.id in v.cancelled || e.task.id !in v.states then v
    else v.(states := v.states[e.task.id := v.states[e.task.id].(state := CLAIMED, updated := now,
                                                                 claimedBy := consumer, claimedAt := Some(now))])
  }

  function Open(v: Memory): Entry -> bool
  {
    (e: Entry) => e.task.id !in v.cancelled
  }

  /** The state after the first k entries were popped. */
  function Popped(v: Memory, k: nat, consumer: string, now: int): (r: Memory)
    requires k <= |v.queue|
    ensures r.queue == v.queue[k..] && r.cancelled == v.cancelled
  {
    if k == 0 then v
    else
      var u := Popped(v, k - 1, consumer, now);
      Taken(u.(queue := u.queue[1..]), v.queue[k - 1], consumer, now)
  }

  function PopCount(v: Memory, count: nat): (k: nat)
    ensures k <= |v.queue|
  {
    if count < |v.queue| then count else |v.queue|
  }

  function Complete(v: Memory, id: string, outcome: Json, now: int): Memory
  {
    if id !in v.states then v
    else v.(states := v.states[id := v.states[id].(state := COMPLETED, outcome := outcome, updated := now)])
  }

  function Fail(v: Memory, id: string, why: string, now: int): Memory
  {
    if id !in v.states then v
    else v.(states := v.states[id := v.states[id].(state := FAILED, failure := why, updated := now)])
  }

  function Cancel(v: Memory, id: string, now: int): Memory
  {
    WithState(v.(cancelled := v.cancelled + {id}), id, CANCELLED, now)
  }

  class InMemoryTaskQueue {
    var tasks: map<string, MemState>
    var queue: seq<Entry>
    var cancelled: set<string>

    function Value(): Memory
      reads this
    {
      Memory(tasks, queue, cancelled)
    }

    constructor ()
      ensures Value() == Memory(map[], [], {})
    {
      tasks, queue, cancelled := map[], [], {};
    }

    method PublishTask(task: TaskMessage, msg: string, now: int)
      modifies this`tasks, this`queue
      ensures Value() == Publish(old(Value()), Entry(msg, task), now)
    {
      tasks := tasks[task.id := MemState(QUEUED, now, now, "", None, JObject(map[]), "")];
      queue := queue + [Entry(msg, task)];
    }

    /** Pops up to count entries; cancelled ones are dropped and still use up the count. */
    method Claim(consumer: string, count: nat, now: int) returns (claimed: seq<Entry>)
      modifies this`tasks, this`queue
      ensures var v := old(Value());
              Value() == Popped(v, PopCount(v, count), consumer, now) &&
                claimed == Filter(v.queue[..PopCount(v, count)], Open(v))
    {
      claimed := [];
      ghost var v := Value();
      var k := if count < |queue| then count else |queue|;
      for i := 0 to k
        invariant Value() == Popped(v, i, consumer, now)
        invariant claimed == Filter(v.queue[..i], Open(v))
      {
        var e := queue[0];
        assert e == v.queue[i];
        assert v.queue[..i + 1] == v.queue[..i] + [e];
        FilterAppend(v.queue[..i], e, Open(v));
        queue := queue[1..];
        if e.task.id in cancelled {
          continue;
        }
        if e.task.id in tasks {
          tasks := tasks[e.task.id := tasks[e.task.id].(state := CLAIMED, updated := now, claimedBy := consumer,
                                                        claimedAt := Some(now))];
        }
        claimed := claimed + [e];
      }
    }

    method CompleteTask(id: string, outcome: Json, now: int)
      modifies this`tasks
      ensures Value() == Complete(old(Value()), id, outcome, now)
    {
      if id in tasks {
        tasks := tasks[id := tasks[id].(state := COMPLETED, outcome := outcome, updated := now)];
      }
    }

    method FailTask(id: string, why: string, now: int)
      modifies this`tasks
      ensures Value() == Fail(old(Value()), id, why, now)
    {
      if id in tasks {
        tasks := tasks[id := tasks[id].(state := FAILED, failure := why, updated := now)];
      }
    }

    method CancelTask(id: string, now: int) returns (known: bool)
      modifies this`tasks, this`cancelled
      ensures Value() == Cancel(old(Value()), id, now) && known == (id in old(tasks))
    {
      cancelled := cancelled + {id};
      known := id in tasks;
      if known {
        tasks := tasks[id := tasks[id].(state := CANCELLED, updated := now)];
      }
    }
  }

  // ---------- Workers on the event loop ----------

  /** Where a worker awaits: after publishing its start event, or in the agent. */
  datatype Phase = Prepared | Diagnosing

  datatype Hold = Hold(task: TaskMessage, phase: Phase)

  datatype Event = Cancelled(id: string) | Delivered(e: Entry) | Dropped(e: Entry) | Started(id: string)

  /** The queue, the workers, and two histories: what was published and what happened. */
  datatype System = System(q: Memory, workers: map<string, Hold>, published: seq<Entry>, events: seq<Event>)

  datatype Action =
    | Publishing(e: Entry, now: int)
    | Cancelling(id: string, now: int)
    | Claiming(w: string, now: int)
    | Starting(w: string, now: int)
    | Completing(w: string, outcome: Json, now: int)
    | Throwing(w: string, why: string, now: int)

  function Init(): System
  {
    System(Memory(map[], [], {}), map[], [], [])
  }

  predicate Enabled(s: System, a: Action)
  {
    match a
    case Publishing(_, _) => true
    case Cancelling(_, _) => true
    case Claiming(w, _) => w !in s.workers
    case Starting(w, _) => w in s.workers && s.workers[w].phase == Prepared
    case Completing(w, _, _) => w in s.workers && s.workers[w].phase == Diagnosing
    case Throwing(w, _, _) => w in s.workers
  }

  /** Claim one task; drop it, fail it on its deadline, or prepare it: all before the
      first await of the worker. */
  function ClaimStep(env: Env, s: System, w: string, now: int): System
  {
    if s.q.queue == [] then s
    else
      var e := s.q.queue[0];
      var q := Popped(s.q, 1, w, now);
      if !Open(s.q)(e) then s.(q := q, events := s.events + [Dropped(e)])
      else if WorkerProtocol.WorkerInTime(env, e.task.deadline, now)
      then s.(q := q, workers := s.workers[w := Hold(e.task, Prepared)], events := s.events + [Delivered(e)])
      else s.(q := Fail(q, e.task.id, WorkerProtocol.LateReason(env, e.task.deadline), now),
              events := s.events + [Delivered(e)])
  }

  function Step(env: Env, s: System, a: Action): System
    requires Enabled(s, a)
  {
    match a
    case Publishing(e, now) => s.(q := Publish(s.q, e, now), published := s.published + [e])
    case Cancelling(id, now) => s.(q := Cancel(s.q, id, now), events := s.events + [Cancelled(id)])
    case Claiming(w, now) => ClaimStep(env, s, w, now)
    case Starting(w, now) =>
      var id := s.workers[w].task.id;
      if id in s.q.cancelled then s.(q := Fail(s.q, id, "Task cancelled", now), workers := s.workers - {w})
      else s.(workers := s.workers[w := s.workers[w].(phase := Diagnosing)], events := s.events + [Started(id)])
    case Completing(w, outcome, now) =>
      s.(q := Complete(s.q, s.workers[w].task.id, outcome, now), workers := s.workers - {w})
    case Throwing(w, why, now) => s.(q := Fail(s.q, s.workers[w].task.id, why, now), workers := s.workers - {w})
  }

  function Run(env: Env, s: System, acts: seq<Action>): Option<System>
  {
    if acts == [] then Some(s)
    else match Run(env, s, acts[..|acts| - 1])
      case None => None
      case Some(t) => if Enabled(t, acts[|acts| - 1]) then Some(Step(env, t, acts[|acts| - 1])) else None
  }

  /** The entries that left the queue, in the order of the events. */
  function Drawn(events: seq<Event>): seq<Entry>
  {
    if events == [] then []
    else
      var last := events[|events| - 1];
      Drawn(events[..|events| - 1]) + (if last.Delivered? || last.Dropped? then [last.e] else [])
  }

  /** No entry is delivered and no diagnosis starts after its task was cancelled,
      and only cancelled tasks are dropped. */
  ghost predicate CancelsRespected(events: seq<Event>)
  {
    && (forall i, j :: 0 <= i < j < |events| && events[i].Cancelled? ==>
          events[j] != Started(events[i].id) && (events[j].Delivered? ==> events[j].e.task.id != events[i].id))
    && (forall j :: 0 <= j < |events| && events[j].Dropped? ==> Cancelled(events[j].e.task.id) in events[..j])
  }

  ghost predicate Inv(s: System)
  {
    && s.published == Drawn(s.events) + s.q.queue
    && (forall id :: id in s.q.cancelled <==> Cancelled(id) in s.events)
    && CancelsRespected(s.events)
  }

  lemma {:induction false} EventKeeps(events: seq<Event>, e: Event)
    requires CancelsRespected(events)
    requires e.Started? ==> Cancelled(e.id) !in events
    requires e.Delivered? ==> Cancelled(e.e.task.id) !in events
    requires e.Dropped? ==> Cancelled(e.e.task.id) in events
    ensures CancelsRespected(events + [e])
    ensures Drawn(events + [e]) == Drawn(events) + (if e.Delivered? || e.Dropped? then [e.e] else [])
    ensures forall id :: Cancelled(id) in events + [e] <==> Cancelled(id) in events || e == Cancelled(id)
  {
    var r := events + [e];
    assert r[..|events|] == events;
    forall i, j | 0 <= i < j < |r| && r[i].Cancelled?
      ensures r[j] != Started(r[i].id) && (r[j].Delivered? ==> r[j].e.task.id != r[i].id)
    {
      assert r[i] == events[i] && r[i] in events;
    }
    forall j | 0 <= j < |r| && r[j].Dropped? ensures Cancelled(r[j].e.task.id) in r[..j]
    {
      if j < |events| {
        assert r[..j] == events[..j];
      }
    }
  }

  lemma DrawKeepsInv(s: System, t: System, event: Event)
    requires Inv(s) && s.q.queue != [] && t.published == s.published && t.events == s.events + [event]
    requires t.q.queue == s.q.queue[1..] && t.q.cancelled == s.q.cancelled
    requires event == if s.q.queue[0].task.id !in s.q.cancelled then Delivered(s.q.queue[0]) else Dropped(s.q.queue[0])
    ensures Inv(t)
  {
    var e := s.q.queue[0];
    EventKeeps(s.events, event);
    assert Drawn(t.events) == Drawn(s.events) + [e];
    ConcatMoveHead(Drawn(s.events), s.q.queue);
  }

  lemma ClaimKeepsInv(env: Env, s: System, w: string, now: int)
    requires Inv(s)
    ensures Inv(ClaimStep(env, s, w, now))
  {
    if s.q.queue != [] {
      var e := s.q.queue[0];
      var q := Popped(s.q, 1, w, now);
      DrawKeepsInv(s, ClaimStep(env, s, w, now), if Open(s.q)(e) then Delivered(e) else Dropped(e));
    }
  }

  lemma PublishKeepsInv(env: Env, s: System, e: Entry, now: int)
    requires Inv(s)
    ensures Inv(Step(env, s, Publishing(e, now)))
  {
    assert Drawn(s.events) + (s.q.queue + [e]) == Drawn(s.events) + s.q.queue + [e];
  }

  lemma CancelKeepsInv(env: Env, s: System, id: string, now: int)
    requires Inv(s)
    ensures Inv(Step(env, s, Cancelling(id, now)))
  {
    var t := Step(env, s, Cancelling(id, now));
    EventKeeps(s.events, Cancelled(id));
    assert t.events == s.events + [Cancelled(id)];
    assert t.q.cancelled == s.q.cancelled + {id} && t.q.queue == s.q.queue;
    assert Drawn(s.events) + [] == Drawn(s.events);
  }

  lemma StartKeepsInv(env: Env, s: System, w: string, now: int)
    requires Inv(s) && Enabled(s, Starting(w, now))
    ensures Inv(Step(env, s, Starting(w, now)))
  {
    if s.workers[w].task.id !in s.q.cancelled {
      EventKeeps(s.events, Started(s.workers[w].task.id));
    }
  }

  lemma StepKeepsInv(env: Env, s: System, a: Action)
    requires Inv(s) && Enabled(s, a)
    ensures Inv(Step(env, s, a))
  {
    match a
    case Publishing(e, now) => PublishKeepsInv(env, s, e, now);
    case Cancelling(id, now) => CancelKeepsInv(env, s, id, now);
    case Claiming(w, now) => ClaimKeepsInv(env, s, w, now);
    case Starting(w, now) => StartKeepsInv(env, s, w, now);
    case Completing(w, outcome, now) =>
    case Throwing(w, why, now) =>
  }

  lemma {:induction false} RunKeepsInv(env: Env, acts: seq<Action>)
    requires Run(env, Init(), acts).Some?
    ensures Inv(Run(env, Init(), acts).value)
  {
    if acts != [] {
      RunKeepsInv(env, acts[..|acts| - 1]);
      StepKeepsInv(env, Run(env, Init(), acts[..|acts| - 1]).value, acts[|acts| - 1]);
    }
  }

  /** In every run, in whatever order cancels arrive: entries leave the queue in
      publication order, each exactly once, followed by those still queued; and no
      delivery and no start of a diagnosis comes after the cancellation of its task. */
  lemma {:induction false} HistoryIsExact(env: Env, acts: seq<Action>)
    requires Run(env, Init(), acts).Some?
    ensures var s := Run(env, Init(), acts).value;
            s.published == Drawn(s.events) + s.q.queue && CancelsRespected(s.events)
  {
    RunKeepsInv(env, acts);
  }
}
