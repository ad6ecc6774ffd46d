/** What the in-process queue records of a task published once, by where the task is: queued,
    with a worker, or done (python/app/infrastructure/task_queue.py). */
module MemoryRecords {
  import opened Collections
  import opened TaskMessages
  import opened MemoryQueue

  function Of(id: string): Entry -> bool
  {
    (e: Entry) => e.task.id == id
  }

  ghost predicate Holds(s: System, w: string, id: string)
  {
    w in s.workers && s.workers[w].task.id == id
  }

  /** What the record may say: CANCELLED only when the task was cancelled, and otherwise
      QUEUED in the queue, CLAIMED with a worker, COMPLETED or FAILED after that; a task
      cancelled before it was published is dropped without a word. */
  ghost predicate Fits(s: System, id: string)
  {
    && id in s.q.states
    && var state := s.q.states[id].state;
    || (state == CANCELLED && id in s.q.cancelled)
    || (Count(s.q.queue, Of(id)) == 1 && state == QUEUED)
    || (Count(s.q.queue, Of(id)) == 0 && (exists w :: Holds(s, w, id)) && state == CLAIMED)
    || (Count(s.q.queue, Of(id)) == 0 && (forall w :: !Holds(s, w, id)) &&
        (state == COMPLETED || state == FAILED || (state == QUEUED && id in s.q.cancelled)))
  }

  /** Who holds a task drew it from the queue, and of one drawn once there is one holder. */
  ghost predicate Drew(s: System)
  {
    && (forall w | w in s.workers :: Count(Drawn(s.events), Of(s.workers[w].task.id)) >= 1)
    && (forall v, w | v in s.workers && w in s.workers && s.workers[v].task.id == s.workers[w].task.id &&
          Count(Drawn(s.events), Of(s.workers[w].task.id)) == 1 :: v == w)
  }

  ghost predicate Tells(s: System)
  {
    forall id :: Count(s.published, Of(id)) == 1 ==> Fits(s, id)
  }

  lemma PublishedSplit(s: System, id: string)
    requires Inv(s)
    ensures Count(s.published, Of(id)) == Count(Drawn(s.events), Of(id)) + Count(s.q.queue, Of(id))
  {
    CountConcat(Drawn(s.events), s.q.queue, Of(id));
  }

  /** Other tasks' steps leave a task where it was. */
  lemma SamePlace(s: System, t: System, id: string)
    requires Fits(s, id) && id in t.q.states && t.q.states[id].state == s.q.states[id].state
    requires id in s.q.cancelled ==> id in t.q.cancelled
    requires Count(t.q.queue, Of(id)) == Count(s.q.queue, Of(id))
    requires forall w :: Holds(t, w, id) <==> Holds(s, w, id)
    ensures Fits(t, id)
  {}

  lemma PublishTells(env: Env, s: System, e: Entry, now: int)
    requires Inv(s) && Drew(s) && Tells(s)
    ensures Drew(Step(env, s, Publishing(e, now))) && Tells(Step(env, s, Publishing(e, now)))
  {
    var t := Step(env, s, Publishing(e, now));
    forall id | Count(t.published, Of(id)) == 1 ensures Fits(t, id)
    {
      CountAppend(s.published, e, Of(id));
      CountAppend(s.q.queue, e, Of(id));
      PublishedSplit(s, id);
      if e.task.id != id {
        SamePlace(s, t, id);
      }
    }
  }

  lemma CancelTells(env: Env, s: System, id: string, now: int)
    requires Inv(s) && Drew(s) && Tells(s)
    ensures Drew(Step(env, s, Cancelling(id, now))) && Tells(Step(env, s, Cancelling(id, now)))
  {
    var t := Step(env, s, Cancelling(id, now));
    EventKeeps(s.events, Cancelled(id));
    assert Drawn(s.events) + [] == Drawn(s.events);
    forall other | Count(t.published, Of(other)) == 1 ensures Fits(t, other)
    {
      if other != id {
        SamePlace(s, t, other);
      }
    }
  }

  // ---------- Claiming ----------

  lemma CountHead(queue: seq<Entry>, id: string)
    requires queue != []
    ensures Count(queue, Of(id)) == (if queue[0].task.id == id then 1 else 0) + Count(queue[1..], Of(id))
  {
    assert queue == [queue[0]] + queue[1..];
    assert [queue[0]][..0] == [];
    CountConcat([queue[0]], queue[1..], Of(id));
  }

  /** The first entry is drawn, and told in the events. */
  ghost predicate DrawsFirst(s: System, t: System)
    requires s.q.queue != []
  {
    && t.published == s.published && t.q.queue == s.q.queue[1..] && t.q.cancelled == s.q.cancelled
    && Drawn(t.events) == Drawn(s.events) + [s.q.queue[0]]
  }

  /** No record but that of its task is written. */
  ghost predicate WritesOnly(s: System, t: System, id: string)
  {
    && (forall other :: other in t.q.states <==> other in s.q.states)
    && (forall other | other in s.q.states && other != id :: t.q.states[other] == s.q.states[other])
  }

  /** The task is handed to w, failed on its deadline, or dropped. */
  ghost predicate Settles(s: System, t: System, w: string, task: TaskMessage)
  {
    if task.id in s.q.cancelled then t.workers == s.workers && t.q.states == s.q.states
    else if w !in t.workers then
      t.workers == s.workers && (task.id in t.q.states ==> t.q.states[task.id].state == FAILED)
    else
      t.workers == s.workers[w := Hold(task, Prepared)] &&
        (task.id in t.q.states ==> t.q.states[task.id].state == CLAIMED)
  }

  /** The claim draws the first entry. */
  ghost predicate Draws(s: System, t: System, w: string)
    requires s.q.queue != []
  {
    DrawsFirst(s, t) && WritesOnly(s, t, s.q.queue[0].task.id) && Settles(s, t, w, s.q.queue[0].task)
  }

  lemma PoppedOne(q: Memory, w: string, now: int)
    requires q.queue != []
    ensures var e, t := q.queue[0], Popped(q, 1, w, now);
            && t.queue == q.queue[1..] && t.cancelled == q.cancelled
            && (forall id :: id in t.states <==> id in q.states)
            && (forall id | id in q.states && id != e.task.id :: t.states[id] == q.states[id])
            && (e.task.id in q.cancelled ==> t.states == q.states)
            && (e.task.id !in q.cancelled && e.task.id in q.states ==> t.states[e.task.id].state == CLAIMED)
  {
    assert Popped(q, 0, w, now) == q;
    assert Popped(q, 1, w, now) == Taken(q.(queue := q.queue[1..]), q.queue[0], w, now);
  }

  lemma ClaimDrawsFirst(env: Env, s: System, w: string, now: int)
    requires Inv(s) && s.q.queue != []
    ensures DrawsFirst(s, ClaimStep(env, s, w, now))
  {
    var e, t := s.q.queue[0], ClaimStep(env, s, w, now);
    var event := if Open(s.q)(e) then Delivered(e) else Dropped(e);
    EventKeeps(s.events, event);
    assert t.events == s.events + [event];
  }

  lemma ClaimDraws(env: Env, s: System, w: string, now: int)
    requires Inv(s) && w !in s.workers && s.q.queue != []
    ensures Draws(s, ClaimStep(env, s, w, now), w)
  {
    ClaimDrawsFirst(env, s, w, now);
    PoppedOne(s.q, w, now);
  }

  lemma DrawKeepsHolders(s: System, t: System, w: string)
    requires Drew(s) && w !in s.workers && s.q.queue != [] && Draws(s, t, w)
    ensures Drew(t)
  {
    var e := s.q.queue[0];
    forall v | v in t.workers ensures Count(Drawn(t.events), Of(t.workers[v].task.id)) >= 1
    {
      CountAppend(Drawn(s.events), e, Of(t.workers[v].task.id));
    }
    forall u, v | u in t.workers && v in t.workers && t.workers[u].task.id == t.workers[v].task.id &&
                  Count(Drawn(t.events), Of(t.workers[v].task.id)) == 1
      ensures u == v
    {
      CountAppend(Drawn(s.events), e, Of(t.workers[v].task.id));
    }
  }

  lemma DrawFits(s: System, t: System, w: string)
    requires Inv(s) && Drew(s) && w !in s.workers && s.q.queue != [] && Draws(s, t, w)
    requires Count(s.published, Of(s.q.queue[0].task.id)) == 1 && Fits(s, s.q.queue[0].task.id)
    ensures Fits(t, s.q.queue[0].task.id)
  {
    var id := s.q.queue[0].task.id;
    PublishedSplit(s, id);
    CountHead(s.q.queue, id);
    assert Count(Drawn(s.events), Of(id)) == 0;
    assert forall v :: !Holds(s, v, id);
    if t.workers != s.workers {
      assert Holds(t, w, id);
    }
  }

  lemma OthersFit(s: System, t: System, w: string, id: string)
    requires s.q.queue != [] && id != s.q.queue[0].task.id && w !in s.workers && Draws(s, t, w) && Fits(s, id)
    ensures Fits(t, id)
  {
    CountHead(s.q.queue, id);
    SamePlace(s, t, id);
  }

  lemma ClaimTells(env: Env, s: System, w: string, now: int)
    requires Inv(s) && Drew(s) && Tells(s) && w !in s.workers
    ensures Drew(ClaimStep(env, s, w, now)) && Tells(ClaimStep(env, s, w, now))
  {
    if s.q.queue != [] {
      var t := ClaimStep(env, s, w, now);
      ClaimDraws(env, s, w, now);
      DrawKeepsHolders(s, t, w);
      forall id | Count(t.published, Of(id)) == 1 ensures Fits(t, id)
      {
        if id == s.q.queue[0].task.id {
          DrawFits(s, t, w);
        } else {
          OthersFit(s, t, w, id);
        }
      }
    }
  }

  // ---------- Working ----------

  /** Worker w lets go of its task, which is recorded as completed or failed. */
  ghost predicate LetsGo(s: System, t: System, w: string)
    requires w in s.workers
  {
    var id := s.workers[w].task.id;
    && t.published == s.published && t.events == s.events && t.workers == s.workers - {w}
    && t.q.queue == s.q.queue && t.q.cancelled == s.q.cancelled
    && (forall other :: other in t.q.states <==> other in s.q.states)
    && (forall other | other in s.q.states && other != id :: t.q.states[other] == s.q.states[other])
    && (id in t.q.states ==> t.q.states[id].state == COMPLETED || t.q.states[id].state == FAILED)
  }

  lemma LetGoTells(s: System, t: System, w: string)
    requires Inv(s) && Drew(s) && Tells(s) && w in s.workers && LetsGo(s, t, w)
    ensures Drew(t) && Tells(t)
  {
    forall id | Count(t.published, Of(id)) == 1 ensures Fits(t, id)
    {
      PublishedSplit(s, id);
      assert Fits(s, id);
      if id == s.workers[w].task.id {
        assert forall v :: Holds(s, v, id) ==> v == w;
      } else {
        SamePlace(s, t, id);
      }
    }
  }

  lemma StepTells(env: Env, s: System, a: Action)
    requires Inv(s) && Drew(s) && Tells(s) && Enabled(s, a)
    ensures Drew(Step(env, s, a)) && Tells(Step(env, s, a))
  {
    var t := Step(env, s, a);
    match a
    case Publishing(e, now) => PublishTells(env, s, e, now);
    case Cancelling(id, now) => CancelTells(env, s, id, now);
    case Claiming(w, now) => ClaimTells(env, s, w, now);
    case Starting(w, now) =>
      if s.workers[w].task.id in s.q.cancelled {
        LetGoTells(s, t, w);
      } else {
        StartTells(env, s, w, now);
      }
    case Completing(w, outcome, now) => LetGoTells(s, t, w);
    case Throwing(w, why, now) => LetGoTells(s, t, w);
  }

  lemma StartTells(env: Env, s: System, w: string, now: int)
    requires Inv(s) && Drew(s) && Tells(s) && Enabled(s, Starting(w, now)) && s.workers[w].task.id !in s.q.cancelled
    ensures Drew(Step(env, s, Starting(w, now))) && Tells(Step(env, s, Starting(w, now)))
  {
    var t := Step(env, s, Starting(w, now));
    EventKeeps(s.events, Started(s.workers[w].task.id));
    assert Drawn(s.events) + [] == Drawn(s.events);
    forall id | Count(t.published, Of(id)) == 1 ensures Fits(t, id)
    {
      assert forall v :: Holds(t, v, id) <==> Holds(s, v, id);
      SamePlace(s, t, id);
    }
  }

  /** In every run the record of a task published once says where the task is. */
  lemma {:induction false} RecordTellsPlace(env: Env, acts: seq<Action>)
    requires Run(env, Init(), acts).Some?
    ensures Drew(Run(env, Init(), acts).value) && Tells(Run(env, Init(), acts).value)
  {
    if acts != [] {
      var before := acts[..|acts| - 1];
      RecordTellsPlace(env, before);
      RunKeepsInv(env, before);
      StepTells(env, Run(env, Init(), before).value, acts[|acts| - 1]);
    }
  }

  // ---------- What each step records ----------

  /** The record of the task, if it has one, tells the state, now, and what came of it. */
  ghost predicate Records(s: System, id: string, state: TaskStatus, now: int)
  {
    id in s.q.states ==> s.q.states[id].state == state && s.q.states[id].updated == now
  }

  /** A completion records its result, a failure its reason, a cancellation itself; a task
      found cancelled before its agent starts fails as cancelled, and one found late with the
      reason for that. */
  lemma StepRecords(env: Env, s: System, a: Action)
    requires Inv(s) && Enabled(s, a)
    ensures var t := Step(env, s, a);
            match a
            case Publishing(e, now) => e.task.id in t.q.states && Records(t, e.task.id, QUEUED, now)
            case Cancelling(id, now) => id in t.q.cancelled && Records(t, id, CANCELLED, now)
            case Completing(w, outcome, now) =>
              var id := s.workers[w].task.id;
              Records(t, id, COMPLETED, now) && (id in t.q.states ==> t.q.states[id].outcome == outcome)
            case Throwing(w, why, now) =>
              var id := s.workers[w].task.id;
              Records(t, id, FAILED, now) && (id in t.q.states ==> t.q.states[id].failure == why)
            case Starting(w, now) =>
              var id := s.workers[w].task.id;
              (w !in t.workers <==> id in s.q.cancelled) &&
              (w !in t.workers ==> Records(t, id, FAILED, now)) &&
              (w !in t.workers && id in t.q.states ==> t.q.states[id].failure == "Task cancelled")
            case Claiming(_, _) => true
  {}

  /** A claim by the first entry: dropped when its task was cancelled, otherwise handed out
      without a deadline or with an instant that is not past, and failed with any other. */
  lemma ClaimRecords(env: Env, s: System, w: string, now: int)
    requires Inv(s) && w !in s.workers && s.q.queue != []
    ensures var t, m := Step(env, s, Claiming(w, now)), s.q.queue[0].task;
            var inTime := m.deadline == "" || (env.fromIso(m.deadline).Aware? && now <= env.fromIso(m.deadline).at);
            && t.q.queue == s.q.queue[1..]
            && (w in t.workers <==> m.id !in s.q.cancelled && inTime)
            && (w in t.workers ==> t.workers == s.workers[w := Hold(m, Prepared)] && Records(t, m.id, CLAIMED, now))
            && (w in t.workers && m.id in t.q.states ==>
                t.q.states[m.id].claimedBy == w && t.q.states[m.id].claimedAt == Some(now))
            && (m.id !in s.q.cancelled && !inTime ==> Records(t, m.id, FAILED, now))
            && (m.id in s.q.cancelled ==> t.q.states == s.q.states)
  {
    assert Popped(s.q, 0, w, now) == s.q;
    assert Popped(s.q, 1, w, now) == Taken(s.q.(queue := s.q.queue[1..]), s.q.queue[0], w, now);
  }
}
