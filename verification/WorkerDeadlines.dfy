/** Deadlines in the protocol: whom a claim and a worker's own check turn away, in terms of
    the time the deadline names (python/app/worker/diagnosis_worker.py). */
module WorkerDeadlines {
  import opened Collections
  import opened TaskMessages
  import opened Broker
  import opened Deadlines
  import opened WorkerProtocol
  import opened WorkerSteps
  import opened WorkerDrain
  import opened WorkerRecords

  ghost predicate HandedTo(s: System, t: System, w: string, now: int)
    requires s.b.cursor < |s.b.stream|
  {
    var i, m := s.b.cursor, s.b.stream[s.b.cursor];
    && t.workers == s.workers[w := Hold(i, m, Checking)]
    && t.b.dlq == s.b.dlq && t.b.pending == s.b.pending + {i}
    && m.id in t.b.records && t.b.records[m.id].state == CLAIMED && t.b.records[m.id].claimedBy == Some(w)
    && m.id in t.b.claims && t.b.claims[m.id] == Claim(w, now, i)
  }

  ghost predicate Buried(env: Env, s: System, t: System, now: int)
    requires s.b.cursor < |s.b.stream|
  {
    var i, m := s.b.cursor, s.b.stream[s.b.cursor];
    && t.workers == s.workers && t.b.records == s.b.records && t.b.claims == s.b.claims
    && t.b.dlq == s.b.dlq + [DeadLetter(Stamped(env, m, now), i, "deadline exceeded", now)]
    && t.b.pending == s.b.pending - {i}
  }

  ghost predicate LeftAlone(s: System, t: System)
  {
    && t.workers == s.workers && t.b.records == s.b.records && t.b.claims == s.b.claims && t.b.dlq == s.b.dlq
    && t.b.pending == s.b.pending + {s.b.cursor}
  }

  /** A claim by the deadline of the next entry: handed to the worker unless an instant it
      names is past or it names a time without a zone; buried in the first case, and left
      pending with nobody in the second. */
  lemma ClaimedByDeadline(env: Env, s: System, w: string, now: int)
    requires Inv(s) && w !in s.workers && s.b.cursor < |s.b.stream|
    ensures var t, m := Step(env, s, Claiming(w, now)), s.b.stream[s.b.cursor];
            && t.b.cursor == s.b.cursor + 1 && t.b.stream == s.b.stream
            && (w in t.workers <==> IsClaimable(env, m, now))
            && (IsClaimable(env, m, now) ==> HandedTo(s, t, w, now))
            && (IsLate(env, m, now) ==> Buried(env, s, t, now))
            && (IsZoneless(env, m) ==> LeftAlone(s, t))
  {
    OneClaim(env, s.b, w, now);
    assert forall i :: i in s.b.pending ==> i < s.b.cursor;
    if IsLate(env, s.b.stream[s.b.cursor], now) {
      assert s.b.pending + {s.b.cursor} - {s.b.cursor} == s.b.pending - {s.b.cursor};
    }
  }

  /** A message without a deadline of its own can be claimed for five minutes after it was
      published, and not a second longer. */
  lemma FiveMinutes(env: Env, m: TaskMessage, published: int, now: int)
    requires Faithful(env) && m.deadline == ""
    ensures IsClaimable(env, Stamped(env, m, published), now) <==> now <= published + 300
    ensures IsLate(env, Stamped(env, m, published), now) <==> now > published + 300
  {
    var at := published + DEADLINE_SECONDS;
    assert env.isoformat(at) != "" && env.fromIso(env.isoformat(at)) == Aware(at);
  }

  ghost predicate FailedFor(s: System, id: string, why: string)
  {
    id in s.b.records && s.b.records[id].failure == Some(why)
  }

  /** The worker's own check goes on exactly with an instant that is not past, or without a
      deadline; anything else fails the task, unreadable deadlines with the error's text. */
  lemma CheckedByDeadline(env: Env, s: System, w: string, now: int)
    requires Inv(s) && w in s.workers && s.workers[w].phase == Vetted
    ensures var t, m := Step(env, s, CheckingDeadline(w, now)), s.workers[w].task;
            && (w in t.workers <==>
                m.deadline == "" || (env.fromIso(m.deadline).Aware? && now <= env.fromIso(m.deadline).at))
            && (w in t.workers ==> t == s.(workers := s.workers[w := s.workers[w].(phase := Prepared)]))
            && (w !in t.workers ==> FailedFor(t, m.id, if IsLate(env, m, now) then "Deadline exceeded"
                                              else env.timeError(m.deadline)))
  {
    assert Holding(s, w);
  }

  // ---------- Dead letters and records ----------

  ghost predicate WritesLetter(s: System, t: System, id: string)
  {
    |t.b.dlq| == |s.b.dlq| + 1 && t.b.dlq[|s.b.dlq|].task.id == id
  }

  lemma BuriedRecord(env: Env, s: System, w: string, now: int, id: string)
    requires Inv(s) && Tells(s) && w !in s.workers && Publishes(s, id) == 1
    requires WritesLetter(s, Step(env, s, Claiming(w, now)), id)
    ensures var t := Step(env, s, Claiming(w, now));
            && id in t.b.records && id in s.b.records && t.b.records[id] == s.b.records[id]
            && t.b.records[id].state in {QUEUED, RETRYING, CANCELLED}
  {
    OneClaim(env, s.b, w, now);
    assert s.b.cursor < |s.b.stream|;
    ClaimedByDeadline(env, s, w, now);
    assert s.b.stream[s.b.cursor].id == id && s.tokens[s.b.cursor].id == id;
    assert Fits(s, s.b.cursor);
  }

  lemma FailedRecord(env: Env, s: System, w: string, why: string, now: int, id: string)
    requires Inv(s) && w in s.workers && s.workers[w].phase != Finished
    requires WritesLetter(s, FailStep(env, s, w, why, now), id)
    ensures var t := FailStep(env, s, w, why, now); id in t.b.records && t.b.records[id].state == FAILED
  {
    assert Holding(s, w);
    LiveIsPublished(s, s.workers[w].msg);
    assert Balanced(s, s.workers[w].task.id);
  }

  /** A dead letter and the record: in every reachable state the task of a dead letter, if it
      was published once, is recorded as FAILED when a worker gave it up, and left as it was
      when a claim found it late. */
  lemma DeadLetterRecorded(env: Env, acts: seq<Action>, a: Action, id: string)
    requires Run(env, Init(), acts).Some? &&
             Run(env, Init(), acts).value.b.cursor <= |Run(env, Init(), acts).value.b.stream|
    requires Enabled(Run(env, Init(), acts).value, a) && Publishes(Run(env, Init(), acts).value, id) == 1
    requires WritesLetter(Run(env, Init(), acts).value, Step(env, Run(env, Init(), acts).value, a), id)
    ensures var s := Run(env, Init(), acts).value; var t := Step(env, s, a);
            && id in t.b.records && (t.b.records[id].state == FAILED <==> !a.Claiming?)
            && (a.Claiming? ==> id in s.b.records && t.b.records[id] == s.b.records[id])
  {
    var s := Run(env, Init(), acts).value;
    ReachableInv(env, acts);
    RecordTellsFate(env, acts);
    if a.Claiming? {
      BuriedRecord(env, s, a.w, a.now, id);
    } else {
      FailedRecord(env, s, a.w, Reason(env, s, a), a.now, id);
    }
  }

  /** A task that is claimed too late: dead-lettered, and recorded as QUEUED still. */
  lemma LateTaskStaysQueued(env: Env, m: TaskMessage, w: string, published: int, now: int)
    requires Faithful(env) && m.deadline == "" && now > published + 300
    ensures var s := Step(env, Init(), Publishing(m, published));
            && s.b.cursor <= |s.b.stream| && Enabled(s, Claiming(w, now))
            && var t := Step(env, s, Claiming(w, now));
               && t.workers == map[] && |t.b.dlq| == 1 && t.b.dlq[0].task.id == m.id && t.b.pending == {}
               && m.id in t.b.records && t.b.records[m.id].state == QUEUED
  {
    var s := Step(env, Init(), Publishing(m, published));
    InitHolds();
    PublishKeepsInv(env, Init(), m, published);
    FiveMinutes(env, m, published, now);
    assert s.b.stream == [Stamped(env, m, published)];
    ClaimedByDeadline(env, s, w, now);
  }
}
