/** What get_state may tell: how the recorded state of a task published once and the fate of
    its live entry go together (python/app/infrastructure/task_queue.py). */
module WorkerRecords {
  import opened Collections
  import opened TaskMessages
  import opened Broker
  import opened WorkerProtocol
  import opened WorkerSteps
  import opened WorkerDrain

  /** The state of a task that nobody works on: new, or given back. */
  function Waiting(retries: int): TaskStatus
  {
    if retries == 0 then QUEUED else RETRYING
  }

  ghost predicate Held(s: System, i: nat)
  {
    exists w | w in s.workers :: s.workers[w].msg == i
  }

  /** What the record of the task may say when its live entry has this fate; it may always
      say CANCELLED. A late entry is buried without a word in the record. */
  predicate Allowed(state: TaskStatus, retries: int, fate: Fate, held: bool)
  {
    state == CANCELLED ||
    match fate
    case Undelivered => state == Waiting(retries)
    case InFlight => state == CLAIMED || (!held && state == Waiting(retries))
    case Completed => state == COMPLETED
    case CancelAcked => false
    case Dead => state == FAILED || state == Waiting(retries)
    case Retried => false
  }

  /** A task is claimed exactly while its record says so, and the claim names the entry. */
  ghost predicate ClaimFits(s: System, i: nat)
    requires i < |s.tokens| && s.tokens[i].id in s.b.records
  {
    var id := s.tokens[i].id;
    && (id in s.b.claims <==> s.b.records[id].state == CLAIMED)
    && (id in s.b.claims ==> s.b.claims[id].msg == i && s.b.records[id].claimedBy == Some(s.b.claims[id].holder))
  }

  /** The record fits live entry i, and a holder that saw a cancellation saw right. */
  ghost predicate Fits(s: System, i: nat)
    requires i < |s.tokens|
  {
    && s.tokens[i].id in s.b.records && ClaimFits(s, i)
    && Allowed(s.b.records[s.tokens[i].id].state, Retries(s, s.tokens[i].id), s.tokens[i].fate, Held(s, i))
    && (forall w | w in s.workers && s.workers[w].msg == i && s.workers[w].phase == SeenCancelled ::
          IsCancelled(s.b, s.tokens[i].id))
  }

  ghost predicate Tells(s: System)
  {
    forall i | 0 <= i < |s.tokens| && s.tokens[i].fate != Retried && Publishes(s, s.tokens[i].id) == 1 :: Fits(s, i)
  }

  /** Only known tasks are claimed. */
  ghost predicate ClaimsKnown(s: System)
  {
    forall id | id in s.b.claims :: id in s.b.records
  }

  lemma FailureClaimsKnown(env: Env, s: System, w: string, why: string, now: int)
    requires w in s.workers && ClaimsKnown(s)
    ensures ClaimsKnown(FailStep(env, s, w, why, now))
  {}

  lemma StepClaimsKnown(env: Env, s: System, a: Action)
    requires Inv(s) && Enabled(s, a) && ClaimsKnown(s)
    ensures ClaimsKnown(Step(env, s, a))
  {
    if Fails(env, s, a) {
      FailureClaimsKnown(env, s, a.w, Reason(env, s, a), a.now);
    } else if a.Claiming? {
      OneClaim(env, s.b, a.w, a.now);
    }
  }

  // ---------- Steps that concern other tasks ----------

  /** Entry i, its record and its holder are as before. */
  ghost predicate Untouched(s: System, t: System, i: nat)
    requires i < |s.tokens|
  {
    var id := s.tokens[i].id;
    && i < |t.tokens| && t.tokens[i] == s.tokens[i] && Record(t.b, id) == Record(s.b, id)
    && (id in s.b.records ==> id in t.b.records)
    && (id in t.b.claims <==> id in s.b.claims) && (id in s.b.claims ==> t.b.claims[id] == s.b.claims[id])
    && (forall w | w in s.workers && s.workers[w].msg == i :: w in t.workers && t.workers[w] == s.workers[w])
    && (forall w | w in t.workers && t.workers[w].msg == i :: w in s.workers && t.workers[w] == s.workers[w])
  }

  lemma UntouchedFits(s: System, t: System, i: nat)
    requires i < |s.tokens| && Untouched(s, t, i) && Fits(s, i)
    ensures Fits(t, i)
  {
    assert Held(t, i) <==> Held(s, i);
  }

  ghost predicate FitsOnce(s: System, i: nat)
    requires i < |s.tokens|
  {
    s.tokens[i].fate != Retried && Publishes(s, s.tokens[i].id) == 1 ==> Fits(s, i)
  }

  lemma NobodyHolds(s: System, n: nat)
    requires Inv(s) && n >= s.b.cursor
    ensures !Held(s, n)
  {
    forall w | w in s.workers ensures s.workers[w].msg != n
    {
      assert Holding(s, w);
    }
  }

  lemma PublishTells(env: Env, s: System, m: TaskMessage, now: int)
    requires Inv(s) && Tells(s) && ClaimsKnown(s)
    ensures Tells(Step(env, s, Publishing(m, now)))
  {
    var t, n := Step(env, s, Publishing(m, now)), |s.tokens|;
    NobodyHolds(s, n);
    forall i | 0 <= i < |t.tokens| && t.tokens[i].fate != Retried && Publishes(t, t.tokens[i].id) == 1
      ensures Fits(t, i)
    {
      PublishesGrow(env, s, Publishing(m, now), t.tokens[i].id);
      assert Balanced(s, t.tokens[i].id);
      if i < n {
        LiveIsPublished(s, i);
        assert Fits(s, i);
        UntouchedFits(s, t, i);
      }
    }
  }

  lemma CancelTells(env: Env, s: System, id: string, now: int)
    requires Inv(s) && Tells(s)
    ensures Tells(Step(env, s, Cancelling(id, now)))
  {
    var t := Step(env, s, Cancelling(id, now));
    forall i | 0 <= i < |t.tokens| && t.tokens[i].fate != Retried && Publishes(t, t.tokens[i].id) == 1
      ensures Fits(t, i)
    {
      assert Fits(s, i);
      if t.tokens[i].id != id {
        UntouchedFits(s, t, i);
      }
    }
  }

  lemma ClaimedFits(env: Env, s: System, w: string, now: int)
    requires Inv(s) && w !in s.workers && s.b.cursor < |s.b.stream| && Fits(s, s.b.cursor)
    ensures var t := Step(env, s, Claiming(w, now)); s.b.cursor < |t.tokens| && Fits(t, s.b.cursor)
  {
    var t, n := Step(env, s, Claiming(w, now)), s.b.cursor;
    OneClaim(env, s.b, w, now);
    NobodyHolds(s, n);
    forall v | v in s.workers ensures s.workers[v].msg != n
    {
      assert Holding(s, v);
    }
    if w in t.workers {
      assert t.workers[w].msg == n;
    }
  }

  lemma OthersClaimUntouched(env: Env, s: System, w: string, now: int, i: nat)
    requires Inv(s) && w !in s.workers && i < |s.tokens| && i != s.b.cursor
    requires s.b.cursor < |s.b.stream| ==> s.b.stream[s.b.cursor].id != s.tokens[i].id
    ensures Untouched(s, Step(env, s, Claiming(w, now)), i)
  {
    OneClaim(env, s.b, w, now);
  }

  lemma ClaimTells(env: Env, s: System, w: string, now: int)
    requires Inv(s) && Tells(s) && w !in s.workers
    ensures Tells(Step(env, s, Claiming(w, now)))
  {
    var t := Step(env, s, Claiming(w, now));
    OneClaim(env, s.b, w, now);
    forall i | 0 <= i < |t.tokens| && t.tokens[i].fate != Retried && Publishes(t, t.tokens[i].id) == 1
      ensures Fits(t, i)
    {
      assert Fits(s, i);
      if i == s.b.cursor {
        ClaimedFits(env, s, w, now);
      } else {
        if s.b.cursor < |s.b.stream| {
          OneLiveEntry(s, i, s.b.cursor, s.tokens[i].id);
        }
        OthersClaimUntouched(env, s, w, now, i);
        UntouchedFits(s, t, i);
      }
    }
  }

  lemma FailureUntouched(env: Env, s: System, w: string, why: string, now: int, i: nat)
    requires Inv(s) && w in s.workers && i < |s.tokens| && s.workers[w].msg != i &&
             s.tokens[i].id != s.workers[w].task.id
    ensures Untouched(s, FailStep(env, s, w, why, now), i)
  {}

  /** The entry a failure writes, or the one it buries. */
  lemma FailedFits(env: Env, s: System, w: string, why: string, now: int)
    requires Inv(s) && w in s.workers && s.workers[w].phase != Finished
    ensures var t, i := FailStep(env, s, w, why, now), s.workers[w].msg;
            if Retries(s, s.workers[w].task.id) < 3
              then |t.tokens| == |s.tokens| + 1 && t.tokens[i].fate == Retried && Fits(t, |s.tokens|)
            else |t.tokens| == |s.tokens| && Fits(t, i)
  {
    var t := FailStep(env, s, w, why, now);
    assert Holding(s, w) && Balanced(s, s.workers[w].task.id);
    LiveIsPublished(s, s.workers[w].msg);
    forall v | v in t.workers ensures t.workers[v].msg != s.workers[w].msg && t.workers[v].msg != |s.tokens|
    {
      assert Holding(s, v);
    }
  }

  lemma FailTells(env: Env, s: System, w: string, why: string, now: int)
    requires Inv(s) && Tells(s) && w in s.workers && s.workers[w].phase != Finished
    ensures Tells(FailStep(env, s, w, why, now))
  {
    var t, j := FailStep(env, s, w, why, now), s.workers[w].msg;
    assert Holding(s, w);
    FailedFits(env, s, w, why, now);
    forall i | 0 <= i < |t.tokens| && t.tokens[i].fate != Retried && Publishes(t, t.tokens[i].id) == 1
      ensures Fits(t, i)
    {
      if i < |s.tokens| && i != j {
        assert Fits(s, i);
        OneLiveEntry(s, i, j, s.tokens[i].id);
        FailureUntouched(env, s, w, why, now, i);
        UntouchedFits(s, t, i);
      }
    }
  }

  lemma WorkUntouched(env: Env, s: System, a: Action, i: nat)
    requires Inv(s) && Enabled(s, a) && !a.Publishing? && !a.Cancelling? && !a.Claiming? && !Fails(env, s, a)
    requires i < |s.tokens| && s.workers[a.w].msg != i && s.tokens[i].id != s.workers[a.w].task.id
    ensures Untouched(s, Step(env, s, a), i)
  {
    assert Holding(s, a.w);
  }

  lemma WorkedFits(env: Env, s: System, a: Action)
    requires Inv(s) && Enabled(s, a) && !a.Publishing? && !a.Cancelling? && !a.Claiming? && !Fails(env, s, a)
    requires s.workers[a.w].msg < |s.tokens| && Fits(s, s.workers[a.w].msg)
    ensures var t, i := Step(env, s, a), s.workers[a.w].msg; i < |t.tokens| && Fits(t, i)
  {
    var t, i := Step(env, s, a), s.workers[a.w].msg;
    assert Holding(s, a.w) && Held(s, i);
    forall v | v in s.workers && v != a.w ensures s.workers[v].msg != i {}
    if a.w in t.workers {
      assert t.workers[a.w].msg == i;
    }
  }

  lemma WorkTells(env: Env, s: System, a: Action)
    requires Inv(s) && Tells(s) && Enabled(s, a) && !a.Publishing? && !a.Cancelling? && !a.Claiming? &&
             !Fails(env, s, a)
    ensures Tells(Step(env, s, a))
  {
    var t, j := Step(env, s, a), s.workers[a.w].msg;
    assert Holding(s, a.w);
    forall i | 0 <= i < |t.tokens| && t.tokens[i].fate != Retried && Publishes(t, t.tokens[i].id) == 1
      ensures Fits(t, i)
    {
      assert Fits(s, i);
      if i == j {
        WorkedFits(env, s, a);
      } else {
        OneLiveEntry(s, i, j, s.tokens[i].id);
        WorkUntouched(env, s, a, i);
        UntouchedFits(s, t, i);
      }
    }
  }

  lemma StepTells(env: Env, s: System, a: Action)
    requires Inv(s) && Tells(s) && ClaimsKnown(s) && Enabled(s, a)
    ensures Tells(Step(env, s, a))
  {
    if Fails(env, s, a) {
      FailTells(env, s, a.w, Reason(env, s, a), a.now);
    } else if a.Publishing? {
      PublishTells(env, s, a.m, a.now);
    } else if a.Cancelling? {
      CancelTells(env, s, a.id, a.now);
    } else if a.Claiming? {
      ClaimTells(env, s, a.w, a.now);
    } else {
      WorkTells(env, s, a);
    }
  }

  /** In every reachable state, for every live entry of a task published once: undelivered it
      is QUEUED, or RETRYING after a failure; held it is CLAIMED; completed it is COMPLETED;
      dead it is FAILED, or as it was when a claim found it late; unless it was cancelled,
      which is all that an entry acknowledged as cancelled can be. The task is listed as
      claimed exactly while its record says CLAIMED, with that entry and that worker. */
  lemma {:induction false} RecordTellsFate(env: Env, acts: seq<Action>)
    requires Run(env, Init(), acts).Some?
    ensures Tells(Run(env, Init(), acts).value) && ClaimsKnown(Run(env, Init(), acts).value)
  {
    if acts != [] {
      var before := acts[..|acts| - 1];
      RecordTellsFate(env, before);
      ReachableInv(env, before);
      StepTells(env, Run(env, Init(), before).value, acts[|acts| - 1]);
      StepClaimsKnown(env, Run(env, Init(), before).value, acts[|acts| - 1]);
    }
  }

  // ---------- Who writes what, and when ----------

  /** A record written by a step carries the time of that step; it keeps the time at which
      it was published, and the step that fails a task leaves its reason. */
  ghost predicate Dated(s: System, t: System, id: string, now: int, publishes: bool)
  {
    Record(t.b, id) != Record(s.b, id) ==>
      && id in t.b.records && t.b.records[id].updated == now
      && t.b.records[id].created == (if publishes then Some(now) else Record(s.b, id).created)
      && (t.b.records[id].state == CLAIMED && Record(s.b, id).state != CLAIMED ==>
          t.b.records[id].claimedAt == Some(now))
  }

  function TimeOf(a: Action): int
  {
    match a
    case Publishing(_, now) => now
    case Cancelling(_, now) => now
    case Claiming(_, now) => now
    case CheckingDeadline(_, now) => now
    case Starting(_, now) => now
    case Failing(_, _, now) => now
    case Completing(_, _, now) => now
    case _ => 0
  }

  lemma FailureDated(env: Env, s: System, w: string, why: string, now: int, id: string)
    requires Inv(s) && w in s.workers
    ensures Dated(s, FailStep(env, s, w, why, now), id, now, false)
    ensures var t, task := FailStep(env, s, w, why, now), s.workers[w].task.id;
            task in t.b.records && t.b.records[task].failure == Some(why)
  {}

  lemma ClaimDated(env: Env, s: System, w: string, now: int, id: string)
    requires Inv(s) && w !in s.workers
    ensures Dated(s, Step(env, s, Claiming(w, now)), id, now, false)
  {
    OneClaim(env, s.b, w, now);
  }

  /** Every step dates what it writes. */
  lemma WritesAreDated(env: Env, s: System, a: Action, id: string)
    requires Inv(s) && Enabled(s, a)
    ensures Dated(s, Step(env, s, a), id, TimeOf(a), a.Publishing?)
    ensures a.Failing? ==> var t := Step(env, s, a);
              s.workers[a.w].task.id in t.b.records && t.b.records[s.workers[a.w].task.id].failure == Some(a.why)
  {
    if Fails(env, s, a) {
      FailureDated(env, s, a.w, Reason(env, s, a), a.now, id);
    } else if a.Claiming? {
      ClaimDated(env, s, a.w, a.now, id);
    }
  }

  /** A retried task goes back with its payload and one more retry, five more minutes, a new
      trace id and the limit every task has. */
  lemma RetriedEntry(env: Env, s: System, w: string, why: string, now: int)
    requires Inv(s) && w in s.workers && Retries(s, s.workers[w].task.id) < 3
    ensures var t, r, id := FailStep(env, s, w, why, now), Record(s.b, s.workers[w].task.id), s.workers[w].task.id;
            && |t.b.stream| == |s.b.stream| + 1
            && var m := t.b.stream[|s.b.stream|];
               && m.id == id && m.retries == Retries(s, id) + 1 && m.limit == 3 && m.schema == 1
               && m.trace == "TRACE-" + id && m.deadline == env.isoformat(now + 300)
               && (r.body.Some? ==> m.body == r.body.value) && (r.incident.Some? ==> m.incident == r.incident.value)
               && Retries(t, id) == Retries(s, id) + 1
  {}
}
