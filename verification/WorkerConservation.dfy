/** Where a task is: no task is lost, held twice or altered, over all runs
    (python/app/worker/diagnosis_worker.py, python/app/infrastructure/task_queue.py). */
module WorkerConservation {
  import opened Collections
  import opened TaskMessages
  import opened Broker
  import opened WorkerProtocol
  import opened WorkerSteps

  ghost predicate Done(tokens: seq<Token>, id: string)
  {
    exists i :: 0 <= i < |tokens| && tokens[i] == Token(id, Completed)
  }

  /** A record holds a result exactly when an entry of its task was completed. */
  ghost predicate Outcomes(s: System)
  {
    forall id :: Record(s.b, id).outcome.Some? <==> Done(s.tokens, id)
  }

  ghost predicate SameCompleted(before: seq<Token>, after: seq<Token>)
  {
    && |before| <= |after|
    && (forall i :: 0 <= i < |before| && before[i].fate == Completed ==> after[i] == before[i])
    && (forall i :: 0 <= i < |after| && after[i].fate == Completed ==> i < |before| && before[i] == after[i])
  }

  ghost predicate SameOutcomes(s: System, t: System)
  {
    SameCompleted(s.tokens, t.tokens) && forall id :: Record(s.b, id).outcome == Record(t.b, id).outcome
  }

  lemma OutcomesSame(s: System, t: System)
    requires Outcomes(s) && SameOutcomes(s, t)
    ensures Outcomes(t)
  {
    forall id ensures Done(s.tokens, id) <==> Done(t.tokens, id)
    {
      if i :| 0 <= i < |s.tokens| && s.tokens[i] == Token(id, Completed) {
        assert t.tokens[i] == Token(id, Completed);
      }
      if i :| 0 <= i < |t.tokens| && t.tokens[i] == Token(id, Completed) {
        assert s.tokens[i] == Token(id, Completed);
      }
    }
  }

  lemma ClaimSameOutcomes(env: Env, s: System, w: string, now: int)
    requires Inv(s) && w !in s.workers
    ensures SameOutcomes(s, Step(env, s, Claiming(w, now)))
  {
    OneClaim(env, s.b, w, now);
  }

  lemma FailSameOutcomes(env: Env, s: System, w: string, why: string, now: int)
    requires Inv(s) && w in s.workers && s.workers[w].phase != Finished
    ensures SameOutcomes(s, FailStep(env, s, w, why, now))
  {
    assert Holding(s, w);
  }

  lemma CompleteKeepsOutcomes(env: Env, s: System, w: string, outcome: Json, now: int)
    requires Inv(s) && Outcomes(s) && Enabled(s, Completing(w, outcome, now))
    ensures Outcomes(Step(env, s, Completing(w, outcome, now)))
  {
    var t, h := Step(env, s, Completing(w, outcome, now)), s.workers[w];
    assert Holding(s, w);
    assert t.tokens[h.msg] == Token(h.task.id, Completed);
    forall id ensures Record(t.b, id).outcome.Some? <==> Done(t.tokens, id)
    {
      assert Record(s.b, id).outcome.Some? <==> Done(s.tokens, id);
      if i :| 0 <= i < |s.tokens| && s.tokens[i] == Token(id, Completed) {
        assert t.tokens[i] == Token(id, Completed);
      }
      if i :| 0 <= i < |t.tokens| && t.tokens[i] == Token(id, Completed) {
        assert i != h.msg ==> s.tokens[i] == Token(id, Completed);
      }
    }
  }

  lemma WorkerStepSameOutcomes(env: Env, s: System, a: Action)
    requires Inv(s) && Enabled(s, a)
    requires a.CheckingCancelled? || a.AckingCancelled? || a.CheckingDeadline? || a.Starting? || a.AckingFinished? ||
             a.Crashing?
    requires !Fails(env, s, a)
    ensures SameOutcomes(s, Step(env, s, a))
  {
    assert Holding(s, a.w);
  }

  lemma StepKeepsOutcomes(env: Env, s: System, a: Action)
    requires Inv(s) && Enabled(s, a) && Outcomes(s)
    ensures Outcomes(Step(env, s, a))
  {
    if Fails(env, s, a) {
      FailSameOutcomes(env, s, a.w, Reason(env, s, a), a.now);
      OutcomesSame(s, Step(env, s, a));
    } else if a.Completing? {
      CompleteKeepsOutcomes(env, s, a.w, a.outcome, a.now);
    } else {
      if a.Claiming? {
        ClaimSameOutcomes(env, s, a.w, a.now);
      } else if !a.Publishing? && !a.Cancelling? {
        WorkerStepSameOutcomes(env, s, a);
      }
      OutcomesSame(s, Step(env, s, a));
    }
  }

  lemma {:induction false} ReachableOutcomes(env: Env, acts: seq<Action>)
    requires Run(env, Init(), acts).Some?
    ensures Outcomes(Run(env, Init(), acts).value)
  {
    if acts != [] {
      var before := acts[..|acts| - 1];
      ReachableOutcomes(env, before);
      ReachableInv(env, before);
      StepKeepsOutcomes(env, Run(env, Init(), before).value, acts[|acts| - 1]);
    }
  }

  /** Where an entry's task stands, read off the queue alone. */
  ghost predicate InPlace(b: Broker, i: nat, fate: Fate)
    requires i < |b.stream|
  {
    var id := b.stream[i].id;
    var done, letters := Record(b, id).outcome.Some?, Count(b.dlq, LetterOf(id));
    match fate
    case Undelivered => b.cursor <= i && !done && letters == 0
    case InFlight => i < b.cursor && i in b.pending && !done && letters == 0
    case Completed => i < b.cursor && done && letters == 0
    case CancelAcked => i < b.cursor && i !in b.pending && !done && letters == 0
    case Dead => i < b.cursor && !done && letters == 1
    case Retried => false
  }

  lemma LiveEntry(s: System, id: string) returns (i: nat)
    requires Inv(s) && Publishes(s, id) == 1
    ensures i < |s.tokens| == |s.b.stream| && s.b.stream[i].id == id && s.tokens[i].fate != Retried
    ensures forall j :: 0 <= j < |s.tokens| && j != i && s.b.stream[j].id == id ==> s.tokens[j].fate == Retried
  {
    assert Balanced(s, id);
    i := CountWitness(s.tokens, LiveToken(id));
    forall j | 0 <= j < |s.tokens| && j != i && s.b.stream[j].id == id ensures s.tokens[j].fate == Retried
    {
      if s.tokens[j].fate != Retried {
        CountTwo(s.tokens, if i < j then i else j, if i < j then j else i, LiveToken(id));
      }
    }
  }

  lemma LettersOfLive(s: System, id: string, i: nat)
    requires Inv(s) && Publishes(s, id) == 1 && i < |s.tokens| && s.tokens[i].id == id && s.tokens[i].fate != Retried
    requires forall j :: 0 <= j < |s.tokens| && j != i && s.b.stream[j].id == id ==> s.tokens[j].fate == Retried
    ensures Count(s.b.dlq, LetterOf(id)) == if s.tokens[i].fate == Dead then 1 else 0
  {
    assert Balanced(s, id);
    CountMono(s.tokens, DeadToken(id), LiveToken(id));
    if s.tokens[i].fate == Dead {
      CountOne(s.tokens, i, DeadToken(id));
    } else {
      CountNone(s.tokens, DeadToken(id));
    }
  }

  /** A task published once is, in every reachable state, in exactly one place: one
      entry is undelivered, in flight, completed, acknowledged as cancelled or dead, all
      its other entries were retried, and which of the five it is can be read off the
      queue: cursor, pending list, recorded result and dead letters. */
  lemma Conservation(env: Env, acts: seq<Action>, id: string) returns (i: nat)
    requires Run(env, Init(), acts).Some? && Publishes(Run(env, Init(), acts).value, id) == 1
    ensures var s := Run(env, Init(), acts).value;
            && i < |s.tokens| == |s.b.stream| && s.b.stream[i].id == id
            && (forall fate :: InPlace(s.b, i, fate) <==> fate == s.tokens[i].fate)
            && (forall j :: 0 <= j < |s.tokens| && j != i && s.b.stream[j].id == id ==> s.tokens[j].fate == Retried)
  {
    var s := Run(env, Init(), acts).value;
    ReachableInv(env, acts);
    ReachableOutcomes(env, acts);
    i := LiveEntry(s, id);
    LettersOfLive(s, id, i);
    assert Record(s.b, id).outcome.Some? <==> s.tokens[i].fate == Completed by {
      if k :| 0 <= k < |s.tokens| && s.tokens[k] == Token(id, Completed) {
        assert s.b.stream[k].id == id;
      }
      assert s.tokens[i].id == id;
    }
  }

  /** No two workers ever hold the same task, if it was published once. */
  lemma {:induction false} OneHolder(env: Env, acts: seq<Action>, v: string, w: string)
    requires Run(env, Init(), acts).Some?
    requires var s := Run(env, Init(), acts).value;
             v in s.workers && w in s.workers && s.workers[v].task.id == s.workers[w].task.id &&
             Publishes(s, s.workers[v].task.id) == 1
    ensures v == w
  {
    var s := Run(env, Init(), acts).value;
    ReachableInv(env, acts);
    assert Holding(s, v) && Holding(s, w);
    var id, i, j := s.workers[v].task.id, s.workers[v].msg, s.workers[w].msg;
    assert Balanced(s, id);
    if v != w {
      CountTwo(s.tokens, if i < j then i else j, if i < j then j else i, LiveToken(id));
    }
  }

  /** Payload, incident and attempt numbers survive every claim, retry and dead letter. */
  lemma {:induction false} NothingIsAltered(env: Env, acts: seq<Action>, j: nat)
    requires Run(env, Init(), acts).Some?
    requires var s := Run(env, Init(), acts).value; j < |s.log| && Publishes(s, s.log[j].id) == 1
    ensures var s := Run(env, Init(), acts).value; Intact(s, s.log[j])
  {
    ReachableInv(env, acts);
  }
}
