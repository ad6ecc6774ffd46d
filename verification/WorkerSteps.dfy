/** Every step of the protocol keeps its invariant, and so does every run
    (python/app/worker/diagnosis_worker.py, python/app/infrastructure/task_queue.py). */
module WorkerSteps {
  import opened Collections
  import opened TaskMessages
  import opened Broker
  import opened WorkerProtocol

  // ---------- Steps keep the invariant ----------

  lemma {:induction false} CountsMarked(tokens: seq<Token>, msg: nat, fate: Fate, id: string)
    requires msg < |tokens|
    ensures var t, u := tokens[msg], tokens[msg].(fate := fate);
            && Count(Marked(tokens, msg, fate), LiveToken(id)) + (if LiveToken(id)(t) then 1 else 0)
               == Count(tokens, LiveToken(id)) + (if LiveToken(id)(u) then 1 else 0)
            && Count(Marked(tokens, msg, fate), DeadToken(id)) + (if DeadToken(id)(t) then 1 else 0)
               == Count(tokens, DeadToken(id)) + (if DeadToken(id)(u) then 1 else 0)
  {
    CountUpdate(tokens, msg, tokens[msg].(fate := fate), LiveToken(id));
    CountUpdate(tokens, msg, tokens[msg].(fate := fate), DeadToken(id));
  }

  /** A live token belongs to a published task. */
  lemma LiveIsPublished(s: System, msg: nat)
    requires Shape(s) && Books(s) && msg < |s.tokens| && s.tokens[msg].fate != Retried
    ensures s.tokens[msg].id in s.b.records && Publishes(s, s.tokens[msg].id) >= 1
  {
    CountOne(s.tokens, msg, LiveToken(s.tokens[msg].id));
    assert Balanced(s, s.tokens[msg].id);
  }

  lemma PublishKeepsBooks(env: Env, s: System, m: TaskMessage, now: int)
    requires Inv(s)
    ensures Books(Step(env, s, Publishing(m, now)))
  {
    var t := Step(env, s, Publishing(m, now));
    forall id ensures Balanced(t, id)
    {
      assert Balanced(s, id);
      CountAppend(s.tokens, Token(m.id, Undelivered), LiveToken(id));
      CountAppend(s.tokens, Token(m.id, Undelivered), DeadToken(id));
      CountAppend(s.log, m, OfTask(id));
      CountAppend(s.b.stream, Stamped(env, m, now), OfTask(id));
    }
  }

  lemma PublishKeepsIntegrity(env: Env, s: System, m: TaskMessage, now: int)
    requires Inv(s)
    ensures Integrity(Step(env, s, Publishing(m, now)))
  {
    var t := Step(env, s, Publishing(m, now));
    forall j | 0 <= j < |t.log| && Publishes(t, t.log[j].id) == 1 ensures Intact(t, t.log[j])
    {
      CountAppend(s.log, m, OfTask(t.log[j].id));
      if j < |s.log| {
        assert t.log[j] == s.log[j];
        CountOne(s.log, j, OfTask(s.log[j].id));
        assert s.log[j].id != m.id;
        assert Intact(s, s.log[j]);
        AppendKeepsAttempts(s.b.stream, Stamped(env, m, now), s.log[j]);
      } else {
        FirstEntry(s, m.id);
        assert t.b.stream[..|s.b.stream|] == s.b.stream;
      }
    }
  }

  lemma AppendKeepsAttempts(stream: seq<TaskMessage>, x: TaskMessage, m: TaskMessage)
    ensures forall i :: 0 <= i < |stream| ==> (stream + [x])[i] == stream[i] && (stream + [x])[..i] == stream[..i]
  {}

  /** Nothing in the queue mentions a task that was never published. */
  lemma FirstEntry(s: System, id: string)
    requires Inv(s) && Publishes(s, id) == 0
    ensures Entries(s, id) == 0
    ensures forall i :: 0 <= i < |s.b.stream| ==> s.b.stream[i].id != id
    ensures forall i :: 0 <= i < |s.b.dlq| ==> s.b.dlq[i].task.id != id
  {
    assert Balanced(s, id);
    forall i | 0 <= i < |s.b.stream| ensures s.b.stream[i].id != id
    {
      if s.b.stream[i].id == id {
        CountOne(s.b.stream, i, OfTask(id));
      }
    }
    CountMono(s.tokens, DeadToken(id), LiveToken(id));
    forall i | 0 <= i < |s.b.dlq| ensures s.b.dlq[i].task.id != id
    {
      if s.b.dlq[i].task.id == id {
        CountOne(s.b.dlq, i, LetterOf(id));
      }
    }
  }

  lemma PublishKeepsInv(env: Env, s: System, m: TaskMessage, now: int)
    requires Inv(s)
    ensures Inv(Step(env, s, Publishing(m, now)))
  {
    var t := Step(env, s, Publishing(m, now));
    assert Shape(t);
    assert PendingMatches(t);
    assert WorkersMatch(t) by {
      forall w | w in t.workers ensures Holding(t, w)
      {
        assert Holding(s, w);
      }
    }
    PublishKeepsBooks(env, s, m, now);
    PublishKeepsIntegrity(env, s, m, now);
  }

  /** Writing a status into the record of a known task disturbs nothing else. */
  lemma RecordWriteKeeps(s: System, t: System, id: string)
    requires Books(s) && Integrity(s) && id in s.b.records
    requires t.tokens == s.tokens && t.log == s.log && t.b.stream == s.b.stream && t.b.dlq == s.b.dlq
    requires t.b.records.Keys == s.b.records.Keys
    requires forall k | k in s.b.records :: k != id ==> t.b.records[k] == s.b.records[k]
    requires t.b.records[id].id == s.b.records[id].id && t.b.records[id].body == s.b.records[id].body
    requires t.b.records[id].incident == s.b.records[id].incident && t.b.records[id].retries == s.b.records[id].retries
    ensures Books(t) && Integrity(t)
  {
    forall k ensures Balanced(t, k)
    {
      assert Balanced(s, k);
    }
    forall j | 0 <= j < |t.log| && Publishes(t, t.log[j].id) == 1 ensures Intact(t, t.log[j])
    {
      assert Intact(s, s.log[j]);
    }
  }

  lemma CancelKeepsInv(env: Env, s: System, id: string, now: int)
    requires Inv(s)
    ensures Inv(Step(env, s, Cancelling(id, now)))
  {
    var t := Step(env, s, Cancelling(id, now));
    forall w | w in t.workers ensures Holding(t, w)
    {
      assert Holding(s, w);
    }
    if id in s.b.records {
      RecordWriteKeeps(s, t, id);
    }
  }

  /** Moving a token between two fates that are neither Retried nor Dead. */
  lemma MarkKeepsBooks(s: System, msg: nat, fate: Fate)
    requires Books(s) && msg < |s.tokens|
    requires s.tokens[msg].fate != Retried && s.tokens[msg].fate != Dead && fate != Retried && fate != Dead
    ensures Books(s.(tokens := Marked(s.tokens, msg, fate)))
  {
    forall id ensures Balanced(s.(tokens := Marked(s.tokens, msg, fate)), id)
    {
      assert Balanced(s, id);
      CountsMarked(s.tokens, msg, fate, id);
    }
  }

  // ---------- Claiming ----------

  lemma OneClaim(env: Env, b: Broker, w: string, now: int)
    requires b.cursor <= |b.stream|
    ensures ClaimTasks(env, b, w, 1, now) ==
            if b.cursor == |b.stream| then Claimed(b, [], false)
            else Handle(env, Claimed(Delivered(b), [], false), w, b.cursor, now)
  {
    if b.cursor == |b.stream| {
      assert Range(b.cursor, b.cursor) == {};
      assert Deliver(b, 1) == b;
    } else {
      assert Range(b.cursor, b.cursor + 1) == {b.cursor};
      var d := Delivered(b);
      assert Deliver(b, 1) == d;
      assert HandleAll(env, d, w, b.cursor, b.cursor, now) == Claimed(d, [], false);
      assert HandleAll(env, d, w, b.cursor, b.cursor + 1, now) == Handle(env, Claimed(d, [], false), w, b.cursor, now);
    }
  }

  /** One entry delivered. */
  function Delivered(b: Broker): Broker
  {
    b.(cursor := b.cursor + 1, pending := b.pending + {b.cursor})
  }

  /** The system after the next entry was delivered and before it is looked at. */
  function DeliveredTo(s: System, fate: Fate): System
  {
    s.(b := Delivered(s.b), tokens := Marked(s.tokens, s.b.cursor, fate))
  }

  lemma DeliveryKeeps(s: System)
    requires Inv(s) && s.b.cursor < |s.b.stream|
    ensures Inv(DeliveredTo(s, InFlight))
  {
    var t := DeliveredTo(s, InFlight);
    assert Shape(t);
    assert PendingMatches(t);
    forall w | w in t.workers ensures Holding(t, w)
    {
      assert Holding(s, w);
    }
    MarkKeepsBooks(s, s.b.cursor, InFlight);
    forall id ensures Balanced(t, id)
    {
      assert Balanced(s.(tokens := Marked(s.tokens, s.b.cursor, InFlight)), id);
    }
    forall j | 0 <= j < |t.log| && Publishes(t, t.log[j].id) == 1 ensures Intact(t, t.log[j])
    {
      assert Intact(s, s.log[j]);
    }
  }

  lemma TakeKeeps(s: System, w: string, now: int)
    requires Inv(s) && w !in s.workers && s.b.cursor < |s.b.stream|
    ensures var task, t := s.b.stream[s.b.cursor], DeliveredTo(s, InFlight);
            Inv(t.(b := Take(t.b, w, s.b.cursor, task, now),
                   workers := t.workers[w := Hold(s.b.cursor, task, Checking)]))
  {
    DeliveryKeeps(s);
    var task, d := s.b.stream[s.b.cursor], DeliveredTo(s, InFlight);
    var t := d.(b := Take(d.b, w, s.b.cursor, task, now), workers := d.workers[w := Hold(s.b.cursor, task, Checking)]);
    LiveIsPublished(d, s.b.cursor);
    RecordWriteKeeps(d, t, task.id);
    forall v | v in t.workers ensures Holding(t, v) && (v != w ==> t.workers[v].msg != s.b.cursor)
    {
      if v != w {
        assert Holding(s, v) && Holding(d, v);
      }
    }
  }

  /** The next entry is dead-lettered and acknowledged. */
  function ExpiredTo(env: Env, s: System, now: int): System
    requires s.b.cursor < |s.b.stream|
  {
    var d := DeliveredTo(s, Dead);
    d.(b := Ack(SendToDlq(env, d.b, s.b.cursor, s.b.stream[s.b.cursor], "deadline exceeded", now), s.b.cursor))
  }

  lemma ExpiryHead(env: Env, s: System, now: int)
    requires Inv(s) && s.b.cursor < |s.b.stream|
    ensures var t := ExpiredTo(env, s, now); Shape(t) && PendingMatches(t) && WorkersMatch(t)
  {
    var t := ExpiredTo(env, s, now);
    assert Shape(t);
    assert PendingMatches(t);
    forall w | w in t.workers ensures Holding(t, w)
    {
      assert Holding(s, w);
    }
  }

  lemma ExpiryBooks(env: Env, s: System, now: int, id: string)
    requires Inv(s) && s.b.cursor < |s.b.stream|
    ensures Balanced(ExpiredTo(env, s, now), id)
  {
    assert Balanced(s, id);
    CountsMarked(s.tokens, s.b.cursor, Dead, id);
    CountAppend(s.b.dlq, DeadLetter(Stamped(env, s.b.stream[s.b.cursor], now), s.b.cursor, "deadline exceeded", now),
                LetterOf(id));
  }

  lemma ExpiryKeeps(env: Env, s: System, now: int)
    requires Inv(s) && s.b.cursor < |s.b.stream|
    ensures Inv(ExpiredTo(env, s, now))
  {
    var t := ExpiredTo(env, s, now);
    ExpiryHead(env, s, now);
    forall id ensures Balanced(t, id)
    {
      ExpiryBooks(env, s, now, id);
    }
    forall j | 0 <= j < |t.log| && Publishes(t, t.log[j].id) == 1 ensures Intact(t, t.log[j])
    {
      assert Intact(s, s.log[j]);
    }
  }

  lemma ClaimKeepsInv(env: Env, s: System, w: string, now: int)
    requires Inv(s) && w !in s.workers
    ensures Inv(Step(env, s, Claiming(w, now)))
  {
    OneClaim(env, s.b, w, now);
    if s.b.cursor < |s.b.stream| {
      match CheckDeadline(env, s.b.stream[s.b.cursor].deadline, now)
      case Raises => DeliveryKeeps(s);
      case Expired => ExpiryKeeps(env, s, now);
      case InTime => TakeKeeps(s, w, now);
    }
  }

  // ---------- The steps of one worker ----------

  lemma PhaseKeepsInv(s: System, w: string, phase: Phase)
    requires Inv(s) && w in s.workers && s.workers[w].phase != Finished && phase != Finished
    ensures Inv(Phased(s, w, phase))
  {
    var t := Phased(s, w, phase);
    forall v | v in t.workers ensures Holding(t, v)
    {
      assert Holding(s, v);
    }
    SameBooks(s, t);
  }

  /** Steps that leave counts, records and letters alone. */
  lemma SameBooks(s: System, t: System)
    requires Books(s) && Integrity(s)
    requires t.tokens == s.tokens && t.log == s.log && t.b.stream == s.b.stream && t.b.dlq == s.b.dlq &&
             t.b.records == s.b.records
    ensures Books(t) && Integrity(t)
  {
    forall id ensures Balanced(t, id)
    {
      assert Balanced(s, id);
    }
    forall j | 0 <= j < |t.log| && Publishes(t, t.log[j].id) == 1 ensures Intact(t, t.log[j])
    {
      assert Intact(s, s.log[j]);
    }
  }

  lemma ReleaseKeeps(s: System, w: string)
    requires Inv(s) && w in s.workers
    ensures Inv(s.(workers := s.workers - {w}))
  {
    var t := s.(workers := s.workers - {w});
    forall v | v in t.workers ensures Holding(t, v)
    {
      assert Holding(s, v);
    }
    SameBooks(s, t);
  }

  lemma AckHead(env: Env, s: System, w: string, a: Action)
    requires Inv(s) && Enabled(s, a) && (a == AckingCancelled(w) || a == AckingFinished(w))
    ensures var t := Step(env, s, a); Shape(t) && PendingMatches(t) && WorkersMatch(t)
  {
    var t := Step(env, s, a);
    assert Holding(s, w);
    assert Shape(t);
    assert PendingMatches(t);
    forall v | v in t.workers ensures Holding(t, v)
    {
      assert Holding(s, v);
    }
  }

  lemma AckKeepsInv(env: Env, s: System, w: string, a: Action)
    requires Inv(s) && Enabled(s, a) && (a == AckingCancelled(w) || a == AckingFinished(w))
    ensures Inv(Step(env, s, a))
  {
    var t, h := Step(env, s, a), s.workers[w];
    AckHead(env, s, w, a);
    assert Holding(s, w);
    if a.AckingCancelled? {
      MarkKeepsBooks(s, h.msg, CancelAcked);
    }
    forall id ensures Balanced(t, id)
    {
      assert Balanced(if a.AckingCancelled? then s.(tokens := Marked(s.tokens, h.msg, CancelAcked)) else s, id);
    }
    forall j | 0 <= j < |t.log| && Publishes(t, t.log[j].id) == 1 ensures Intact(t, t.log[j])
    {
      assert Intact(s, s.log[j]);
    }
  }

  lemma CompleteHead(env: Env, s: System, w: string, outcome: Json, now: int)
    requires Inv(s) && Enabled(s, Completing(w, outcome, now))
    ensures var t := Step(env, s, Completing(w, outcome, now)); Shape(t) && PendingMatches(t) && WorkersMatch(t)
  {
    var t := Step(env, s, Completing(w, outcome, now));
    assert Holding(s, w);
    assert Shape(t);
    assert PendingMatches(t);
    forall v | v in t.workers ensures Holding(t, v)
    {
      assert Holding(s, v);
    }
  }

  lemma CompleteKeepsInv(env: Env, s: System, w: string, outcome: Json, now: int)
    requires Inv(s) && Enabled(s, Completing(w, outcome, now))
    ensures Inv(Step(env, s, Completing(w, outcome, now)))
  {
    var t, h := Step(env, s, Completing(w, outcome, now)), s.workers[w];
    CompleteHead(env, s, w, outcome, now);
    assert Holding(s, w);
    var m := s.(tokens := Marked(s.tokens, h.msg, Completed));
    MarkKeepsBooks(s, h.msg, Completed);
    assert Integrity(m) by {
      forall j | 0 <= j < |m.log| && Publishes(m, m.log[j].id) == 1 ensures Intact(m, m.log[j])
      {
        assert Intact(s, s.log[j]);
      }
    }
    LiveIsPublished(s, h.msg);
    RecordWriteKeeps(m, t, h.task.id);
  }

  // ---------- Failing ----------

  lemma FailHead(env: Env, s: System, w: string, why: string, now: int)
    requires Inv(s) && w in s.workers && s.workers[w].phase != Finished
    ensures var t := FailStep(env, s, w, why, now); Shape(t) && PendingMatches(t) && WorkersMatch(t)
  {
    var t, h := FailStep(env, s, w, why, now), s.workers[w];
    assert Holding(s, w);
    assert Shape(t);
    assert PendingMatches(t);
    forall v | v in t.workers ensures Holding(t, v)
    {
      assert Holding(s, v);
    }
  }

  lemma RetryBalanced(env: Env, s: System, w: string, why: string, now: int, id: string)
    requires Inv(s) && w in s.workers && s.workers[w].phase != Finished &&
             Retries(s, s.workers[w].task.id) < MAX_RETRIES
    ensures Balanced(FailStep(env, s, w, why, now), id)
  {
    var h := s.workers[w];
    assert Holding(s, w);
    LiveIsPublished(s, h.msg);
    assert Balanced(s, id);
    CountsMarked(s.tokens, h.msg, Retried, id);
    var marked, u := Marked(s.tokens, h.msg, Retried), Token(h.task.id, Undelivered);
    CountAppend(marked, u, LiveToken(id));
    CountAppend(marked, u, DeadToken(id));
    CountAppend(s.b.stream, Stamped(env, RetryMessage(Record(s.b, h.task.id), h.task.id), now), OfTask(id));
  }

  lemma DeathBalanced(env: Env, s: System, w: string, why: string, now: int, id: string)
    requires Inv(s) && w in s.workers && s.workers[w].phase != Finished &&
             Retries(s, s.workers[w].task.id) >= MAX_RETRIES
    ensures Balanced(FailStep(env, s, w, why, now), id)
  {
    var h := s.workers[w];
    assert Holding(s, w);
    LiveIsPublished(s, h.msg);
    assert Balanced(s, id) && Balanced(s, h.task.id);
    CountsMarked(s.tokens, h.msg, Dead, id);
    CountAppend(s.b.dlq, DeadLetter(Stamped(env, MessageOf(Record(s.b, h.task.id)), now), h.msg, why, now),
                LetterOf(id));
  }

  lemma FailKeepsBooks(env: Env, s: System, w: string, why: string, now: int)
    requires Inv(s) && w in s.workers && s.workers[w].phase != Finished
    ensures Books(FailStep(env, s, w, why, now))
  {
    forall id ensures Balanced(FailStep(env, s, w, why, now), id)
    {
      if Retries(s, s.workers[w].task.id) < MAX_RETRIES {
        RetryBalanced(env, s, w, why, now, id);
      } else {
        DeathBalanced(env, s, w, why, now, id);
      }
    }
  }

  lemma FailKeepsIntegrity(env: Env, s: System, w: string, why: string, now: int)
    requires Inv(s) && w in s.workers && s.workers[w].phase != Finished
    ensures Integrity(FailStep(env, s, w, why, now))
  {
    var t, h := FailStep(env, s, w, why, now), s.workers[w];
    assert Holding(s, w);
    LiveIsPublished(s, h.msg);
    var r := Record(s.b, h.task.id);
    assert Balanced(s, h.task.id);
    forall j | 0 <= j < |t.log| && Publishes(t, t.log[j].id) == 1 ensures Intact(t, t.log[j])
    {
      assert Intact(s, s.log[j]);
      if RetriesOf(r) < MAX_RETRIES {
        var x := Stamped(env, RetryMessage(r, h.task.id), now);
        AppendKeepsAttempts(s.b.stream, x, s.log[j]);
        assert t.b.stream == s.b.stream + [x];
        assert t.b.stream[..|s.b.stream|] == s.b.stream;
      }
    }
  }

  lemma FailKeepsInv(env: Env, s: System, w: string, why: string, now: int)
    requires Inv(s) && w in s.workers && s.workers[w].phase != Finished
    ensures Inv(FailStep(env, s, w, why, now))
  {
    FailHead(env, s, w, why, now);
    FailKeepsBooks(env, s, w, why, now);
    FailKeepsIntegrity(env, s, w, why, now);
  }

  lemma StepKeepsInv(env: Env, s: System, a: Action)
    requires Inv(s) && Enabled(s, a)
    ensures Inv(Step(env, s, a))
  {
    match a
    case Publishing(m, now) => PublishKeepsInv(env, s, m, now);
    case Cancelling(id, now) => CancelKeepsInv(env, s, id, now);
    case Claiming(w, now) => ClaimKeepsInv(env, s, w, now);
    case CheckingCancelled(w) => PhaseKeepsInv(s, w, if IsCancelled(s.b, s.workers[w].task.id) then SeenCancelled
                                               else Vetted);
    case AckingCancelled(w) => AckKeepsInv(env, s, w, a);
    case CheckingDeadline(w, now) =>
      if Fails(env, s, a) {
        FailKeepsInv(env, s, w, Reason(env, s, a), now);
      } else {
        PhaseKeepsInv(s, w, Prepared);
      }
    case Starting(w, now) =>
      if Fails(env, s, a) {
        FailKeepsInv(env, s, w, Reason(env, s, a), now);
      } else {
        PhaseKeepsInv(s, w, Running);
      }
    case Failing(w, why, now) => FailKeepsInv(env, s, w, why, now);
    case Completing(w, outcome, now) => CompleteKeepsInv(env, s, w, outcome, now);
    case AckingFinished(w) => AckKeepsInv(env, s, w, a);
    case Crashing(w) => ReleaseKeeps(s, w);
  }

  // ---------- Runs ----------

  lemma {:induction false} RunKeepsInv(env: Env, s: System, acts: seq<Action>)
    requires Inv(s) && Run(env, s, acts).Some?
    ensures Inv(Run(env, s, acts).value)
  {
    if acts != [] {
      var before := acts[..|acts| - 1];
      RunKeepsInv(env, s, before);
      StepKeepsInv(env, Run(env, s, before).value, acts[|acts| - 1]);
    }
  }

  lemma InitHolds()
    ensures Inv(Init())
  {}

  lemma {:induction false} ReachableInv(env: Env, acts: seq<Action>)
    requires Run(env, Init(), acts).Some?
    ensures Inv(Run(env, Init(), acts).value)
  {
    InitHolds();
    RunKeepsInv(env, Init(), acts);
  }

  /** Two live entries of one task need two publishes. */
  lemma OneLiveEntry(s: System, i: nat, j: nat, id: string)
    requires Inv(s) && i != j && i < |s.tokens| && j < |s.tokens| && Publishes(s, id) <= 1
    requires s.tokens[i].id == id && s.tokens[i].fate != Retried && s.tokens[j].fate != Retried
    ensures s.tokens[j].id != id
  {
    assert Balanced(s, id);
    if s.tokens[j].id == id {
      CountTwo(s.tokens, if i < j then i else j, if i < j then j else i, LiveToken(id));
    }
  }

  lemma PublishesGrow(env: Env, s: System, a: Action, id: string)
    requires s.b.cursor <= |s.b.stream| && Enabled(s, a)
    ensures Publishes(s, id) <= Publishes(Step(env, s, a), id)
    ensures a.Publishing? && a.m.id == id ==> Publishes(Step(env, s, a), id) == Publishes(s, id) + 1
  {
    if a.Publishing? {
      CountAppend(s.log, a.m, OfTask(id));
    }
  }
}
