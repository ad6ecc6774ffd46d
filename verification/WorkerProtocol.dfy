/** Any number of workers against one Redis queue. Each queue operation is one atomic
    step; the steps of workers, publishers and cancellers interleave freely, and a
    worker may crash between any two steps
    (python/app/worker/diagnosis_worker.py, python/app/infrastructure/task_queue.py). */
module WorkerProtocol {
  import opened Collections
  import opened TaskMessages
  import opened Broker

  /** Where a worker stands in processing the entry it holds. */
  datatype Phase = Checking | SeenCancelled | Vetted | Prepared | Running | Finished

  datatype Hold = Hold(msg: nat, task: TaskMessage, phase: Phase)

  /** What became of a stream entry. */
  datatype Fate = Undelivered | InFlight | Retried | Completed | CancelAcked | Dead

  datatype Token = Token(id: string, fate: Fate)

  /** The broker, what each worker holds, and two history variables: the fate of
      every stream entry and the log of published messages. */
  datatype System = System(b: Broker, workers: map<string, Hold>, tokens: seq<Token>, log: seq<TaskMessage>)

  datatype Action =
    | Publishing(m: TaskMessage, now: int)
    | Cancelling(id: string, now: int)
    | Claiming(w: string, now: int)
    | CheckingCancelled(w: string)
    | AckingCancelled(w: string)
    | CheckingDeadline(w: string, now: int)
    | Starting(w: string, now: int)
    | Failing(w: string, why: string, now: int)
    | Completing(w: string, outcome: Json, now: int)
    | AckingFinished(w: string)
    | Crashing(w: string)

  function Init(): System
  {
    System(Empty(), map[], [], [])
  }

  predicate Enabled(s: System, a: Action)
  {
    match a
    case Publishing(_, _) => true
    case Cancelling(_, _) => true
    case Claiming(w, _) => w !in s.workers
    case CheckingCancelled(w) => w in s.workers && s.workers[w].phase == Checking
    case AckingCancelled(w) => w in s.workers && s.workers[w].phase == SeenCancelled
    case CheckingDeadline(w, _) => w in s.workers && s.workers[w].phase == Vetted
    case Starting(w, _) => w in s.workers && s.workers[w].phase == Prepared
    case Failing(w, _, _) => w in s.workers && s.workers[w].phase != Finished
    case Completing(w, _, _) => w in s.workers && s.workers[w].phase == Running
    case AckingFinished(w) => w in s.workers && s.workers[w].phase == Finished
    case Crashing(w) => w in s.workers
  }

  // ---------- Steps ----------

  function Marked(tokens: seq<Token>, msg: nat, fate: Fate): seq<Token>
  {
    if msg < |tokens| then tokens[msg := tokens[msg].(fate := fate)] else tokens
  }

  function ClaimStep(env: Env, s: System, w: string, now: int): System
    requires s.b.cursor <= |s.b.stream|
  {
    var c := ClaimTasks(env, s.b, w, 1, now);
    var fate := if c.taken == [] && !c.raised then Dead else InFlight;
    s.(b := c.b,
       workers := if c.taken == [] then s.workers else s.workers[w := Hold(c.taken[0].0, c.taken[0].1, Checking)],
       tokens := Marked(s.tokens, s.b.cursor, fate))
  }

  function FailStep(env: Env, s: System, w: string, why: string, now: int): System
    requires w in s.workers
  {
    var h := s.workers[w];
    var b := Fail(env, s.b, h.task.id, why, Some(h.msg), now);
    var retried := RetriesOf(Record(s.b, h.task.id)) < MAX_RETRIES;
    s.(b := b,
       workers := s.workers - {w},
       tokens := if retried then Marked(s.tokens, h.msg, Retried) + [Token(h.task.id, Undelivered)]
         else Marked(s.tokens, h.msg, Dead))
  }

  /** The worker's own deadline check; text it cannot read or compare counts as a failure. */
  predicate WorkerInTime(env: Env, deadline: string, now: int)
  {
    deadline == "" || (env.fromIso(deadline).Aware? && now <= env.fromIso(deadline).at)
  }

  /** Why a task that is not in time fails: a text that is no comparable time raises. */
  function LateReason(env: Env, deadline: string): string
  {
    if env.fromIso(deadline).Aware? then "Deadline exceeded" else env.timeError(deadline)
  }

  function Phased(s: System, w: string, phase: Phase): System
    requires w in s.workers
  {
    s.(workers := s.workers[w := s.workers[w].(phase := phase)])
  }

  function Step(env: Env, s: System, a: Action): System
    requires s.b.cursor <= |s.b.stream| && Enabled(s, a)
  {
    match a
    case Publishing(m, now) =>
      s.(b := Publish(env, s.b, m, now), tokens := s.tokens + [Token(m.id, Undelivered)], log := s.log + [m])
    case Cancelling(id, now) => s.(b := Cancel(s.b, id, now))
    case Claiming(w, now) => ClaimStep(env, s, w, now)
    case CheckingCancelled(w) => Phased(s, w, if IsCancelled(s.b, s.workers[w].task.id) then SeenCancelled else Vetted)
    case AckingCancelled(w) =>
      s.(b := Ack(s.b, s.workers[w].msg), workers := s.workers - {w},
         tokens := Marked(s.tokens, s.workers[w].msg, CancelAcked))
    case CheckingDeadline(w, now) =>
      var deadline := s.workers[w].task.deadline;
      if WorkerInTime(env, deadline, now) then Phased(s, w, Prepared)
      else FailStep(env, s, w, LateReason(env, deadline), now)
    case Starting(w, now) =>
      if IsCancelled(s.b, s.workers[w].task.id) then FailStep(env, s, w, "Task cancelled", now)
      else Phased(s, w, Running)
    case Failing(w, why, now) => FailStep(env, s, w, why, now)
    case Completing(w, outcome, now) =>
      Phased(s, w, Finished).(b := Complete(s.b, s.workers[w].task.id, outcome, now),
                              tokens := Marked(s.tokens, s.workers[w].msg, Completed))
    case AckingFinished(w) => s.(b := Ack(s.b, s.workers[w].msg), workers := s.workers - {w})
    case Crashing(w) => s.(workers := s.workers - {w})
  }

  /** The steps with which a worker fails its task, and why it does. */
  predicate Fails(env: Env, s: System, a: Action)
    requires Enabled(s, a)
  {
    match a
    case CheckingDeadline(w, now) => !WorkerInTime(env, s.workers[w].task.deadline, now)
    case Starting(w, _) => IsCancelled(s.b, s.workers[w].task.id)
    case Failing(_, _, _) => true
    case _ => false
  }

  function Reason(env: Env, s: System, a: Action): string
    requires Enabled(s, a) && Fails(env, s, a)
  {
    match a
    case CheckingDeadline(w, _) => LateReason(env, s.workers[w].task.deadline)
    case Starting(_, _) => "Task cancelled"
    case Failing(_, why, _) => why
  }

  // ---------- Counts ----------

  function OfTask(id: string): TaskMessage -> bool
  {
    (m: TaskMessage) => m.id == id
  }

  function LiveToken(id: string): Token -> bool
  {
    (t: Token) => t.id == id && t.fate != Retried
  }

  function DeadToken(id: string): Token -> bool
  {
    (t: Token) => t.id == id && t.fate == Dead
  }

  function LetterOf(id: string): DeadLetter -> bool
  {
    (l: DeadLetter) => l.task.id == id
  }

  function Publishes(s: System, id: string): nat
  {
    Count(s.log, OfTask(id))
  }

  function Entries(s: System, id: string): nat
  {
    Count(s.b.stream, OfTask(id))
  }

  function Retries(s: System, id: string): int
  {
    RetriesOf(Record(s.b, id))
  }

  // ---------- Invariants ----------

  ghost predicate Shape(s: System)
  {
    && s.b.cursor <= |s.b.stream| == |s.tokens|
    && (forall i :: 0 <= i < |s.tokens| ==> s.tokens[i].id == s.b.stream[i].id)
    && (forall i :: 0 <= i < |s.tokens| ==> (s.tokens[i].fate == Undelivered <==> s.b.cursor <= i))
  }

  /** Pending entries were delivered; acknowledged and expired ones are not pending. */
  ghost predicate PendingMatches(s: System)
    requires Shape(s)
  {
    && (forall i :: i in s.b.pending ==> i < s.b.cursor)
    && (forall i :: 0 <= i < s.b.cursor && (s.tokens[i].fate == InFlight || s.tokens[i].fate == Retried) ==>
        i in s.b.pending)
    && (forall i :: 0 <= i < s.b.cursor && s.tokens[i].fate == CancelAcked ==> i !in s.b.pending)
  }

  ghost predicate Holding(s: System, w: string)
    requires Shape(s) && w in s.workers
  {
    var h := s.workers[w];
    && h.msg < s.b.cursor && h.task == s.b.stream[h.msg] && h.msg in s.b.pending
    && s.tokens[h.msg].fate == if h.phase == Finished then Completed else InFlight
  }

  ghost predicate WorkersMatch(s: System)
    requires Shape(s)
  {
    && (forall w | w in s.workers :: Holding(s, w))
    && (forall v, w | v in s.workers && w in s.workers && v != w :: s.workers[v].msg != s.workers[w].msg)
  }

  /** The books of one task: as many live tokens as publishes, as many entries as
      publishes and retries, as many dead letters as dead tokens. */
  ghost predicate Balanced(s: System, id: string)
  {
    && Count(s.tokens, LiveToken(id)) == Publishes(s, id)
    && Entries(s, id) == Publishes(s, id) + Retries(s, id)
    && 0 <= Retries(s, id) <= MAX_RETRIES
    && Count(s.b.dlq, LetterOf(id)) == Count(s.tokens, DeadToken(id))
    && (Publishes(s, id) > 0 <==> id in s.b.records)
    && (id in s.b.records ==> s.b.records[id].id == Some(id))
  }

  ghost predicate Books(s: System)
  {
    forall id :: Balanced(s, id)
  }

  /** Everything the queue holds about a task published once is as published. */
  ghost predicate Intact(s: System, m: TaskMessage)
  {
    && m.id in s.b.records
    && s.b.records[m.id].body == Some(m.body) && s.b.records[m.id].incident == Some(m.incident)
    && (forall i :: 0 <= i < |s.b.stream| && s.b.stream[i].id == m.id ==>
          s.b.stream[i].body == m.body && s.b.stream[i].incident == m.incident)
    && (m.retries == 0 ==> forall i :: 0 <= i < |s.b.stream| && s.b.stream[i].id == m.id ==>
          s.b.stream[i].retries == Count(s.b.stream[..i], OfTask(m.id)))
    && (forall i :: 0 <= i < |s.b.dlq| && s.b.dlq[i].task.id == m.id ==>
          s.b.dlq[i].task.body == m.body && s.b.dlq[i].task.incident == m.incident)
  }

  ghost predicate Integrity(s: System)
  {
    forall j :: 0 <= j < |s.log| && Publishes(s, s.log[j].id) == 1 ==> Intact(s, s.log[j])
  }

  ghost predicate Inv(s: System)
  {
    Shape(s) && PendingMatches(s) && WorkersMatch(s) && Books(s) && Integrity(s)
  }

  // ---------- Runs ----------

  /** The state after a run, or None if some step was not enabled. */
  function Run(env: Env, s: System, acts: seq<Action>): Option<System>
  {
    if acts == [] then Some(s)
    else match Run(env, s, acts[..|acts| - 1])
      case None => None
      case Some(t) =>
        if t.b.cursor <= |t.b.stream| && Enabled(t, acts[|acts| - 1]) then Some(Step(env, t, acts[|acts| - 1]))
        else None
  }
}
