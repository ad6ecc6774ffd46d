/** The Redis task queue as a value: what each queue operation does to the stream,
    the pending list, the dead-letter stream and the task records
    (python/app/infrastructure/task_queue.py). Message ids are stream positions. */
module Broker {
  import opened Collections
  import opened TaskMessages

  const MAX_RETRIES := 3

  datatype DeadLetter = DeadLetter(task: TaskMessage, msg: nat, why: string, at: int)

  datatype Claim = Claim(holder: string, at: int, msg: nat)

  datatype Broker = Broker(
    stream: seq<TaskMessage>,
    cursor: nat,
    pending: set<nat>,
    dlq: seq<DeadLetter>,
    records: map<string, TaskRecord>,
    claims: map<string, Claim>)

  function Empty(): Broker
  {
    Broker([], 0, {}, [], map[], map[])
  }

  function Record(b: Broker, id: string): TaskRecord
  {
    if id in b.records then b.records[id] else NewRecord()
  }

  // ---------- Publishing ----------

  function Published(r: TaskRecord, m: TaskMessage, now: int): TaskRecord
  {
    r.(state := QUEUED, updated := now, id := Some(m.id), created := Some(now), incident := Some(m.incident),
       body := Some(m.body))
  }

  function Publish(env: Env, b: Broker, m: TaskMessage, now: int): Broker
  {
    b.(records := b.records[m.id := Published(Record(b, m.id), m, now)], stream := b.stream + [Stamped(env, m, now)])
  }

  // ---------- Claiming ----------

  datatype Deadline = InTime | Expired | Raises

  /** The deadline check of claim: text that is no time at all is ignored, but a
      time without a zone cannot be compared. */
  function CheckDeadline(env: Env, text: string, now: int): Deadline
  {
    if text == "" then InTime
    else match env.fromIso(text)
      case Malformed => InTime
      case Naive => Raises
      case Aware(at) => if now > at then Expired else InTime
  }

  function SendToDlq(env: Env, b: Broker, msg: nat, task: TaskMessage, why: string, now: int): Broker
  {
    b.(dlq := b.dlq + [DeadLetter(Stamped(env, task, now), msg, why, now)])
  }

  function Ack(b: Broker, msg: nat): Broker
  {
    b.(pending := b.pending - {msg})
  }

  function Taken(r: TaskRecord, consumer: string, now: int): TaskRecord
  {
    r.(state := CLAIMED, updated := now, claimedBy := Some(consumer), claimedAt := Some(now))
  }

  function Take(b: Broker, consumer: string, msg: nat, task: TaskMessage, now: int): Broker
  {
    b.(claims := b.claims[task.id := Claim(consumer, now, msg)],
       records := b.records[task.id := Taken(Record(b, task.id), consumer, now)])
  }

  /** The number of entries one read delivers. */
  function ReadSize(b: Broker, count: nat): (k: nat)
    ensures b.cursor <= |b.stream| ==> b.cursor + k <= |b.stream|
  {
    if b.cursor + count <= |b.stream| then count
    else if b.cursor <= |b.stream| then |b.stream| - b.cursor else 0
  }

  function Range(lo: nat, hi: nat): (r: set<nat>)
    ensures forall i :: i in r <==> lo <= i < hi
    decreases hi
  {
    if lo >= hi then {} else Range(lo, hi - 1) + {hi - 1}
  }

  /** XREADGROUP: the next entries become pending. */
  function Deliver(b: Broker, count: nat): Broker
  {
    var k := ReadSize(b, count);
    b.(cursor := b.cursor + k, pending := b.pending + Range(b.cursor, b.cursor + k))
  }

  datatype Claimed = Claimed(b: Broker, taken: seq<(nat, TaskMessage)>, raised: bool)

  function Handle(env: Env, c: Claimed, consumer: string, msg: nat, now: int): Claimed
    requires msg < |c.b.stream|
  {
    var task := c.b.stream[msg];
    match CheckDeadline(env, task.deadline, now)
    case Raises => c.(raised := true)
    case Expired => c.(b := Ack(SendToDlq(env, c.b, msg, task, "deadline exceeded", now), msg))
    case InTime => c.(b := Take(c.b, consumer, msg, task, now), taken := c.taken + [(msg, task)])
  }

  /** Delivered entries are handled in order; an exception abandons the rest. */
  function HandleAll(env: Env, b: Broker, consumer: string, lo: nat, hi: nat, now: int): (c: Claimed)
    requires lo <= hi <= |b.stream|
    ensures c.b.stream == b.stream && c.b.cursor == b.cursor
    decreases hi
  {
    if lo == hi then Claimed(b, [], false)
    else
      var c := HandleAll(env, b, consumer, lo, hi - 1, now);
      if c.raised then c else Handle(env, c, consumer, hi - 1, now)
  }

  function ClaimTasks(env: Env, b: Broker, consumer: string, count: nat, now: int): Claimed
    requires b.cursor <= |b.stream|
  {
    HandleAll(env, Deliver(b, count), consumer, b.cursor, b.cursor + ReadSize(b, count), now)
  }

  // ---------- Completing, failing, cancelling ----------

  function Complete(b: Broker, id: string, outcome: Json, now: int): Broker
  {
    b.(records := b.records[id := Record(b, id).(state := COMPLETED, updated := now, outcome := Some(outcome))],
       claims := b.claims - {id})
  }

  function RetryMessage(r: TaskRecord, id: string): TaskMessage
  {
    TaskMessage(id, match r.incident case None => "" case Some(v) => v,
                match r.body case None => JObject(map[]) case Some(v) => v,
                1, "", "", RetriesOf(r) + 1, 3)
  }

  /** A failed task goes back to the stream while it has retries left. */
  function Fail(env: Env, b: Broker, id: string, why: string, msg: Option<nat>, now: int): Broker
  {
    var r := Record(b, id);
    if RetriesOf(r) < MAX_RETRIES then
      b.(records := b.records[id := r.(state := RETRYING, updated := now, failure := Some(why),
                                       retries := Some(RetriesOf(r) + 1))],
         stream := b.stream + [Stamped(env, RetryMessage(r, id), now)],
         claims := b.claims - {id})
    else
      var failed := b.(records := b.records[id := r.(state := FAILED, updated := now, failure := Some(why))],
                       claims := b.claims - {id});
      match msg
      case None => failed
      case Some(m) => SendToDlq(env, failed, m, MessageOf(r), why, now)
  }

  function Cancel(b: Broker, id: string, now: int): Broker
  {
    if id !in b.records then b
    else b.(records := b.records[id := b.records[id].(state := CANCELLED, updated := now)], claims := b.claims - {id})
  }

  predicate IsCancelled(b: Broker, id: string)
  {
    id in b.records && b.records[id].state == CANCELLED
  }
}
