/** TaskQueue over Redis: every method reads and writes string dictionaries, and
    refines the operation of the same name on broker values. */
module TaskQueue {
  import opened Collections
  import opened Text
  import opened TaskMessages
  import B = Broker
  import D = Deadlines

  datatype TaskState = TaskState(
    id: string, state: TaskStatus, createdAt: string, updatedAt: string, claimedBy: string, claimedAt: string,
    outcome: Json, failure: string)

  // ---------- How values are written ----------

  /** A message that already carries its trace id and deadline. */
  function Wire(env: Env, m: TaskMessage): Dict
  {
    ToDict(env, m, 0)
  }

  ghost predicate IsStamped(m: TaskMessage)
  {
    m.trace != "" && m.deadline != ""
  }

  function WireLetter(env: Env, l: B.DeadLetter): Dict
  {
    Wire(env, l.task)[originalMsgId := Decimal(l.msg)][error := l.why][dlqAt := env.isoformat(l.at)]
  }

  function WireClaim(env: Env, c: B.Claim): Dict
  {
    map[claimed_by := c.holder, claimed_at := env.isoformat(c.at), msg_id := Decimal(c.msg)]
  }

  lemma StampedWire(env: Env, m: TaskMessage, now: int)
    requires Faithful(env)
    ensures IsStamped(Stamped(env, m, now)) && Wire(env, Stamped(env, m, now)) == ToDict(env, m, now)
  {
    MessageRoundTripExactly(env, Stamped(env, m, now), now);
    assert ("TRACE-" + m.id)[0] == 'T';
  }

  lemma WireRoundTrip(env: Env, m: TaskMessage)
    requires Faithful(env) && IsStamped(m)
    ensures FromDict(env, Wire(env, m)) == Some(m)
  {
    MessageRoundTrip(env, m, 0);
  }

  /** Writing these fields into a record, absent or present, gives the record r. */
  ghost predicate Updates(env: Env, was: TaskRecord, present: bool, fields: Dict, r: TaskRecord)
  {
    forall k :: Cell(env, r, k) == if k in fields then Some(fields[k]) else if present then Cell(env, was, k) else None
  }

  function PublishedFields(env: Env, m: TaskMessage, now: int): Dict
  {
    map[task_id := m.id, status := StatusName(QUEUED), created_at := env.isoformat(now),
        updated_at := env.isoformat(now),
        incident_id := m.incident, payload := env.dumps(m.body)]
  }

  function TakenFields(env: Env, consumer: string, now: int): Dict
  {
    map[status := StatusName(CLAIMED), claimed_by := consumer, claimed_at := env.isoformat(now),
        updated_at := env.isoformat(now)]
  }

  function StatusFields(env: Env, s: TaskStatus, now: int): Dict
  {
    map[status := StatusName(s), updated_at := env.isoformat(now)]
  }

  lemma PublishedUpdates(env: Env, was: TaskRecord, present: bool, m: TaskMessage, now: int)
    requires present || was == NewRecord()
    ensures Updates(env, was, present, PublishedFields(env, m, now), B.Published(was, m, now))
  {}

  lemma TakenUpdates(env: Env, was: TaskRecord, present: bool, consumer: string, now: int)
    requires present || was == NewRecord()
    ensures Updates(env, was, present, TakenFields(env, consumer, now), B.Taken(was, consumer, now))
  {}

  lemma StatusUpdates(env: Env, was: TaskRecord, s: TaskStatus, now: int)
    ensures Updates(env, was, true, StatusFields(env, s, now), was.(state := s, updated := now))
  {}

  lemma OutcomeUpdates(env: Env, was: TaskRecord, present: bool, outcome: Json, now: int)
    requires present || was == NewRecord()
    ensures Updates(env, was, present, StatusFields(env, COMPLETED, now)[result := env.dumps(outcome)],
                    was.(state := COMPLETED, updated := now, outcome := Some(outcome)))
  {}

  lemma FailureUpdates(env: Env, was: TaskRecord, present: bool, why: string, now: int)
    requires present || was == NewRecord()
    ensures Updates(env, was, present, StatusFields(env, FAILED, now)[error := why],
                    was.(state := FAILED, updated := now, failure := Some(why)))
  {}

  lemma RetryUpdates(env: Env, was: TaskRecord, present: bool, why: string, retries: int, now: int)
    requires present || was == NewRecord()
    ensures Updates(env, was, present, StatusFields(env, RETRYING, now)[error := why][retry_count := Decimal(retries)],
                    was.(state := RETRYING, updated := now, failure := Some(why), retries := Some(retries)))
  {}

  lemma StoredNumbers(env: Env, was: TaskRecord)
    requires Faithful(env)
    ensures var d := Encode(env, was);
            && ReadDecimal(Get(d, retry_count, "0")) == Some(RetriesOf(was))
            && ReadDecimal(Get(d, max_retries, "3")) == Some(3)
  {
    RecordNumbers(env, was);
    EncodedCell(env, was, retryCount, Get(Encode(env, was), retry_count, "0"));
    EncodedCell(env, was, maxRetries, Get(Encode(env, was), max_retries, "3"));
  }

  lemma StoredTask(env: Env, was: TaskRecord, id: string)
    requires Faithful(env)
    ensures var d := Encode(env, was);
            && env.loads(Get(d, payload, "{}")) == B.RetryMessage(was, id).body
            && Get(d, incident_id, "") == B.RetryMessage(was, id).incident
  {}

  lemma NothingStored(env: Env, id: string)
    requires Faithful(env)
    ensures FromDict(env, map[]) == Some(MessageOf(NewRecord()))
    ensures ReadDecimal("0") == Some(0) && ReadDecimal("3") == Some(3)
    ensures B.RetryMessage(NewRecord(), id).body == JObject(map[]) && B.RetryMessage(NewRecord(), id).incident == ""
  {
    DefaultsRead();
  }

  /** What fail reads from a task's dictionary, present or not. */
  lemma RecordRead(env: Env, state: Dict, was: TaskRecord, id: string)
    requires Faithful(env)
    requires state == Encode(env, was) || (state == map[] && was == NewRecord())
    ensures ReadDecimal(Get(state, retry_count, "0")) == Some(RetriesOf(was))
    ensures ReadDecimal(Get(state, max_retries, "3")) == Some(3)
    ensures env.loads(Get(state, payload, "{}")) == B.RetryMessage(was, id).body
    ensures Get(state, incident_id, "") == B.RetryMessage(was, id).incident
    ensures FromDict(env, state) == Some(MessageOf(was))
  {
    if state == Encode(env, was) {
      StoredNumbers(env, was);
      StoredTask(env, was, id);
      RecordToMessage(env, was);
    } else {
      NothingStored(env, id);
    }
  }

  function TextOf(text: Option<string>, default: string): string
  {
    match text case Some(v) => v case None => default
  }

  /** What get_state tells of a record: every field, with the defaults of missing ones. */
  function StateOf(env: Env, r: TaskRecord, id: string): TaskState
  {
    TaskState(TextOf(r.id, id), r.state, TextOf(Time(env, r.created), ""), env.isoformat(r.updated),
              TextOf(r.claimedBy, ""), TextOf(Time(env, r.claimedAt), ""),
              match r.outcome case Some(v) => v case None => JObject(map[]), TextOf(r.failure, ""))
  }

  lemma StoredStatus(env: Env, r: TaskRecord)
    ensures ReadStatus(Get(Encode(env, r), status, "QUEUED")) == Some(r.state)
  {
    EncodedCell(env, r, status, "QUEUED");
    StatusRoundTrip(r.state);
  }

  lemma StoredOutcome(env: Env, r: TaskRecord)
    requires Faithful(env)
    ensures var d := Encode(env, r);
            if r.outcome.Some? then result in d && d[result] != "" && env.loads(d[result]) == r.outcome.value
            else result !in d
  {
    EncodedCell(env, r, result, "");
  }

  lemma StoredState(env: Env, r: TaskRecord, id: string)
    requires Faithful(env)
    ensures var d, s := Encode(env, r), StateOf(env, r, id);
            && Get(d, task_id, id) == s.id && ReadStatus(Get(d, status, "QUEUED")) == Some(s.state)
            && (if Get(d, result, "") != "" then result in d && env.loads(d[result]) == s.outcome
                else s.outcome == JObject(map[]))
            && Get(d, error, "") == s.failure
  {
    StoredStatus(env, r);
    StoredOutcome(env, r);
    EncodedCell(env, r, task_id, id);
    EncodedCell(env, r, error, "");
  }

  lemma StoredTimes(env: Env, r: TaskRecord, id: string)
    ensures var d, s := Encode(env, r), StateOf(env, r, id);
            && Get(d, created_at, "") == s.createdAt && Get(d, updated_at, "") == s.updatedAt
            && Get(d, claimed_by, "") == s.claimedBy && Get(d, claimed_at, "") == s.claimedAt
  {
    EncodedCell(env, r, created_at, "");
    EncodedCell(env, r, updated_at, "");
    EncodedCell(env, r, claimed_by, "");
    EncodedCell(env, r, claimed_at, "");
  }

  // ---------- What the dictionaries hold ----------

  ghost predicate StreamWritten(env: Env, stream: seq<Dict>, ms: seq<TaskMessage>)
  {
    |stream| == |ms| && forall i {:trigger stream[i]} :: 0 <= i < |stream| ==>
      IsStamped(ms[i]) && stream[i] == Wire(env, ms[i])
  }

  ghost predicate DlqWritten(env: Env, dlq: seq<Dict>, letters: seq<B.DeadLetter>)
  {
    |dlq| == |letters| && forall i {:trigger dlq[i]} :: 0 <= i < |dlq| ==> dlq[i] == WireLetter(env, letters[i])
  }

  ghost predicate StatesWritten(env: Env, states: map<string, Dict>, records: map<string, TaskRecord>)
  {
    states.Keys == records.Keys && forall id {:trigger states[id]} :: id in states ==>
      states[id] == Encode(env, records[id])
  }

  ghost predicate ClaimsWritten(env: Env, claims: map<string, Dict>, held: map<string, B.Claim>)
  {
    claims.Keys == held.Keys && forall id {:trigger claims[id]} :: id in claims ==>
      claims[id] == WireClaim(env, held[id])
  }

  lemma StreamAppended(env: Env, stream: seq<Dict>, ms: seq<TaskMessage>, fields: Dict, m: TaskMessage)
    requires StreamWritten(env, stream, ms) && IsStamped(m) && fields == Wire(env, m)
    ensures StreamWritten(env, stream + [fields], ms + [m])
  {
    var after := stream + [fields];
    forall i | 0 <= i < |after| ensures IsStamped((ms + [m])[i]) && after[i] == Wire(env, (ms + [m])[i])
    {
      if i < |stream| {
        assert stream[i] == Wire(env, ms[i]);
      }
    }
  }

  lemma DlqAppended(env: Env, dlq: seq<Dict>, letters: seq<B.DeadLetter>, l: B.DeadLetter)
    requires DlqWritten(env, dlq, letters)
    ensures DlqWritten(env, dlq + [WireLetter(env, l)], letters + [l])
  {
    var after := dlq + [WireLetter(env, l)];
    forall i | 0 <= i < |after| ensures after[i] == WireLetter(env, (letters + [l])[i])
    {
      if i < |dlq| {
        assert dlq[i] == WireLetter(env, letters[i]);
      }
    }
  }

  lemma StateWritten(env: Env, states: map<string, Dict>, records: map<string, TaskRecord>, id: string, r: TaskRecord)
    requires StatesWritten(env, states, records)
    ensures StatesWritten(env, states[id := Encode(env, r)], records[id := r])
  {
    forall k | k in states && k != id ensures states[k] == Encode(env, records[k]) {}
  }

  lemma ClaimWritten(env: Env, claims: map<string, Dict>, held: map<string, B.Claim>, id: string, c: B.Claim)
    requires ClaimsWritten(env, claims, held)
    ensures ClaimsWritten(env, claims[id := WireClaim(env, c)], held[id := c])
  {
    forall k | k in claims && k != id ensures claims[k] == WireClaim(env, held[k]) {}
  }

  lemma ClaimDropped(env: Env, claims: map<string, Dict>, held: map<string, B.Claim>, id: string)
    requires ClaimsWritten(env, claims, held)
    ensures ClaimsWritten(env, claims - {id}, held - {id})
  {
    forall k | k in claims && k != id ensures claims[k] == WireClaim(env, held[k]) {}
  }

  /** The fields that HSET leaves in a record's dictionary. */
  lemma FieldsMerged(env: Env, before: Dict, present: bool, was: TaskRecord, fields: Dict, r: TaskRecord)
    requires Updates(env, was, present, fields, r) && before == if present then Encode(env, was) else map[]
    ensures before + fields == Encode(env, r)
  {
    var after := before + fields;
    assert forall k :: k in before <==> present && Cell(env, was, k).Some?;
    assert forall k :: k in after <==> Cell(env, r, k).Some?;
  }

  /** c is what handling the entries from lo up to hi leads to. */
  ghost predicate Handled(env: Env, b: B.Broker, consumer: string, lo: nat, hi: nat, now: int, c: B.Claimed)
    requires lo <= hi <= |b.stream|
  {
    c == B.HandleAll(env, b, consumer, lo, hi, now)
  }

  class TaskQueue {
    const env: Env
    var stream: seq<Dict>
    var cursor: nat
    var pending: set<nat>
    var dlq: seq<Dict>
    var states: map<string, Dict>
    var claims: map<string, Dict>
    /** The broker value these dictionaries stand for. */
    ghost var view: B.Broker

    ghost predicate Valid()
      reads this
    {
      && Faithful(env)
      && cursor == view.cursor <= |stream| && pending == view.pending
      && StreamWritten(env, stream, view.stream) && DlqWritten(env, dlq, view.dlq)
      && StatesWritten(env, states, view.records) && ClaimsWritten(env, claims, view.claims)
    }

    constructor (env: Env)
      requires Faithful(env)
      ensures Valid() && view == B.Empty() && this.env == env
    {
      this.env := env;
      stream, cursor, pending, dlq, states, claims := [], 0, {}, [], map[], map[];
      view := B.Empty();
    }

    /** HSET on a task record: the given fields replace or extend it. */
    method SetState(id: string, fields: Dict, ghost was: TaskRecord, ghost r: TaskRecord)
      requires Valid() && was == B.Record(view, id)
      requires Updates(env, was, id in states, fields, r)
      modifies this`states, this`view
      ensures Valid() && view == old(view).(records := old(view.records)[id := r])
    {
      var before: Dict := if id in states then states[id] else map[];
      assert id in states ==> states[id] == Encode(env, view.records[id]);
      FieldsMerged(env, before, id in states, was, fields, r);
      StateWritten(env, states, view.records, id, r);
      states := states[id := before + fields];
      view := view.(records := view.records[id := r]);
    }

    method AppendEntry(fields: Dict, ghost m: TaskMessage)
      requires Valid() && IsStamped(m) && fields == Wire(env, m)
      modifies this`stream, this`view
      ensures Valid() && view == old(view).(stream := old(view.stream) + [m])
    {
      StreamAppended(env, stream, view.stream, fields, m);
      stream := stream + [fields];
      view := view.(stream := view.stream + [m]);
    }

    method SetClaim(id: string, fields: Dict, ghost c: B.Claim)
      requires Valid() && fields == WireClaim(env, c)
      modifies this`claims, this`view
      ensures Valid() && view == old(view).(claims := old(view.claims)[id := c])
    {
      ClaimWritten(env, claims, view.claims, id, c);
      claims := claims[id := fields];
      view := view.(claims := view.claims[id := c]);
    }

    method DropClaim(id: string)
      requires Valid()
      modifies this`claims, this`view
      ensures Valid() && view == old(view).(claims := old(view.claims) - {id})
    {
      ClaimDropped(env, claims, view.claims, id);
      claims := claims - {id};
      view := view.(claims := view.claims - {id});
    }

    method SendToDlq(msg: nat, task: TaskMessage, why: string, now: int)
      requires Valid()
      modifies this`dlq, this`view
      ensures Valid() && view == B.SendToDlq(env, old(view), msg, task, why, now)
    {
      var data := ToDict(env, task, now);
      StampedWire(env, task, now);
      data := data[originalMsgId := Decimal(msg)];
      data := data[error := why];
      data := data[dlqAt := env.isoformat(now)];
      DlqAppended(env, dlq, view.dlq, B.DeadLetter(Stamped(env, task, now), msg, why, now));
      dlq := dlq + [data];
      view := B.SendToDlq(env, view, msg, task, why, now);
    }

    method Publish(m: TaskMessage, now: int) returns (msg: nat)
      requires Valid()
      modifies this`stream, this`states, this`view
      ensures Valid() && view == B.Publish(env, old(view), m, now) && msg == |old(stream)|
    {
      ghost var was := B.Record(view, m.id);
      PublishedUpdates(env, was, m.id in states, m, now);
      SetState(m.id, PublishedFields(env, m, now), was, B.Published(was, m, now));
      msg := |stream|;
      AppendTask(m, now);
    }

    method Ack(msg: nat)
      requires Valid()
      modifies this`pending, this`view
      ensures Valid() && view == B.Ack(old(view), msg)
    {
      pending := pending - {msg};
      view := B.Ack(view, msg);
    }

    /** Records that a consumer took a delivered entry. */
    method Take(consumer: string, msg: nat, task: TaskMessage, now: int)
      requires Valid()
      modifies this`claims, this`states, this`view
      ensures Valid() && view == B.Take(old(view), consumer, msg, task, now)
    {
      ghost var was := B.Record(view, task.id);
      SetClaim(task.id, map[claimed_by := consumer, claimed_at := env.isoformat(now), msg_id := Decimal(msg)],
               B.Claim(consumer, now, msg));
      TakenUpdates(env, was, task.id in states, consumer, now);
      SetState(task.id, TakenFields(env, consumer, now), was, B.Taken(was, consumer, now));
    }

    method Deliver(count: nat) returns (first: nat, k: nat)
      requires Valid()
      modifies this`cursor, this`pending, this`view
      ensures Valid() && view == B.Deliver(old(view), count)
      ensures first == old(view).cursor && k == B.ReadSize(old(view), count) && cursor == first + k
    {
      first := cursor;
      k := if cursor + count <= |stream| then count else |stream| - cursor;
      cursor := cursor + k;
      pending := pending + B.Range(first, first + k);
      view := B.Deliver(view, count);
    }

    /** Reads one entry of the stream. */
    method ReadEntry(msg: nat) returns (task: TaskMessage)
      requires Valid() && msg < |stream|
      ensures task == view.stream[msg]
    {
      assert stream[msg] == Wire(env, view.stream[msg]);
      WireRoundTrip(env, view.stream[msg]);
      task := FromDict(env, stream[msg]).value;
    }

    method CheckDeadline(task: TaskMessage, now: int) returns (d: B.Deadline)
      ensures d == B.CheckDeadline(env, task.deadline, now)
    {
      d := B.InTime;
      if task.deadline != "" {
        match env.fromIso(task.deadline) {
          case Malformed =>
          case Naive => d := B.Raises;
          case Aware(at) =>
            if now > at {
              d := B.Expired;
            }
        }
      }
    }

    /** The check and hand-over of one delivered entry. */
    method HandleOne(consumer: string, msg: nat, now: int, so: seq<(nat, TaskMessage)>)
      returns (claimed: seq<(nat, TaskMessage)>, raised: bool)
      requires Valid() && msg < |stream|
      modifies this`pending, this`dlq, this`claims, this`states, this`view
      ensures Valid()
      ensures B.Claimed(view, claimed, raised) == B.Handle(env, B.Claimed(old(view), so, false), consumer, msg, now)
      ensures var m := old(view).stream[msg];
              && (raised <==> D.IsZoneless(env, m))
              && claimed == (if D.IsClaimable(env, m, now) then so + [(msg, m)] else so)
              && (D.IsLate(env, m, now) ==> msg !in view.pending)
              && view.dlq == old(view).dlq + (if D.IsLate(env, m, now) then
                               [B.DeadLetter(Stamped(env, m, now), msg, "deadline exceeded", now)] else [])
    {
      var task := ReadEntry(msg);
      var d := CheckDeadline(task, now);
      claimed, raised := so, d == B.Raises;
      match d {
        case Raises =>
        case Expired =>
          SendToDlq(msg, task, "deadline exceeded", now);
          Ack(msg);
        case InTime =>
          Take(consumer, msg, task, now);
          claimed := claimed + [(msg, task)];
      }
    }

    /** Handles one more delivered entry. */
    method HandleAnother(consumer: string, first: nat, msg: nat, now: int, so: seq<(nat, TaskMessage)>,
                         ghost b: B.Broker)
      returns (claimed: seq<(nat, TaskMessage)>, raised: bool)
      requires Valid() && first <= msg < |stream| && |b.stream| == |stream|
      requires Handled(env, b, consumer, first, msg, now, B.Claimed(view, so, false))
      modifies this`pending, this`dlq, this`claims, this`states, this`view
      ensures Valid() && Handled(env, b, consumer, first, msg + 1, now, B.Claimed(view, claimed, raised))
    {
      HandleNext(env, b, consumer, first, msg, now, B.Claimed(view, so, false));
      claimed, raised := HandleOne(consumer, msg, now, so);
    }

    /** Handles delivered entries in order, until one raises. */
    method HandleEntries(consumer: string, first: nat, next: nat, now: int)
        returns (claimed: seq<(nat, TaskMessage)>, raised: bool)
      requires Valid() && first <= next <= |stream|
      modifies this`pending, this`dlq, this`claims, this`states, this`view
      ensures Valid() && Handled(env, old(view), consumer, first, next, now, B.Claimed(view, claimed, raised))
    {
      claimed, raised := [], false;
      ghost var b := view;
      var msg := first;
      while msg < next && !raised
        invariant Valid() && first <= msg <= next && |stream| == |b.stream|
        invariant Handled(env, b, consumer, first, msg, now, B.Claimed(view, claimed, raised))
      {
        claimed, raised := HandleAnother(consumer, first, msg, now, claimed, b);
        msg := msg + 1;
      }
      HandleEnds(env, b, consumer, first, msg, next, now, B.Claimed(view, claimed, raised));
    }

    /** Delivers up to count entries and hands out those still in time. When raised,
        the entries after the offending one stay delivered and nobody handles them. */
    method ClaimTasks(consumer: string, count: nat, now: int) returns (claimed: seq<(nat, TaskMessage)>, raised: bool)
      requires Valid()
      modifies this`cursor, this`pending, this`dlq, this`claims, this`states, this`view
      ensures Valid()
      ensures B.Claimed(view, claimed, raised) == B.ClaimTasks(env, old(view), consumer, count, now)
      ensures D.Deals(env, old(view), consumer, count, now, B.Claimed(view, claimed, raised))
    {
      D.ClaimsByDeadline(env, view, consumer, count, now);
      var first, k := Deliver(count);
      claimed, raised := HandleEntries(consumer, first, first + k, now);
    }

    method Complete(id: string, outcome: Json, now: int)
      requires Valid()
      modifies this`states, this`claims, this`view
      ensures Valid() && view == B.Complete(old(view), id, outcome, now)
    {
      ghost var was := B.Record(view, id);
      OutcomeUpdates(env, was, id in states, outcome, now);
      SetState(id, StatusFields(env, COMPLETED, now)[result := env.dumps(outcome)],
               was, was.(state := COMPLETED, updated := now, outcome := Some(outcome)));
      DropClaim(id);
    }

    method MarkRetrying(id: string, why: string, retries: int, now: int)
      requires Valid()
      modifies this`states, this`view
      ensures Valid()
      ensures view == old(view).(records := old(view).records[id := B.Record(old(view), id).(
                state := RETRYING, updated := now, failure := Some(why), retries := Some(retries))])
    {
      ghost var was := B.Record(view, id);
      RetryUpdates(env, was, id in states, why, retries, now);
      SetState(id, StatusFields(env, RETRYING, now)[error := why][retry_count := Decimal(retries)],
               was, was.(state := RETRYING, updated := now, failure := Some(why), retries := Some(retries)));
    }

    /** The message that fail builds from a task's dictionary. */
    method ReadRetry(id: string, state: Dict, retries: int, ghost was: TaskRecord) returns (task: TaskMessage)
      requires Faithful(env) && (state == Encode(env, was) || (state == map[] && was == NewRecord())) &&
               retries == RetriesOf(was) + 1
      ensures task == B.RetryMessage(was, id)
    {
      RecordRead(env, state, was, id);
      var body := env.loads(Get(state, payload, "{}"));
      task := TaskMessage(id, Get(state, incident_id, ""), body, 1, "", "", retries, 3);
    }

    /** Writes a task to the stream. */
    method AppendTask(task: TaskMessage, now: int)
      requires Valid()
      modifies this`stream, this`view
      ensures Valid() && view == old(view).(stream := old(view.stream) + [Stamped(env, task, now)])
    {
      StampedWire(env, task, now);
      AppendEntry(ToDict(env, task, now), Stamped(env, task, now));
    }

    /** The retry branch of fail. */
    method Requeue(id: string, why: string, state: Dict, retries: int, now: int)
      requires Valid() && state == if id in states then states[id] else map[]
      requires retries == RetriesOf(B.Record(view, id)) < B.MAX_RETRIES
      modifies this`states, this`stream, this`claims, this`view
      ensures Valid() && forall msg :: view == B.Fail(env, old(view), id, why, msg, now)
    {
      ghost var was := B.Record(view, id);
      MarkRetrying(id, why, retries + 1, now);
      var task := ReadRetry(id, state, retries + 1, was);
      AppendTask(task, now);
      DropClaim(id);
    }

    /** The dead-letter branch of fail. */
    method GiveUp(id: string, why: string, state: Dict, msg: Option<nat>, now: int)
      requires Valid() && state == if id in states then states[id] else map[]
      requires RetriesOf(B.Record(view, id)) >= B.MAX_RETRIES
      modifies this`states, this`dlq, this`claims, this`view
      ensures Valid() && view == B.Fail(env, old(view), id, why, msg, now)
    {
      ghost var was := B.Record(view, id);
      RecordRead(env, state, was, id);
      FailureUpdates(env, was, id in states, why, now);
      SetState(id, StatusFields(env, FAILED, now)[error := why], was,
               was.(state := FAILED, updated := now, failure := Some(why)));
      match msg {
        case None =>
        case Some(m) => SendToDlq(m, FromDict(env, state).value, why, now);
      }
      DropClaim(id);
    }

    method Fail(id: string, why: string, msg: Option<nat>, now: int)
      requires Valid()
      modifies this`states, this`stream, this`dlq, this`claims, this`view
      ensures Valid() && view == B.Fail(env, old(view), id, why, msg, now)
    {
      var state: Dict := if id in states then states[id] else map[];
      RecordRead(env, state, B.Record(view, id), id);
      var retries := ReadDecimal(Get(state, retry_count, "0")).value;
      var limit := ReadDecimal(Get(state, max_retries, "3")).value;
      if retries < limit {
        Requeue(id, why, state, retries, now);
      } else {
        GiveUp(id, why, state, msg, now);
      }
    }

    method Cancel(id: string, now: int) returns (known: bool)
      requires Valid()
      modifies this`states, this`claims, this`view
      ensures Valid() && view == B.Cancel(old(view), id, now) && known == (id in old(view).records)
    {
      if id !in states {
        return false;
      }
      ghost var was := B.Record(view, id);
      StatusUpdates(env, was, CANCELLED, now);
      SetState(id, StatusFields(env, CANCELLED, now), was, was.(state := CANCELLED, updated := now));
      DropClaim(id);
      return true;
    }

    method GetState(id: string) returns (s: Option<TaskState>)
      requires Valid()
      ensures s == if id in view.records then Some(StateOf(env, view.records[id], id)) else None
    {
      if id !in states {
        return None;
      }
      var data := states[id];
      assert states[id] == Encode(env, view.records[id]);
      StoredState(env, view.records[id], id);
      StoredTimes(env, view.records[id], id);
      s := Some(TaskState(
        Get(data, task_id, id), ReadStatus(Get(data, status, "QUEUED")).value, Get(data, created_at, ""),
        Get(data, updated_at, ""),
        Get(data, claimed_by, ""), Get(data, claimed_at, ""),
        if Get(data, result, "") != "" then env.loads(data[result]) else JObject(map[]), Get(data, error, "")));
    }

    method IsCancelled(id: string) returns (cancelled: bool)
      requires Valid()
      ensures cancelled == B.IsCancelled(view, id)
    {
      var s := GetState(id);
      cancelled := s.Some? && s.value.state == CANCELLED;
    }
  }

  lemma HandleNext(env: Env, b: B.Broker, consumer: string, lo: nat, msg: nat, now: int, c: B.Claimed)
    requires lo <= msg < |b.stream| && !c.raised && Handled(env, b, consumer, lo, msg, now, c)
    ensures B.HandleAll(env, b, consumer, lo, msg + 1, now) == B.Handle(env, c, consumer, msg, now)
  {}

  lemma HandleEnds(env: Env, b: B.Broker, consumer: string, lo: nat, mid: nat, hi: nat, now: int, c: B.Claimed)
    requires lo <= mid <= hi <= |b.stream| && Handled(env, b, consumer, lo, mid, now, c) && (mid == hi || c.raised)
    ensures Handled(env, b, consumer, lo, hi, now, c)
  {
    if c.raised {
      HandleStops(env, b, consumer, lo, mid, hi, now);
    }
  }

  /** Once an exception is raised, handling the remaining entries changes nothing. */
  lemma {:induction false} HandleStops(env: Env, b: B.Broker, consumer: string, lo: nat, mid: nat, hi: nat, now: int)
    requires lo <= mid <= hi <= |b.stream| && B.HandleAll(env, b, consumer, lo, mid, now).raised
    ensures B.HandleAll(env, b, consumer, lo, hi, now) == B.HandleAll(env, b, consumer, lo, mid, now)
    decreases hi
  {
    if mid < hi {
      HandleStops(env, b, consumer, lo, mid, hi - 1, now);
    }
  }
}
