/** Task messages and task records, and the string dictionaries that carry them
    through Redis (python/app/infrastructure/task_queue.py). */
module TaskMessages {
  import opened Collections
  import opened Text

  /** A number is digits * 10^exponent, as its text shows it. */
  datatype Json =
    | JNull
    | JBool(b: bool)
    | JNumber(digits: int, exponent: int)
    | JString(s: string)
    | JArray(items: seq<Json>)
    | JObject(fields: map<string, Json>)

  /** What fromisoformat makes of a text: an error, a time without a zone, or an
      instant in seconds. */
  datatype ParsedTime = Malformed | Naive | Aware(at: int)

  /** The JSON and ISO 8601 codecs of the Python runtime, and the text of the error that
      reading or comparing a time raises. */
  datatype Env = Env(
    dumps: Json -> string,
    loads: string -> Json,
    isoformat: int -> string,
    fromIso: string -> ParsedTime,
    timeError: string -> string)

  ghost predicate Faithful(env: Env)
  {
    && (forall j: Json :: env.loads(env.dumps(j)) == j && env.dumps(j) != "")
    && env.loads("{}") == JObject(map[])
    && (forall t: int :: env.isoformat(t) != "" && env.fromIso(env.isoformat(t)) == Aware(t))
  }

  /** Field names, in both spellings the code uses. */
  datatype Key =
    | taskId | incidentId | schemaVersion | traceId | deadlineAt | payload | retryCount | maxRetries
    | originalMsgId | error | dlqAt
    | task_id | incident_id | trace_id | deadline_at | retry_count | max_retries
    | status | created_at | updated_at | claimed_by | claimed_at | result | msg_id

  type Dict = map<Key, string>

  function Get(d: Dict, k: Key, default: string): string
  {
    if k in d then d[k] else default
  }

  function Or(text: string, default: string): string
  {
    if text == "" then default else text
  }

  // ---------- Messages ----------

  datatype TaskMessage = TaskMessage(
    id: string, incident: string, body: Json, schema: int, trace: string, deadline: string, retries: int, limit: int)

  const DEADLINE_SECONDS := 300

  /** What to_dict fills in: a trace id, and a deadline five minutes away. */
  function Stamped(env: Env, m: TaskMessage, now: int): TaskMessage
  {
    m.(trace := Or(m.trace, "TRACE-" + m.id), deadline := Or(m.deadline, env.isoformat(now + DEADLINE_SECONDS)))
  }

  function ToDict(env: Env, m: TaskMessage, now: int): Dict
  {
    map[
      taskId := m.id,
      incidentId := m.incident,
      schemaVersion := Decimal(m.schema),
      traceId := Or(m.trace, "TRACE-" + m.id),
      deadlineAt := Or(m.deadline, env.isoformat(now + DEADLINE_SECONDS)),
      payload := env.dumps(m.body),
      retryCount := Decimal(m.retries),
      maxRetries := Decimal(m.limit)
    ]
  }

  /** None stands for the ValueError of int(). */
  function FromDict(env: Env, d: Dict): Option<TaskMessage>
  {
    var schema := ReadDecimal(Get(d, schemaVersion, "1"));
    var retries := ReadDecimal(Get(d, retryCount, Get(d, retry_count, "0")));
    var limit := ReadDecimal(Get(d, maxRetries, Get(d, max_retries, "3")));
    if schema == None || retries == None || limit == None then None
    else Some(TaskMessage(
      Get(d, taskId, Get(d, task_id, "")),
      Get(d, incidentId, Get(d, incident_id, "")),
      if payload in d then env.loads(d[payload]) else JObject(map[]),
      schema.value,
      Get(d, traceId, Get(d, trace_id, "")),
      Get(d, deadlineAt, Get(d, deadline_at, "")),
      retries.value,
      limit.value))
  }

  lemma WrittenNumbers(env: Env, m: TaskMessage, now: int)
    ensures var d := ToDict(env, m, now);
            && Get(d, schemaVersion, "1") == Decimal(m.schema)
            && Get(d, retryCount, Get(d, retry_count, "0")) == Decimal(m.retries)
            && Get(d, maxRetries, Get(d, max_retries, "3")) == Decimal(m.limit)
  {}

  /** Reading back a written message gives the message with a trace id and a deadline five
      minutes away, where it had none. */
  lemma MessageRoundTrip(env: Env, m: TaskMessage, now: int)
    requires Faithful(env)
    ensures FromDict(env, ToDict(env, m, now)) == Some(Stamped(env, m, now))
    ensures FromDict(env, ToDict(env, m, now)) == Some(m.(
              trace := if m.trace == "" then "TRACE-" + m.id else m.trace,
              deadline := if m.deadline == "" then env.isoformat(now + 300) else m.deadline))
  {
    WrittenNumbers(env, m, now);
    DecimalRead(m.schema);
    DecimalRead(m.retries);
    DecimalRead(m.limit);
  }

  /** So a message round-trips exactly when it carries a trace id and a deadline. */
  lemma MessageRoundTripExactly(env: Env, m: TaskMessage, now: int)
    requires Faithful(env)
    ensures FromDict(env, ToDict(env, m, now)) == Some(m) <==> m.trace != "" && m.deadline != ""
  {
    MessageRoundTrip(env, m, now);
    assert "TRACE-" + m.id != "" by {
      assert ("TRACE-" + m.id)[0] == 'T';
    }
  }

  // ---------- Records: the task state hash ----------

  datatype TaskStatus = QUEUED | CLAIMED | RUNNING | COMPLETED | FAILED | CANCELLED | RETRYING

  function StatusName(s: TaskStatus): string
  {
    match s
    case QUEUED => "QUEUED"
    case CLAIMED => "CLAIMED"
    case RUNNING => "RUNNING"
    case COMPLETED => "COMPLETED"
    case FAILED => "FAILED"
    case CANCELLED => "CANCELLED"
    case RETRYING => "RETRYING"
  }

  function ReadStatus(text: string): Option<TaskStatus>
  {
    if text == "QUEUED" then Some(QUEUED)
    else if text == "CLAIMED" then Some(CLAIMED)
    else if text == "RUNNING" then Some(RUNNING)
    else if text == "COMPLETED" then Some(COMPLETED)
    else if text == "FAILED" then Some(FAILED)
    else if text == "CANCELLED" then Some(CANCELLED)
    else if text == "RETRYING" then Some(RETRYING)
    else None
  }

  /** The text a status is stored as. */
  predicate IsStatus(text: string, s: TaskStatus)
  {
    match text
    case "QUEUED" => s == QUEUED
    case "CLAIMED" => s == CLAIMED
    case "RUNNING" => s == RUNNING
    case "COMPLETED" => s == COMPLETED
    case "FAILED" => s == FAILED
    case "CANCELLED" => s == CANCELLED
    case "RETRYING" => s == RETRYING
    case _ => false
  }

  lemma StatusText(s: TaskStatus)
    ensures IsStatus(StatusName(s), s)
  {
    match s
    case QUEUED => assert IsStatus("QUEUED", s);
    case CLAIMED => assert IsStatus("CLAIMED", s);
    case RUNNING => assert IsStatus("RUNNING", s);
    case COMPLETED => assert IsStatus("COMPLETED", s);
    case FAILED => assert IsStatus("FAILED", s);
    case CANCELLED => assert IsStatus("CANCELLED", s);
    case RETRYING => assert IsStatus("RETRYING", s);
  }

  lemma StatusRoundTrip(s: TaskStatus)
    ensures ReadStatus(StatusName(s)) == Some(s)
  {}

  /** A task's record. Fields that were never written are None. */
  datatype TaskRecord = TaskRecord(
    state: TaskStatus,
    updated: int,
    id: Option<string>,
    created: Option<int>,
    incident: Option<string>,
    body: Option<Json>,
    claimedBy: Option<string>,
    claimedAt: Option<int>,
    outcome: Option<Json>,
    failure: Option<string>,
    retries: Option<int>)

  function NewRecord(): TaskRecord
  {
    TaskRecord(QUEUED, 0, None, None, None, None, None, None, None, None, None)
  }

  function Time(env: Env, t: Option<int>): Option<string>
  {
    match t case None => None case Some(v) => Some(env.isoformat(v))
  }

  function Dumped(env: Env, j: Option<Json>): Option<string>
  {
    match j case None => None case Some(v) => Some(env.dumps(v))
  }

  function Number(n: Option<int>): Option<string>
  {
    match n case None => None case Some(v) => Some(Decimal(v))
  }

  /** The text a record holds under a field name. */
  function Cell(env: Env, r: TaskRecord, k: Key): Option<string>
  {
    match k
    case status => Some(StatusName(r.state))
    case updated_at => Some(env.isoformat(r.updated))
    case task_id => r.id
    case created_at => Time(env, r.created)
    case incident_id => r.incident
    case payload => Dumped(env, r.body)
    case claimed_by => r.claimedBy
    case claimed_at => Time(env, r.claimedAt)
    case result => Dumped(env, r.outcome)
    case error => r.failure
    case retry_count => Number(r.retries)
    case _ => None
  }

  function Encode(env: Env, r: TaskRecord): Dict
  {
    map k: Key | Cell(env, r, k).Some? :: Cell(env, r, k).value
  }

  function RetriesOf(r: TaskRecord): int
  {
    match r.retries case None => 0 case Some(n) => n
  }

  /** The message that from_dict makes of a record. */
  function MessageOf(r: TaskRecord): TaskMessage
  {
    TaskMessage(
      match r.id case None => "" case Some(v) => v,
      match r.incident case None => "" case Some(v) => v,
      match r.body case None => JObject(map[]) case Some(v) => v,
      1, "", "", RetriesOf(r), 3)
  }

  lemma EncodedCell(env: Env, r: TaskRecord, k: Key, default: string)
    ensures k in Encode(env, r) <==> Cell(env, r, k).Some?
    ensures Get(Encode(env, r), k, default) == if Cell(env, r, k).Some? then Cell(env, r, k).value else default
  {}

  lemma DefaultsRead()
    ensures ReadDecimal("0") == Some(0) && ReadDecimal("1") == Some(1) && ReadDecimal("3") == Some(3)
  {
    assert Decimal(0) == "0" && Decimal(1) == "1" && Decimal(3) == "3";
    DecimalRead(0);
    DecimalRead(1);
    DecimalRead(3);
  }

  lemma RecordedNumbers(env: Env, r: TaskRecord)
    ensures var d := Encode(env, r);
            && Get(d, schemaVersion, "1") == "1"
            && Get(d, retryCount, Get(d, retry_count, "0")) ==
               (if r.retries.Some? then Decimal(r.retries.value) else "0")
            && Get(d, maxRetries, Get(d, max_retries, "3")) == "3"
  {
    EncodedCell(env, r, schemaVersion, "1");
    EncodedCell(env, r, retry_count, "0");
    EncodedCell(env, r, retryCount, Get(Encode(env, r), retry_count, "0"));
    EncodedCell(env, r, max_retries, "3");
    EncodedCell(env, r, maxRetries, "3");
  }

  lemma RecordNumbers(env: Env, r: TaskRecord)
    ensures var d := Encode(env, r);
            && ReadDecimal(Get(d, schemaVersion, "1")) == Some(1)
            && ReadDecimal(Get(d, retryCount, Get(d, retry_count, "0"))) == Some(RetriesOf(r))
            && ReadDecimal(Get(d, maxRetries, Get(d, max_retries, "3"))) == Some(3)
  {
    RecordedNumbers(env, r);
    DefaultsRead();
    if r.retries.Some? {
      DecimalRead(r.retries.value);
    }
  }

  lemma RecordTexts(env: Env, r: TaskRecord)
    requires Faithful(env)
    ensures var d := Encode(env, r);
            && Get(d, taskId, Get(d, task_id, "")) == MessageOf(r).id
            && Get(d, incidentId, Get(d, incident_id, "")) == MessageOf(r).incident
            && (if payload in d then env.loads(d[payload]) else JObject(map[])) == MessageOf(r).body
            && Get(d, traceId, Get(d, trace_id, "")) == "" && Get(d, deadlineAt, Get(d, deadline_at, "")) == ""
  {}

  /** The record's own spellings of the fields lead back to its task. */
  lemma RecordToMessage(env: Env, r: TaskRecord)
    requires Faithful(env)
    ensures FromDict(env, Encode(env, r)) == Some(MessageOf(r))
  {
    RecordNumbers(env, r);
    RecordTexts(env, r);
  }
}
