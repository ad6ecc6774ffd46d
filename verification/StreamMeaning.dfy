/** What a client can rely on: the names and fields of the events it reads, and which events
    end a stream (python/app/infrastructure/sse_manager.py). */
module StreamMeaning {
  import opened Collections
  import opened TaskMessages
  import opened SseFrames
  import opened SseManager
  import opened SseStreams

  /** The name under which the client sees an event. */
  predicate IsNamed(t: EventType, name: string)
  {
    match name
    case "investigation_started" => t == INVESTIGATION_STARTED
    case "tool_calling" => t == TOOL_CALLING
    case "tool_completed" => t == TOOL_COMPLETED
    case "evidence_received" => t == EVIDENCE_RECEIVED
    case "hypothesis_formed" => t == HYPOTHESIS_FORMED
    case "hypothesis_verified" => t == HYPOTHESIS_VERIFIED
    case "diagnosis_complete" => t == DIAGNOSIS_COMPLETE
    case "diagnosis_inconclusive" => t == DIAGNOSIS_INCONCLUSIVE
    case "task_cancelled" => t == TASK_CANCELLED
    case "error" => t == ERROR
    case "progress" => t == PROGRESS
    case _ => false
  }

  /** What the client reads of an event: its name, and a JSON object with four fields. */
  lemma ClientReads(dumps: Dumps, loads: string -> Json, e: DiagnosisEvent)
    requires forall j: Json :: loads(dumps(j)) == j
    ensures var m := Received(dumps, e); var read := loads(m.data);
            && IsNamed(e.eventType, m.eventType)
            && read.JObject? && read.fields.Keys == {"eventType", "taskId", "data", "timestamp"}
            && read.fields["eventType"] == JString(m.eventType) && read.fields["taskId"] == JString(e.taskId)
            && read.fields["data"] == e.data && read.fields["timestamp"] == JString(e.timestamp)
  {
    NameGiven(e.eventType);
    assert loads(dumps(Payload(e))) == Payload(e);
  }

  lemma NameGiven(t: EventType)
    ensures IsNamed(t, Name(t))
  {
    match t
    case INVESTIGATION_STARTED => assert IsNamed(t, "investigation_started");
    case TOOL_CALLING => assert IsNamed(t, "tool_calling");
    case TOOL_COMPLETED => assert IsNamed(t, "tool_completed");
    case EVIDENCE_RECEIVED => assert IsNamed(t, "evidence_received");
    case HYPOTHESIS_FORMED => assert IsNamed(t, "hypothesis_formed");
    case HYPOTHESIS_VERIFIED => assert IsNamed(t, "hypothesis_verified");
    case DIAGNOSIS_COMPLETE => assert IsNamed(t, "diagnosis_complete");
    case DIAGNOSIS_INCONCLUSIVE => assert IsNamed(t, "diagnosis_inconclusive");
    case TASK_CANCELLED => assert IsNamed(t, "task_cancelled");
    case ERROR => assert IsNamed(t, "error");
    case PROGRESS => assert IsNamed(t, "progress");
  }

  /** A stream that reads an event and goes on ends there exactly when the diagnosis is
      complete, inconclusive, cancelled or broken; otherwise it waits for the next event. */
  lemma EndsExactly<Q>(h: Hub<Q>, q: Q, s: Stream)
    requires q in h.buffers && s.phase == Waiting && h.buffers[q] != []
    ensures var (g, t) := ReadOne(h, q, s); var kind := h.buffers[q][0].eventType;
            && (t.phase == Ended <==>
                kind == DIAGNOSIS_COMPLETE || kind == DIAGNOSIS_INCONCLUSIVE || kind == TASK_CANCELLED || kind == ERROR)
            && (t.phase != Ended ==> t.phase == Waiting)
            && t.out == s.out + [Frame(h.buffers[q][0])]
  {}
}
