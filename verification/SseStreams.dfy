/** Event streams at work: any number of them, interleaved with publishing at every await
    and yield (python/app/infrastructure/sse_manager.py). */
module SseStreams {
  import opened Collections
  import opened SseFrames
  import opened SseManager

  /** A stream waits for an event, holds at a yield (after a terminal event or not), or has
      run its finally block. */
  datatype Phase = Waiting | Yielded(last: bool) | Ended

  datatype Stream = Stream(task: string, phase: Phase, out: seq<Chunk>)

  predicate Terminal(e: DiagnosisEvent)
  {
    e.eventType in {DIAGNOSIS_COMPLETE, DIAGNOSIS_INCONCLUSIVE, TASK_CANCELLED, ERROR}
  }

  datatype Step = Get | Timeout | Resume | Close

  /** One step of the stream that reads queue q; a step that is not enabled does nothing. */
  function Advance<Q>(h: Hub<Q>, q: Q, s: Stream, step: Step): (Hub<Q>, Stream)
    requires q in h.buffers
  {
    match step
    case Get =>
      if s.phase == Waiting && h.buffers[q] != [] then
        var e := h.buffers[q][0];
        (h.(buffers := h.buffers[q := h.buffers[q][1..]]), s.(phase := Yielded(Terminal(e)), out := s.out + [Frame(e)]))
      else (h, s)
    case Timeout =>
      if s.phase == Waiting && h.buffers[q] == [] then (h, s.(phase := Yielded(false), out := s.out + [KeepAlive]))
      else (h, s)
    case Resume =>
      if s.phase == Yielded(true) then (Unsubscribe(h, s.task, q), s.(phase := Ended))
      else if s.phase == Yielded(false) then (h, s.(phase := Waiting))
      else (h, s)
    case Close =>
      if s.phase == Ended then (h, s) else (Unsubscribe(h, s.task, q), s.(phase := Ended))
  }

  // ---------- The stream object ----------

  class EventStream {
    const manager: Manager
    const task: string
    const queue: EventQueue
    var phase: Phase
    ghost var out: seq<Chunk>

    ghost function View(): Stream
      reads this
    {
      Stream(task, phase, out)
    }

    constructor (manager: Manager, task: string)
      requires manager.Valid()
      modifies manager
      ensures this.manager == manager && manager.Valid() && queue in manager.Repr
      ensures View() == Stream(task, Waiting, [])
      ensures fresh(queue) && manager.View() == Subscribe(old(manager.View()), task, queue)
    {
      var q := manager.SubscribeTo(task);
      this.manager, this.task, queue, phase, out := manager, task, q, Waiting, [];
    }

    /** Runs the generator to its next yield: past the previous one, then up to the next
        event, or to the timeout when none is there. No text means it has finished. */
    method Next(dumps: Dumps) returns (text: Option<string>)
      requires manager.Valid() && queue in manager.Repr && phase != Ended
      modifies this`phase, this`out, manager`queues, queue
      ensures manager.Valid()
      ensures var (h, s) := Advance(old(manager.View()), queue, old(View()), Resume);
              (manager.View(), View()) == Advance(h, queue, s, if old(queue.items) == [] then Timeout else Get)
      ensures text == if phase == Ended then None else Some(ChunkText(dumps, out[|out| - 1]))
    {
      if phase == Yielded(true) {
        manager.UnsubscribeFrom(task, queue);
        phase := Ended;
        return None;
      }
      ghost var h, s := manager.View(), View().(phase := Waiting);
      assert h == old(manager.View());
      assert Advance(old(manager.View()), queue, old(View()), Resume) == (h, s);
      if queue.items != [] {
        var e := queue.items[0];
        queue.items := queue.items[1..];
        assert manager.View().buffers == h.buffers[queue := h.buffers[queue][1..]];
        phase, out := Yielded(Terminal(e)), out + [Frame(e)];
        text := Some(ToSse(dumps, e));
        assert manager.View() == Advance(h, queue, s, Get).0;
        assert View() == Advance(h, queue, s, Get).1;
      } else {
        phase, out := Yielded(false), out + [KeepAlive];
        text := Some(ChunkText(dumps, KeepAlive));
        assert manager.View() == h;
      }
    }

    /** The client went away. */
    method Abandon()
      requires manager.Valid() && queue in manager.Repr
      modifies this`phase, manager`queues
      ensures manager.Valid() && (manager.View(), View()) == Advance(old(manager.View()), queue, old(View()), Close)
    {
      if phase != Ended {
        manager.UnsubscribeFrom(task, queue);
        phase := Ended;
      }
    }
  }

  // ---------- Runs ----------

  datatype System<Q(==)> = System(hub: Hub<Q>, streams: map<Q, Stream>)

  datatype Action<Q(==)> =
    | Start(q: Q, task: string)
    | Emit(event: DiagnosisEvent)
    | Move(q: Q, step: Step)

  function Apply<Q>(sys: System<Q>, a: Action<Q>): System<Q>
  {
    match a
    case Start(q, task) =>
      if q in sys.streams then sys
      else System(Subscribe(sys.hub, task, q), sys.streams[q := Stream(task, Waiting, [])])
    case Emit(e) => sys.(hub := Publish(sys.hub, e))
    case Move(q, step) =>
      if q in sys.streams && q in sys.hub.buffers then
        var (h, s) := Advance(sys.hub, q, sys.streams[q], step);
        System(h, sys.streams[q := s])
      else sys
  }

  function Run<Q>(actions: seq<Action<Q>>): System<Q>
  {
    if actions == [] then System(Hub(map[], map[]), map[])
    else Apply(Run(actions[..|actions| - 1]), actions[|actions| - 1])
  }

  /** The events published for the stream's task since the stream started. */
  function History<Q>(actions: seq<Action<Q>>, q: Q): seq<DiagnosisEvent>
  {
    if actions == [] then []
    else
      var n := |actions| - 1;
      var sys := Run(actions[..n]);
      History(actions[..n], q) +
      (if actions[n].Emit? && q in sys.streams && sys.streams[q].task == actions[n].event.taskId then [actions[n].event]
       else [])
  }

  // ---------- Registration ----------

  /** Exactly the streams that have not ended are registered, each once under its own
      task, and no task has an empty list. */
  ghost predicate Registered<Q>(h: Hub<Q>, streams: map<Q, Stream>)
  {
    && (forall task | task in h.lists :: h.lists[task] != [] && NoRepeats(h.lists[task]))
    && (forall task, q | task in h.lists && q in h.lists[task] ::
          q in streams && streams[q].task == task && streams[q].phase != Ended)
    && (forall q | q in streams :: streams[q].phase != Ended ==> q in ListOf(h, streams[q].task))
    && h.buffers.Keys == streams.Keys
  }

  lemma StartRegisters<Q>(sys: System<Q>, q: Q, task: string)
    requires Registered(sys.hub, sys.streams) && q !in sys.streams
    ensures var r := Apply(sys, Start(q, task)); Registered(r.hub, r.streams)
  {
    assert q !in ListOf(sys.hub, task);
  }

  lemma UnsubscribeEnds<Q>(h: Hub<Q>, streams: map<Q, Stream>, q: Q, ended: Stream)
    requires Registered(h, streams) && q in streams && streams[q].phase != Ended && ended == streams[q].(phase := Ended)
    ensures Registered(Unsubscribe(h, streams[q].task, q), streams[q := ended])
  {
    var task := streams[q].task;
    var g := Unsubscribe(h, task, q);
    var left := Without(h.lists[task], q);
    WithoutKeeps(h.lists[task], q);
    assert task in g.lists ==> g.lists[task] == left && left != [] && NoRepeats(left);
    assert forall other :: other in g.lists && other != task ==> g.lists[other] == h.lists[other];
    forall other, r | other in g.lists && r in g.lists[other]
      ensures r != q && r in streams && streams[r].task == other && streams[r].phase != Ended
    {
      assert r in h.lists[other];
    }
    forall r | r in streams && r != q && streams[r].phase != Ended ensures r in ListOf(g, streams[r].task)
    {
      assert r in ListOf(h, streams[r].task);
      assert streams[r].task == task ==> r in left;
    }
  }

  lemma {:induction false} MoveRegisters<Q>(sys: System<Q>, q: Q, step: Step)
    requires Registered(sys.hub, sys.streams)
    ensures var r := Apply(sys, Move(q, step)); Registered(r.hub, r.streams)
  {
    if q in sys.streams {
      var s := sys.streams[q];
      var (h, t) := Advance(sys.hub, q, s, step);
      if s.phase != Ended && t.phase == Ended {
        UnsubscribeEnds(sys.hub, sys.streams, q, t);
      } else {
        assert t.task == s.task && (t.phase == Ended <==> s.phase == Ended);
        assert h.lists == sys.hub.lists && h.buffers.Keys == sys.hub.buffers.Keys;
      }
    }
  }

  lemma {:induction false} RunRegisters<Q>(actions: seq<Action<Q>>)
    ensures Registered(Run(actions).hub, Run(actions).streams)
  {
    if actions != [] {
      var sys, a := Run(actions[..|actions| - 1]), actions[|actions| - 1];
      RunRegisters(actions[..|actions| - 1]);
      match a {
        case Start(q, task) =>
          if q !in sys.streams {
            StartRegisters(sys, q, task);
          }
        case Emit(e) =>
          assert Publish(sys.hub, e).buffers.Keys == sys.hub.buffers.Keys;
        case Move(q, step) =>
          MoveRegisters(sys, q, step);
      }
    }
  }

  /** In every reachable state a task has subscribers exactly when it has an open stream. */
  lemma {:induction false} SubscribersAreOpenStreams<Q>(actions: seq<Action<Q>>, task: string)
    ensures var sys := Run(actions);
            task in sys.hub.lists <==>
            exists q :: q in sys.streams && sys.streams[q].task == task && sys.streams[q].phase != Ended
  {
    var sys := Run(actions);
    RunRegisters(actions);
    if task in sys.hub.lists {
      var q := sys.hub.lists[task][0];
      assert q in sys.hub.lists[task];
      assert q in sys.streams && sys.streams[q].task == task && sys.streams[q].phase != Ended;
    }
    forall q | q in sys.streams && sys.streams[q].task == task && sys.streams[q].phase != Ended
      ensures task in sys.hub.lists
    {
      assert q in ListOf(sys.hub, task);
    }
  }

  // ---------- Delivery ----------

  ghost predicate NoneTerminal(events: seq<DiagnosisEvent>)
  {
    forall i :: 0 <= i < |events| ==> !Terminal(events[i])
  }

  ghost predicate OnlyLastTerminal(events: seq<DiagnosisEvent>)
  {
    forall i :: 0 <= i < |events| - 1 ==> !Terminal(events[i])
  }

  /** What a stream has yielded and what still waits for it, against what was published. */
  ghost predicate Tracks(s: Stream, waiting: seq<DiagnosisEvent>, past: seq<DiagnosisEvent>)
  {
    var sent := Sent(s.out);
    && (if s.phase == Ended then sent + waiting <= past else sent + waiting == past)
    && OnlyLastTerminal(sent)
    && (s.phase != Ended && s.phase != Yielded(true) ==> NoneTerminal(sent))
    && (s.phase == Yielded(true) ==> sent != [] && Terminal(sent[|sent| - 1]))
  }

  lemma {:induction false} SentAppend(out: seq<Chunk>, c: Chunk)
    ensures Sent(out + [c]) == Sent(out) + (if c.Frame? then [c.event] else [])
    decreases |out|
  {
    if out != [] {
      assert (out + [c])[1..] == out[1..] + [c];
      SentAppend(out[1..], c);
    } else {
      assert (out + [c])[1..] == [];
    }
  }

  lemma AdvanceTracks<Q>(h: Hub<Q>, q: Q, s: Stream, step: Step, past: seq<DiagnosisEvent>)
    requires q in h.buffers && Tracks(s, h.buffers[q], past)
    ensures var (g, t) := Advance(h, q, s, step); q in g.buffers && Tracks(t, g.buffers[q], past)
  {
    var (g, t) := Advance(h, q, s, step);
    if step == Get && s.phase == Waiting && h.buffers[q] != [] {
      var e := h.buffers[q][0];
      SentAppend(s.out, Frame(e));
      assert h.buffers[q] == [e] + h.buffers[q][1..];
      assert Sent(t.out) + g.buffers[q] == Sent(s.out) + h.buffers[q];
    } else if step == Timeout {
      SentAppend(s.out, KeepAlive);
    }
  }

  lemma PublishTracks<Q>(sys: System<Q>, e: DiagnosisEvent, q: Q, past: seq<DiagnosisEvent>)
    requires Registered(sys.hub, sys.streams) && q in sys.streams && Tracks(sys.streams[q], sys.hub.buffers[q], past)
    ensures Tracks(sys.streams[q], Publish(sys.hub, e).buffers[q],
                   past + (if sys.streams[q].task == e.taskId then [e] else []))
  {
    var s, waiting := sys.streams[q], sys.hub.buffers[q];
    if s.phase != Ended {
      if s.task == e.taskId {
        assert q in ListOf(sys.hub, e.taskId);
        assert Sent(s.out) + (waiting + [e]) == (Sent(s.out) + waiting) + [e];
      } else {
        assert q !in ListOf(sys.hub, e.taskId);
      }
    } else {
      assert q !in ListOf(sys.hub, e.taskId);
    }
  }

  /** In every reachable state, for every stream: what it yielded followed by what waits in
      its queue is what was published for its task since it subscribed (a prefix of that
      once it ended), and nothing was yielded after a terminal event. */
  lemma {:induction false} RunTracks<Q>(actions: seq<Action<Q>>, q: Q)
    ensures var sys := Run(actions);
            if q in sys.streams then q in sys.hub.buffers &&
              Tracks(sys.streams[q], sys.hub.buffers[q], History(actions, q))
            else History(actions, q) == []
  {
    if actions != [] {
      var n := |actions| - 1;
      var sys, a := Run(actions[..n]), actions[n];
      RunTracks(actions[..n], q);
      RunRegisters(actions[..n]);
      match a {
        case Start(_, _) =>
        case Emit(e) =>
          if q in sys.streams {
            PublishTracks(sys, e, q, History(actions[..n], q));
          }
        case Move(r, step) =>
          if r in sys.streams {
            if r == q {
              AdvanceTracks(sys.hub, q, sys.streams[q], step, History(actions[..n], q));
            } else {
              OthersKept(sys.hub, r, sys.streams[r], step, q);
            }
          }
      }
      assert !a.Emit? ==> History(actions, q) == History(actions[..n], q);
    }
  }

  lemma OthersKept<Q>(h: Hub<Q>, r: Q, s: Stream, step: Step, q: Q)
    requires r in h.buffers && r != q
    ensures var (g, _) := Advance(h, r, s, step);
            (q in g.buffers <==> q in h.buffers) && (q in h.buffers ==> g.buffers[q] == h.buffers[q])
  {}

  // ---------- Up to the first terminal event ----------

  function UpToTerminal(events: seq<DiagnosisEvent>): seq<DiagnosisEvent>
  {
    if events == [] then []
    else if Terminal(events[0]) then [events[0]]
    else [events[0]] + UpToTerminal(events[1..])
  }

  lemma {:induction false} UpToPrefix(sent: seq<DiagnosisEvent>, past: seq<DiagnosisEvent>)
    requires sent <= past && OnlyLastTerminal(sent)
    ensures sent <= UpToTerminal(past)
    ensures sent != [] && Terminal(sent[|sent| - 1]) ==> sent == UpToTerminal(past)
    ensures sent == past ==> sent == UpToTerminal(past)
    decreases |sent|
  {
    if sent != [] {
      assert past == sent + past[|sent|..];
      if |sent| == 1 {
        if sent == past {
          assert past[1..] == [];
        }
      } else {
        assert !Terminal(sent[0]);
        UpToPrefix(sent[1..], past[1..]);
        assert sent == [sent[0]] + sent[1..];
      }
    }
  }

  /** What a client of the stream dispatches: the events published for the task since it
      subscribed, in order, never beyond the first terminal one; all of them up to that
      one once the stream held at it, or as soon as nothing waits in an open stream. */
  lemma {:induction false} ClientSeesHistory<Q>(dumps: Dumps, actions: seq<Action<Q>>, q: Q)
    requires WritesOneLine(dumps) && q in Run(actions).streams
    ensures var sys := Run(actions); var s := sys.streams[q];
            var expected := UpToTerminal(History(actions, q));
            && Interpret(StreamText(dumps, s.out)) == AllReceived(dumps, Sent(s.out))
            && Sent(s.out) <= expected
            && (s.phase == Yielded(true) ==> Sent(s.out) == expected)
            && (s.phase != Ended && q in sys.hub.buffers && sys.hub.buffers[q] == [] ==> Sent(s.out) == expected)
  {
    var sys := Run(actions);
    var s := sys.streams[q];
    RunTracks(actions, q);
    StreamDecodes(dumps, s.out);
    var sent, waiting := Sent(s.out), sys.hub.buffers[q];
    assert sent == (sent + waiting)[..|sent|];
    UpToPrefix(sent, History(actions, q));
    if waiting == [] {
      assert sent + waiting == sent;
    }
  }

  /** Reads one event and runs on to the next await. */
  function ReadOne<Q>(h: Hub<Q>, q: Q, s: Stream): (Hub<Q>, Stream)
    requires q in h.buffers
  {
    var (g, t) := Advance(h, q, s, Get);
    Advance(g, q, t, Resume)
  }

  lemma ReadPlain<Q>(h: Hub<Q>, q: Q, s: Stream)
    requires q in h.buffers && s.phase == Waiting && h.buffers[q] != [] && !Terminal(h.buffers[q][0])
    ensures var (g, t) := ReadOne(h, q, s);
            g == h.(buffers := h.buffers[q := h.buffers[q][1..]]) && t.phase == Waiting && t.task == s.task &&
            Sent(t.out) == Sent(s.out) + [h.buffers[q][0]]
  {
    SentAppend(s.out, Frame(h.buffers[q][0]));
  }

  lemma ReadTerminal<Q>(h: Hub<Q>, q: Q, s: Stream)
    requires q in h.buffers && s.phase == Waiting && h.buffers[q] != [] && Terminal(h.buffers[q][0]) &&
             NoRepeats(ListOf(h, s.task))
    ensures var (g, t) := ReadOne(h, q, s);
            q in g.buffers && t.phase == Ended && Sent(t.out) == Sent(s.out) + [h.buffers[q][0]] &&
              q !in ListOf(g, s.task)
  {
    SentAppend(s.out, Frame(h.buffers[q][0]));
    if s.task in h.lists {
      WithoutKeeps(h.lists[s.task], q);
    }
  }

  /** Reads a queue until it is empty or the stream ends. */
  function Drain<Q>(h: Hub<Q>, q: Q, s: Stream): (Hub<Q>, Stream)
    requires q in h.buffers
    decreases |h.buffers[q]|
  {
    if s.phase != Waiting || h.buffers[q] == [] then (h, s)
    else
      var (g, t) := ReadOne(h, q, s);
      Drain(g, q, t)
  }

  lemma {:induction false} PlainFirst(sent: seq<DiagnosisEvent>, waiting: seq<DiagnosisEvent>)
    requires waiting != [] && !Terminal(waiting[0])
    ensures sent + UpToTerminal(waiting) == (sent + [waiting[0]]) + UpToTerminal(waiting[1..])
    ensures NoneTerminal(waiting) <==> NoneTerminal(waiting[1..])
  {
    assert waiting == [waiting[0]] + waiting[1..];
  }

  /** A client that keeps reading gets everything up to the first terminal event; with
      one, the stream ends and is unregistered, without one it waits with an empty queue. */
  lemma {:induction false} DrainDelivers<Q>(h: Hub<Q>, q: Q, s: Stream)
    requires q in h.buffers && s.phase == Waiting && NoRepeats(ListOf(h, s.task))
    ensures var (g, t) := Drain(h, q, s); var waiting := h.buffers[q];
            && Sent(t.out) == Sent(s.out) + UpToTerminal(waiting)
            && (if NoneTerminal(waiting) then t.phase == Waiting && g.lists == h.lists && q in g.buffers &&
                g.buffers[q] == []
                else t.phase == Ended && q !in ListOf(g, s.task))
    decreases |h.buffers[q]|
  {
    var waiting := h.buffers[q];
    if waiting != [] {
      var (g, t) := ReadOne(h, q, s);
      if Terminal(waiting[0]) {
        ReadTerminal(h, q, s);
      } else {
        ReadPlain(h, q, s);
        DrainDelivers(g, q, t);
        PlainFirst(Sent(s.out), waiting);
      }
    }
  }
}
