/** Publishing diagnosis events to the streams of their task
    (python/app/infrastructure/sse_manager.py). Queues are identified by a type Q. */
module SseManager {
  import opened Collections
  import opened SseFrames

  /** The registered queues of every task, and the events waiting in every queue. */
  datatype Hub<Q(==)> = Hub(lists: map<string, seq<Q>>, buffers: map<Q, seq<DiagnosisEvent>>)

  function ListOf<Q>(h: Hub<Q>, task: string): seq<Q>
  {
    if task in h.lists then h.lists[task] else []
  }

  function Subscribe<Q>(h: Hub<Q>, task: string, q: Q): Hub<Q>
  {
    Hub(h.lists[task := ListOf(h, task) + [q]], h.buffers[q := []])
  }

  /** list.remove: drops the first occurrence, if there is one. */
  function Without<Q(==)>(qs: seq<Q>, q: Q): seq<Q>
  {
    if qs == [] then []
    else if qs[0] == q then qs[1..]
    else [qs[0]] + Without(qs[1..], q)
  }

  function Unsubscribe<Q>(h: Hub<Q>, task: string, q: Q): Hub<Q>
  {
    if task !in h.lists then h
    else
      var left := Without(h.lists[task], q);
      h.(lists := if left == [] then h.lists - {task} else h.lists[task := left])
  }

  function Publish<Q>(h: Hub<Q>, e: DiagnosisEvent): Hub<Q>
  {
    h.(buffers := map q | q in h.buffers :: if q in ListOf(h, e.taskId) then h.buffers[q] + [e] else h.buffers[q])
  }

  // ---------- The manager object ----------

  class EventQueue {
    var items: seq<DiagnosisEvent>

    constructor ()
      ensures items == []
    {
      items := [];
    }
  }

  class Manager {
    var queues: map<string, seq<EventQueue>>
    /** Every queue ever handed out. */
    ghost var Repr: set<EventQueue>

    ghost predicate Valid()
      reads this
    {
      && (forall task | task in queues :: queues[task] != [])
      && (forall task, i | task in queues && 0 <= i < |queues[task]| :: queues[task][i] in Repr)
      && (forall task | task in queues :: NoRepeats(queues[task]))
    }

    ghost function View(): Hub<EventQueue>
      reads this, Repr
    {
      Hub(queues, map q | q in Repr :: q.items)
    }

    constructor ()
      ensures Valid() && View() == Hub(map[], map[])
    {
      queues, Repr := map[], {};
    }

    method SubscribeTo(task: string) returns (queue: EventQueue)
      requires Valid()
      modifies this
      ensures Valid() && fresh(queue) && Repr == old(Repr) + {queue}
      ensures View() == Subscribe(old(View()), task, queue)
      ensures ListOf(View(), task) == ListOf(old(View()), task) + [queue] && queue.items == []
    {
      ghost var before := View();
      queue := new EventQueue();
      assert [] + [queue] == [queue];
      if task !in queues {
        queues := queues[task := [queue]];
      } else {
        queues := queues[task := queues[task] + [queue]];
      }
      Repr := Repr + {queue};
      assert View().lists == Subscribe(before, task, queue).lists;
      assert View().buffers == Subscribe(before, task, queue).buffers;
    }

    static method Remove(qs: seq<EventQueue>, queue: EventQueue) returns (left: seq<EventQueue>)
      ensures left == Without(qs, queue)
    {
      var i := 0;
      while i < |qs| && qs[i] != queue
        invariant i <= |qs| && Without(qs, queue) == qs[..i] + Without(qs[i..], queue)
      {
        assert qs[i..][1..] == qs[i + 1..];
        i := i + 1;
      }
      if i < |qs| {
        assert qs[i..][1..] == qs[i + 1..];
        left := qs[..i] + qs[i + 1..];
      } else {
        left := qs;
      }
    }

    method UnsubscribeFrom(task: string, queue: EventQueue)
      requires Valid()
      modifies this`queues
      ensures Valid() && View() == Unsubscribe(old(View()), task, queue)
    {
      if task in queues {
        var left := Remove(queues[task], queue);
        WithoutKeeps(queues[task], queue);
        forall i | 0 <= i < |left| ensures left[i] in Repr
        {
          assert left[i] in queues[task];
        }
        if left == [] {
          queues := queues - {task};
        } else {
          queues := queues[task := left];
        }
      }
    }

    method PublishEvent(e: DiagnosisEvent)
      requires Valid()
      modifies Repr
      ensures Valid() && View() == Publish(old(View()), e)
    {
      if e.taskId in queues {
        var listed := queues[e.taskId];
        for i := 0 to |listed|
          invariant forall q | q in Repr :: q.items == old(q.items) + (if q in listed[..i] then [e] else [])
        {
          assert listed[i] in Repr && listed[i] !in listed[..i];
          assert listed[..i + 1] == listed[..i] + [listed[i]];
          listed[i].items := listed[i].items + [e];
        }
        assert listed[..|listed|] == listed;
      }
    }

    method HasSubscribers(task: string) returns (has: bool)
      requires Valid()
      ensures has <==> ListOf(View(), task) != []
      ensures has <==> task in View().lists
    {
      has := task in queues && |queues[task]| > 0;
    }
  }

  ghost predicate NoRepeats<Q>(qs: seq<Q>)
  {
    forall i, j :: 0 <= i < j < |qs| ==> qs[i] != qs[j]
  }

  /** Removal takes out one occurrence: of pairwise different queues, exactly that one. */
  lemma {:induction false} WithoutKeeps<Q>(qs: seq<Q>, q: Q)
    requires NoRepeats(qs)
    ensures forall r :: r in Without(qs, q) <==> r in qs && r != q
    ensures NoRepeats(Without(qs, q))
    decreases |qs|
  {
    if qs != [] {
      WithoutKeeps(qs[1..], q);
      assert qs == [qs[0]] + qs[1..];
      forall r | r in qs[1..] ensures r != qs[0]
      {
        var k :| 0 <= k < |qs[1..]| && qs[1..][k] == r;
        assert qs[k + 1] == r;
      }
      if qs[0] == q {
        assert Without(qs, q) == qs[1..];
      } else {
        assert qs[0] !in Without(qs[1..], q);
        assert Without(qs, q) == [qs[0]] + Without(qs[1..], q);
      }
    }
  }
}
