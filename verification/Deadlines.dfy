/** When an entry is late: what a claim and a worker do with a deadline, said in terms of
    the time it names (python/app/infrastructure/task_queue.py). */
module Deadlines {
  import opened Collections
  import opened TaskMessages
  import opened Broker

  /** The message names an instant, and it is past. */
  predicate IsLate(env: Env, m: TaskMessage, now: int)
  {
    m.deadline != "" && env.fromIso(m.deadline).Aware? && env.fromIso(m.deadline).at < now
  }

  /** The message names a time that cannot be compared with an instant. */
  predicate IsZoneless(env: Env, m: TaskMessage)
  {
    m.deadline != "" && env.fromIso(m.deadline).Naive?
  }

  predicate IsClaimable(env: Env, m: TaskMessage, now: int)
  {
    !IsLate(env, m, now) && !IsZoneless(env, m)
  }

  // ---------- A claim of many entries ----------

  /** The entries handed out: the claimable ones among lo..stop, each once, in order. */
  ghost predicate HandsOut(env: Env, b: Broker, lo: nat, stop: nat, now: int, taken: seq<(nat, TaskMessage)>)
    requires stop <= |b.stream|
  {
    && (forall k :: 0 <= k < |taken| ==>
          lo <= taken[k].0 < stop && taken[k].1 == b.stream[taken[k].0] && IsClaimable(env, taken[k].1, now))
    && (forall k, l :: 0 <= k < l < |taken| ==> taken[k].0 < taken[l].0)
    && (forall i | lo <= i < stop && IsClaimable(env, b.stream[i], now) ::
          exists k :: 0 <= k < |taken| && taken[k].0 == i)
  }

  /** The dead letters written: one for each late entry among lo..stop, in order. */
  ghost predicate Buries(env: Env, b: Broker, lo: nat, stop: nat, now: int, dlq: seq<DeadLetter>)
    requires stop <= |b.stream|
  {
    && b.dlq <= dlq
    && (forall k :: |b.dlq| <= k < |dlq| ==>
          && lo <= dlq[k].msg < stop && IsLate(env, b.stream[dlq[k].msg], now)
          && dlq[k] == DeadLetter(Stamped(env, b.stream[dlq[k].msg], now), dlq[k].msg, "deadline exceeded", now))
    && (forall k, l :: |b.dlq| <= k < l < |dlq| ==> dlq[k].msg < dlq[l].msg)
    && (forall i | lo <= i < stop && IsLate(env, b.stream[i], now) ::
          exists k :: |b.dlq| <= k < |dlq| && dlq[k].msg == i)
  }

  /** All delivered entries stay pending but the late ones among lo..stop. */
  ghost predicate LeavesPending(env: Env, b: Broker, lo: nat, stop: nat, hi: nat, now: int, pending: set<nat>)
    requires stop <= |b.stream|
  {
    forall i: nat :: i in pending <==>
      (i in b.pending || lo <= i < hi) && !(lo <= i < stop && IsLate(env, b.stream[i], now))
  }

  /** A claimed task is recorded as claimed by this consumer now; of any other nothing
      changes. */
  ghost predicate Claims(b: Broker, c: Broker, consumer: string, now: int, taken: seq<(nat, TaskMessage)>, id: string)
  {
    if exists k :: 0 <= k < |taken| && taken[k].1.id == id then
      && id in c.records && c.records[id] == Record(b, id).(
           state := CLAIMED, updated := now, claimedBy := Some(consumer), claimedAt := Some(now))
      && id in c.claims && c.claims[id].holder == consumer && c.claims[id].at == now
    else
      && (id in c.records <==> id in b.records) && (id in b.records ==> c.records[id] == b.records[id])
      && (id in c.claims <==> id in b.claims) && (id in b.claims ==> c.claims[id] == b.claims[id])
  }

  ghost predicate RecordsClaims(b: Broker, c: Broker, consumer: string, now: int, taken: seq<(nat, TaskMessage)>)
  {
    forall id :: Claims(b, c, consumer, now, taken, id)
  }

  /** The entries lo..stop were looked at, of those delivered up to hi; the next one, if a
      deadline was not comparable, is zoneless. */
  ghost predicate DealsUpTo(env: Env, b: Broker, consumer: string, lo: nat, stop: nat, mid: nat, hi: nat, now: int,
                            c: Claimed)
  {
    && lo <= stop <= mid <= hi <= |b.stream|
    && (forall i | lo <= i < stop :: !IsZoneless(env, b.stream[i]))
    && (if c.raised then stop < mid && IsZoneless(env, b.stream[stop]) else stop == mid)
    && c.b.stream == b.stream && c.b.cursor == hi
    && HandsOut(env, b, lo, stop, now, c.taken)
    && Buries(env, b, lo, stop, now, c.b.dlq)
    && LeavesPending(env, b, lo, stop, hi, now, c.b.pending)
    && RecordsClaims(b, c.b, consumer, now, c.taken)
  }

  /** What a claim of up to count entries does: it delivers them and goes through them up to
      the first one it cannot compare. */
  ghost predicate Deals(env: Env, b: Broker, consumer: string, count: nat, now: int, c: Claimed)
  {
    var hi := if b.cursor + count < |b.stream| then b.cursor + count else |b.stream|;
    exists stop: nat :: DealsUpTo(env, b, consumer, b.cursor, stop, hi, hi, now, c)
  }

  lemma HandsOutNext(env: Env, b: Broker, lo: nat, stop: nat, now: int, taken: seq<(nat, TaskMessage)>)
    requires lo <= stop < |b.stream| && HandsOut(env, b, lo, stop, now, taken)
    ensures IsClaimable(env, b.stream[stop], now) ==>
            HandsOut(env, b, lo, stop + 1, now, taken + [(stop, b.stream[stop])])
    ensures !IsClaimable(env, b.stream[stop], now) ==> HandsOut(env, b, lo, stop + 1, now, taken)
  {
    if IsClaimable(env, b.stream[stop], now) {
      var r := taken + [(stop, b.stream[stop])];
      forall i | lo <= i < stop + 1 && IsClaimable(env, b.stream[i], now)
        ensures exists k :: 0 <= k < |r| && r[k].0 == i
      {
        if i < stop {
          var k :| 0 <= k < |taken| && taken[k].0 == i;
          assert r[k].0 == i;
        } else {
          assert r[|taken|].0 == i;
        }
      }
    }
  }

  lemma BuriesOne(env: Env, b: Broker, lo: nat, stop: nat, now: int, dlq: seq<DeadLetter>, l: DeadLetter)
    requires lo <= stop < |b.stream| && Buries(env, b, lo, stop, now, dlq) && IsLate(env, b.stream[stop], now)
    requires l == DeadLetter(Stamped(env, b.stream[stop], now), stop, "deadline exceeded", now)
    ensures Buries(env, b, lo, stop + 1, now, dlq + [l])
  {
    var r := dlq + [l];
    forall i | lo <= i < stop + 1 && IsLate(env, b.stream[i], now)
      ensures exists k :: |b.dlq| <= k < |r| && r[k].msg == i
    {
      if i < stop {
        var k :| |b.dlq| <= k < |dlq| && dlq[k].msg == i;
        assert r[k].msg == i;
      } else {
        assert r[|dlq|].msg == i;
      }
    }
  }

  lemma BuriesNext(env: Env, b: Broker, lo: nat, stop: nat, now: int, dlq: seq<DeadLetter>)
    requires lo <= stop < |b.stream| && Buries(env, b, lo, stop, now, dlq)
    ensures IsLate(env, b.stream[stop], now) ==>
              Buries(env, b, lo, stop + 1, now,
                     dlq + [DeadLetter(Stamped(env, b.stream[stop], now), stop, "deadline exceeded", now)])
    ensures !IsLate(env, b.stream[stop], now) ==> Buries(env, b, lo, stop + 1, now, dlq)
  {
    if IsLate(env, b.stream[stop], now) {
      BuriesOne(env, b, lo, stop, now, dlq,
                DeadLetter(Stamped(env, b.stream[stop], now), stop, "deadline exceeded", now));
    }
  }

  lemma RecordsNext(b: Broker, c: Broker, consumer: string, now: int, taken: seq<(nat, TaskMessage)>, msg: nat,
                    task: TaskMessage)
    requires RecordsClaims(b, c, consumer, now, taken)
    ensures RecordsClaims(b, Take(c, consumer, msg, task, now), consumer, now, taken + [(msg, task)])
  {
    var t, r := Take(c, consumer, msg, task, now), taken + [(msg, task)];
    forall id ensures Claims(b, t, consumer, now, r, id)
    {
      assert Claims(b, c, consumer, now, taken, id);
      assert r[|taken|].1 == task;
      if k :| 0 <= k < |taken| && taken[k].1.id == id {
        assert r[k].1.id == id;
      }
    }
  }

  lemma PendingNext(env: Env, b: Broker, lo: nat, stop: nat, hi: nat, now: int, pending: set<nat>)
    requires lo <= stop < hi <= |b.stream| && LeavesPending(env, b, lo, stop, hi, now, pending)
    ensures IsLate(env, b.stream[stop], now) ==> LeavesPending(env, b, lo, stop + 1, hi, now, pending - {stop})
    ensures !IsLate(env, b.stream[stop], now) ==> LeavesPending(env, b, lo, stop + 1, hi, now, pending)
  {}

  lemma LateNext(env: Env, b: Broker, consumer: string, lo: nat, stop: nat, hi: nat, now: int, c: Claimed)
    requires stop < hi && !c.raised && DealsUpTo(env, b, consumer, lo, stop, stop, hi, now, c)
    requires IsLate(env, b.stream[stop], now)
    ensures DealsUpTo(env, b, consumer, lo, stop + 1, stop + 1, hi, now, Handle(env, c, consumer, stop, now))
  {
    HandsOutNext(env, b, lo, stop, now, c.taken);
    BuriesNext(env, b, lo, stop, now, c.b.dlq);
    PendingNext(env, b, lo, stop, hi, now, c.b.pending);
    var t := Handle(env, c, consumer, stop, now);
    forall id ensures Claims(b, t.b, consumer, now, t.taken, id)
    {
      assert Claims(b, c.b, consumer, now, c.taken, id);
    }
  }

  lemma ClaimableNext(env: Env, b: Broker, consumer: string, lo: nat, stop: nat, hi: nat, now: int, c: Claimed)
    requires stop < hi && !c.raised && DealsUpTo(env, b, consumer, lo, stop, stop, hi, now, c)
    requires IsClaimable(env, b.stream[stop], now)
    ensures DealsUpTo(env, b, consumer, lo, stop + 1, stop + 1, hi, now, Handle(env, c, consumer, stop, now))
  {
    HandsOutNext(env, b, lo, stop, now, c.taken);
    BuriesNext(env, b, lo, stop, now, c.b.dlq);
    PendingNext(env, b, lo, stop, hi, now, c.b.pending);
    RecordsNext(b, c.b, consumer, now, c.taken, stop, b.stream[stop]);
  }

  lemma ZonelessNext(env: Env, b: Broker, consumer: string, lo: nat, stop: nat, hi: nat, now: int, c: Claimed)
    requires stop < hi && !c.raised && DealsUpTo(env, b, consumer, lo, stop, stop, hi, now, c)
    requires IsZoneless(env, b.stream[stop])
    ensures DealsUpTo(env, b, consumer, lo, stop, stop + 1, hi, now, Handle(env, c, consumer, stop, now))
  {
    var t := Handle(env, c, consumer, stop, now);
    assert t == c.(raised := true);
    assert HandsOut(env, b, lo, stop, now, t.taken) && Buries(env, b, lo, stop, now, t.b.dlq);
    assert LeavesPending(env, b, lo, stop, hi, now, t.b.pending) && RecordsClaims(b, t.b, consumer, now, t.taken);
  }

  lemma HandlesNext(env: Env, b: Broker, consumer: string, lo: nat, stop: nat, hi: nat, now: int, c: Claimed)
    requires stop < hi && !c.raised && DealsUpTo(env, b, consumer, lo, stop, stop, hi, now, c)
    ensures var after := if IsZoneless(env, b.stream[stop]) then stop else stop + 1;
            DealsUpTo(env, b, consumer, lo, after, stop + 1, hi, now, Handle(env, c, consumer, stop, now))
  {
    if IsZoneless(env, b.stream[stop]) {
      ZonelessNext(env, b, consumer, lo, stop, hi, now, c);
    } else if IsLate(env, b.stream[stop], now) {
      LateNext(env, b, consumer, lo, stop, hi, now, c);
    } else {
      ClaimableNext(env, b, consumer, lo, stop, hi, now, c);
    }
  }

  lemma {:induction false} HandlesAll(env: Env, b: Broker, d: Broker, consumer: string, lo: nat, mid: nat, hi: nat,
                                      now: int)
    returns (stop: nat)
    requires lo <= mid <= hi <= |b.stream|
    requires d == b.(cursor := hi, pending := b.pending + Range(lo, hi))
    ensures DealsUpTo(env, b, consumer, lo, stop, mid, hi, now, HandleAll(env, d, consumer, lo, mid, now))
    decreases mid
  {
    if lo == mid {
      stop := lo;
      forall id ensures Claims(b, d, consumer, now, [], id) {}
    } else {
      stop := HandlesAll(env, b, d, consumer, lo, mid - 1, hi, now);
      var c := HandleAll(env, d, consumer, lo, mid - 1, now);
      if !c.raised {
        HandlesNext(env, b, consumer, lo, stop, hi, now, c);
        stop := if IsZoneless(env, b.stream[stop]) then stop else stop + 1;
      }
    }
  }

  /** A claim of any size: it delivers the entries, hands out those whose deadline has not
      passed, buries the late ones, and stops at the first whose deadline has no zone. */
  lemma ClaimsByDeadline(env: Env, b: Broker, consumer: string, count: nat, now: int)
    requires b.cursor <= |b.stream|
    ensures Deals(env, b, consumer, count, now, ClaimTasks(env, b, consumer, count, now))
  {
    var hi := b.cursor + ReadSize(b, count);
    var stop := HandlesAll(env, b, Deliver(b, count), consumer, b.cursor, hi, hi, now);
  }
}
