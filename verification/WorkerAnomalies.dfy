/** Where the task queue falls short of what one would expect of it: for each case the
    exact condition, and a run from the empty queue that shows it
    (python/app/infrastructure/task_queue.py, python/app/worker/diagnosis_worker.py). */
module WorkerAnomalies {
  import opened Collections
  import opened TaskMessages
  import opened Broker
  import opened WorkerProtocol
  import opened WorkerSteps
  import opened WorkerDrain

  // ---------- Runs ----------

  lemma RunNext(env: Env, s: System, acts: seq<Action>, t: System, a: Action)
    requires Run(env, s, acts) == Some(t) && t.b.cursor <= |t.b.stream| && Enabled(t, a)
    ensures Run(env, s, acts + [a]) == Some(Step(env, t, a))
  {
    assert (acts + [a])[..|acts|] == acts;
  }

  lemma {:induction false} RunConcat(env: Env, s: System, first: seq<Action>, rest: seq<Action>)
    requires Run(env, s, first + rest).Some?
    ensures Run(env, s, first).Some? && Run(env, s, first + rest) == Run(env, Run(env, s, first).value, rest)
  {
    if rest == [] {
      assert first + rest == first;
    } else {
      var n := |rest| - 1;
      assert (first + rest)[..|first + rest| - 1] == first + rest[..n];
      RunConcat(env, s, first, rest[..n]);
    }
  }

  // ---------- Cancellations before a claim ----------

  /** A claim erases a cancellation exactly when it hands the task out; a task that is late
      or whose deadline cannot be compared keeps it. */
  lemma ClaimForgetsCancellation(env: Env, s: System, w: string, now: int)
    requires Inv(s) && w !in s.workers && s.b.cursor < |s.b.stream|
    ensures var t, m := Step(env, s, Claiming(w, now)), s.b.stream[s.b.cursor];
            && (IsCancelled(t.b, m.id) <==> IsCancelled(s.b, m.id) && CheckDeadline(env, m.deadline, now) != InTime)
            && (w in t.workers <==> CheckDeadline(env, m.deadline, now) == InTime)
            && (w in t.workers ==> t.workers[w] == Hold(s.b.cursor, m, Checking))
  {
    OneClaim(env, s.b, w, now);
  }

  predicate Cancels(a: Action, id: string)
  {
    a.Cancelling? && a.id == id
  }

  ghost predicate CancelledWithin(acts: seq<Action>, id: string)
  {
    exists i :: 0 <= i < |acts| && Cancels(acts[i], id)
  }

  lemma CancelledWithinStep(acts: seq<Action>, id: string)
    requires acts != []
    ensures CancelledWithin(acts, id) <==> CancelledWithin(acts[..|acts| - 1], id) || Cancels(acts[|acts| - 1], id)
  {
    var before := acts[..|acts| - 1];
    if i :| 0 <= i < |acts| && Cancels(acts[i], id) {
      assert i < |before| ==> Cancels(before[i], id);
    }
    if i :| 0 <= i < |before| && Cancels(before[i], id) {
      assert Cancels(acts[i], id);
    }
  }

  // ---------- What a step does to a cancellation ----------

  predicate IsWork(a: Action)
  {
    !a.Publishing? && !a.Cancelling? && !a.Claiming?
  }

  /** Of all that its holder can do, failing and completing a task erase its
      cancellation, and nothing else does. */
  lemma HolderKeepsCancellation(env: Env, s: System, a: Action)
    requires Inv(s) && Enabled(s, a) && IsWork(a) && IsCancelled(s.b, s.workers[a.w].task.id)
    ensures IsCancelled(Step(env, s, a).b, s.workers[a.w].task.id) <==> !(a.Completing? || Fails(env, s, a))
  {
    if Fails(env, s, a) {
      assert Step(env, s, a) == FailStep(env, s, a.w, Reason(env, s, a), a.now);
    }
  }

  /** The entry was delivered, and neither failed nor completed since. */
  predicate Open(s: System, i: nat)
  {
    i < |s.tokens| && (s.tokens[i].fate == InFlight || s.tokens[i].fate == CancelAcked)
  }

  /** The entry was failed or completed. */
  predicate Settled(s: System, i: nat)
  {
    i < |s.tokens| && (s.tokens[i].fate == Retried || s.tokens[i].fate == Completed || s.tokens[i].fate == Dead)
  }

  /** The step settles entry i: its holder fails or completes it. */
  predicate Settles(env: Env, s: System, i: nat, a: Action)
    requires Enabled(s, a)
  {
    IsWork(a) && s.workers[a.w].msg == i && (a.Completing? || Fails(env, s, a))
  }

  /** What the step makes of the entry and of the cancellation of its task. */
  ghost predicate Treats(s: System, t: System, i: nat, settled: bool, cancelled: bool)
    requires i < |s.tokens|
  {
    && i < |t.tokens| && t.tokens[i].id == s.tokens[i].id
    && (if settled then Settled(t, i) else Open(t, i))
    && (IsCancelled(t.b, s.tokens[i].id) <==> !settled && (IsCancelled(s.b, s.tokens[i].id) || cancelled))
  }

  lemma ClaimTreats(env: Env, s: System, i: nat, w: string, now: int)
    requires Inv(s) && w !in s.workers && Open(s, i) && Publishes(s, s.tokens[i].id) <= 1
    ensures Treats(s, Step(env, s, Claiming(w, now)), i, false, false)
  {
    OneClaim(env, s.b, w, now);
    if s.b.cursor < |s.b.stream| {
      OneLiveEntry(s, i, s.b.cursor, s.tokens[i].id);
    }
  }

  lemma OtherFailTreats(env: Env, s: System, i: nat, w: string, why: string, now: int)
    requires Inv(s) && w in s.workers && s.workers[w].msg != i && Open(s, i) && s.workers[w].task.id != s.tokens[i].id
    requires s.workers[w].phase != Finished
    ensures Treats(s, FailStep(env, s, w, why, now), i, false, false)
  {
    assert Holding(s, w);
  }

  lemma OtherWorkTreats(env: Env, s: System, i: nat, a: Action)
    requires Inv(s) && Enabled(s, a) && IsWork(a) && s.workers[a.w].msg != i && Open(s, i) &&
             Publishes(s, s.tokens[i].id) <= 1
    ensures Treats(s, Step(env, s, a), i, false, false)
  {
    assert Holding(s, a.w);
    OneLiveEntry(s, i, s.workers[a.w].msg, s.tokens[i].id);
    if Fails(env, s, a) {
      OtherFailTreats(env, s, i, a.w, Reason(env, s, a), a.now);
    }
  }

  lemma HolderFailTreats(env: Env, s: System, i: nat, w: string, why: string, now: int)
    requires Inv(s) && w in s.workers && s.workers[w].msg == i && s.workers[w].phase != Finished && Open(s, i)
    ensures Treats(s, FailStep(env, s, w, why, now), i, true, false)
  {
    assert Holding(s, w);
  }

  lemma HolderTreats(env: Env, s: System, i: nat, a: Action)
    requires Inv(s) && Enabled(s, a) && IsWork(a) && s.workers[a.w].msg == i && Open(s, i)
    ensures Treats(s, Step(env, s, a), i, Settles(env, s, i, a), false)
  {
    assert Holding(s, a.w);
    if Fails(env, s, a) {
      HolderFailTreats(env, s, i, a.w, Reason(env, s, a), a.now);
    }
  }

  lemma ClientTreats(env: Env, s: System, i: nat, a: Action)
    requires Inv(s) && Open(s, i) && (a.Publishing? || a.Cancelling?) && Publishes(Step(env, s, a), s.tokens[i].id) <= 1
    ensures Treats(s, Step(env, s, a), i, false, Cancels(a, s.tokens[i].id))
  {
    LiveIsPublished(s, i);
    PublishesGrow(env, s, a, s.tokens[i].id);
  }

  /** Every step of anyone: an open entry of a task published once stays open unless its
      holder settles it, and the task is cancelled afterwards exactly when the step did not
      settle the entry and the task was cancelled before or is cancelled by this step. */
  lemma StepTreats(env: Env, s: System, i: nat, a: Action)
    requires Inv(s) && Enabled(s, a) && Open(s, i) && Publishes(Step(env, s, a), s.tokens[i].id) <= 1
    ensures Treats(s, Step(env, s, a), i, Settles(env, s, i, a), Cancels(a, s.tokens[i].id))
  {
    PublishesGrow(env, s, a, s.tokens[i].id);
    if a.Publishing? || a.Cancelling? {
      ClientTreats(env, s, i, a);
    } else if a.Claiming? {
      ClaimTreats(env, s, i, a.w, a.now);
    } else if s.workers[a.w].msg == i {
      HolderTreats(env, s, i, a);
    } else {
      OtherWorkTreats(env, s, i, a);
    }
  }

  /** While a worker works on a task published once, no step of anyone else takes the task
      from it, or touches the cancellation except by cancelling. */
  lemma OthersKeepCancellation(env: Env, s: System, w: string, a: Action)
    requires Inv(s) && Enabled(s, a) && w in s.workers && s.workers[w].phase != Finished
    requires (IsWork(a) || a.Claiming?) ==> a.w != w
    requires Publishes(Step(env, s, a), s.workers[w].task.id) <= 1
    ensures var t, id := Step(env, s, a), s.workers[w].task.id;
            && w in t.workers && t.workers[w] == s.workers[w]
            && (IsCancelled(t.b, id) <==> IsCancelled(s.b, id) || Cancels(a, id))
  {
    assert Holding(s, w);
    StepTreats(env, s, s.workers[w].msg, a);
    if a.Claiming? {
      ClaimHolds(env, s, a.w, a.now);
    }
  }

  lemma FailureKeepsSettled(env: Env, s: System, i: nat, w: string, why: string, now: int)
    requires Inv(s) && w in s.workers && s.workers[w].phase != Finished && Settled(s, i)
    ensures var t := FailStep(env, s, w, why, now);
            i < |t.tokens| && t.tokens[i] == s.tokens[i] && s.workers[w].msg != i
  {
    assert Holding(s, w);
  }

  lemma SettledStays(env: Env, s: System, i: nat, a: Action)
    requires Inv(s) && Enabled(s, a) && Settled(s, i)
    ensures i < |Step(env, s, a).tokens| && Step(env, s, a).tokens[i] == s.tokens[i] && !Settles(env, s, i, a)
  {
    if Fails(env, s, a) {
      FailureKeepsSettled(env, s, i, a.w, Reason(env, s, a), a.now);
    } else if IsWork(a) {
      assert Holding(s, a.w);
    }
  }

  lemma FailingCancelsNone(env: Env, s: System, w: string, why: string, now: int, id: string)
    requires Inv(s) && w in s.workers && !IsCancelled(s.b, id)
    ensures !IsCancelled(FailStep(env, s, w, why, now).b, id)
  {}

  lemma ClaimingCancelsNone(env: Env, s: System, w: string, now: int, id: string)
    requires Inv(s) && w !in s.workers && !IsCancelled(s.b, id)
    ensures !IsCancelled(ClaimStep(env, s, w, now).b, id)
  {
    OneClaim(env, s.b, w, now);
  }

  /** Nothing but a cancellation cancels. */
  lemma OnlyCancellingCancels(env: Env, s: System, a: Action, id: string)
    requires Inv(s) && Enabled(s, a) && !IsCancelled(s.b, id)
    ensures IsCancelled(Step(env, s, a).b, id) ==> Cancels(a, id)
  {
    if Fails(env, s, a) {
      FailingCancelsNone(env, s, a.w, Reason(env, s, a), a.now, id);
    } else if a.Claiming? {
      ClaimingCancelsNone(env, s, a.w, a.now, id);
    }
  }

  // ---------- Cancellations over runs ----------

  /** Some step of the run settles entry i. */
  ghost predicate SettledWithin(env: Env, s: System, i: nat, acts: seq<Action>)
    requires Run(env, s, acts).Some?
  {
    acts != [] &&
    var n := |acts| - 1;
    SettledWithin(env, s, i, acts[..n]) || Settles(env, Run(env, s, acts[..n]).value, i, acts[n])
  }

  /** The entry after the run is as it was or settled; its task is cancelled as long as it
      is open if and only if it was cancelled before or within the run, and nothing but
      a new cancellation cancels it once the entry is settled. */
  ghost predicate Follows(env: Env, s: System, i: nat, acts: seq<Action>)
    requires Run(env, s, acts).Some? && i < |s.tokens|
  {
    var t, id := Run(env, s, acts).value, s.tokens[i].id;
    && i < |t.tokens| && t.tokens[i].id == id
    && (if SettledWithin(env, s, i, acts)
        then Settled(t, i) && (IsCancelled(t.b, id) ==> CancelledWithin(acts, id))
        else Open(t, i) && (IsCancelled(t.b, id) <==> IsCancelled(s.b, id) || CancelledWithin(acts, id)))
  }

  lemma {:induction false} CancellationWindow(env: Env, s: System, i: nat, acts: seq<Action>)
    requires Inv(s) && Open(s, i) && Run(env, s, acts).Some? && Publishes(Run(env, s, acts).value, s.tokens[i].id) <= 1
    ensures Follows(env, s, i, acts)
  {
    if acts != [] {
      var n, id := |acts| - 1, s.tokens[i].id;
      var u := Run(env, s, acts[..n]).value;
      PublishesGrow(env, u, acts[n], id);
      RunKeepsInv(env, s, acts[..n]);
      CancellationWindow(env, s, i, acts[..n]);
      CancelledWithinStep(acts, id);
      if Open(u, i) {
        StepTreats(env, u, i, acts[n]);
      } else {
        SettledStays(env, u, i, acts[n]);
        if !IsCancelled(u.b, id) {
          OnlyCancellingCancels(env, u, acts[n], id);
        }
      }
    }
  }

  /** When a cancellation lasts: cancelled while its entry is open, and not cancelled
      again, a task published once stays cancelled exactly while no holder of the entry
      fails or completes it. */
  lemma StaysCancelledExactly(env: Env, before: seq<Action>, i: nat, now: int, after: seq<Action>)
    requires Run(env, Init(), before).Some? && Open(Run(env, Init(), before).value, i)
    requires var id := Run(env, Init(), before).value.tokens[i].id;
             && Run(env, Init(), before + [Cancelling(id, now)] + after).Some?
             && Publishes(Run(env, Init(), before + [Cancelling(id, now)] + after).value, id) <= 1
             && !CancelledWithin(after, id)
    ensures var s := Run(env, Init(), before).value;
            var id := s.tokens[i].id;
            var c := Step(env, s, Cancelling(id, now));
            && Run(env, c, after).Some?
            && (IsCancelled(Run(env, Init(), before + [Cancelling(id, now)] + after).value.b, id) <==>
                !SettledWithin(env, c, i, after))
  {
    var s := Run(env, Init(), before).value;
    var id := s.tokens[i].id;
    var cancel := Cancelling(id, now);
    ReachableInv(env, before);
    LiveIsPublished(s, i);
    RunNext(env, Init(), before, s, cancel);
    CancelKeepsInv(env, s, id, now);
    RunConcat(env, Init(), before + [cancel], after);
    CancellationWindow(env, Step(env, s, cancel), i, after);
  }

  ghost predicate ClaimsNothing(acts: seq<Action>, w: string)
  {
    forall i :: 0 <= i < |acts| && acts[i].Claiming? ==> acts[i].w != w
  }

  lemma HeldBefore(env: Env, s: System, a: Action, w: string)
    requires Inv(s) && Enabled(s, a) && !(a.Claiming? && a.w == w) && w in Step(env, s, a).workers
    ensures w in s.workers && s.workers[w].(phase := Step(env, s, a).workers[w].phase) == Step(env, s, a).workers[w]
  {
    if a.Claiming? {
      ClaimHolds(env, s, a.w, a.now);
    }
  }

  /** Who holds an entry without claiming held it all along. */
  lemma {:induction false} HeldSince(env: Env, s: System, acts: seq<Action>, w: string)
    requires Inv(s) && Run(env, s, acts).Some? && ClaimsNothing(acts, w) && w in Run(env, s, acts).value.workers
    ensures w in s.workers && s.workers[w].(phase := Run(env, s, acts).value.workers[w].phase) ==
            Run(env, s, acts).value.workers[w]
  {
    if acts != [] {
      var n := |acts| - 1;
      RunKeepsInv(env, s, acts[..n]);
      HeldBefore(env, Run(env, s, acts[..n]).value, acts[n], w);
      HeldSince(env, s, acts[..n], w);
    }
  }

  lemma JustClaimed(env: Env, s: System, w: string, now: int)
    requires Inv(s) && w !in s.workers && w in Step(env, s, Claiming(w, now)).workers
    ensures var c := Step(env, s, Claiming(w, now));
            Inv(c) && Open(c, c.workers[w].msg) && c.tokens[c.workers[w].msg].id == c.workers[w].task.id
            && !IsCancelled(c.b, c.workers[w].task.id)
  {
    ClaimHolds(env, s, w, now);
    ClaimKeepsInv(env, s, w, now);
    ClaimForgetsCancellation(env, s, w, now);
    assert Holding(Step(env, s, Claiming(w, now)), w);
  }

  /** The run ends with worker w working on a task published once, which it got from the
      claim after the run's first part. */
  ghost predicate WorksSinceClaim(env: Env, before: seq<Action>, w: string, now: int, mid: seq<Action>)
  {
    && Run(env, Init(), before + [Claiming(w, now)] + mid).Some? && ClaimsNothing(mid, w)
    && var t := Run(env, Init(), before + [Claiming(w, now)] + mid).value;
       w in t.workers && t.workers[w].phase != Finished && Publishes(t, t.workers[w].task.id) == 1
  }

  /** While a worker works on a task, the task is cancelled exactly when it was cancelled
      since the claim; whatever was cancelled before does not count. */
  lemma CancelledSinceClaim(env: Env, before: seq<Action>, w: string, now: int, mid: seq<Action>)
    requires WorksSinceClaim(env, before, w, now, mid)
    ensures var t := Run(env, Init(), before + [Claiming(w, now)] + mid).value;
            Inv(t) && (IsCancelled(t.b, t.workers[w].task.id) <==> CancelledWithin(mid, t.workers[w].task.id))
  {
    var claim := before + [Claiming(w, now)];
    var t := Run(env, Init(), claim + mid).value;
    RunConcat(env, Init(), claim, mid);
    assert claim[..|claim| - 1] == before;
    var s, c := Run(env, Init(), before).value, Run(env, Init(), claim).value;
    ReachableInv(env, before);
    ReachableInv(env, claim);
    ReachableInv(env, claim + mid);
    HeldSince(env, c, mid, w);
    JustClaimed(env, s, w, now);
    assert Holding(t, w);
    CancellationWindow(env, c, c.workers[w].msg, mid);
  }

  /** When the agent runs: for a task published once, the first check of its holder sees a
      cancellation, and the check before the agent keeps the agent from running, exactly
      when the task was cancelled between the claim and that check. */
  lemma AgentRunsExactly(env: Env, before: seq<Action>, w: string, now: int, mid: seq<Action>, at: int)
    requires WorksSinceClaim(env, before, w, now, mid)
    ensures var t := Run(env, Init(), before + [Claiming(w, now)] + mid).value;
            && t.b.cursor <= |t.b.stream|
            && (t.workers[w].phase == Checking ==>
                (Step(env, t, CheckingCancelled(w)).workers[w].phase == SeenCancelled <==>
                 CancelledWithin(mid, t.workers[w].task.id)))
            && (t.workers[w].phase == Prepared ==>
                var u := Step(env, t, Starting(w, at));
                && (w in u.workers <==> !CancelledWithin(mid, t.workers[w].task.id))
                && (w in u.workers ==> u.workers[w].phase == Running))
  {
    CancelledSinceClaim(env, before, w, now, mid);
  }

  // ---------- Concrete runs ----------

  /** A publish on the empty queue. */
  function Fresh(env: Env, m: TaskMessage, now: int): System
  {
    Step(env, Init(), Publishing(m, now))
  }

  lemma FreshRun(env: Env, m: TaskMessage, now: int)
    ensures Run(env, Init(), [Publishing(m, now)]) == Some(Fresh(env, m, now)) && Inv(Fresh(env, m, now))
    ensures Fresh(env, m, now).b.stream == [Stamped(env, m, now)] && Fresh(env, m, now).b.cursor == 0
  {
    InitHolds();
    RunNext(env, Init(), [], Init(), Publishing(m, now));
    assert [] + [Publishing(m, now)] == [Publishing(m, now)];
    PublishKeepsInv(env, Init(), m, now);
  }

  /** A message without a deadline of its own is in time when it is published. */
  lemma FreshInTime(env: Env, m: TaskMessage, now: int)
    requires Faithful(env) && m.deadline == ""
    ensures CheckDeadline(env, Stamped(env, m, now).deadline, now) == InTime
    ensures WorkerInTime(env, Stamped(env, m, now).deadline, now)
  {
    var at := now + DEADLINE_SECONDS;
    assert env.isoformat(at) != "" && env.fromIso(env.isoformat(at)) == Aware(at);
  }

  lemma ClaimKeepsRetries(env: Env, s: System, w: string, now: int, id: string)
    requires Inv(s) && w !in s.workers
    ensures var t := Step(env, s, Claiming(w, now)); Retries(t, id) == Retries(s, id) && t.b.stream == s.b.stream
  {
    OneClaim(env, s.b, w, now);
  }

  /** Worker w alone holds the task of m, not cancelled and never retried. */
  ghost predicate Alone(env: Env, s: System, m: TaskMessage, w: string, now: int, phase: Phase)
  {
    && Inv(s)
    && s.workers == map[w := Hold(0, Stamped(env, m, now), phase)]
    && s.b.stream == [Stamped(env, m, now)] && s.b.cursor == 1
    && m.id in s.b.records && !IsCancelled(s.b, m.id) && Retries(s, m.id) == 0
  }

  ghost predicate At(env: Env, acts: seq<Action>, s: System, m: TaskMessage, w: string, now: int, phase: Phase)
  {
    Run(env, Init(), acts) == Some(s) && Alone(env, s, m, w, now, phase)
  }

  lemma PhasedAlone(env: Env, s: System, m: TaskMessage, w: string, now: int, from: Phase, phase: Phase)
    requires Alone(env, s, m, w, now, from) && from != Finished && phase != Finished
    ensures Alone(env, Phased(s, w, phase), m, w, now, phase)
  {
    PhaseKeepsInv(s, w, phase);
  }

  /** Claimed after a publish, and whatever else happened to the record. */
  lemma ClaimedAt(env: Env, acts: seq<Action>, s: System, m: TaskMessage, w: string, now: int) returns (t: System)
    requires Faithful(env) && m.deadline == ""
    requires Run(env, Init(), acts) == Some(s) && Inv(s) && s.workers == map[]
    requires s.b.stream == [Stamped(env, m, now)] && s.b.cursor == 0 && Retries(s, m.id) == 0
    ensures At(env, acts + [Claiming(w, now)], t, m, w, now, Checking)
  {
    FreshInTime(env, m, now);
    RunNext(env, Init(), acts, s, Claiming(w, now));
    t := Step(env, s, Claiming(w, now));
    ClaimHolds(env, s, w, now);
    ClaimKeepsInv(env, s, w, now);
    ClaimForgetsCancellation(env, s, w, now);
    ClaimKeepsRetries(env, s, w, now, m.id);
    assert Holding(t, w);
    LiveIsPublished(t, 0);
  }

  function Preparing(w: string, now: int): seq<Action>
  {
    [Claiming(w, now)] + [CheckingCancelled(w)] + [CheckingDeadline(w, now)]
  }

  lemma PhasedAt(env: Env, acts: seq<Action>, s: System, m: TaskMessage, w: string, now: int, a: Action, from: Phase,
                 phase: Phase)
    requires At(env, acts, s, m, w, now, from) && from != Finished && phase != Finished
    requires Enabled(s, a) && Step(env, s, a) == Phased(s, w, phase)
    ensures At(env, acts + [a], Phased(s, w, phase), m, w, now, phase)
  {
    RunNext(env, Init(), acts, s, a);
    PhasedAlone(env, s, m, w, now, from, phase);
  }

  lemma VettedAt(env: Env, acts: seq<Action>, s: System, m: TaskMessage, w: string, now: int) returns (t: System)
    requires At(env, acts, s, m, w, now, Checking)
    ensures At(env, acts + [CheckingCancelled(w)], t, m, w, now, Vetted)
  {
    PhasedAt(env, acts, s, m, w, now, CheckingCancelled(w), Checking, Vetted);
    t := Phased(s, w, Vetted);
  }

  lemma InTimeAt(env: Env, acts: seq<Action>, s: System, m: TaskMessage, w: string, now: int) returns (t: System)
    requires Faithful(env) && m.deadline == "" && At(env, acts, s, m, w, now, Vetted)
    ensures At(env, acts + [CheckingDeadline(w, now)], t, m, w, now, Prepared)
  {
    FreshInTime(env, m, now);
    PhasedAt(env, acts, s, m, w, now, CheckingDeadline(w, now), Vetted, Prepared);
    t := Phased(s, w, Prepared);
  }

  lemma StartedAt(env: Env, acts: seq<Action>, s: System, m: TaskMessage, w: string, now: int) returns (t: System)
    requires At(env, acts, s, m, w, now, Prepared)
    ensures At(env, acts + [Starting(w, now)], t, m, w, now, Running)
  {
    PhasedAt(env, acts, s, m, w, now, Starting(w, now), Prepared, Running);
    t := Phased(s, w, Running);
  }

  lemma PreparedAt(env: Env, acts: seq<Action>, s: System, m: TaskMessage, w: string, now: int) returns (t: System)
    requires Faithful(env) && m.deadline == ""
    requires Run(env, Init(), acts) == Some(s) && Inv(s) && s.workers == map[]
    requires s.b.stream == [Stamped(env, m, now)] && s.b.cursor == 0 && Retries(s, m.id) == 0
    ensures At(env, acts + Preparing(w, now), t, m, w, now, Prepared)
  {
    var claim, check, late := Claiming(w, now), CheckingCancelled(w), CheckingDeadline(w, now);
    assert acts + [claim] + [check] + [late] == acts + Preparing(w, now);
    var c := ClaimedAt(env, acts, s, m, w, now);
    var d := VettedAt(env, acts + [claim], c, m, w, now);
    t := InTimeAt(env, acts + [claim] + [check], d, m, w, now);
  }

  /** A run in which a cancelled task is run: published, cancelled, and then claimed and
      diagnosed as if nothing had happened. */
  lemma CancelledBeforeClaim(env: Env, m: TaskMessage, w: string, now: int)
    requires Faithful(env) && m.deadline == ""
    ensures var acts := [Publishing(m, now)] + [Cancelling(m.id, now)];
            && Run(env, Init(), acts).Some? && IsCancelled(Run(env, Init(), acts).value.b, m.id)
            && Run(env, Init(), acts + Preparing(w, now) + [Starting(w, now)]).Some?
            && var t := Run(env, Init(), acts + Preparing(w, now) + [Starting(w, now)]).value;
               && w in t.workers && t.workers[w].task.id == m.id && t.workers[w].phase == Running &&
                  !IsCancelled(t.b, m.id)
  {
    var s := Fresh(env, m, now);
    FreshRun(env, m, now);
    var acts := [Publishing(m, now)] + [Cancelling(m.id, now)];
    RunNext(env, Init(), [Publishing(m, now)], s, Cancelling(m.id, now));
    CancelKeepsInv(env, s, m.id, now);
    var p := PreparedAt(env, acts, Step(env, s, Cancelling(m.id, now)), m, w, now);
    var t := StartedAt(env, acts + Preparing(w, now), p, m, w, now);
  }

  // ---------- Cancelled runs are retried ----------

  lemma {:induction false} StaysUncancelled(env: Env, s: System, acts: seq<Action>, id: string)
    requires Inv(s) && !IsCancelled(s.b, id) && Run(env, s, acts).Some?
    ensures IsCancelled(Run(env, s, acts).value.b, id) ==> CancelledWithin(acts, id)
  {
    if acts != [] {
      var n := |acts| - 1;
      var u := Run(env, s, acts[..n]).value;
      RunKeepsInv(env, s, acts[..n]);
      StaysUncancelled(env, s, acts[..n], id);
      CancelledWithinStep(acts, id);
      if !IsCancelled(u.b, id) {
        OnlyCancellingCancels(env, u, acts[n], id);
      }
    }
  }

  lemma FailedIsNotCancelled(env: Env, s: System, w: string, why: string, now: int)
    requires Inv(s) && w in s.workers && s.workers[w].phase != Finished
    ensures var t, id := FailStep(env, s, w, why, now), s.workers[w].task.id;
            && !IsCancelled(t.b, id)
            && (|t.b.stream| > |s.b.stream| <==> Retries(s, id) < 3)
            && (|t.b.stream| > |s.b.stream| ==> |t.b.stream| == |s.b.stream| + 1 && t.b.stream[|s.b.stream|].id == id)
            && (|t.b.dlq| > |s.b.dlq| <==> Retries(s, id) >= 3)
  {
    assert Holding(s, w);
  }

  /** A failed task never ends as cancelled, whatever its record said before and whichever
      step fails it: in every reachable state the task goes back to the stream exactly while
      retries are left and becomes a dead letter otherwise, and however the run goes on,
      the task is cancelled again only if it is cancelled anew. */
  lemma CancelledRunIsRetried(env: Env, before: seq<Action>, a: Action, after: seq<Action>)
    requires Run(env, Init(), before + [a] + after).Some?
    requires Run(env, Init(), before).Some? && Enabled(Run(env, Init(), before).value, a) &&
             Fails(env, Run(env, Init(), before).value, a)
    ensures var s := Run(env, Init(), before).value;
            && s.b.cursor <= |s.b.stream|
            && var t, id := Step(env, s, a), s.workers[a.w].task.id;
            && !IsCancelled(t.b, id)
            && (|t.b.stream| > |s.b.stream| <==> Retries(s, id) < 3)
            && (|t.b.stream| > |s.b.stream| ==> |t.b.stream| == |s.b.stream| + 1 && t.b.stream[|s.b.stream|].id == id)
            && (|t.b.dlq| > |s.b.dlq| <==> Retries(s, id) >= 3)
            && (IsCancelled(Run(env, Init(), before + [a] + after).value.b, id) ==> CancelledWithin(after, id))
  {
    RunConcat(env, Init(), before + [a], after);
    var s := Run(env, Init(), before).value;
    ReachableInv(env, before);
    RunNext(env, Init(), before, s, a);
    FailedIsNotCancelled(env, s, a.w, Reason(env, s, a), a.now);
    StepKeepsInv(env, s, a);
    StaysUncancelled(env, Step(env, s, a), after, s.workers[a.w].task.id);
  }

  /** A run cancelled before its agent starts: the task is undelivered again. */
  lemma CancelledTaskReturns(env: Env, m: TaskMessage, w: string, now: int)
    requires Faithful(env) && m.deadline == ""
    ensures var acts := [Publishing(m, now)] + Preparing(w, now) + [Cancelling(m.id, now)];
            && Run(env, Init(), acts).Some? && IsCancelled(Run(env, Init(), acts).value.b, m.id)
            && Run(env, Init(), acts + [Starting(w, now)]).Some?
            && var t := Run(env, Init(), acts + [Starting(w, now)]).value;
               t.b.cursor == 1 && |t.b.stream| == 2 && t.b.stream[1].id == m.id && !IsCancelled(t.b, m.id)
  {
    FreshRun(env, m, now);
    var acts := [Publishing(m, now)] + Preparing(w, now);
    var p := PreparedAt(env, [Publishing(m, now)], Fresh(env, m, now), m, w, now);
    RunNext(env, Init(), acts, p, Cancelling(m.id, now));
    CancelKeepsInv(env, p, m.id, now);
    var c := Step(env, p, Cancelling(m.id, now));
    RunNext(env, Init(), acts + [Cancelling(m.id, now)], c, Starting(w, now));
    FailedIsNotCancelled(env, c, w, "Task cancelled", now);
  }

  /** A run cancelled while its agent is at work: the task is completed all the same. */
  lemma CancelledTaskCompletes(env: Env, m: TaskMessage, w: string, now: int, outcome: Json)
    requires Faithful(env) && m.deadline == ""
    ensures var acts := [Publishing(m, now)] + Preparing(w, now) + [Starting(w, now)] + [Cancelling(m.id, now)];
            && Run(env, Init(), acts).Some? && IsCancelled(Run(env, Init(), acts).value.b, m.id)
            && Run(env, Init(), acts + [Completing(w, outcome, now)]).Some?
            && var t := Run(env, Init(), acts + [Completing(w, outcome, now)]).value;
               m.id in t.b.records && t.b.records[m.id].state == COMPLETED && t.b.records[m.id].outcome == Some(outcome)
  {
    FreshRun(env, m, now);
    var p := PreparedAt(env, [Publishing(m, now)], Fresh(env, m, now), m, w, now);
    var acts := [Publishing(m, now)] + Preparing(w, now) + [Starting(w, now)];
    var r := StartedAt(env, [Publishing(m, now)] + Preparing(w, now), p, m, w, now);
    RunNext(env, Init(), acts, r, Cancelling(m.id, now));
    CancelKeepsInv(env, r, m.id, now);
    var c := Step(env, r, Cancelling(m.id, now));
    RunNext(env, Init(), acts + [Cancelling(m.id, now)], c, Completing(w, outcome, now));
  }

  // ---------- Deadlines without a zone ----------

  /** The entry is in flight and nobody holds it. */
  ghost predicate Stranded(s: System, i: nat)
  {
    i < |s.tokens| && s.tokens[i].fate == InFlight && forall w | w in s.workers :: s.workers[w].msg != i
  }

  /** A claim strands the entry it delivers exactly when it raises. */
  lemma ClaimStrands(env: Env, s: System, w: string, now: int)
    requires Inv(s) && w !in s.workers && s.b.cursor < |s.b.stream|
    ensures Stranded(Step(env, s, Claiming(w, now)), s.b.cursor) <==>
            CheckDeadline(env, s.b.stream[s.b.cursor].deadline, now) == Raises
  {
    var t := Step(env, s, Claiming(w, now));
    OneClaim(env, s.b, w, now);
    forall v | v in s.workers ensures s.workers[v].msg != s.b.cursor
    {
      assert Holding(s, v);
    }
    if CheckDeadline(env, s.b.stream[s.b.cursor].deadline, now) == InTime {
      assert w in t.workers && t.workers[w].msg == s.b.cursor;
    }
  }

  lemma FailureKeepsStranded(env: Env, s: System, i: nat, w: string, why: string, now: int)
    requires Inv(s) && w in s.workers && Stranded(s, i)
    ensures Stranded(FailStep(env, s, w, why, now), i)
  {
    assert Holding(s, w);
  }

  lemma ClaimKeepsStranded(env: Env, s: System, i: nat, w: string, now: int)
    requires Inv(s) && w !in s.workers && Stranded(s, i)
    ensures Stranded(Step(env, s, Claiming(w, now)), i)
  {
    ClaimHolds(env, s, w, now);
  }

  lemma WorkKeepsStranded(env: Env, s: System, i: nat, a: Action)
    requires Inv(s) && Enabled(s, a) && IsWork(a) && !Fails(env, s, a) && Stranded(s, i)
    ensures Stranded(Step(env, s, a), i)
  {
    assert Holding(s, a.w);
  }

  lemma StrandedStays(env: Env, s: System, i: nat, a: Action)
    requires Inv(s) && Enabled(s, a) && Stranded(s, i)
    ensures Stranded(Step(env, s, a), i)
  {
    if Fails(env, s, a) {
      FailureKeepsStranded(env, s, i, a.w, Reason(env, s, a), a.now);
    } else if a.Claiming? {
      ClaimKeepsStranded(env, s, i, a.w, a.now);
    } else if IsWork(a) {
      WorkKeepsStranded(env, s, i, a);
    }
  }

  /** An entry that nobody holds stays so: no later step of anyone delivers, completes,
      fails or acknowledges it. */
  lemma {:induction false} StrandedForever(env: Env, s: System, i: nat, acts: seq<Action>)
    requires Inv(s) && Stranded(s, i) && Run(env, s, acts).Some?
    ensures Stranded(Run(env, s, acts).value, i)
  {
    if acts != [] {
      var before := acts[..|acts| - 1];
      StrandedForever(env, s, i, before);
      RunKeepsInv(env, s, before);
      StrandedStays(env, Run(env, s, before).value, i, acts[|acts| - 1]);
    }
  }

  lemma FreshNext(env: Env, m: TaskMessage, now: int, a: Action)
    requires Enabled(Fresh(env, m, now), a)
    ensures Run(env, Init(), [Publishing(m, now)] + [a]) == Some(Step(env, Fresh(env, m, now), a))
    ensures Inv(Step(env, Fresh(env, m, now), a))
  {
    FreshRun(env, m, now);
    RunNext(env, Init(), [Publishing(m, now)], Fresh(env, m, now), a);
    StepKeepsInv(env, Fresh(env, m, now), a);
  }

  lemma NaiveClaimed(env: Env, m: TaskMessage, w: string, now: int)
    requires m.deadline != "" && env.fromIso(m.deadline) == Naive
    ensures var r := Run(env, Init(), [Publishing(m, now)] + [Claiming(w, now)]);
            r.Some? && Inv(r.value) && Stranded(r.value, 0)
  {
    var s := Fresh(env, m, now);
    FreshRun(env, m, now);
    FreshNext(env, m, now, Claiming(w, now));
    assert CheckDeadline(env, s.b.stream[0].deadline, now) == Raises;
    ClaimStrands(env, s, w, now);
  }

  /** Such a run: a message whose deadline has no zone, after its first claim and whatever
      follows. */
  lemma NaiveDeadlineStrands(env: Env, m: TaskMessage, w: string, now: int, acts: seq<Action>)
    requires m.deadline != "" && env.fromIso(m.deadline) == Naive
    requires Run(env, Init(), [Publishing(m, now)] + [Claiming(w, now)] + acts).Some?
    ensures Stranded(Run(env, Init(), [Publishing(m, now)] + [Claiming(w, now)] + acts).value, 0)
  {
    var first := [Publishing(m, now)] + [Claiming(w, now)];
    NaiveClaimed(env, m, w, now);
    RunConcat(env, Init(), first, acts);
    StrandedForever(env, Run(env, Init(), first).value, 0, acts);
  }

  // ---------- The published retry limit ----------

  /** After the run, worker w holds the task of m, which was published once, and may fail it. */
  ghost predicate AboutToFail(env: Env, acts: seq<Action>, m: TaskMessage, w: string)
  {
    Run(env, Init(), acts).Some? &&
    var s := Run(env, Init(), acts).value;
    m in s.log && Publishes(s, m.id) == 1 && w in s.workers && s.workers[w].task.id == m.id &&
      s.workers[w].phase != Finished
  }

  predicate Requeues(env: Env, s: System, w: string, why: string, now: int)
    requires w in s.workers
  {
    |FailStep(env, s, w, why, now).b.stream| > |s.b.stream|
  }

  /** In every reachable state a failure of the task is retried exactly while the stored
      retries are below the limit its message was published with. */
  ghost predicate HonoursLimit(env: Env, m: TaskMessage)
  {
    forall acts: seq<Action>, w: string, why: string, now: int :: AboutToFail(env, acts, m, w) ==>
      (Requeues(env, Run(env, Init(), acts).value, w, why, now) <==>
       Retries(Run(env, Init(), acts).value, m.id) < m.limit)
  }

  /** The next entry is the task's, claimable now, and it failed k times so far. */
  ghost predicate Ready(env: Env, acts: seq<Action>, m: TaskMessage, k: nat, now: int)
  {
    Run(env, Init(), acts).Some? &&
    var s := Run(env, Init(), acts).value;
    && s.workers == map[] && s.log == [m] && s.b.cursor + 1 == |s.b.stream| && s.b.stream[s.b.cursor].id == m.id
    && CheckDeadline(env, s.b.stream[s.b.cursor].deadline, now) == InTime && Retries(s, m.id) == k
  }

  lemma ReadyAtFirst(env: Env, m: TaskMessage, now: int)
    requires CheckDeadline(env, Stamped(env, m, now).deadline, now) == InTime
    ensures Ready(env, [Publishing(m, now)], m, 0, now)
  {
    FreshRun(env, m, now);
  }

  lemma ReadyToFail(env: Env, acts: seq<Action>, m: TaskMessage, k: nat, w: string, now: int)
    requires Ready(env, acts, m, k, now)
    ensures AboutToFail(env, acts + [Claiming(w, now)], m, w)
    ensures Retries(Run(env, Init(), acts + [Claiming(w, now)]).value, m.id) == k
    ensures var s, t := Run(env, Init(), acts).value, Run(env, Init(), acts + [Claiming(w, now)]).value;
            t.workers.Keys == {w} && t.log == [m] && t.b.cursor == |t.b.stream| && t.b.stream == s.b.stream
  {
    var s := Run(env, Init(), acts).value;
    ReachableInv(env, acts);
    RunNext(env, Init(), acts, s, Claiming(w, now));
    OneClaim(env, s.b, w, now);
    CountAppend([], m, OfTask(m.id));
    assert [] + [m] == [m];
  }

  lemma ReadyAgain(env: Env, acts: seq<Action>, m: TaskMessage, k: nat, w: string, now: int)
    requires Faithful(env) && Ready(env, acts, m, k, now) && k < 3
    ensures Ready(env, acts + [Claiming(w, now)] + [Failing(w, "", now)], m, k + 1, now)
  {
    var more := acts + [Claiming(w, now)];
    ReadyToFail(env, acts, m, k, w, now);
    ReachableInv(env, more);
    var c := Run(env, Init(), more).value;
    RunNext(env, Init(), more, c, Failing(w, "", now));
    FreshInTime(env, RetryMessage(Record(c.b, m.id), m.id), now);
    assert (c.workers - {w}).Keys == {};
    assert c.workers - {w} == map[];
  }

  lemma {:induction false} FailedTimes(env: Env, m: TaskMessage, k: nat, w: string, now: int)
      returns (acts: seq<Action>)
    requires Faithful(env) && CheckDeadline(env, Stamped(env, m, now).deadline, now) == InTime && k <= 3
    ensures Ready(env, acts, m, k, now)
  {
    if k == 0 {
      acts := [Publishing(m, now)];
      ReadyAtFirst(env, m, now);
    } else {
      var before := FailedTimes(env, m, k - 1, w, now);
      ReadyAgain(env, before, m, k - 1, w, now);
      acts := before + [Claiming(w, now)] + [Failing(w, "", now)];
    }
  }

  lemma FixedLimit(env: Env, acts: seq<Action>, m: TaskMessage, w: string, why: string, now: int)
    requires AboutToFail(env, acts, m, w)
    ensures var s := Run(env, Init(), acts).value; Requeues(env, s, w, why, now) <==> Retries(s, m.id) < 3
  {}

  /** The limit a message is published with is never stored, so it is honoured exactly when
      it happens to be three: below that a task is retried too often, above it too rarely. */
  lemma LimitHonouredExactly(env: Env, m: TaskMessage, w: string, now: int)
    requires Faithful(env) && CheckDeadline(env, Stamped(env, m, now).deadline, now) == InTime
    ensures HonoursLimit(env, m) <==> m.limit == 3
  {
    if m.limit == 3 {
      forall acts: seq<Action>, v: string, why: string, at: int | AboutToFail(env, acts, m, v)
        ensures var s := Run(env, Init(), acts).value; Requeues(env, s, v, why, at) <==> Retries(s, m.id) < m.limit
      {
        FixedLimit(env, acts, m, v, why, at);
      }
    } else {
      var k := if m.limit < 0 then 0 else if m.limit < 3 then m.limit else 3;
      var acts := FailedTimes(env, m, k, w, now);
      ReadyToFail(env, acts, m, k, w, now);
      var more := acts + [Claiming(w, now)];
      FixedLimit(env, more, m, w, "", now);
      assert Requeues(env, Run(env, Init(), more).value, w, "", now) <==> k < 3;
    }
  }

  /** Such a run: published with limit 0, failed once, and on the stream again. */
  lemma NoRetriesWanted(env: Env, m: TaskMessage, w: string, now: int)
    requires Faithful(env) && m.deadline == "" && m.limit == 0
    ensures Ready(env, [Publishing(m, now)] + [Claiming(w, now)] + [Failing(w, "", now)], m, 1, now)
  {
    FreshInTime(env, m, now);
    ReadyAtFirst(env, m, now);
    ReadyAgain(env, [Publishing(m, now)], m, 0, w, now);
  }

  // ---------- Failures after a completion ----------

  /** What a failure reported after the completion would lead to: the entry stays completed. */
  function LateFailure(env: Env, s: System, w: string, why: string, now: int): System
    requires w in s.workers
  {
    var h := s.workers[w];
    s.(b := Fail(env, s.b, h.task.id, why, Some(h.msg), now),
       workers := s.workers - {w},
       tokens := if Retries(s, h.task.id) < MAX_RETRIES then s.tokens + [Token(h.task.id, Undelivered)] else s.tokens)
  }

  /** Why no failure may follow a completion: the books would not balance. While
      retries are left the finished task is queued once more, so that more entries are live
      than were published; otherwise it gets a dead letter although it was completed. */
  lemma LateFailureDuplicates(env: Env, s: System, w: string, why: string, now: int)
    requires Inv(s) && w in s.workers && s.workers[w].phase == Finished
    ensures var t, id := LateFailure(env, s, w, why, now), s.workers[w].task.id;
            && t.tokens[s.workers[w].msg] == Token(id, Completed)
            && (|t.b.stream| > |s.b.stream| <==> Retries(s, id) < 3)
            && (Count(t.tokens, LiveToken(id)) == Publishes(t, id) + 1 <==> Retries(s, id) < 3)
            && (Count(t.b.dlq, LetterOf(id)) == Count(t.tokens, DeadToken(id)) + 1 <==> Retries(s, id) >= 3)
            && !Balanced(t, id)
  {
    var id, h := s.workers[w].task.id, s.workers[w];
    assert Holding(s, w);
    assert Balanced(s, id);
    CountAppend(s.tokens, Token(id, Undelivered), LiveToken(id));
    CountAppend(s.tokens, Token(id, Undelivered), DeadToken(id));
    LiveIsPublished(s, h.msg);
    CountAppend(s.b.dlq, DeadLetter(Stamped(env, MessageOf(Record(s.b, id)), now), h.msg, why, now), LetterOf(id));
  }

  /** The state after the completion, in which w has only to acknowledge the entry. */
  ghost predicate FinishedAt(env: Env, acts: seq<Action>, s: System, id: string, w: string)
  {
    && Run(env, Init(), acts) == Some(s) && Inv(s)
    && w in s.workers && s.workers[w].msg == 0 && s.workers[w].task.id == id && s.workers[w].phase == Finished
    && |s.b.stream| == 1 && s.b.cursor == 1 && Retries(s, id) == 0
  }

  lemma CompletedAt(env: Env, acts: seq<Action>, s: System, m: TaskMessage, w: string, now: int, outcome: Json)
    requires At(env, acts, s, m, w, now, Running)
    ensures FinishedAt(env, acts + [Completing(w, outcome, now)], Step(env, s, Completing(w, outcome, now)), m.id, w)
  {
    RunNext(env, Init(), acts, s, Completing(w, outcome, now));
    CompleteKeepsInv(env, s, w, outcome, now);
  }

  ghost predicate FinishedAgain(s: System, id: string)
  {
    && s.tokens == [Token(id, Completed), Token(id, Undelivered)]
    && s.b.cursor == 1 && |s.b.stream| == 2 && s.b.stream[1].id == id && !Balanced(s, id)
  }

  lemma LateFailureAt(env: Env, acts: seq<Action>, s: System, id: string, w: string, why: string, now: int)
    requires FinishedAt(env, acts, s, id, w)
    ensures FinishedAgain(LateFailure(env, s, w, why, now), id)
  {
    assert Holding(s, w);
    LateFailureDuplicates(env, s, w, why, now);
  }

  /** Such a run: published, diagnosed, completed, and failed late: the finished task is on
      the stream again. */
  lemma FinishedTaskReturns(env: Env, m: TaskMessage, w: string, now: int, outcome: Json, why: string)
    requires Faithful(env) && m.deadline == ""
    ensures var acts := [Publishing(m, now)] + Preparing(w, now) + [Starting(w, now)] + [Completing(w, outcome, now)];
            && Run(env, Init(), acts).Some?
            && var s := Run(env, Init(), acts).value;
            && w in s.workers && s.workers[w].phase == Finished
            && FinishedAgain(LateFailure(env, s, w, why, now), m.id)
  {
    FreshRun(env, m, now);
    var p := PreparedAt(env, [Publishing(m, now)], Fresh(env, m, now), m, w, now);
    var acts := [Publishing(m, now)] + Preparing(w, now) + [Starting(w, now)];
    var r := StartedAt(env, [Publishing(m, now)] + Preparing(w, now), p, m, w, now);
    CompletedAt(env, acts, r, m, w, now, outcome);
    LateFailureAt(env, acts + [Completing(w, outcome, now)], Step(env, r, Completing(w, outcome, now)), m.id, w, why,
                  now);
  }
}
