/** What one uninterrupted round of a worker leaves behind, by how its agent ends
    (python/app/worker/diagnosis_worker.py). */
module WorkerRounds {
  import opened Collections
  import opened TaskMessages
  import opened Broker
  import opened Deadlines
  import opened WorkerProtocol
  import opened WorkerSteps
  import opened WorkerDrain
  import D = WorkerDeadlines
  import opened W = DiagnosisWorker

  /** The worker holds the next entry of s in the given phase, and nothing happened to it. */
  ghost predicate Ready(s: System, t: System, w: string, phase: Phase)
    requires s.b.cursor < |s.b.stream|
  {
    var i, m := s.b.cursor, s.b.stream[s.b.cursor];
    && Inv(t) && t.workers == s.workers[w := Hold(i, m, phase)] && i in t.b.pending
    && m.id in t.b.records && t.b.records[m.id].state == CLAIMED
    && t.b.stream == s.b.stream && t.b.dlq == s.b.dlq && Retries(t, m.id) == Retries(s, m.id)
  }

  lemma ClaimRetries(env: Env, s: System, w: string, now: int)
    requires Inv(s) && w !in s.workers && s.b.cursor < |s.b.stream|
    ensures var id := s.b.stream[s.b.cursor].id; Retries(Step(env, s, Claiming(w, now)), id) == Retries(s, id)
  {
    OneClaim(env, s.b, w, now);
  }

  lemma ClaimReady(env: Env, s: System, w: string, now: int)
    requires Inv(s) && w !in s.workers && s.b.cursor < |s.b.stream| && IsClaimable(env, s.b.stream[s.b.cursor], now)
    ensures Ready(s, Step(env, s, Claiming(w, now)), w, Checking)
  {
    D.ClaimedByDeadline(env, s, w, now);
    ClaimRetries(env, s, w, now);
    ClaimKeepsInv(env, s, w, now);
  }

  lemma PhaseReady(s: System, t: System, w: string, from: Phase, phase: Phase)
    requires s.b.cursor < |s.b.stream| && Ready(s, t, w, from) && from != Finished && phase != Finished
    ensures Ready(s, Phased(t, w, phase), w, phase)
  {
    PhaseKeepsInv(t, w, phase);
  }

  /** The steps of a worker up to its agent. */
  function ToAgent(w: string, clock: Clock): seq<Action>
  {
    [Claiming(w, clock.claimed)] + [CheckingCancelled(w)] + [CheckingDeadline(w, clock.checked)] +
      [Starting(w, clock.started)]
  }

  lemma StepReady(env: Env, s: System, first: System, acts: seq<Action>, t: System, a: Action, w: string, from: Phase,
                  phase: Phase)
    requires s.b.cursor < |s.b.stream| && Reached(env, first, acts, t) && Ready(s, t, w, from)
    requires from != Finished && phase != Finished && Enabled(t, a) && Step(env, t, a) == Phased(t, w, phase)
    ensures Reached(env, first, acts + [a], Phased(t, w, phase)) && Ready(s, Phased(t, w, phase), w, phase)
  {
    ReachesNext(env, first, acts, t, a);
    PhaseReady(s, t, w, from, phase);
  }

  lemma Prepares(env: Env, s: System, c: System, w: string, clock: Clock)
    requires s.b.cursor < |s.b.stream| && Ready(s, c, w, Checking)
    requires Reached(env, s, [Claiming(w, clock.claimed)], c)
    requires WorkerInTime(env, s.b.stream[s.b.cursor].deadline, clock.checked)
    ensures var p, claim := Phased(Phased(c, w, Vetted), w, Prepared), Claiming(w, clock.claimed);
            Reached(env, s, [claim] + [CheckingCancelled(w)] + [CheckingDeadline(w, clock.checked)], p) &&
              Ready(s, p, w, Prepared)
  {
    var claim, check, late := Claiming(w, clock.claimed), CheckingCancelled(w), CheckingDeadline(w, clock.checked);
    StepReady(env, s, s, [claim], c, check, w, Checking, Vetted);
    StepReady(env, s, s, [claim] + [check], Phased(c, w, Vetted), late, w, Vetted, Prepared);
  }

  lemma Starts(env: Env, s: System, w: string, clock: Clock) returns (t: System)
    requires Inv(s) && w !in s.workers && s.b.cursor < |s.b.stream|
    requires IsClaimable(env, s.b.stream[s.b.cursor], clock.claimed)
    requires WorkerInTime(env, s.b.stream[s.b.cursor].deadline, clock.checked)
    ensures Reached(env, s, ToAgent(w, clock), t) && Ready(s, t, w, Running)
  {
    var claim, check, late := Claiming(w, clock.claimed), CheckingCancelled(w), CheckingDeadline(w, clock.checked);
    var c := Step(env, s, claim);
    ClaimReady(env, s, w, clock.claimed);
    ReachesOne(env, s, claim);
    Prepares(env, s, c, w, clock);
    var p := Phased(Phased(c, w, Vetted), w, Prepared);
    StepReady(env, s, s, [claim] + [check] + [late], p, Starting(w, clock.started), w, Prepared, Running);
    t := Phased(p, w, Running);
  }

  ghost predicate Completes(s: System, t: System, w: string, result: Json)
    requires s.b.cursor < |s.b.stream|
  {
    var i, id := s.b.cursor, s.b.stream[s.b.cursor].id;
    && w !in t.workers && i !in t.b.pending && |t.b.stream| == |s.b.stream| && t.b.dlq == s.b.dlq
    && id in t.b.records && t.b.records[id].state == COMPLETED && t.b.records[id].outcome == Some(result)
  }

  ghost predicate GivesBack(s: System, t: System, w: string, why: string)
    requires s.b.cursor < |s.b.stream|
  {
    var i, id := s.b.cursor, s.b.stream[s.b.cursor].id;
    && w !in t.workers && i in t.b.pending
    && id in t.b.records && t.b.records[id].failure == Some(why)
    && (if Retries(s, id) < 3
        then t.b.records[id].state == RETRYING && |t.b.stream| == |s.b.stream| + 1 && t.b.dlq == s.b.dlq
        else t.b.records[id].state == FAILED && |t.b.stream| == |s.b.stream| && |t.b.dlq| == |s.b.dlq| + 1)
  }

  lemma CompletedAndAcked(env: Env, s: System, r: System, w: string, result: Json, now: int)
    requires s.b.cursor < |s.b.stream| && Ready(s, r, w, Running)
    ensures var c := Step(env, r, Completing(w, result, now));
            && Inv(c) && Enabled(c, AckingFinished(w))
            && Completes(s, Step(env, c, AckingFinished(w)), w, result)
  {
    CompleteKeepsInv(env, r, w, result, now);
  }

  lemma FailedAndGivenBack(env: Env, s: System, r: System, w: string, why: string, now: int)
    requires s.b.cursor < |s.b.stream| && Ready(s, r, w, Running)
    ensures GivesBack(s, Step(env, r, Failing(w, why, now)), w, why)
  {}

  /** An uninterrupted round on an entry that is in time: when the agent succeeds, the task is
      recorded as completed with its result and the entry acknowledged; when it throws or
      is interrupted, the reason is recorded, and the task queued again while retries are
      left and given up with a dead letter otherwise. */
  lemma RoundEnds(env: Env, s: System, w: string, clock: Clock, outcome: Outcome)
    requires Inv(s) && w !in s.workers && s.b.cursor < |s.b.stream| && !outcome.Unreadable?
    requires IsClaimable(env, s.b.stream[s.b.cursor], clock.claimed)
    requires WorkerInTime(env, s.b.stream[s.b.cursor].deadline, clock.checked)
    ensures var acts := Round(env, s, w, clock, outcome);
            && Run(env, s, acts).Some?
            && var t := Run(env, s, acts).value;
               match outcome
               case Succeeds(result) => Completes(s, t, w, result)
               case Throws(why) => GivesBack(s, t, w, why)
               case _ => GivesBack(s, t, w, "Task cancelled")
  {
    var r := Starts(env, s, w, clock);
    RoundSteps(env, s, w, clock, outcome);
    if outcome.Succeeds? {
      SuccessEnds(env, s, ToAgent(w, clock), r, w, outcome.result, clock.ended);
    } else {
      FailureEnds(env, s, ToAgent(w, clock), r, w, if outcome.Throws? then outcome.why
                  else "Task cancelled", clock.ended);
    }
  }

  lemma ReachesBoth(env: Env, s: System, acts: seq<Action>, t: System, a: Action, b: Action)
    requires Reached(env, s, acts, t) && Enabled(t, a) && Inv(Step(env, t, a)) && Enabled(Step(env, t, a), b)
    ensures Reached(env, s, acts + [a] + [b], Step(env, Step(env, t, a), b))
  {
    ReachesNext(env, s, acts, t, a);
    ReachesNext(env, s, acts + [a], Step(env, t, a), b);
  }

  lemma SuccessEnds(env: Env, s: System, acts: seq<Action>, r: System, w: string, result: Json, now: int)
    requires s.b.cursor < |s.b.stream| && Reached(env, s, acts, r) && Ready(s, r, w, Running)
    ensures var all := acts + ([Completing(w, result, now)] + [AckingFinished(w)]);
            Run(env, s, all).Some? && Completes(s, Run(env, s, all).value, w, result)
  {
    var c := Step(env, r, Completing(w, result, now));
    CompletedAndAcked(env, s, r, w, result, now);
    ReachesBoth(env, s, acts, r, Completing(w, result, now), AckingFinished(w));
    assert acts + [Completing(w, result, now)] + [AckingFinished(w)] ==
           acts + ([Completing(w, result, now)] + [AckingFinished(w)]);
  }

  lemma FailureEnds(env: Env, s: System, acts: seq<Action>, r: System, w: string, why: string, now: int)
    requires s.b.cursor < |s.b.stream| && Reached(env, s, acts, r) && Ready(s, r, w, Running)
    ensures var all := acts + [Failing(w, why, now)];
            Run(env, s, all).Some? && GivesBack(s, Run(env, s, all).value, w, why)
  {
    FailedAndGivenBack(env, s, r, w, why, now);
    ReachesNext(env, s, acts, r, Failing(w, why, now));
  }

  /** The steps of the round, written out. */
  lemma RoundSteps(env: Env, s: System, w: string, clock: Clock, outcome: Outcome)
    requires Inv(s) && w !in s.workers && s.b.cursor < |s.b.stream| && !outcome.Unreadable?
    requires IsClaimable(env, s.b.stream[s.b.cursor], clock.claimed)
    requires WorkerInTime(env, s.b.stream[s.b.cursor].deadline, clock.checked)
    ensures Round(env, s, w, clock, outcome) == ToAgent(w, clock) +
              (match outcome
               case Succeeds(result) => [Completing(w, result, clock.ended)] + [AckingFinished(w)]
               case Throws(why) => [Failing(w, why, clock.ended)]
               case _ => [Failing(w, "Task cancelled", clock.ended)])
  {
    ClaimReady(env, s, w, clock.claimed);
  }
}
