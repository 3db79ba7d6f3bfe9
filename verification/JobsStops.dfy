/**
 The operator's STOP: a cancelled receipt says that nothing was dispatched. When that is true
 of every later run, and a run in which it is not.
 */
module JobsStops {
  import opened Wrappers
  import opened Jobs
  import opened JobsInvariant
  import opened JobsFrames
  import opened JobsSafety
  import opened JobsSchedules
  import opened JobsRedelivery
  import opened JobsRaces

  predicate IsCancelledAnswer(e: Event) {
    e.HostAnswered? && e.host.body.CancelledBeforeDispatch?
  }

  /** The audit ran, and some delivery was told that nothing was dispatched. */
  predicate Misreports(log: seq<Event>) {
    !AuditFree(log) && exists j :: 0 <= j < |log| && IsCancelledAnswer(log[j])
  }

  /** No delivery has claimed the directory and is about to audit. */
  predicate NobodyIsClaiming(s: Job) {
    forall k :: k in s.clients ==> !s.clients[k].phase.Claimed?
  }

  /** The one delivery to ask is the claimant. */
  predicate ClaimantIsNotClaiming(s: Job) {
    s.claimedBy.Some? && s.claimedBy.value in s.clients ==> !s.clients[s.claimedBy.value].phase.Claimed?
  }

  lemma OnlyTheClaimantClaims(jobId: string, acts: seq<Action>)
    ensures NobodyIsClaiming(Run(jobId, acts)) <==> ClaimantIsNotClaiming(Run(jobId, acts))
  {
    var s := Run(jobId, acts);
    AnyRunKeepsInv(jobId, acts);
    forall k | k in s.clients && s.clients[k].phase.Claimed? ensures s.claimedBy == Some(k) {
      assert ClientOk(RequestsOf(acts), s, k, s.clients[k]);
    }
  }

  // ----- No audit any more -----

  /** The directory is there, no audit has run, and none can. */
  ghost predicate Barred(s: Job) {
    s.present && AuditFree(s.log) && NobodyIsClaiming(s)
  }

  lemma QuietStaysAuditFree(log: seq<Event>, log': seq<Event>)
    requires AuditFree(log) && GrowsQuietly(log, log')
    ensures AuditFree(log')
  {
    forall i | 0 <= i < |log'| ensures !log'[i].AuditRan? {
      if i < |log| {
        assert log'[i] == log'[..|log|][i] || log' == log;
      }
    }
  }

  lemma BarredStays(s: Job, s': Job, k: nat)
    requires Barred(s) && ClientStep(s, s', k)
    ensures Barred(s')
  {
    StepRunsNoAudit(s, s', k);
    QuietStaysAuditFree(s.log, s'.log);
  }

  lemma StepKeepsBarred(jobId: string, s: Job, a: Action)
    requires Barred(s)
    ensures Barred(Step(jobId, s, a))
  {
    if a.Advance? && a.k in s.clients {
      AdvanceFrames(s, a.k, a.env);
      if AdvanceClient(s, a.k, a.env) != s {
        BarredStays(s, AdvanceClient(s, a.k, a.env), a.k);
      }
    }
  }

  lemma {:induction false} RunsStayBarred(jobId: string, s: Job, more: seq<Action>)
    requires Barred(s)
    ensures Barred(RunFrom(jobId, s, more))
  {
    if more != [] {
      RunsStayBarred(jobId, s, more[..|more| - 1]);
      StepKeepsBarred(jobId, RunFrom(jobId, s, more[..|more| - 1]), more[|more| - 1]);
    }
  }

  // ----- An audit and a cancelled answer -----

  lemma {:induction false} FreshClient(clients: set<nat>) returns (k: nat)
    ensures forall j :: j in clients ==> j < k
  {
    k := 0;
    if clients != {} {
      var j :| j in clients;
      var above := FreshClient(clients - {j});
      k := if above <= j then j + 1 else above;
      forall i | i in clients ensures i < k {
        assert i == j || i in clients - {j};
      }
    }
  }

  function Granted(): Env {
    Env(Placement(["checkout"], [], []), true, true, AuditFails, true)
  }

  /** With a STOP file and no visible host receipt, a fresh delivery is told it was cancelled. */
  lemma StopCancels(jobId: string, s: Job, k: nat, r: HostRequest)
    requires s.present && s.stop && VisibleHost(s).None? && k !in s.clients && r.jobId == jobId && ValidHost(r)
    requires s.hostTmp.Some? ==> s.hostTmp.value < |s.inodes|
    ensures var s1 := Step(jobId, s, Deliver(k, HostDelivery(r)));
            EndsIn(jobId, s1, k, Granted(), HostReturned(SealHost(CancelledBeforeDispatch(r)), false))
  {
    var s1 := Step(jobId, s, Deliver(k, HostDelivery(r)));
    var h := SealHost(CancelledBeforeDispatch(r));
    StopReachesOpening(jobId, s1, k, r, Granted());
    OpeningPublishes(jobId, s1, Moved(s1, k, HostOpening(h, false)), k, r, Granted(), h, false);
  }

  lemma CancelledAnswerIsLogged(log: seq<Event>, k: nat, r: HostRequest)
    requires IsLogged(log, k, HostReturned(SealHost(CancelledBeforeDispatch(r)), false))
    ensures log != [] && IsCancelledAnswer(log[|log| - 1])
  {
  }

  lemma AuditAndCancelMisreport(log: seq<Event>, log': seq<Event>)
    requires !AuditFree(log) && log <= log' && log' != [] && IsCancelledAnswer(log'[|log'| - 1])
    ensures Misreports(log')
  {
    var i :| 0 <= i < |log| && log[i].AuditRan?;
    assert log'[i] == log[i];
  }

  lemma RunToEnd(jobId: string, s: Job, k: nat, env: Env, phase: Phase) returns (more: seq<Action>)
    requires EndsIn(jobId, s, k, env, phase)
    ensures s.log <= RunFrom(jobId, s, more).log && IsLogged(RunFrom(jobId, s, more).log, k, phase)
  {
    var s' :| Reaches(jobId, Alone(k, env), s, s') && s.log <= s'.log && IsLogged(s'.log, k, phase);
    more :| AllFit(Alone(k, env), more) && RunFrom(jobId, s, more) == s';
  }

  lemma CancelledEndMisreports(log: seq<Event>, log': seq<Event>, k: nat, r: HostRequest)
    requires !AuditFree(log) && log <= log'
    requires IsLogged(log', k, HostReturned(SealHost(CancelledBeforeDispatch(r)), false))
    ensures Misreports(log')
  {
    CancelledAnswerIsLogged(log', k, r);
    AuditAndCancelMisreport(log, log');
  }

  /** The delivery that STOP cancels, run to its end. */
  lemma StopCancelsRun(jobId: string, s: Job, k: nat, r: HostRequest) returns (more: seq<Action>)
    requires s.present && s.stop && VisibleHost(s).None? && k !in s.clients && r.jobId == jobId && ValidHost(r)
    requires s.hostTmp.Some? ==> s.hostTmp.value < |s.inodes|
    ensures var log' := RunFrom(jobId, Step(jobId, s, Deliver(k, HostDelivery(r))), more).log;
            s.log <= log' && IsLogged(log', k, HostReturned(SealHost(CancelledBeforeDispatch(r)), false))
  {
    StopCancels(jobId, s, k, r);
    more := RunToEnd(jobId, Step(jobId, s, Deliver(k, HostDelivery(r))), k, Granted(),
                     HostReturned(SealHost(CancelledBeforeDispatch(r)), false));
  }

  lemma TmpIsInRange(jobId: string, acts: seq<Action>)
    ensures var s := Run(jobId, acts); s.hostTmp.Some? ==> s.hostTmp.value < |s.inodes|
  {
    AnyRunKeepsInv(jobId, acts);
  }

  /** A misreport that follows a longer run follows the shorter one. */
  lemma MisreportFollows(jobId: string, acts: seq<Action>, next: seq<Action>, more: seq<Action>)
    requires Misreports(RunFrom(jobId, Run(jobId, acts + next), more).log)
    ensures Misreports(Run(jobId, acts + (next + more)).log)
  {
    RunFromConcat(jobId, EMPTY, acts + next, more);
    assert acts + next + more == acts + (next + more);
  }

  /** Once an audit has run and STOP stands with no receipt visible, a misreport is one delivery away. */
  lemma AuditedStopMisreports(jobId: string, acts: seq<Action>, r: HostRequest)
    requires var s := Run(jobId, acts); s.present && s.stop && VisibleHost(s).None? && !AuditFree(s.log)
    requires r.jobId == jobId && ValidHost(r)
    ensures exists more :: Misreports(Run(jobId, acts + more).log)
  {
    var s := Run(jobId, acts);
    TmpIsInRange(jobId, acts);
    var k := FreshClient(s.clients.Keys);
    var d := Deliver(k, HostDelivery(r));
    var more := StopCancelsRun(jobId, s, k, r);
    CancelledEndMisreports(s.log, RunFrom(jobId, Step(jobId, s, d), more).log, k, r);
    NextStep(jobId, acts, d);
    MisreportFollows(jobId, acts, [d], more);
  }

  /** A delivery at its claim audits although STOP has been placed. */
  lemma ClaimantAuditsAfterStop(jobId: string, acts: seq<Action>, k: nat)
    requires k in Run(jobId, acts).clients && Run(jobId, acts).clients[k].phase.Claimed?
    ensures var s, s' := Run(jobId, acts), Run(jobId, acts + [Advance(k, Granted())]);
            && s'.stop == s.stop && s'.present == s.present && VisibleHost(s') == VisibleHost(s)
            && !AuditFree(s'.log)
  {
    var s := Run(jobId, acts);
    NextStep(jobId, acts, Advance(k, Granted()));
    assert AdvanceClient(s, k, Granted()) == RunAudit(s, k, Granted().audit);
    assert RunAudit(s, k, Granted().audit).log[|s.log|].AuditRan?;
  }

  /** A delivery at its claim audits after the STOP, and another is then told that it was cancelled. */
  lemma ClaimantMisreports(jobId: string, acts: seq<Action>, k: nat, r: HostRequest)
    requires var s := Run(jobId, acts); s.present && s.stop && VisibleHost(s).None?
    requires k in Run(jobId, acts).clients && Run(jobId, acts).clients[k].phase.Claimed?
    requires r.jobId == jobId && ValidHost(r)
    ensures exists more :: Misreports(Run(jobId, acts + more).log)
  {
    var next := [Advance(k, Granted())];
    ClaimantAuditsAfterStop(jobId, acts, k);
    AuditedStopMisreports(jobId, acts + next, r);
    var more: seq<Action> :| Misreports(Run(jobId, acts + next + more).log);
    assert acts + next + more == acts + (next + more);
  }

  lemma StopMisreports(jobId: string, acts: seq<Action>, r: HostRequest)
    requires VisibleHost(Run(jobId, acts)).None? && r.jobId == jobId && ValidHost(r)
    requires !(AuditFree(Run(jobId, acts).log) && NobodyIsClaiming(Run(jobId, acts)))
    ensures exists more :: Misreports(Run(jobId, acts + [PlaceStop] + more).log)
  {
    var stopped := acts + [PlaceStop];
    NextStep(jobId, acts, PlaceStop);
    if !AuditFree(Run(jobId, acts).log) {
      AuditedStopMisreports(jobId, stopped, r);
    } else {
      var k :| k in Run(jobId, acts).clients && Run(jobId, acts).clients[k].phase.Claimed?;
      ClaimantMisreports(jobId, stopped, k, r);
    }
  }

  /** After this STOP no run ever has both an audit and an answer that nothing was dispatched. */
  ghost predicate StopIsTruthful(jobId: string, acts: seq<Action>) {
    forall more :: !Misreports(Run(jobId, acts + [PlaceStop] + more).log)
  }

  /**
   Placed while no host receipt is visible, STOP keeps every later cancelled answer truthful
   exactly when no audit has run and the claimant, if any, is not about to run it.
   */
  lemma StopIsTruthfulIff(jobId: string, acts: seq<Action>, r: HostRequest)
    requires VisibleHost(Run(jobId, acts)).None? && r.jobId == jobId && ValidHost(r)
    ensures StopIsTruthful(jobId, acts) <==>
            AuditFree(Run(jobId, acts).log) && ClaimantIsNotClaiming(Run(jobId, acts))
  {
    var s := Run(jobId, acts);
    OnlyTheClaimantClaims(jobId, acts);
    if AuditFree(s.log) && NobodyIsClaiming(s) {
      NextStep(jobId, acts, PlaceStop);
      forall more ensures !Misreports(Run(jobId, acts + [PlaceStop] + more).log) {
        RunFromConcat(jobId, EMPTY, acts + [PlaceStop], more);
        RunsStayBarred(jobId, Run(jobId, acts + [PlaceStop]), more);
      }
    } else {
      StopMisreports(jobId, acts, r);
    }
  }

  /** A run in which it is not: the task receipt is published, then STOP is placed. */
  lemma PublishedThenStopped(jobId: string, r: HostRequest)
    requires SameTask(jobId, r, r)
    ensures exists acts, more ::
              && NoStops(acts) && Run(jobId, acts).receipt.Some?
              && Misreports(Run(jobId, acts + [PlaceStop] + more).log)
  {
    var s := Published(r, r, TaskDone(AuditedReceipt(r), false), HostStart, None, None, []);
    FirstPublishes(jobId, r, r);
    var acts: seq<Action> :| AllFit(Pair(r, r), acts) && RunFrom(jobId, EMPTY, acts) == s;
    forall i | 0 <= i < |acts| ensures !acts[i].PlaceStop? {
      assert Fits(Pair(r, r), acts[i]);
    }
    assert s.log[0].AuditRan?;
    StopMisreports(jobId, acts, r);
  }
}
