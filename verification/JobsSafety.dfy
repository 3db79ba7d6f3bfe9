/** The guarantees of the job protocol over every run of deliveries and crashes. */
module JobsSafety {
  import opened Wrappers
  import opened Jobs
  import opened JobsInvariant
  import opened JobsFrames

  function RequestsOf(acts: seq<Action>): set<HostRequest> {
    set i | 0 <= i < |acts| && acts[i].Deliver? && acts[i].delivery.HostDelivery? :: acts[i].delivery.request
  }

  predicate NoStops(acts: seq<Action>) {
    forall i :: 0 <= i < |acts| ==> !acts[i].PlaceStop?
  }

  lemma AnyRunKeepsInv(jobId: string, acts: seq<Action>)
    ensures Inv(RequestsOf(acts), Run(jobId, acts))
  {
    RunsKeepInv(RequestsOf(acts), jobId, acts);
  }

  // ----- The task -----

  /** Under any interleaving of deliveries and crashes the audit runs at most once. */
  lemma AuditRunsAtMostOnce(jobId: string, acts: seq<Action>, i: nat, j: nat)
    requires i < j < |Run(jobId, acts).log|
    ensures !(Run(jobId, acts).log[i].AuditRan? && Run(jobId, acts).log[j].AuditRan?)
  {
    AnyRunKeepsInv(jobId, acts);
  }

  /** All successful task returns carry one request and one receipt, the published one. */
  lemma TaskAnswersAgree(jobId: string, acts: seq<Action>, i: nat, j: nat)
    requires i < |Run(jobId, acts).log| && j < |Run(jobId, acts).log|
    requires Run(jobId, acts).log[i].TaskAnswered? && Run(jobId, acts).log[j].TaskAnswered?
    ensures Run(jobId, acts).log[i].task == Run(jobId, acts).log[j].task
    ensures Run(jobId, acts).log[i].receipt == Run(jobId, acts).log[j].receipt
    ensures Run(jobId, acts).receipt == Some(Whole(Run(jobId, acts).log[i].receipt))
  {
    var s := Run(jobId, acts);
    AnyRunKeepsInv(jobId, acts);
    assert EventOk(RequestsOf(acts), s, s.log[i]) && EventOk(RequestsOf(acts), s, s.log[j]);
  }

  lemma ReceiptStays(allowed: set<HostRequest>, s: Job, s': Job, k: nat)
    requires ClientStep(s, s', k) && ClientOk(allowed, s, k, s.clients[k]) && s.receipt.Some?
    ensures s'.receipt == s.receipt
  {
  }

  lemma RunFromConcat(jobId: string, s: Job, a: seq<Action>, b: seq<Action>)
    ensures RunFrom(jobId, s, a + b) == RunFrom(jobId, RunFrom(jobId, s, a), b)
    decreases |b|
  {
    if b == [] {
      assert a + b == a;
    } else {
      RunFromConcat(jobId, s, a, b[..|b| - 1]);
      assert (a + b)[..|a + b| - 1] == a + b[..|b| - 1];
    }
  }

  lemma NextStep(jobId: string, acts: seq<Action>, a: Action)
    ensures Run(jobId, acts + [a]) == Step(jobId, Run(jobId, acts), a)
  {
    assert (acts + [a])[..|acts + [a]| - 1] == acts;
  }

  lemma StepKeepsReceipt(jobId: string, acts: seq<Action>, a: Action)
    requires Run(jobId, acts).receipt.Some?
    ensures Step(jobId, Run(jobId, acts), a).receipt == Run(jobId, acts).receipt
  {
    AnyRunKeepsInv(jobId, acts);
    if a.Advance? && a.k in Run(jobId, acts).clients {
      var s := Run(jobId, acts);
      AdvanceFrames(s, a.k, a.env);
      if AdvanceClient(s, a.k, a.env) != s {
        ReceiptStays(RequestsOf(acts), s, AdvanceClient(s, a.k, a.env), a.k);
      }
    }
  }

  lemma ReceiptIsSealed(jobId: string, acts: seq<Action>)
    requires Run(jobId, acts).receipt.Some?
    ensures var c := Run(jobId, acts).receipt.value; c.Whole? && c.value.digest == c.value.body
  {
    AnyRunKeepsInv(jobId, acts);
  }

  /** receipt.json appears whole, sealed and for good. */
  lemma {:induction false} ReceiptNeverChanges(jobId: string, acts: seq<Action>, more: seq<Action>)
    requires Run(jobId, acts).receipt.Some?
    ensures Run(jobId, acts + more).receipt == Run(jobId, acts).receipt
    ensures var c := Run(jobId, acts).receipt.value; c.Whole? && c.value.digest == c.value.body
    decreases |more|
  {
    ReceiptIsSealed(jobId, acts);
    if more == [] {
      assert acts + more == acts;
    } else {
      var init, a := more[..|more| - 1], more[|more| - 1];
      ReceiptNeverChanges(jobId, acts, init);
      assert acts + more == (acts + init) + [a];
      NextStep(jobId, acts + init, a);
      StepKeepsReceipt(jobId, acts + init, a);
    }
  }

  /** A claim whose delivery is over without a receipt. */
  ghost predicate Abandoned(s: Job) {
    && s.claimedBy.Some? && s.claimedBy.value in s.clients
    && IsOver(s.clients[s.claimedBy.value].phase) && s.receipt.None?
  }

  ghost predicate NoAnswerFromTask(s: Job) {
    forall i :: 0 <= i < |s.log| ==>
                  !s.log[i].TaskAnswered? && (s.log[i].HostAnswered? ==> s.log[i].host.body.CancelledBeforeDispatch?)
  }

  lemma UnpublishedMeansNoAnswer(allowed: set<HostRequest>, s: Job)
    requires LogOk(allowed, s) && s.receipt.None?
    ensures NoAnswerFromTask(s)
  {
    forall i | 0 <= i < |s.log|
      ensures !s.log[i].TaskAnswered? && (s.log[i].HostAnswered? ==> s.log[i].host.body.CancelledBeforeDispatch?)
    {
      assert EventOk(allowed, s, s.log[i]);
    }
  }

  /** Only the claimant's own step can publish the receipt. */
  lemma AbandonedStays(allowed: set<HostRequest>, s: Job, s': Job, k: nat)
    requires ClientStep(s, s', k) && ClientOk(allowed, s, k, s.clients[k]) && FilesOk(allowed, s) && Abandoned(s)
    ensures Abandoned(s')
  {
  }

  /** The log is the same, or longer by one event that is not an audit. */
  predicate GrowsQuietly(log: seq<Event>, log': seq<Event>) {
    log' == log || (|log'| == |log| + 1 && log'[..|log|] == log && !log'[|log|].AuditRan?)
  }

  lemma StepRunsNoAudit(s: Job, s': Job, k: nat)
    requires ClientStep(s, s', k) && !s.clients[k].phase.Claimed?
    ensures GrowsQuietly(s.log, s'.log)
  {
    if s'.log != s.log {
      var e :| s'.log == s.log + [e] && MayLog(s.clients[k], k, e);
      assert s'.log[|s.log|] == e && s'.log[..|s.log|] == s.log;
    }
  }

  /** No audit among the events from `start` on. */
  predicate NoAuditFrom(log: seq<Event>, start: nat) {
    start <= |log| && AuditFree(log[start..])
  }

  lemma QuietGrowth(log: seq<Event>, log': seq<Event>, start: nat)
    requires NoAuditFrom(log, start) && GrowsQuietly(log, log')
    ensures NoAuditFrom(log', start)
  {
    forall i | 0 <= i < |log'[start..]| ensures !log'[start..][i].AuditRan? {
      if start + i < |log| {
        assert log'[start + i] == log[start + i] == log[start..][i];
      }
    }
  }

  lemma ClaimantNotOver(allowed: set<HostRequest>, s: Job, k: nat)
    requires k in s.clients && ClientOk(allowed, s, k, s.clients[k]) && Abandoned(s)
    ensures !s.clients[k].phase.Claimed?
  {
  }

  lemma StepKeepsAbandoned(jobId: string, acts: seq<Action>, a: Action, start: nat)
    requires Abandoned(Run(jobId, acts)) && NoAuditFrom(Run(jobId, acts).log, start)
    ensures Abandoned(Step(jobId, Run(jobId, acts), a)) && NoAuditFrom(Step(jobId, Run(jobId, acts), a).log, start)
  {
    var s := Run(jobId, acts);
    AnyRunKeepsInv(jobId, acts);
    if a.Advance? && a.k in s.clients {
      var s' := AdvanceClient(s, a.k, a.env);
      AdvanceFrames(s, a.k, a.env);
      if s' != s {
        ClaimantNotOver(RequestsOf(acts), s, a.k);
        AbandonedStays(RequestsOf(acts), s, s', a.k);
        StepRunsNoAudit(s, s', a.k);
        QuietGrowth(s.log, s'.log, start);
      }
    }
  }

  lemma AbandonedMeansNoAnswer(jobId: string, acts: seq<Action>)
    requires Abandoned(Run(jobId, acts))
    ensures NoAnswerFromTask(Run(jobId, acts))
  {
    AnyRunKeepsInv(jobId, acts);
    UnpublishedMeansNoAnswer(RequestsOf(acts), Run(jobId, acts));
  }

  /** An abandoned claim blocks the directory for ever: no audit again, no answer from it. */
  lemma {:induction false} AbandonedClaimBlocks(jobId: string, acts: seq<Action>, more: seq<Action>)
    requires Abandoned(Run(jobId, acts))
    ensures Abandoned(Run(jobId, acts + more)) && NoAnswerFromTask(Run(jobId, acts + more))
    ensures NoAuditFrom(Run(jobId, acts + more).log, |Run(jobId, acts).log|)
    decreases |more|
  {
    if more == [] {
      assert acts + more == acts;
    } else {
      var init, a := more[..|more| - 1], more[|more| - 1];
      AbandonedClaimBlocks(jobId, acts, init);
      assert acts + more == (acts + init) + [a];
      NextStep(jobId, acts + init, a);
      StepKeepsAbandoned(jobId, acts + init, a, |Run(jobId, acts).log|);
    }
    AbandonedMeansNoAnswer(jobId, acts + more);
  }

  lemma UnclaimedMeansNoAudit(jobId: string, acts: seq<Action>)
    requires Run(jobId, acts).claimedBy.None?
    ensures AuditFree(Run(jobId, acts).log)
  {
    AnyRunKeepsInv(jobId, acts);
    var s := Run(jobId, acts);
    forall i | 0 <= i < |s.log| ensures !s.log[i].AuditRan? {
      assert EventOk(RequestsOf(acts), s, s.log[i]);
    }
  }

  lemma StepKeepsUnclaimed(jobId: string, s: Job, a: Action)
    requires s.present && s.claimedBy.None?
    ensures Step(jobId, s, a).present && Step(jobId, s, a).claimedBy.None?
  {
    if a.Advance? && a.k in s.clients {
      AdvanceFrames(s, a.k, a.env);
    }
  }

  /** A directory that exists without a claim, as an operator's STOP leaves it, is never claimed. */
  lemma {:induction false} UnclaimedDirectoryStaysUnclaimed(jobId: string, acts: seq<Action>, more: seq<Action>)
    requires Run(jobId, acts).present && Run(jobId, acts).claimedBy.None?
    ensures var s' := Run(jobId, acts + more); s'.present && s'.claimedBy.None? && AuditFree(s'.log)
    decreases |more|
  {
    if more == [] {
      assert acts + more == acts;
    } else {
      var init, a := more[..|more| - 1], more[|more| - 1];
      UnclaimedDirectoryStaysUnclaimed(jobId, acts, init);
      assert acts + more == (acts + init) + [a];
      NextStep(jobId, acts + init, a);
      StepKeepsUnclaimed(jobId, Run(jobId, acts + init), a);
    }
    UnclaimedMeansNoAudit(jobId, acts + more);
  }

  // ----- The host's receipts -----

  lemma {:induction false} NoStopsNoStop(jobId: string, acts: seq<Action>)
    requires NoStops(acts)
    ensures !Run(jobId, acts).stop
  {
    if acts != [] {
      NoStopsNoStop(jobId, acts[..|acts| - 1]);
      var s, a := Run(jobId, acts[..|acts| - 1]), acts[|acts| - 1];
      if a.Advance? && a.k in s.clients {
        AdvanceFrames(s, a.k, a.env);
      }
    }
  }

  /**
   For a fixed request and no STOP file, every complete host receipt in any file, and every
   receipt any delivery returns, is the one built from the published task receipt.
   */
  lemma HostReceiptsAgree(jobId: string, acts: seq<Action>, r: HostRequest)
    requires OnlyFrom({r}, acts) && NoStops(acts)
    ensures var s := Run(jobId, acts);
            && (forall n :: 0 <= n < |s.inodes| && s.inodes[n].Whole? ==>
                              && s.receipt.Some? && s.receipt.value.Whole?
                              && s.inodes[n].value == HostReceiptFor(r, s.receipt.value.value))
            && (forall i :: 0 <= i < |s.log| && s.log[i].HostAnswered? ==>
                              && s.receipt.Some? && s.receipt.value.Whole?
                              && s.log[i].host == HostReceiptFor(r, s.receipt.value.value))
  {
    var s := Run(jobId, acts);
    RunsKeepInv({r}, jobId, acts);
    NoStopsNoStop(jobId, acts);
    forall i | 0 <= i < |s.log| && s.log[i].HostAnswered?
      ensures s.receipt.Some? && s.receipt.value.Whole? && s.log[i].host == HostReceiptFor(r, s.receipt.value.value)
    {
      assert EventOk({r}, s, s.log[i]);
    }
  }
}
