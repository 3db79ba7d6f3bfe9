/** An answer means an audit: what a delivery reports from the task was audited, once, before. */
module JobsAudits {
  import opened Wrappers
  import opened Jobs
  import opened JobsInvariant
  import opened JobsFrames
  import opened JobsSafety

  /** The answers that report what the task found. */
  predicate NeedsAudit(e: Event) {
    e.TaskAnswered? || (e.HostAnswered? && e.host.body.Delegated?)
  }

  /** The log has an audit. */
  predicate HasAudit(log: seq<Event>) {
    !AuditFree(log)
  }

  ghost predicate Audited(s: Job) {
    && (s.receipt.Some? ==> HasAudit(s.log))
    && (forall k :: k in s.clients && IsPastClaim(s.clients[k].phase) ==> HasAudit(s.log))
    && (forall j :: 0 <= j < |s.log| && NeedsAudit(s.log[j]) ==> HasAudit(s.log[..j]))
  }

  lemma AuditStays(log: seq<Event>, log': seq<Event>)
    requires log <= log' && HasAudit(log)
    ensures HasAudit(log')
  {
    var i :| 0 <= i < |log| && log[i].AuditRan?;
    assert log'[i] == log[i];
  }

  // ----- Runs -----

  /** The answer a delivery is about to give stands on a published receipt. */
  lemma AnswerHasReceipt(allowed: set<HostRequest>, s: Job, k: nat, e: Event)
    requires k in s.clients && ClientOk(allowed, s, k, s.clients[k])
    requires MayLog(s.clients[k], k, e) && NeedsAudit(e)
    ensures s.receipt.Some?
  {
  }

  lemma LogStaysAudited(s: Job, s': Job)
    requires Audited(s) && s.log <= s'.log && |s'.log| <= |s.log| + 1
    requires |s'.log| > |s.log| && NeedsAudit(s'.log[|s.log|]) ==> s.receipt.Some?
    ensures forall j :: 0 <= j < |s'.log| && NeedsAudit(s'.log[j]) ==> HasAudit(s'.log[..j])
  {
    forall j | 0 <= j < |s'.log| && NeedsAudit(s'.log[j]) ensures HasAudit(s'.log[..j]) {
      if j < |s.log| {
        assert s'.log[..j] == s.log[..j] && s'.log[j] == s.log[j];
      } else {
        assert s'.log[..j] == s.log;
      }
    }
  }

  lemma FilesStayAudited(s: Job, s': Job, k: nat)
    requires Audited(s) && ClientStep(s, s', k) && s.log <= s'.log
    ensures s'.receipt.Some? ==> HasAudit(s'.log)
    ensures forall j :: j in s'.clients && IsPastClaim(s'.clients[j].phase) ==> HasAudit(s'.log)
  {
    if HasAudit(s.log) {
      AuditStays(s.log, s'.log);
    } else if s.clients[k].phase.Claimed? {
      assert s'.log[|s.log|].AuditRan?;
    }
  }

  lemma ClientStepStaysAudited(allowed: set<HostRequest>, s: Job, s': Job, k: nat)
    requires Audited(s) && ClientStep(s, s', k) && ClientOk(allowed, s, k, s.clients[k])
    ensures Audited(s')
  {
    FilesStayAudited(s, s', k);
    if s'.log != s.log {
      var e :| s'.log == s.log + [e] && MayLog(s.clients[k], k, e);
      if NeedsAudit(e) {
        AnswerHasReceipt(allowed, s, k, e);
      }
    }
    LogStaysAudited(s, s');
  }

  lemma StepStaysAudited(jobId: string, acts: seq<Action>, a: Action)
    requires Audited(Run(jobId, acts))
    ensures Audited(Step(jobId, Run(jobId, acts), a))
  {
    var s := Run(jobId, acts);
    if a.Advance? && a.k in s.clients {
      AnyRunKeepsInv(jobId, acts);
      AdvanceFrames(s, a.k, a.env);
      if AdvanceClient(s, a.k, a.env) != s {
        ClientStepStaysAudited(RequestsOf(acts), s, AdvanceClient(s, a.k, a.env), a.k);
      }
    }
  }

  lemma {:induction false} RunsAreAudited(jobId: string, acts: seq<Action>)
    ensures Audited(Run(jobId, acts))
  {
    if acts != [] {
      RunsAreAudited(jobId, acts[..|acts| - 1]);
      StepStaysAudited(jobId, acts[..|acts| - 1], acts[|acts| - 1]);
    }
  }

  /** Entry `i` is the one audit of the log. */
  ghost predicate IsTheAudit(log: seq<Event>, i: int) {
    0 <= i < |log| && log[i].AuditRan? && forall m :: 0 <= m < |log| && log[m].AuditRan? ==> m == i
  }

  /**
   Every task answer, and every host answer that reports the task, is preceded by an audit, the
   only one of the whole run.
   */
  lemma AnswerMeansOneAudit(jobId: string, acts: seq<Action>, j: nat)
    requires j < |Run(jobId, acts).log| && NeedsAudit(Run(jobId, acts).log[j])
    ensures exists i :: 0 <= i < j && IsTheAudit(Run(jobId, acts).log, i)
  {
    var log := Run(jobId, acts).log;
    RunsAreAudited(jobId, acts);
    var i :| 0 <= i < |log[..j]| && log[..j][i].AuditRan?;
    forall m | 0 <= m < |log| && log[m].AuditRan? ensures m == i {
      if m < i {
        AuditRunsAtMostOnce(jobId, acts, m, i);
      } else if i < m {
        AuditRunsAtMostOnce(jobId, acts, i, m);
      }
    }
    assert IsTheAudit(log, i);
  }
}
