/** A receipt says what the audit said: its verdict and its findings, and only of an audit fit to publish. */
module JobsVerdicts {
  import opened Wrappers
  import opened Jobs
  import opened JobsInvariant
  import opened JobsFrames
  import opened JobsSafety
  import opened JobsAudits
  import opened JobsSchedules

  /** The audit came to a verdict on just this task, with no live effect and no release claim. */
  predicate IsFit(t: TaskRequest, o: AuditOutcome) {
    && o.AuditReturns? && o.payload.verified && o.payload.passed.Some?
    && !o.payload.liveEnabled && !o.payload.releaseClaimAllowed
    && o.payload.sourceCommit == t.sourceCommit && o.payload.releaseId == t.releaseId
  }

  /** The receipt has the audit's own verdict and findings. */
  predicate Says(b: TaskReceiptBody, o: AuditOutcome) {
    o.AuditReturns? && o.payload.passed == Some(b.passed) && o.payload.findings == b.findings
  }

  /** A logged audit stands behind the receipt. */
  ghost predicate Stands(log: seq<Event>, b: TaskReceiptBody) {
    exists i :: 0 <= i < |log| && log[i].AuditRan? && IsFit(b.request, log[i].outcome) && Says(b, log[i].outcome)
  }

  // ----- The check of one audit -----

  /** A claimant that has audited publishes exactly when the audit is fit and the source still clean. */
  lemma AuditDecides(s: Job, k: nat, env: Env)
    requires k in s.clients && s.clients[k].phase.Auditing?
    ensures var t, o, p := TaskOf(s.clients[k].delivery), s.clients[k].phase.outcome,
                           AdvanceClient(s, k, env).clients[k].phase;
            && (p.HasTaskReceipt? <==> IsFit(t, o) && env.sourceClean)
            && (p.HasTaskReceipt? ==> p.receipt.body.request == t && Says(p.receipt.body, o)
                                      && p.receipt.digest == p.receipt.body)
            && (!p.HasTaskReceipt? ==> p.Failed?)
            && (p == Failed(AuditRaised) <==> o.AuditFails?)
            && (p == Failed(SourceCheckFailed) <==> o.AuditReturns? && !env.sourceClean)
            && (p == Failed(AuditUnstable) <==> o.AuditReturns? && env.sourceClean && !o.payload.verified)
  {
  }

  /** The remaining errors, in their order. */
  lemma AuditRefusals(s: Job, k: nat, env: Env)
    requires k in s.clients && s.clients[k].phase.Auditing? && s.clients[k].phase.outcome.AuditReturns?
    requires env.sourceClean && s.clients[k].phase.outcome.payload.verified
    ensures var t, o, p := TaskOf(s.clients[k].delivery), s.clients[k].phase.outcome.payload,
                           AdvanceClient(s, k, env).clients[k].phase;
            && (p == Failed(AuditResultInvalid) <==> o.passed.None?)
            && (p == Failed(EffectBoundaryInvalid) <==> o.passed.Some? && (o.liveEnabled || o.releaseClaimAllowed))
            && (p == Failed(IdentityMismatch) <==>
                && o.passed.Some? && !o.liveEnabled && !o.releaseClaimAllowed
                && !(o.sourceCommit == t.sourceCommit && o.releaseId == t.releaseId))
  {
  }

  function FitReceipt(t: TaskRequest, o: AuditOutcome): TaskReceipt
    requires IsFit(t, o)
  {
    var b := TaskReceiptBody(t, o.payload.passed.value, o.payload.findings);
    TaskReceipt(b, b)
  }

  /** The receipt made of an audit: there is one exactly when it is fit, and it says what the audit said. */
  lemma ReceiptMadeIff(t: TaskRequest, o: AuditOutcome, clean: bool)
    ensures TaskReceiptFor(t, o, clean).Success? <==> IsFit(t, o) && clean
    ensures IsFit(t, o) && clean ==> TaskReceiptFor(t, o, clean) == Success(FitReceipt(t, o))
  {
  }

  /** The host reports the audit's verdict, and the first of its findings as the blocker. */
  predicate Reports(h: HostReceiptBody, r: HostRequest, o: AuditOutcome) {
    && h.Delegated? && h.request == r && o.AuditReturns? && o.payload.passed == Some(h.passed)
    && h.blocker.None? == (o.payload.findings == [])
    && (h.blocker.Some? ==> h.blocker.value == o.payload.findings[0])
    && h.inner == TaskReceiptBody(TaskOf(HostDelivery(r)), h.passed, o.payload.findings)
  }

  /** What the host makes of a receipt that carries the audit's verdict. */
  lemma HostReceiptReports(r: HostRequest, o: AuditOutcome)
    requires IsFit(TaskOf(HostDelivery(r)), o)
    ensures var h := HostReceiptFor(r, FitReceipt(TaskOf(HostDelivery(r)), o));
            Reports(h.body, r, o) && h.digest == h.body
  {
  }

  // ----- Runs -----

  /** What stands behind a delivery on its way to publishing. */
  ghost predicate ClientStands(log: seq<Event>, k: nat, cl: Client) {
    && (cl.phase.Auditing? ==> AuditRan(k, cl.phase.outcome) in log)
    && (PendingReceipt(cl.phase).Some? ==> Stands(log, PendingReceipt(cl.phase).value.body))
  }

  ghost predicate AllStands(s: Job) {
    && (s.receipt.Some? && s.receipt.value.Whole? ==> Stands(s.log, s.receipt.value.value.body))
    && (forall k :: k in s.clients ==> ClientStands(s.log, k, s.clients[k]))
  }

  lemma StandsStays(log: seq<Event>, log': seq<Event>, b: TaskReceiptBody)
    requires log <= log' && Stands(log, b)
    ensures Stands(log', b)
  {
    var i :| 0 <= i < |log| && log[i].AuditRan? && IsFit(b.request, log[i].outcome) && Says(b, log[i].outcome);
    assert log'[i] == log[i];
  }

  lemma ClientStandsStays(log: seq<Event>, log': seq<Event>, k: nat, cl: Client)
    requires log <= log' && ClientStands(log, k, cl)
    ensures ClientStands(log', k, cl)
  {
    if PendingReceipt(cl.phase).Some? {
      StandsStays(log, log', PendingReceipt(cl.phase).value.body);
    }
    if cl.phase.Auditing? {
      var i :| 0 <= i < |log| && log[i] == AuditRan(k, cl.phase.outcome);
      assert log'[i] == log[i];
    }
  }

  /** Where an audit outcome or a pending receipt comes from. */
  ghost predicate Derives(s: Job, s': Job, k: nat)
    requires k in s.clients && k in s'.clients
  {
    var p, p' := s.clients[k].phase, s'.clients[k].phase;
    && (p'.Auditing? ==> p.Claimed? && s'.log == s.log + [AuditRan(k, p'.outcome)])
    && (PendingReceipt(p').Some? ==>
          || PendingReceipt(p') == PendingReceipt(p)
          || (&& p.Auditing? && IsFit(PendingReceipt(p').value.body.request, p.outcome)
              && Says(PendingReceipt(p').value.body, p.outcome)))
    && (s'.receipt != s.receipt ==> p.TaskFileWritten? && s'.receipt == s.receiptTmp)
  }

  /** A step that leaves its delivery with nothing to publish derives nothing. */
  lemma IdleDerives(s: Job, s': Job, k: nat)
    requires ClientStep(s, s', k) && !s'.clients[k].phase.Auditing? && PendingReceipt(s'.clients[k].phase).None?
    requires s'.receipt == s.receipt
    ensures Derives(s, s', k)
  {
  }

  lemma PublishDerives(s: Job, k: nat)
    requires k in s.clients && PendingReceipt(s.clients[k].phase).Some?
    ensures Derives(s, PublishTask(s, k, s.clients[k].phase), k)
  {
    match s.clients[k].phase
    case HasTaskReceipt(_) =>
    case TaskFileOpen(_) =>
    case TaskFileWritten(_) =>
  }

  lemma CheckDerives(s: Job, k: nat, env: Env)
    requires k in s.clients && s.clients[k].phase.Auditing?
    ensures AdvanceClient(s, k, env) == Moved(s, k, AdvanceClient(s, k, env).clients[k].phase)
    ensures Derives(s, AdvanceClient(s, k, env), k)
  {
    AuditDecides(s, k, env);
  }

  /** Only a claimant has, or gets, something to publish. */
  lemma OthersDeriveNothing(s: Job, s': Job, k: nat)
    requires ClientStep(s, s', k) && !IsClaimant(s.clients[k].phase)
    ensures !s'.clients[k].phase.Auditing? && PendingReceipt(s'.clients[k].phase).None? && s'.receipt == s.receipt
  {
  }

  lemma AdvanceDerives(s: Job, k: nat, env: Env)
    requires k in s.clients && AdvanceClient(s, k, env) != s
    ensures ClientStep(s, AdvanceClient(s, k, env), k) && Derives(s, AdvanceClient(s, k, env), k)
  {
    AdvanceFrames(s, k, env);
    if !IsClaimant(s.clients[k].phase) {
      OthersDeriveNothing(s, AdvanceClient(s, k, env), k);
      IdleDerives(s, AdvanceClient(s, k, env), k);
    } else if s.clients[k].phase.Auditing? {
      CheckDerives(s, k, env);
    } else if PendingReceipt(s.clients[k].phase).Some? {
      PublishDerives(s, k);
    }
  }

  lemma MovedClientStands(s: Job, s': Job, k: nat)
    requires AllStands(s) && s.log <= s'.log && k in s.clients && k in s'.clients && Derives(s, s', k)
    ensures ClientStands(s'.log, k, s'.clients[k])
  {
    var p, p' := s.clients[k].phase, s'.clients[k].phase;
    assert ClientStands(s.log, k, s.clients[k]);
    if p'.Auditing? {
      assert s'.log[|s.log|] == AuditRan(k, p'.outcome);
    }
    if PendingReceipt(p').Some? {
      var b := PendingReceipt(p').value.body;
      if PendingReceipt(p') != PendingReceipt(p) {
        var i :| 0 <= i < |s.log| && s.log[i] == AuditRan(k, p.outcome);
        assert Stands(s.log, b);
      }
      StandsStays(s.log, s'.log, b);
    }
  }

  lemma ReceiptStands(allowed: set<HostRequest>, s: Job, s': Job, k: nat)
    requires AllStands(s) && s.log <= s'.log && k in s.clients && k in s'.clients && Derives(s, s', k)
    requires ClientOk(allowed, s, k, s.clients[k]) && s'.receipt.Some? && s'.receipt.value.Whole?
    ensures Stands(s'.log, s'.receipt.value.value.body)
  {
    if s'.receipt != s.receipt {
      assert ClientStands(s.log, k, s.clients[k]);
    }
    StandsStays(s.log, s'.log, s'.receipt.value.value.body);
  }

  lemma ClientStepKeepsStands(allowed: set<HostRequest>, s: Job, s': Job, k: nat)
    requires AllStands(s) && ClientStep(s, s', k) && s.log <= s'.log && Derives(s, s', k)
    requires ClientOk(allowed, s, k, s.clients[k])
    ensures AllStands(s')
  {
    if s'.receipt.Some? && s'.receipt.value.Whole? {
      ReceiptStands(allowed, s, s', k);
    }
    forall j | j in s'.clients ensures ClientStands(s'.log, j, s'.clients[j]) {
      if j == k {
        MovedClientStands(s, s', k);
      } else {
        ClientStandsStays(s.log, s'.log, j, s.clients[j]);
      }
    }
  }

  lemma StepKeepsStands(jobId: string, acts: seq<Action>, a: Action)
    requires AllStands(Run(jobId, acts))
    ensures AllStands(Step(jobId, Run(jobId, acts), a))
  {
    var s := Run(jobId, acts);
    if a.Advance? && a.k in s.clients && AdvanceClient(s, a.k, a.env) != s {
      AnyRunKeepsInv(jobId, acts);
      AdvanceDerives(s, a.k, a.env);
      ClientStepKeepsStands(RequestsOf(acts), s, AdvanceClient(s, a.k, a.env), a.k);
    }
  }

  lemma {:induction false} RunsStand(jobId: string, acts: seq<Action>)
    ensures AllStands(Run(jobId, acts))
  {
    if acts != [] {
      RunsStand(jobId, acts[..|acts| - 1]);
      StepKeepsStands(jobId, acts[..|acts| - 1], acts[|acts| - 1]);
    }
  }

  // ----- What receipts and answers say -----

  /** The one audit of the log is entry `i`, it is fit, and the body says what it said. */
  ghost predicate IsBehind(log: seq<Event>, i: int, b: TaskReceiptBody) {
    IsTheAudit(log, i) && IsFit(b.request, log[i].outcome) && Says(b, log[i].outcome)
  }

  lemma OnlyAudit(jobId: string, acts: seq<Action>, i: nat)
    requires i < |Run(jobId, acts).log| && Run(jobId, acts).log[i].AuditRan?
    ensures IsTheAudit(Run(jobId, acts).log, i)
  {
    var log := Run(jobId, acts).log;
    forall m | 0 <= m < |log| && log[m].AuditRan? ensures m == i {
      if m < i {
        AuditRunsAtMostOnce(jobId, acts, m, i);
      } else if i < m {
        AuditRunsAtMostOnce(jobId, acts, i, m);
      }
    }
  }

  /** A published receipt carries the verdict and the findings of the one audit of the run. */
  lemma ReceiptSaysTheAudit(jobId: string, acts: seq<Action>)
    requires Run(jobId, acts).receipt.Some?
    ensures var c := Run(jobId, acts).receipt.value;
            c.Whole? && exists i :: IsBehind(Run(jobId, acts).log, i, c.value.body)
  {
    ReceiptIsSealed(jobId, acts);
    RunsStand(jobId, acts);
    var log, b := Run(jobId, acts).log, Run(jobId, acts).receipt.value.value.body;
    var i :| 0 <= i < |log| && log[i].AuditRan? && IsFit(b.request, log[i].outcome) && Says(b, log[i].outcome);
    OnlyAudit(jobId, acts, i);
    assert IsBehind(log, i, b);
  }

  /** So does every receipt a task delivery answers with, and the audit came first. */
  lemma TaskAnswersSayTheAudit(jobId: string, acts: seq<Action>, j: nat)
    requires j < |Run(jobId, acts).log| && Run(jobId, acts).log[j].TaskAnswered?
    ensures var log := Run(jobId, acts).log;
            && log[j].receipt.body.request == log[j].task
            && exists i :: 0 <= i < j && IsBehind(log, i, log[j].receipt.body)
  {
    var s := Run(jobId, acts);
    AnyRunKeepsInv(jobId, acts);
    assert EventOk(RequestsOf(acts), s, s.log[j]);
    ReceiptSaysTheAudit(jobId, acts);
    var i :| IsBehind(s.log, i, s.log[j].receipt.body);
    AnswerMeansOneAudit(jobId, acts, j);
    var m :| 0 <= m < j && IsTheAudit(s.log, m);
    assert m == i;
  }

  lemma HostAnswersSayTheAudit(jobId: string, acts: seq<Action>, j: nat)
    requires j < |Run(jobId, acts).log| && Run(jobId, acts).log[j].HostAnswered?
    requires Run(jobId, acts).log[j].host.body.Delegated?
    ensures var log := Run(jobId, acts).log;
            && log[j].host.digest == log[j].host.body
            && exists i :: && 0 <= i < j && IsTheAudit(log, i)
                           && IsFit(TaskOf(HostDelivery(log[j].request)), log[i].outcome)
                           && Reports(log[j].host.body, log[j].request, log[i].outcome)
  {
    var s := Run(jobId, acts);
    AnyRunKeepsInv(jobId, acts);
    assert EventOk(RequestsOf(acts), s, s.log[j]);
    ReceiptIsSealed(jobId, acts);
    ReceiptSaysTheAudit(jobId, acts);
    var i :| IsBehind(s.log, i, s.receipt.value.value.body);
    AnswerMeansOneAudit(jobId, acts, j);
    var m :| 0 <= m < j && IsTheAudit(s.log, m);
    assert m == i;
  }

  // ----- A claim that runs on undisturbed -----

  /** The claimant has published, or has failed and left no receipt. */
  ghost predicate Settles(s: Job, k: nat, env: Env) {
    && k in s.clients
    && var t := TaskOf(s.clients[k].delivery);
    if IsFit(t, env.audit) && env.sourceClean
    then && s.receipt == Some(Whole(FitReceipt(t, env.audit)))
         && s.clients[k].phase == TaskDone(FitReceipt(t, env.audit), false)
    else s.receipt.None? && s.clients[k].phase.Failed?
  }

  /** One more step of a delivery that runs alone. */
  lemma AloneStep(jobId: string, s: Job, m: Job, k: nat, env: Env)
    requires Reaches(jobId, Alone(k, env), s, m) && k in m.clients
    ensures Reaches(jobId, Alone(k, env), s, AdvanceClient(m, k, env))
  {
    ReachesStep(jobId, Alone(k, env), s, m, Advance(k, env));
  }

  lemma PublishAdvances(jobId: string, s: Job, m: Job, k: nat, env: Env)
    requires Reaches(jobId, Alone(k, env), s, m) && k in m.clients && PendingReceipt(m.clients[k].phase).Some?
    ensures Reaches(jobId, Alone(k, env), s, PublishTask(m, k, m.clients[k].phase))
  {
    AloneStep(jobId, s, m, k, env);
  }

  /** The delivery has published this receipt and touched no host file. */
  ghost predicate PublishedBy(m: Job, s': Job, k: nat, r: TaskReceipt) {
    && k in m.clients && k in s'.clients && s'.receipt == Some(Whole(r)) && SameHostFiles(m, s')
    && s'.clients[k] == m.clients[k].(phase := TaskDone(r, false))
  }

  lemma OpenedAndWritten(m: Job, k: nat, r: TaskReceipt)
    requires k in m.clients && m.clients[k].phase == HasTaskReceipt(r)
    ensures var torn := PublishTask(m, k, HasTaskReceipt(r));
            k in torn.clients && torn.clients[k].phase == TaskFileOpen(r)
    ensures var written := PublishTask(PublishTask(m, k, HasTaskReceipt(r)), k, TaskFileOpen(r));
            k in written.clients && written.clients[k].phase == TaskFileWritten(r)
  {
  }

  lemma RenamedIsPublished(m: Job, k: nat, r: TaskReceipt)
    requires k in m.clients && m.clients[k].phase == HasTaskReceipt(r)
    ensures var written := PublishTask(PublishTask(m, k, HasTaskReceipt(r)), k, TaskFileOpen(r));
            PublishedBy(m, PublishTask(written, k, TaskFileWritten(r)), k, r)
  {
    OpenedAndWritten(m, k, r);
  }

  lemma WrittenReached(jobId: string, s: Job, m: Job, k: nat, env: Env, r: TaskReceipt)
    requires Reaches(jobId, Alone(k, env), s, m) && k in m.clients && m.clients[k].phase == HasTaskReceipt(r)
    ensures var written := PublishTask(PublishTask(m, k, HasTaskReceipt(r)), k, TaskFileOpen(r));
            Reaches(jobId, Alone(k, env), s, written)
  {
    OpenedAndWritten(m, k, r);
    PublishAdvances(jobId, s, m, k, env);
    PublishAdvances(jobId, s, PublishTask(m, k, HasTaskReceipt(r)), k, env);
  }

  lemma PublishingSettles(jobId: string, s: Job, m: Job, k: nat, env: Env, r: TaskReceipt)
    requires Reaches(jobId, Alone(k, env), s, m) && k in m.clients && m.clients[k].phase == HasTaskReceipt(r)
    ensures exists s' :: Reaches(jobId, Alone(k, env), s, s') && PublishedBy(m, s', k, r)
  {
    var torn := PublishTask(m, k, HasTaskReceipt(r));
    var written := PublishTask(torn, k, TaskFileOpen(r));
    WrittenReached(jobId, s, m, k, env, r);
    OpenedAndWritten(m, k, r);
    PublishAdvances(jobId, s, written, k, env);
    RenamedIsPublished(m, k, r);
  }

  lemma ClaimAudits(s: Job, k: nat, env: Env)
    requires k in s.clients && s.clients[k].phase.Claimed?
    ensures AdvanceClient(s, k, env) == RunAudit(s, k, env.audit)
    ensures k in RunAudit(s, k, env.audit).clients
    ensures RunAudit(s, k, env.audit).clients[k] == s.clients[k].(phase := Auditing(env.audit))
    ensures RunAudit(s, k, env.audit).receipt == s.receipt
  {
  }

  lemma UnfitFails(s: Job, k: nat, env: Env)
    requires k in s.clients && s.clients[k].phase == Auditing(env.audit) && s.receipt.None?
    requires !(IsFit(TaskOf(s.clients[k].delivery), env.audit) && env.sourceClean)
    ensures Settles(AdvanceClient(s, k, env), k, env)
  {
    AuditDecides(s, k, env);
  }

  lemma AuditedReceiptIsFit(s: Job, k: nat, env: Env)
    requires k in s.clients && s.clients[k].phase == Auditing(env.audit)
    requires IsFit(TaskOf(s.clients[k].delivery), env.audit) && env.sourceClean
    ensures AdvanceClient(s, k, env) ==
            Moved(s, k, HasTaskReceipt(FitReceipt(TaskOf(s.clients[k].delivery), env.audit)))
  {
  }

  /** From a claim, undisturbed: a receipt with the audit's verdict exactly when it is fit to publish. */
  lemma ClaimSettles(jobId: string, acts: seq<Action>, k: nat, env: Env)
    requires k in Run(jobId, acts).clients && Run(jobId, acts).clients[k].phase.Claimed?
    ensures exists s' :: Reaches(jobId, Alone(k, env), Run(jobId, acts), s') && Settles(s', k, env)
  {
    var s := Run(jobId, acts);
    AnyRunKeepsInv(jobId, acts);
    assert ClientOk(RequestsOf(acts), s, k, s.clients[k]);
    ReachesSelf(jobId, Alone(k, env), s);
    AloneStep(jobId, s, s, k, env);
    ClaimAudits(s, k, env);
    var audited := RunAudit(s, k, env.audit);
    AloneStep(jobId, s, audited, k, env);
    var t := TaskOf(s.clients[k].delivery);
    if IsFit(t, env.audit) && env.sourceClean {
      AuditedReceiptIsFit(audited, k, env);
      var m := Moved(audited, k, HasTaskReceipt(FitReceipt(t, env.audit)));
      PublishingSettles(jobId, s, m, k, env, FitReceipt(t, env.audit));
      var s' :| Reaches(jobId, Alone(k, env), s, s') && PublishedBy(m, s', k, FitReceipt(t, env.audit));
      assert Settles(s', k, env);
    } else {
      UnfitFails(audited, k, env);
    }
  }
}
