/**
 What a delivery is refused for, over whole runs: without context nothing is answered, without
 a clean source nothing is audited, inside the checkout nothing happens at all. And what an
 undisturbed delivery into a fresh directory comes to when nothing is refused.
 */
module JobsRefusals {
  import opened Wrappers
  import opened Jobs
  import opened JobsInvariant
  import opened JobsFrames
  import opened JobsSafety
  import opened JobsSchedules
  import opened JobsRedelivery
  import opened JobsVerdicts

  // ----- Well-formed requests -----

  predicate IsLetterOrDigit(c: char) {
    48 <= c as int <= 57 || 65 <= c as int <= 90 || 97 <= c as int <= 122
  }

  /** At most `most` characters: a letter or digit, then letters, digits and these marks. */
  predicate IsName(s: string, most: nat, marks: set<char>) {
    && 1 <= |s| <= most && IsLetterOrDigit(s[0])
    && forall i :: 0 < i < |s| ==> IsLetterOrDigit(s[i]) || s[i] in marks
  }

  predicate IsHexOf(s: string, length: nat) {
    |s| == length && forall i :: 0 <= i < |s| ==> 48 <= s[i] as int <= 57 || 97 <= s[i] as int <= 102
  }

  /** Which host requests are accepted. */
  lemma HostRequestsAre(r: HostRequest)
    ensures ValidHost(r) <==>
            && IsName(r.jobId, 128, {'_', '.', ':', '-'}) && IsName(r.namespace, 128, {'_', '.', ':', '-'})
            && IsName(r.sourceId, 128, {'_', '.', ':', '-'}) && IsName(r.releaseId, 128, {'_', '.', ':', '-'})
            && IsHexOf(r.contextVersion, 64) && IsHexOf(r.sourceCommit, 40) && r.repeat in {2, 3, 4, 5}
  {
    HostNamesAre(r.jobId);
    HostNamesAre(r.namespace);
    HostNamesAre(r.sourceId);
    HostNamesAre(r.releaseId);
    HexIs(r.contextVersion, 64);
    HexIs(r.sourceCommit, 40);
  }

  lemma HostNamesAre(s: string)
    ensures IsHostIdentifier(s) <==> IsName(s, 128, {'_', '.', ':', '-'})
  {
  }

  lemma TaskNamesAre(s: string)
    ensures IsTaskIdentifier(s) <==> IsName(s, 64, {'_', '-'})
  {
  }

  lemma HexIs(s: string, length: nat)
    ensures IsHex(s, length) <==> IsHexOf(s, length)
  {
  }

  /** Which task requests are accepted: shorter names, with fewer marks. */
  lemma TaskRequestsAre(t: TaskRequest)
    ensures ValidTask(t) <==>
            && IsName(t.taskId, 64, {'_', '-'}) && IsName(t.releaseId, 64, {'_', '-'})
            && IsHexOf(t.sourceCommit, 40) && t.repeat in {2, 3, 4, 5}
  {
    TaskNamesAre(t.taskId);
    TaskNamesAre(t.releaseId);
    HexIs(t.sourceCommit, 40);
  }

  // ----- The first checks of a host delivery -----

  /** What stops a host delivery at once, in the order it is checked. */
  lemma EntryRefusals(s: Job, k: nat, r: HostRequest, env: Env)
    requires k in s.clients && s.clients[k] == Client(HostDelivery(r), HostStart)
    ensures var p := AdvanceClient(s, k, env).clients[k].phase;
            && (p == Failed(RequestInvalid) <==> !ValidHost(r))
            && (ValidHost(r) ==>
                  && (p == Failed(ReceiptsInsideCheckout) <==> env.placement.root <= env.placement.outputRoot)
                  && (p == Failed(ContextInsideCheckout) <==>
                      !(env.placement.root <= env.placement.outputRoot)
                      && env.placement.root <= env.placement.contextDb))
            && (ValidHost(r) && IsPlaced(env.placement) && VisibleHost(s).Some? ==>
                  p == if env.contextGranted then HostReplay else Failed(ContextRefused))
            && (ValidHost(r) && IsPlaced(env.placement) && VisibleHost(s).None? ==> p == NoHostReceipt)
  {
  }

  /** What stops a task before its claim. */
  lemma TaskRefusals(s: Job, k: nat, env: Env)
    requires k in s.clients && s.clients[k].phase.TaskStart?
    ensures var p, t := AdvanceClient(s, k, env).clients[k].phase, TaskOf(s.clients[k].delivery);
            && (p == Failed(RequestInvalid) <==> !ValidTask(t))
            && (ValidTask(t) ==>
                  && (p == Failed(ReceiptsInsideCheckout) <==> env.placement.root <= env.placement.outputRoot)
                  && (p == Failed(SourceCheckFailed) <==>
                      !(env.placement.root <= env.placement.outputRoot) && !env.sourceClean)
                  && (p == TaskReady <==> !(env.placement.root <= env.placement.outputRoot) && env.sourceClean))
  {
  }

  /** A directory that was there before the claim: half done, or with a receipt to replay. */
  lemma FoundDirectory(s: Job, k: nat, env: Env)
    requires k in s.clients && s.clients[k].phase.DirectoryExists?
    ensures AdvanceClient(s, k, env).clients[k].phase ==
            if s.receipt.Some? then TaskReplay
            else if s.clients[k].delivery.HostDelivery? then Failed(NeedsReconciliation)
            else Failed(TaskIncompleteOrConcurrent)
  {
  }

  /** What a task receipt in the directory answers to another delivery. */
  lemma FoundTaskReceipt(s: Job, k: nat, env: Env)
    requires k in s.clients && s.clients[k].phase.TaskReplay? && s.receipt.Some?
    ensures var p, t := AdvanceClient(s, k, env).clients[k].phase, TaskOf(s.clients[k].delivery);
            match s.receipt.value
            case Torn => p == Failed(InvalidJson)
            case Whole(r) =>
              && (p == Failed(TaskIdConflict) <==> r.body.request != t)
              && (p == Failed(ReceiptDigestMismatch) <==> r.body.request == t && r.digest != r.body)
              && (p == TaskDone(r, true) <==> r.body.request == t && r.digest == r.body)
  {
  }

  /** What a host receipt in the directory answers, at once or after the task. */
  lemma FoundHostReceipt(s: Job, k: nat, r: HostRequest, built: HostReceipt, replayed: bool, env: Env)
    requires k in s.clients && s.clients[k].delivery == HostDelivery(r) && VisibleHost(s).Some?
    requires s.clients[k].phase == HostReplay || s.clients[k].phase == HostCompare(built, replayed)
    ensures var p, now := AdvanceClient(s, k, env).clients[k].phase, s.clients[k].phase;
            match VisibleHost(s).value
            case Torn => p == Failed(InvalidJson)
            case Whole(h) =>
              && (p == Failed(JobIdConflict) <==> h.body.request != r)
              && (p == Failed(ReceiptDigestMismatch) <==> h.body.request == r && h.digest != h.body)
              && (h.body.request == r && h.digest == h.body ==>
                    p == if now.HostReplay? then HostSettled(h, true)
                         else if h == built then HostSettled(built, replayed) else Failed(HostReceiptConflict))
  {
  }

  /** A host delivery for another request than the one a visible receipt answers is refused. */
  lemma OtherRequestConflicts(jobId: string, acts: seq<Action>, k: nat, r: HostRequest, env: Env)
    requires var s := Run(jobId, acts);
             && k in s.clients && s.clients[k] == Client(HostDelivery(r), HostReplay)
             && VisibleHost(s).Some? && VisibleHost(s).value.Whole?
    ensures var s := Run(jobId, acts);
            var h := VisibleHost(s).value.value;
            AdvanceClient(s, k, env).clients[k].phase ==
            if h.body.request == r then HostSettled(h, true) else Failed(JobIdConflict)
  {
    AnyRunKeepsInv(jobId, acts);
    var s := Run(jobId, acts);
    assert s.inodes[s.hostReceipt.value].Whole?;
  }

  // ----- Runs in which something is never granted -----

  /** No step of the run finds the context granted. */
  predicate NeverGranted(acts: seq<Action>) {
    forall i :: 0 <= i < |acts| && acts[i].Advance? ==> !acts[i].env.contextGranted
  }

  predicate NeverClean(acts: seq<Action>) {
    forall i :: 0 <= i < |acts| && acts[i].Advance? ==> !acts[i].env.sourceClean
  }

  /** The receipts would always lie inside the checkout. */
  predicate NeverOutside(acts: seq<Action>) {
    forall i :: 0 <= i < |acts| && acts[i].Advance? ==> acts[i].env.placement.root <= acts[i].env.placement.outputRoot
  }

  /** Where a host delivery may stand that has never been granted its context. */
  predicate IsWithoutContext(p: Phase) {
    p.HostStart? || p.NoHostReceipt? || p.CancelSeen? || p.NoStop? || p.NoTaskReceipt? || p.Failed? || p.Crashed?
  }

  /** A task delivery stands at the task's own phases only. */
  predicate IsOfTask(p: Phase) {
    !IsBeforeDelegation(p) && !IsAfterDelegation(p) && !p.HostReturned?
  }

  ghost predicate Unanswered(s: Job) {
    && (forall k :: k in s.clients ==>
                      if s.clients[k].delivery.HostDelivery? then IsWithoutContext(s.clients[k].phase)
                      else IsOfTask(s.clients[k].phase))
    && s.hostReceipt.None? && s.hostTmp.None? && s.inodes == []
    && forall i :: 0 <= i < |s.log| ==> !s.log[i].HostAnswered?
  }

  lemma TaskStaysOfTask(s: Job, k: nat, env: Env)
    requires k in s.clients && s.clients[k].delivery.TaskDelivery? && IsOfTask(s.clients[k].phase)
    ensures var s' := AdvanceClient(s, k, env); k in s'.clients && IsOfTask(s'.clients[k].phase)
  {
    if !IsBeforeClaim(s.clients[k].phase) {
      AdvancedTaskIsOfTask(s, k, env);
    }
  }

  lemma AdvancedTaskIsOfTask(s: Job, k: nat, env: Env)
    requires k in s.clients && s.clients[k].delivery.TaskDelivery? && IsOfTask(s.clients[k].phase)
    ensures var s' := AdvanceTask(s, k, env); k in s'.clients && IsOfTask(s'.clients[k].phase)
  {
    match s.clients[k].phase
    case TaskReady =>
    case Claimed => ClaimAudits(s, k, env);
    case Auditing(_) => AuditDecides(s, k, env);
    case HasTaskReceipt(_) => PublishStaysOfTask(s, k);
    case TaskFileOpen(_) => PublishStaysOfTask(s, k);
    case TaskFileWritten(_) => PublishStaysOfTask(s, k);
    case TaskDone(r, replayed) => FinishStaysOfTask(s, k, r, replayed);
    case _ =>
  }

  lemma PublishStaysOfTask(s: Job, k: nat)
    requires k in s.clients && PendingReceipt(s.clients[k].phase).Some?
    ensures var s' := PublishTask(s, k, s.clients[k].phase); k in s'.clients && IsOfTask(s'.clients[k].phase)
  {
    match s.clients[k].phase
    case HasTaskReceipt(_) =>
    case TaskFileOpen(_) =>
    case TaskFileWritten(_) =>
  }

  lemma FinishStaysOfTask(s: Job, k: nat, r: TaskReceipt, replayed: bool)
    requires k in s.clients && s.clients[k].delivery.TaskDelivery?
    ensures var s' := FinishTask(s, k, r, replayed); k in s'.clients && IsOfTask(s'.clients[k].phase)
  {
  }

  lemma HostStaysWithoutContext(s: Job, k: nat, env: Env)
    requires k in s.clients && s.clients[k].delivery.HostDelivery? && IsWithoutContext(s.clients[k].phase)
    requires !env.contextGranted && VisibleHost(s).None?
    ensures var s' := AdvanceClient(s, k, env); k in s'.clients && IsWithoutContext(s'.clients[k].phase)
  {
  }

  lemma StepKeepsUnanswered(s: Job, s': Job, k: nat)
    requires Unanswered(s) && ClientStep(s, s', k)
    requires if s.clients[k].delivery.HostDelivery? then IsWithoutContext(s'.clients[k].phase)
             else IsOfTask(s'.clients[k].phase)
    ensures Unanswered(s')
  {
    if s'.log != s.log {
      var e :| s'.log == s.log + [e] && MayLog(s.clients[k], k, e);
      assert !e.HostAnswered?;
    }
  }

  lemma AdvanceKeepsUnanswered(s: Job, k: nat, env: Env)
    requires Unanswered(s) && k in s.clients && !env.contextGranted
    ensures Unanswered(AdvanceClient(s, k, env))
  {
    AdvanceFrames(s, k, env);
    if s.clients[k].delivery.HostDelivery? {
      HostStaysWithoutContext(s, k, env);
    } else {
      TaskStaysOfTask(s, k, env);
    }
    if AdvanceClient(s, k, env) != s {
      StepKeepsUnanswered(s, AdvanceClient(s, k, env), k);
    }
  }

  /** Without context no host delivery is ever answered, and no host receipt is written. */
  lemma {:induction false} NoContextNoAnswer(jobId: string, acts: seq<Action>)
    requires NeverGranted(acts)
    ensures Unanswered(Run(jobId, acts))
  {
    if acts != [] {
      var init, a := acts[..|acts| - 1], acts[|acts| - 1];
      NoContextNoAnswer(jobId, init);
      if a.Advance? && a.k in Run(jobId, init).clients {
        AdvanceKeepsUnanswered(Run(jobId, init), a.k, a.env);
      }
    }
  }

  /** Nobody has got past the checks before the claim. */
  ghost predicate Unclaimed(s: Job) {
    s.claimedBy.None? && forall k :: k in s.clients ==> !s.clients[k].phase.TaskReady?
  }

  lemma NobodyGetsReady(s: Job, k: nat, env: Env)
    requires k in s.clients && !s.clients[k].phase.TaskReady?
    requires !env.sourceClean || env.placement.root <= env.placement.outputRoot
    requires k in AdvanceClient(s, k, env).clients
    ensures !AdvanceClient(s, k, env).clients[k].phase.TaskReady?
  {
    if IsBeforeClaim(s.clients[k].phase) {
    } else if s.clients[k].delivery.HostDelivery? && IsBeforeDelegation(s.clients[k].phase) {
    } else if s.clients[k].delivery.HostDelivery? && IsAfterDelegation(s.clients[k].phase) {
      AfterDelegationIsNotReady(s, k, s.clients[k].delivery.request, env);
    } else {
      TaskIsNotReady(s, k, env);
    }
  }

  lemma AfterDelegationIsNotReady(s: Job, k: nat, r: HostRequest, env: Env)
    requires k in s.clients && IsAfterDelegation(s.clients[k].phase)
    ensures var s' := AdvanceAfter(s, k, r, env); k in s'.clients && !s'.clients[k].phase.TaskReady?
  {
  }

  lemma TaskIsNotReady(s: Job, k: nat, env: Env)
    requires k in s.clients && !s.clients[k].phase.TaskReady?
    ensures var s' := AdvanceTask(s, k, env); k in s'.clients && !s'.clients[k].phase.TaskReady?
  {
  }

  lemma ClientStepKeepsUnclaimed(s: Job, s': Job, k: nat)
    requires Unclaimed(s) && ClientStep(s, s', k) && !s'.clients[k].phase.TaskReady?
    ensures Unclaimed(s')
  {
  }

  lemma {:induction false} StaysUnclaimed(jobId: string, acts: seq<Action>)
    requires NeverClean(acts) || NeverOutside(acts)
    ensures Unclaimed(Run(jobId, acts))
  {
    if acts != [] {
      var init, a := acts[..|acts| - 1], acts[|acts| - 1];
      StaysUnclaimed(jobId, init);
      var s := Run(jobId, init);
      if a.Advance? && a.k in s.clients {
        AdvanceFrames(s, a.k, a.env);
        if AdvanceClient(s, a.k, a.env) != s {
          NobodyGetsReady(s, a.k, a.env);
          ClientStepKeepsUnclaimed(s, AdvanceClient(s, a.k, a.env), a.k);
        }
      }
    }
  }

  /**
   Without a clean source, or with the receipts inside the checkout, no audit ever runs, no
   receipt is published and no answer reports a task.
   */
  lemma NothingIsAudited(jobId: string, acts: seq<Action>)
    requires NeverClean(acts) || NeverOutside(acts)
    ensures var s := Run(jobId, acts); AuditFree(s.log) && s.receipt.None? && NoAnswerFromTask(s)
  {
    StaysUnclaimed(jobId, acts);
    UnclaimedMeansNoAudit(jobId, acts);
    AnyRunKeepsInv(jobId, acts);
    UnpublishedMeansNoAnswer(RequestsOf(acts), Run(jobId, acts));
  }

  // ----- A delivery into a fresh directory -----

  /** Nothing is there yet, and nothing stands in the delivery's way. */
  predicate IsClear(s: Job, k: nat, r: HostRequest, env: Env) {
    && k in s.clients && s.clients[k] == Client(HostDelivery(r), HostStart)
    && !s.present && !s.stop && s.receipt.None? && VisibleHost(s).None? && s.hostTmp.None?
    && ValidHost(r) && ValidTask(TaskOf(HostDelivery(r)))
    && IsPlaced(env.placement) && env.contextGranted && env.sourceClean
  }

  lemma ClearReachesTask(jobId: string, s: Job, k: nat, r: HostRequest, env: Env)
    requires IsClear(s, k, r, env)
    ensures Reaches(jobId, Alone(k, env), s, Moved(s, k, TaskStart))
  {
    assert Moved(s, k, HostStart) == s;
    ReachesSelf(jobId, Alone(k, env), s);
    BeforeDelegationStep(s, k, r, env, HostStart);
    StepOn(jobId, s, k, env, HostStart, NoHostReceipt);
    BeforeDelegationStep(s, k, r, env, NoHostReceipt);
    StepOn(jobId, s, k, env, NoHostReceipt, NoStop);
    BeforeDelegationStep(s, k, r, env, NoStop);
    StepOn(jobId, s, k, env, NoStop, NoTaskReceipt);
    BeforeDelegationStep(s, k, r, env, NoTaskReceipt);
    StepOn(jobId, s, k, env, NoTaskReceipt, TaskStart);
  }

  lemma ClearReachesClaim(jobId: string, s: Job, k: nat, r: HostRequest, env: Env)
    requires IsClear(s, k, r, env)
    ensures Reaches(jobId, Alone(k, env), s, MakeDirectory(Moved(s, k, TaskReady), k))
  {
    ClearReachesTask(jobId, s, k, r, env);
    BeforeClaimStep(s, k, env, TaskStart);
    StepOn(jobId, s, k, env, TaskStart, TaskReady);
    AloneStep(jobId, s, Moved(s, k, TaskReady), k, env);
  }

  /** What the delivery has come to: its receipt is visible, and says what the audit said. */
  ghost predicate IsAnswered(s: Job, k: nat, r: HostRequest, env: Env)
    requires IsFit(TaskOf(HostDelivery(r)), env.audit)
  {
    && k in s.clients && s.clients[k].phase.HostReturned? && !s.clients[k].phase.replayed
    && Reports(s.clients[k].phase.host.body, r, env.audit)
    && s.clients[k].phase.host.digest == s.clients[k].phase.host.body
    && VisibleHost(s) == Some(Whole(s.clients[k].phase.host))
    && s.receipt == Some(Whole(FitReceipt(TaskOf(HostDelivery(r)), env.audit)))
  }

  lemma ClaimedIsFresh(s: Job, k: nat, r: HostRequest, env: Env)
    requires IsClear(s, k, r, env)
    ensures var m := MakeDirectory(Moved(s, k, TaskReady), k);
            && k in m.clients && m.clients[k] == Client(HostDelivery(r), Claimed) && m.receipt.None?
            && VisibleHost(m).None? && m.hostTmp.None? && AdvanceClient(Moved(s, k, TaskReady), k, env) == m
  {
  }

  lemma ClaimIsDone(jobId: string, s: Job, m: Job, k: nat, env: Env)
    requires Reaches(jobId, Alone(k, env), s, m) && k in m.clients && m.clients[k].phase.Claimed?
    requires IsFit(TaskOf(m.clients[k].delivery), env.audit) && env.sourceClean
    ensures exists s' :: Reaches(jobId, Alone(k, env), s, s')
                         && PublishedBy(m, s', k, FitReceipt(TaskOf(m.clients[k].delivery), env.audit))
  {
    var t := TaskOf(m.clients[k].delivery);
    var r := FitReceipt(t, env.audit);
    AloneStep(jobId, s, m, k, env);
    ClaimAudits(m, k, env);
    var audited := RunAudit(m, k, env.audit);
    AloneStep(jobId, s, audited, k, env);
    AuditedReceiptIsFit(audited, k, env);
    var checked := Moved(audited, k, HasTaskReceipt(r));
    PublishingSettles(jobId, s, checked, k, env, r);
    var s' :| Reaches(jobId, Alone(k, env), s, s') && PublishedBy(checked, s', k, r);
    assert PublishedBy(m, s', k, r);
  }

  lemma DoneBuilds(m: Job, k: nat, r: HostRequest, env: Env, i: TaskReceipt)
    requires k in m.clients && m.clients[k] == Client(HostDelivery(r), TaskDone(i, false))
    ensures AdvanceClient(m, k, env) == Moved(m, k, HostBuilt(HostReceiptFor(r, i), false))
  {
  }

  lemma BuiltOpens(m: Job, k: nat, r: HostRequest, env: Env, h: HostReceipt)
    requires k in m.clients && m.clients[k].delivery == HostDelivery(r) && VisibleHost(m).None?
    ensures AdvanceClient(Moved(m, k, HostBuilt(h, false)), k, env) == Moved(m, k, HostOpening(h, false))
  {
  }

  lemma DoneReachesOpening(jobId: string, s: Job, m: Job, k: nat, r: HostRequest, env: Env, i: TaskReceipt)
    requires Reaches(jobId, Alone(k, env), s, m) && k in m.clients
    requires m.clients[k] == Client(HostDelivery(r), TaskDone(i, false)) && VisibleHost(m).None?
    ensures Reaches(jobId, Alone(k, env), s, Moved(m, k, HostOpening(HostReceiptFor(r, i), false)))
  {
    var h := HostReceiptFor(r, i);
    AloneStep(jobId, s, m, k, env);
    DoneBuilds(m, k, r, env, i);
    AloneStep(jobId, s, Moved(m, k, HostBuilt(h, false)), k, env);
    BuiltOpens(m, k, r, env, h);
  }

  /** Opening and writing, where no temporary file is left from before. */
  lemma OpeningWrites(m: Job, k: nat, r: HostRequest, env: Env, h: HostReceipt)
    requires k in m.clients && m.clients[k] == Client(HostDelivery(r), HostOpening(h, false)) && m.hostTmp.None?
    ensures var torn := OpenHostTmp(m, k, h, false);
            var written := WriteHostTmp(torn, k, |m.inodes|, h, false, env.cleanOverwrite);
            && torn == AdvanceClient(m, k, env) && k in torn.clients
            && written == AdvanceClient(torn, k, env) && k in written.clients
            && written.clients[k] == Client(HostDelivery(r), HostWritten(h, false))
            && written.hostTmp == Some(|m.inodes|) && written.inodes == m.inodes + [Whole(h)]
            && written.receipt == m.receipt
  {
  }

  /** Renaming and answering. */
  lemma WrittenAnswers(m: Job, k: nat, r: HostRequest, env: Env, h: HostReceipt, n: nat)
    requires k in m.clients && m.clients[k] == Client(HostDelivery(r), HostWritten(h, false))
    requires m.hostTmp == Some(n) && n < |m.inodes| && m.inodes[n] == Whole(h)
    ensures var renamed := RenameHostTmp(m, k, h, false);
            var s' := AnswerHost(renamed, k, r, h, false);
            && renamed == AdvanceClient(m, k, env) && k in renamed.clients
            && s' == AdvanceClient(renamed, k, env) && k in s'.clients
            && s'.clients[k].phase == HostReturned(h, false) && VisibleHost(s') == Some(Whole(h))
            && s'.receipt == m.receipt
  {
  }

  lemma OpeningReachesAnswer(jobId: string, s: Job, m: Job, k: nat, r: HostRequest, env: Env, h: HostReceipt)
    requires Reaches(jobId, Alone(k, env), s, m) && k in m.clients
    requires m.clients[k] == Client(HostDelivery(r), HostOpening(h, false)) && m.hostTmp.None?
    ensures exists s' :: && Reaches(jobId, Alone(k, env), s, s') && k in s'.clients
                         && s'.clients[k].phase == HostReturned(h, false) && VisibleHost(s') == Some(Whole(h))
                         && s'.receipt == m.receipt
  {
    var torn := OpenHostTmp(m, k, h, false);
    var written := WriteHostTmp(torn, k, |m.inodes|, h, false, env.cleanOverwrite);
    OpeningWrites(m, k, r, env, h);
    WrittenAnswers(written, k, r, env, h, |m.inodes|);
    AloneStep(jobId, s, m, k, env);
    AloneStep(jobId, s, torn, k, env);
    AloneStep(jobId, s, written, k, env);
    AloneStep(jobId, s, RenameHostTmp(written, k, h, false), k, env);
  }

  /** Undisturbed in a fresh directory, with a fit audit, a host request is answered with what the audit said. */
  lemma FreshDeliveryAnswers(jobId: string, s: Job, k: nat, r: HostRequest, env: Env)
    requires IsClear(s, k, r, env) && IsFit(TaskOf(HostDelivery(r)), env.audit)
    ensures exists s' :: Reaches(jobId, Alone(k, env), s, s') && IsAnswered(s', k, r, env)
  {
    var i := FitReceipt(TaskOf(HostDelivery(r)), env.audit);
    ClearReachesClaim(jobId, s, k, r, env);
    ClaimedIsFresh(s, k, r, env);
    var claimed := MakeDirectory(Moved(s, k, TaskReady), k);
    ClaimIsDone(jobId, s, claimed, k, env);
    var done :| Reaches(jobId, Alone(k, env), s, done) && PublishedBy(claimed, done, k, i);
    DoneReachesOpening(jobId, s, done, k, r, env, i);
    OpeningReachesAnswer(jobId, s, Moved(done, k, HostOpening(HostReceiptFor(r, i), false)), k, r, env,
                         HostReceiptFor(r, i));
    HostReceiptReports(r, env.audit);
  }

  /** Without a fit audit it fails, and leaves no receipt. */
  lemma FreshDeliveryFails(jobId: string, s: Job, k: nat, r: HostRequest, env: Env)
    requires IsClear(s, k, r, env) && !IsFit(TaskOf(HostDelivery(r)), env.audit)
    ensures exists s' :: Reaches(jobId, Alone(k, env), s, s') && k in s'.clients
                         && s'.clients[k].phase.Failed? && s'.receipt.None? && VisibleHost(s').None?
  {
    ClearReachesClaim(jobId, s, k, r, env);
    ClaimedIsFresh(s, k, r, env);
    var claimed := MakeDirectory(Moved(s, k, TaskReady), k);
    AloneStep(jobId, s, claimed, k, env);
    ClaimAudits(claimed, k, env);
    var audited := RunAudit(claimed, k, env.audit);
    AloneStep(jobId, s, audited, k, env);
    AuditDecides(audited, k, env);
    CheckDerives(audited, k, env);
  }
}
