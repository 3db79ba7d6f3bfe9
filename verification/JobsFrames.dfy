/** What one delivery's step does to itself, to the files and to the log, and what it leaves alone. */
module JobsFrames {
  import opened Wrappers
  import opened Jobs
  import opened JobsInvariant

  /** Past its claim and not yet published: the audit has been started. */
  predicate IsPastClaim(p: Phase) {
    IsClaimant(p) && !p.Claimed?
  }

  predicate TouchesHostFiles(p: Phase) {
    p.HostOpening? || p.HostWriting? || p.HostWritten?
  }

  /** Where the step may take a delivery that stands at `p`. */
  predicate MayGo(s: Job, p: Phase, p': Phase) {
    && (p'.Claimed? ==> p.TaskReady? && !s.present)
    && (IsPastClaim(p') ==> IsPastClaim(p) || p.Claimed?)
    && (IsWriter(p') ==> TouchesHostFiles(p) || p' == p)
    && (IsOver(p) ==> p' == p)
  }

  ghost predicate OnlyMoves(s: Job, s': Job, k: nat) {
    && k in s.clients && k in s'.clients
    && s'.clients == s.clients[k := s.clients[k].(phase := s'.clients[k].phase)]
    && MayGo(s, s.clients[k].phase, s'.clients[k].phase)
  }

  predicate SameHostFiles(s: Job, s': Job) {
    s'.hostReceipt == s.hostReceipt && s'.hostTmp == s.hostTmp && s'.inodes == s.inodes
  }

  /** Which files the step may change, by where its delivery stands. */
  predicate FilesFrame(s: Job, s': Job, p: Phase) {
    && s'.stop == s.stop && (s.present ==> s'.present)
    && (s'.claimedBy != s.claimedBy ==> p.TaskReady? && !s.present)
    && (s'.receipt != s.receipt ==> p.TaskFileWritten?)
    && (TouchesHostFiles(p) || SameHostFiles(s, s'))
  }

  /** What the step of delivery `k` may log. */
  predicate MayLog(cl: Client, k: nat, e: Event) {
    match e
    case AuditRan(j, _) => j == k && cl.phase.Claimed?
    case TaskAnswered(_, _, _, _) => cl.phase.TaskDone?
    case HostAnswered(_, _, h, replayed) => cl.delivery.HostDelivery? && cl.phase == HostSettled(h, replayed)
  }

  ghost predicate LogsOwn(s: Job, s': Job, k: nat)
    requires k in s.clients
  {
    || (s'.log == s.log && !s.clients[k].phase.Claimed?)
    || exists e :: s'.log == s.log + [e] && MayLog(s.clients[k], k, e)
  }

  /** The step of one delivery. */
  ghost predicate ClientStep(s: Job, s': Job, k: nat) {
    OnlyMoves(s, s', k) && FilesFrame(s, s', s.clients[k].phase) && LogsOwn(s, s', k)
  }

  /** A step that only moves its delivery. */
  lemma MoveFrames(s: Job, k: nat, p: Phase)
    requires k in s.clients && !s.clients[k].phase.Claimed? && MayGo(s, s.clients[k].phase, p)
    ensures ClientStep(s, Moved(s, k, p), k)
  {
  }

  lemma BeforeClaimGoes(s: Job, d: Delivery, p: Phase, env: Env)
    requires IsBeforeClaim(p)
    ensures MayGo(s, p, BeforeClaim(s, d, p, env))
  {
  }

  lemma BeforeDelegationGoes(s: Job, r: HostRequest, p: Phase, env: Env)
    requires IsBeforeDelegation(p)
    ensures MayGo(s, p, BeforeDelegation(s, r, p, env))
  {
  }

  lemma MakeDirectoryFrames(s: Job, k: nat)
    requires k in s.clients && s.clients[k].phase.TaskReady?
    ensures ClientStep(s, MakeDirectory(s, k), k)
  {
  }

  lemma RunAuditFrames(s: Job, k: nat, outcome: AuditOutcome)
    requires k in s.clients && s.clients[k].phase.Claimed?
    ensures ClientStep(s, RunAudit(s, k, outcome), k)
  {
    assert MayLog(s.clients[k], k, AuditRan(k, outcome));
  }

  lemma PublishTaskFrames(s: Job, k: nat)
    requires k in s.clients && PendingReceipt(s.clients[k].phase).Some?
    ensures ClientStep(s, PublishTask(s, k, s.clients[k].phase), k)
  {
    match s.clients[k].phase
    case HasTaskReceipt(_) =>
    case TaskFileOpen(_) =>
    case TaskFileWritten(_) =>
  }

  lemma FinishTaskFrames(s: Job, k: nat)
    requires k in s.clients && s.clients[k].phase.TaskDone?
    ensures ClientStep(s, FinishTask(s, k, s.clients[k].phase.receipt, s.clients[k].phase.replayed), k)
  {
    var p := s.clients[k].phase;
    match s.clients[k].delivery
    case TaskDelivery(t) => assert MayLog(s.clients[k], k, TaskAnswered(k, t, p.receipt, p.replayed));
    case HostDelivery(q) => MoveFrames(s, k, HostBuilt(HostReceiptFor(q, p.receipt), p.replayed));
  }

  lemma TaskFrames(s: Job, k: nat, env: Env)
    requires k in s.clients
    ensures AdvanceTask(s, k, env) == s || ClientStep(s, AdvanceTask(s, k, env), k)
  {
    match s.clients[k].phase
    case TaskReady => MakeDirectoryFrames(s, k);
    case Claimed => RunAuditFrames(s, k, env.audit);
    case Auditing(_) => MoveFrames(s, k, AdvanceTask(s, k, env).clients[k].phase);
    case HasTaskReceipt(_) => PublishTaskFrames(s, k);
    case TaskFileOpen(_) => PublishTaskFrames(s, k);
    case TaskFileWritten(_) => PublishTaskFrames(s, k);
    case TaskDone(_, _) => FinishTaskFrames(s, k);
    case _ =>
  }

  lemma OpenHostTmpFrames(s: Job, k: nat)
    requires k in s.clients && s.clients[k].phase.HostOpening?
    ensures var s' := OpenHostTmp(s, k, s.clients[k].phase.host, s.clients[k].phase.replayed);
            s' == s || ClientStep(s, s', k)
  {
  }

  lemma WriteHostTmpFrames(s: Job, k: nat, clean: bool)
    requires k in s.clients && s.clients[k].phase.HostWriting? && s.clients[k].phase.inode < |s.inodes|
    ensures var p := s.clients[k].phase;
            ClientStep(s, WriteHostTmp(s, k, p.inode, p.host, p.replayed, clean), k)
  {
  }

  lemma RenameHostTmpFrames(s: Job, k: nat)
    requires k in s.clients && s.clients[k].phase.HostWritten?
    ensures ClientStep(s, RenameHostTmp(s, k, s.clients[k].phase.host, s.clients[k].phase.replayed), k)
  {
  }

  lemma AnswerHostFrames(s: Job, k: nat, r: HostRequest)
    requires k in s.clients && s.clients[k].delivery.HostDelivery? && s.clients[k].phase.HostSettled?
    ensures ClientStep(s, AnswerHost(s, k, r, s.clients[k].phase.host, s.clients[k].phase.replayed), k)
  {
    var p := s.clients[k].phase;
    assert MayLog(s.clients[k], k, HostAnswered(k, r, p.host, p.replayed));
  }

  lemma HostFrames(s: Job, k: nat, r: HostRequest, env: Env)
    requires k in s.clients && s.clients[k].delivery.HostDelivery? && IsAfterDelegation(s.clients[k].phase)
    ensures AdvanceAfter(s, k, r, env) == s || ClientStep(s, AdvanceAfter(s, k, r, env), k)
  {
    match s.clients[k].phase
    case HostBuilt(_, _) => MoveFrames(s, k, AdvanceAfter(s, k, r, env).clients[k].phase);
    case HostCompare(_, _) => MoveFrames(s, k, AdvanceAfter(s, k, r, env).clients[k].phase);
    case HostOpening(_, _) => OpenHostTmpFrames(s, k);
    case HostWriting(n, _, _) => if n < |s.inodes| { WriteHostTmpFrames(s, k, env.cleanOverwrite); }
    case HostWritten(_, _) => RenameHostTmpFrames(s, k);
    case HostSettled(_, _) => AnswerHostFrames(s, k, r);
  }

  /** An advance is a step of its delivery, or changes nothing. */
  lemma AdvanceFrames(s: Job, k: nat, env: Env)
    requires k in s.clients
    ensures AdvanceClient(s, k, env) == s || ClientStep(s, AdvanceClient(s, k, env), k)
  {
    var cl := s.clients[k];
    if IsBeforeClaim(cl.phase) {
      BeforeClaimGoes(s, cl.delivery, cl.phase, env);
      MoveFrames(s, k, BeforeClaim(s, cl.delivery, cl.phase, env));
    } else if cl.delivery.HostDelivery? && IsBeforeDelegation(cl.phase) {
      BeforeDelegationGoes(s, cl.delivery.request, cl.phase, env);
      MoveFrames(s, k, BeforeDelegation(s, cl.delivery.request, cl.phase, env));
    } else if cl.delivery.HostDelivery? && IsAfterDelegation(cl.phase) {
      HostFrames(s, k, cl.delivery.request, env);
    } else {
      TaskFrames(s, k, env);
    }
  }
}
