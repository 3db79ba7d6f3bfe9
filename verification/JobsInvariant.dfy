/** What every run of deliveries in one job directory keeps. */
module JobsInvariant {
  import opened Wrappers
  import opened Jobs

  /** The host receipt a request may get in this directory: built from the task's, or a stop. */
  ghost predicate HostOk(s: Job, q: HostRequest, h: HostReceipt) {
    || (s.stop && h == SealHost(CancelledBeforeDispatch(q)))
    || (s.receipt.Some? && s.receipt.value.Whole?
        && s.receipt.value.value.body.request == TaskOf(HostDelivery(q))
        && h == HostReceiptFor(q, s.receipt.value.value))
  }

  ghost predicate TaskOk(s: Job, t: TaskRequest, r: TaskReceipt) {
    s.receipt == Some(Whole(r)) && r.body.request == t
  }

  predicate AuditFree(log: seq<Event>) {
    forall i :: 0 <= i < |log| ==> !log[i].AuditRan?
  }

  /** Claimed but not yet published. */
  predicate IsClaimant(p: Phase) {
    p.Claimed? || p.Auditing? || p.HasTaskReceipt? || p.TaskFileOpen? || p.TaskFileWritten?
  }

  predicate IsWriter(p: Phase) {
    p.HostWriting? || p.HostWritten?
  }

  function PendingReceipt(p: Phase): Option<TaskReceipt> {
    match p
    case HasTaskReceipt(r) => Some(r)
    case TaskFileOpen(r) => Some(r)
    case TaskFileWritten(r) => Some(r)
    case _ => None
  }

  ghost predicate ClaimantOk(s: Job, k: nat, t: TaskRequest, p: Phase) {
    && s.claimedBy == Some(k) && s.receipt.None?
    && (p.Claimed? ==> AuditFree(s.log))
    && (PendingReceipt(p).Some? ==>
          PendingReceipt(p).value.digest == PendingReceipt(p).value.body && PendingReceipt(p).value.body.request == t)
    && (p.TaskFileWritten? ==> s.receiptTmp == Some(Whole(p.receipt)))
  }

  function HostOf(p: Phase): Option<HostReceipt> {
    match p
    case HostBuilt(h, _) => Some(h)
    case HostCompare(h, _) => Some(h)
    case HostOpening(h, _) => Some(h)
    case HostWriting(_, h, _) => Some(h)
    case HostWritten(h, _) => Some(h)
    case HostSettled(h, _) => Some(h)
    case HostReturned(h, _) => Some(h)
    case _ => None
  }

  /** `allowed` bounds the host requests delivered in the run. */
  ghost predicate ClientOk(allowed: set<HostRequest>, s: Job, k: nat, cl: Client) {
    var t := TaskOf(cl.delivery);
    && (cl.delivery.HostDelivery? ==> cl.delivery.request in allowed)
    && (IsClaimant(cl.phase) ==> ClaimantOk(s, k, t, cl.phase))
    && (cl.phase.TaskDone? ==> TaskOk(s, t, cl.phase.receipt))
    && (cl.phase.TaskReturned? ==> TaskOk(s, t, cl.phase.receipt))
    && (HostOf(cl.phase).Some? ==>
          cl.delivery.HostDelivery? && HostOk(s, cl.delivery.request, HostOf(cl.phase).value))
    && (cl.phase.CancelSeen? ==> s.stop)
    && (cl.phase.HostWriting? ==> cl.phase.inode < |s.inodes|)
  }

  ghost predicate ClientsOk(allowed: set<HostRequest>, s: Job) {
    forall k :: k in s.clients ==> ClientOk(allowed, s, k, s.clients[k])
  }

  ghost predicate FilesOk(allowed: set<HostRequest>, s: Job) {
    && (s.claimedBy.Some? ==> s.present && s.claimedBy.value in s.clients)
    && (s.receipt.Some? ==>
          && s.claimedBy.Some? && s.receipt.value.Whole?
          && s.receipt.value.value.digest == s.receipt.value.value.body)
    && (s.hostReceipt.Some? ==> s.hostReceipt.value < |s.inodes|)
    && (s.hostTmp.Some? ==> s.hostTmp.value < |s.inodes|)
    && (forall n :: 0 <= n < |s.inodes| && s.inodes[n].Whole? ==>
                      && s.inodes[n].value.body.request in allowed
                      && HostOk(s, s.inodes[n].value.body.request, s.inodes[n].value))
  }

  /** The client has passed the point where it runs the audit. */
  predicate IsPastAudit(p: Phase) {
    !(IsBeforeDelegation(p) || IsBeforeClaim(p) || p.TaskReady? || p.Claimed?)
  }

  ghost predicate EventOk(allowed: set<HostRequest>, s: Job, e: Event) {
    match e
    case AuditRan(k, _) => s.claimedBy == Some(k) && k in s.clients && IsPastAudit(s.clients[k].phase)
    case TaskAnswered(_, t, r, _) => TaskOk(s, t, r)
    case HostAnswered(_, q, h, _) => q in allowed && HostOk(s, q, h)
  }

  ghost predicate LogOk(allowed: set<HostRequest>, s: Job) {
    && (forall i :: 0 <= i < |s.log| ==> EventOk(allowed, s, s.log[i]))
    && (forall i, j :: 0 <= i < j < |s.log| ==> !(s.log[i].AuditRan? && s.log[j].AuditRan?))
  }

  ghost predicate Inv(allowed: set<HostRequest>, s: Job) {
    ClientsOk(allowed, s) && FilesOk(allowed, s) && LogOk(allowed, s)
  }

  // ----- What a step by one client leaves to the others -----

  ghost predicate Evolves(s: Job, s': Job) {
    && (s.stop ==> s'.stop)
    && (s.present ==> s'.present)
    && (s.claimedBy.Some? ==> s'.claimedBy == s.claimedBy)
    && (s.receipt.Some? ==> s'.receipt == s.receipt)
    && |s.inodes| <= |s'.inodes|
  }

  /** Either the stepping client is the claimant, or the claim's own files do not change. */
  ghost predicate Leaves(s: Job, s': Job, k: nat) {
    || s.claimedBy == Some(k)
    || (s'.receipt == s.receipt && s'.receiptTmp == s.receiptTmp && (AuditFree(s.log) ==> AuditFree(s'.log)))
  }

  lemma ClientOkEvolves(allowed: set<HostRequest>, s: Job, s': Job, k: nat, j: nat, cl: Client)
    requires ClientOk(allowed, s, j, cl) && Evolves(s, s') && Leaves(s, s', k) && j != k
    ensures ClientOk(allowed, s', j, cl)
  {
  }

  lemma OthersStayOk(allowed: set<HostRequest>, s: Job, s': Job, k: nat)
    requires ClientsOk(allowed, s) && Evolves(s, s') && Leaves(s, s', k)
    requires s'.clients.Keys == s.clients.Keys + {k}
    requires forall j :: j in s.clients && j != k ==> s'.clients[j] == s.clients[j]
    requires ClientOk(allowed, s', k, s'.clients[k])
    ensures ClientsOk(allowed, s')
  {
    forall j | j in s'.clients ensures ClientOk(allowed, s', j, s'.clients[j]) {
      if j != k {
        ClientOkEvolves(allowed, s, s', k, j, s.clients[j]);
      }
    }
  }

  ghost predicate ClientsProgress(s: Job, s': Job) {
    forall k :: k in s.clients ==>
                  k in s'.clients && (IsPastAudit(s.clients[k].phase) ==> IsPastAudit(s'.clients[k].phase))
  }

  lemma EventsStayOk(allowed: set<HostRequest>, s: Job, s': Job)
    requires LogOk(allowed, s) && Evolves(s, s') && ClientsProgress(s, s')
    ensures forall i :: 0 <= i < |s.log| ==> EventOk(allowed, s', s.log[i])
  {
    forall i | 0 <= i < |s.log| ensures EventOk(allowed, s', s.log[i]) {
      assert EventOk(allowed, s, s.log[i]);
    }
  }

  lemma LogOkAppend(allowed: set<HostRequest>, s: Job, s': Job, e: Event)
    requires LogOk(allowed, s) && Evolves(s, s') && ClientsProgress(s, s') && s'.log == s.log + [e]
    requires EventOk(allowed, s', e) && (e.AuditRan? ==> AuditFree(s.log))
    ensures LogOk(allowed, s')
  {
    EventsStayOk(allowed, s, s');
    forall i | 0 <= i < |s'.log| ensures EventOk(allowed, s', s'.log[i]) {
      assert i < |s.log| ==> s'.log[i] == s.log[i];
    }
  }

  lemma LogOkSame(allowed: set<HostRequest>, s: Job, s': Job)
    requires LogOk(allowed, s) && Evolves(s, s') && ClientsProgress(s, s') && s'.log == s.log
    ensures LogOk(allowed, s')
  {
    EventsStayOk(allowed, s, s');
  }

  // ----- The steps -----

  /** A step that only moves its client. */
  lemma MoveKeepsInv(allowed: set<HostRequest>, s: Job, k: nat, p: Phase)
    requires Inv(allowed, s) && k in s.clients
    requires ClientOk(allowed, s, k, s.clients[k].(phase := p))
    requires IsPastAudit(s.clients[k].phase) ==> IsPastAudit(p)
    ensures Inv(allowed, Moved(s, k, p))
  {
    OthersStayOk(allowed, s, Moved(s, k, p), k);
    LogOkSame(allowed, s, Moved(s, k, p));
  }

  lemma BeforeDelegationLands(allowed: set<HostRequest>, s: Job, k: nat, env: Env)
    requires FilesOk(allowed, s) && k in s.clients && ClientOk(allowed, s, k, s.clients[k])
    requires s.clients[k].delivery.HostDelivery? && IsBeforeDelegation(s.clients[k].phase)
    ensures var p := BeforeDelegation(s, s.clients[k].delivery.request, s.clients[k].phase, env);
            ClientOk(allowed, s, k, s.clients[k].(phase := p))
  {
  }

  lemma BeforeClaimLands(allowed: set<HostRequest>, s: Job, k: nat, env: Env)
    requires FilesOk(allowed, s) && k in s.clients && ClientOk(allowed, s, k, s.clients[k])
    requires IsBeforeClaim(s.clients[k].phase)
    ensures var p := BeforeClaim(s, s.clients[k].delivery, s.clients[k].phase, env);
            ClientOk(allowed, s, k, s.clients[k].(phase := p))
  {
  }

  lemma MakeDirectoryKeepsInv(allowed: set<HostRequest>, s: Job, k: nat)
    requires Inv(allowed, s) && k in s.clients && s.clients[k].phase.TaskReady?
    ensures Inv(allowed, MakeDirectory(s, k))
  {
    var s' := MakeDirectory(s, k);
    assert ClientOk(allowed, s, k, s.clients[k]);
    if s.present {
      MoveKeepsInv(allowed, s, k, DirectoryExists);
    } else {
      forall i | 0 <= i < |s.log| ensures !s.log[i].AuditRan? {
        assert EventOk(allowed, s, s.log[i]);
      }
      OthersStayOk(allowed, s, s', k);
      LogOkSame(allowed, s, s');
    }
  }

  lemma RunAuditKeepsInv(allowed: set<HostRequest>, s: Job, k: nat, outcome: AuditOutcome)
    requires Inv(allowed, s) && k in s.clients && s.clients[k].phase.Claimed?
    ensures Inv(allowed, RunAudit(s, k, outcome))
  {
    var s' := RunAudit(s, k, outcome);
    assert ClientOk(allowed, s, k, s.clients[k]);
    OthersStayOk(allowed, s, s', k);
    LogOkAppend(allowed, s, s', AuditRan(k, outcome));
  }

  lemma PublishTaskEvolves(s: Job, k: nat)
    requires k in s.clients && PendingReceipt(s.clients[k].phase).Some?
    requires s.claimedBy == Some(k) && s.receipt.None?
    ensures var s' := PublishTask(s, k, s.clients[k].phase);
            Evolves(s, s') && Leaves(s, s', k) && ClientsProgress(s, s') && s'.log == s.log
  {
  }

  lemma PublishTaskLands(allowed: set<HostRequest>, s: Job, k: nat)
    requires k in s.clients && ClientOk(allowed, s, k, s.clients[k])
    requires PendingReceipt(s.clients[k].phase).Some?
    ensures var s' := PublishTask(s, k, s.clients[k].phase); ClientOk(allowed, s', k, s'.clients[k])
  {
    match s.clients[k].phase
    case HasTaskReceipt(r) =>
    case TaskFileOpen(r) =>
    case TaskFileWritten(r) =>
  }

  lemma PublishTaskKeepsFiles(allowed: set<HostRequest>, s: Job, k: nat)
    requires FilesOk(allowed, s) && k in s.clients && ClientOk(allowed, s, k, s.clients[k])
    requires PendingReceipt(s.clients[k].phase).Some?
    ensures FilesOk(allowed, PublishTask(s, k, s.clients[k].phase))
  {
    match s.clients[k].phase
    case HasTaskReceipt(r) =>
    case TaskFileOpen(r) =>
    case TaskFileWritten(r) => RenameTaskKeepsFiles(allowed, s, k, r);
  }

  lemma RenameTaskKeepsFiles(allowed: set<HostRequest>, s: Job, k: nat, r: TaskReceipt)
    requires FilesOk(allowed, s) && k in s.clients && ClientOk(allowed, s, k, s.clients[k])
    requires s.clients[k].phase == TaskFileWritten(r)
    ensures FilesOk(allowed, PublishTask(s, k, TaskFileWritten(r)))
  {
  }

  lemma PublishTaskKeepsInv(allowed: set<HostRequest>, s: Job, k: nat)
    requires Inv(allowed, s) && k in s.clients && PendingReceipt(s.clients[k].phase).Some?
    ensures Inv(allowed, PublishTask(s, k, s.clients[k].phase))
  {
    var s' := PublishTask(s, k, s.clients[k].phase);
    assert ClientOk(allowed, s, k, s.clients[k]);
    PublishTaskEvolves(s, k);
    PublishTaskLands(allowed, s, k);
    PublishTaskKeepsFiles(allowed, s, k);
    OthersStayOk(allowed, s, s', k);
    LogOkSame(allowed, s, s');
  }

  /** A step that moves its client and logs it. */
  lemma AnswerKeepsInv(allowed: set<HostRequest>, s: Job, k: nat, p: Phase, e: Event)
    requires Inv(allowed, s) && k in s.clients && !e.AuditRan?
    requires IsPastAudit(p) && ClientOk(allowed, s, k, s.clients[k].(phase := p)) && EventOk(allowed, s, e)
    requires !IsClaimant(p)
    ensures Inv(allowed, Moved(s, k, p).(log := s.log + [e]))
  {
    var s' := Moved(s, k, p).(log := s.log + [e]);
    OthersStayOk(allowed, s, s', k);
    LogOkAppend(allowed, s, s', e);
  }

  lemma FinishTaskKeepsInv(allowed: set<HostRequest>, s: Job, k: nat)
    requires Inv(allowed, s) && k in s.clients && s.clients[k].phase.TaskDone?
    ensures Inv(allowed, FinishTask(s, k, s.clients[k].phase.receipt, s.clients[k].phase.replayed))
  {
    var r, replayed := s.clients[k].phase.receipt, s.clients[k].phase.replayed;
    assert ClientOk(allowed, s, k, s.clients[k]);
    match s.clients[k].delivery
    case TaskDelivery(t) =>
      AnswerKeepsInv(allowed, s, k, TaskReturned(r, replayed), TaskAnswered(k, t, r, replayed));
    case HostDelivery(q) =>
      MoveKeepsInv(allowed, s, k, HostBuilt(HostReceiptFor(q, r), replayed));
  }

  /** A step that changes host files and moves its client. */
  lemma HostFilesKeepInv(allowed: set<HostRequest>, s: Job, s': Job, k: nat)
    requires Inv(allowed, s) && k in s.clients && IsAfterDelegation(s.clients[k].phase)
    requires k in s'.clients && s'.clients == s.clients[k := s'.clients[k]]
    requires IsPastAudit(s'.clients[k].phase)
    requires s' == s.(clients := s'.clients, hostReceipt := s'.hostReceipt, hostTmp := s'.hostTmp, inodes := s'.inodes)
    requires |s.inodes| <= |s'.inodes|
    requires ClientOk(allowed, s', k, s'.clients[k]) && FilesOk(allowed, s')
    ensures Inv(allowed, s')
  {
    OthersStayOk(allowed, s, s', k);
    LogOkSame(allowed, s, s');
  }

  /** A delivery that keeps its host receipt stays in order while the claim's files stand. */
  lemma HostPhaseStaysOk(allowed: set<HostRequest>, s: Job, s': Job, k: nat, cl: Client, p: Phase)
    requires ClientOk(allowed, s, k, cl) && HostOf(cl.phase).Some? && HostOf(p) == HostOf(cl.phase)
    requires s'.stop == s.stop && s'.receipt == s.receipt && (p.HostWriting? ==> p.inode < |s'.inodes|)
    ensures ClientOk(allowed, s', k, cl.(phase := p))
  {
  }

  lemma OpenHostTmpMoves(allowed: set<HostRequest>, s: Job, k: nat)
    requires FilesOk(allowed, s) && k in s.clients && ClientOk(allowed, s, k, s.clients[k])
    requires s.clients[k].phase.HostOpening?
    ensures var s' := OpenHostTmp(s, k, s.clients[k].phase.host, s.clients[k].phase.replayed);
            ClientOk(allowed, s', k, s'.clients[k])
  {
    var s' := OpenHostTmp(s, k, s.clients[k].phase.host, s.clients[k].phase.replayed);
    HostPhaseStaysOk(allowed, s, s', k, s.clients[k], s'.clients[k].phase);
  }

  lemma OpenHostTmpKeepsFiles(allowed: set<HostRequest>, s: Job, k: nat, h: HostReceipt, replayed: bool)
    requires FilesOk(allowed, s) && k in s.clients
    ensures FilesOk(allowed, OpenHostTmp(s, k, h, replayed))
  {
  }

  lemma OpenHostTmpShape(s: Job, k: nat, h: HostReceipt, replayed: bool)
    requires k in s.clients && (s.hostTmp.Some? ==> s.hostTmp.value < |s.inodes|)
    ensures var s' := OpenHostTmp(s, k, h, replayed);
            && k in s'.clients && s'.clients == s.clients[k := s'.clients[k]] && s'.clients[k].phase.HostWriting?
            && s' == s.(clients := s'.clients, hostReceipt := s'.hostReceipt, hostTmp := s'.hostTmp,
                        inodes := s'.inodes)
            && |s.inodes| <= |s'.inodes|
  {
  }

  lemma OpenHostTmpKeepsInv(allowed: set<HostRequest>, s: Job, k: nat)
    requires Inv(allowed, s) && k in s.clients && s.clients[k].phase.HostOpening?
    ensures Inv(allowed, OpenHostTmp(s, k, s.clients[k].phase.host, s.clients[k].phase.replayed))
  {
    assert ClientOk(allowed, s, k, s.clients[k]);
    OpenHostTmpMoves(allowed, s, k);
    OpenHostTmpKeepsFiles(allowed, s, k, s.clients[k].phase.host, s.clients[k].phase.replayed);
    OpenHostTmpShape(s, k, s.clients[k].phase.host, s.clients[k].phase.replayed);
    HostFilesKeepInv(allowed, s, OpenHostTmp(s, k, s.clients[k].phase.host, s.clients[k].phase.replayed), k);
  }

  lemma WriteHostTmpKeepsInv(allowed: set<HostRequest>, s: Job, k: nat, clean: bool)
    requires Inv(allowed, s) && k in s.clients
    requires s.clients[k].phase.HostWriting? && s.clients[k].phase.inode < |s.inodes|
    ensures var p := s.clients[k].phase;
            Inv(allowed, WriteHostTmp(s, k, p.inode, p.host, p.replayed, clean))
  {
    assert ClientOk(allowed, s, k, s.clients[k]);
    var p := s.clients[k].phase;
    HostFilesKeepInv(allowed, s, WriteHostTmp(s, k, p.inode, p.host, p.replayed, clean), k);
  }

  lemma RenameHostTmpMoves(allowed: set<HostRequest>, s: Job, k: nat)
    requires k in s.clients && ClientOk(allowed, s, k, s.clients[k]) && s.clients[k].phase.HostWritten?
    ensures var s' := RenameHostTmp(s, k, s.clients[k].phase.host, s.clients[k].phase.replayed);
            ClientOk(allowed, s', k, s'.clients[k])
  {
    var p := s.clients[k].phase;
    if s.hostTmp.Some? {
      HostPhaseStaysOk(allowed, s, RenameHostTmp(s, k, p.host, p.replayed), k, s.clients[k],
                       HostSettled(p.host, p.replayed));
    }
  }

  lemma RenameHostTmpKeepsFiles(allowed: set<HostRequest>, s: Job, k: nat, h: HostReceipt, replayed: bool)
    requires FilesOk(allowed, s) && k in s.clients
    ensures FilesOk(allowed, RenameHostTmp(s, k, h, replayed))
  {
  }

  lemma RenameHostTmpKeepsInv(allowed: set<HostRequest>, s: Job, k: nat)
    requires Inv(allowed, s) && k in s.clients && s.clients[k].phase.HostWritten?
    ensures Inv(allowed, RenameHostTmp(s, k, s.clients[k].phase.host, s.clients[k].phase.replayed))
  {
    assert ClientOk(allowed, s, k, s.clients[k]);
    RenameHostTmpMoves(allowed, s, k);
    RenameHostTmpKeepsFiles(allowed, s, k, s.clients[k].phase.host, s.clients[k].phase.replayed);
    HostFilesKeepInv(allowed, s, RenameHostTmp(s, k, s.clients[k].phase.host, s.clients[k].phase.replayed), k);
  }

  lemma BuiltLands(allowed: set<HostRequest>, s: Job, k: nat, h: HostReceipt, replayed: bool)
    requires k in s.clients && ClientOk(allowed, s, k, s.clients[k]) && s.clients[k].phase == HostBuilt(h, replayed)
    ensures ClientOk(allowed, s, k, s.clients[k].(phase := HostCompare(h, replayed)))
    ensures ClientOk(allowed, s, k, s.clients[k].(phase := HostOpening(h, replayed)))
  {
  }

  lemma CompareLands(allowed: set<HostRequest>, s: Job, k: nat, r: HostRequest, h: HostReceipt, replayed: bool)
    requires k in s.clients && ClientOk(allowed, s, k, s.clients[k]) && s.clients[k].phase == HostCompare(h, replayed)
    ensures ClientOk(allowed, s, k, s.clients[k].(phase := CompareHost(s, r, h, replayed)))
    ensures IsPastAudit(CompareHost(s, r, h, replayed))
  {
  }

  lemma BuiltKeepsInv(allowed: set<HostRequest>, s: Job, k: nat, h: HostReceipt, replayed: bool)
    requires Inv(allowed, s) && k in s.clients && s.clients[k].phase == HostBuilt(h, replayed)
    ensures Inv(allowed, Moved(s, k, HostCompare(h, replayed)))
    ensures Inv(allowed, Moved(s, k, HostOpening(h, replayed)))
  {
    assert ClientOk(allowed, s, k, s.clients[k]);
    BuiltLands(allowed, s, k, h, replayed);
    MoveKeepsInv(allowed, s, k, HostCompare(h, replayed));
    MoveKeepsInv(allowed, s, k, HostOpening(h, replayed));
  }

  lemma CompareKeepsInv(
    allowed: set<HostRequest>, s: Job, k: nat, r: HostRequest, h: HostReceipt, replayed: bool)
    requires Inv(allowed, s) && k in s.clients && s.clients[k].phase == HostCompare(h, replayed)
    ensures Inv(allowed, Moved(s, k, CompareHost(s, r, h, replayed)))
  {
    assert ClientOk(allowed, s, k, s.clients[k]);
    CompareLands(allowed, s, k, r, h, replayed);
    MoveKeepsInv(allowed, s, k, CompareHost(s, r, h, replayed));
  }

  lemma SettledKeepsInv(
    allowed: set<HostRequest>, s: Job, k: nat, q: HostRequest, h: HostReceipt, replayed: bool)
    requires Inv(allowed, s) && k in s.clients
    requires s.clients[k] == Client(HostDelivery(q), HostSettled(h, replayed))
    ensures Inv(allowed, AnswerHost(s, k, q, h, replayed))
  {
    assert ClientOk(allowed, s, k, s.clients[k]);
    AnswerKeepsInv(allowed, s, k, HostReturned(h, replayed), HostAnswered(k, q, h, replayed));
  }

  lemma AdvanceAfterKeepsInv(allowed: set<HostRequest>, s: Job, k: nat, env: Env)
    requires Inv(allowed, s) && k in s.clients
    requires s.clients[k].delivery.HostDelivery? && IsAfterDelegation(s.clients[k].phase)
    ensures Inv(allowed, AdvanceAfter(s, k, s.clients[k].delivery.request, env))
  {
    var q := s.clients[k].delivery.request;
    assert ClientOk(allowed, s, k, s.clients[k]);
    match s.clients[k].phase
    case HostBuilt(h, replayed) => BuiltKeepsInv(allowed, s, k, h, replayed);
    case HostCompare(h, replayed) => CompareKeepsInv(allowed, s, k, q, h, replayed);
    case HostOpening(h, replayed) => OpenHostTmpKeepsInv(allowed, s, k);
    case HostWriting(n, h, replayed) => WriteHostTmpKeepsInv(allowed, s, k, env.cleanOverwrite);
    case HostWritten(h, replayed) => RenameHostTmpKeepsInv(allowed, s, k);
    case HostSettled(h, replayed) => SettledKeepsInv(allowed, s, k, q, h, replayed);
  }

  lemma CheckAuditKeepsInv(allowed: set<HostRequest>, s: Job, k: nat, env: Env)
    requires Inv(allowed, s) && k in s.clients && s.clients[k].phase.Auditing?
    ensures Inv(allowed, AdvanceTask(s, k, env))
  {
    assert ClientOk(allowed, s, k, s.clients[k]);
    match TaskReceiptFor(TaskOf(s.clients[k].delivery), s.clients[k].phase.outcome, env.sourceClean)
    case Success(r) => MoveKeepsInv(allowed, s, k, HasTaskReceipt(r));
    case Failure(e) => MoveKeepsInv(allowed, s, k, Failed(e));
  }

  lemma AdvanceTaskKeepsInv(allowed: set<HostRequest>, s: Job, k: nat, env: Env)
    requires Inv(allowed, s) && k in s.clients
    ensures Inv(allowed, AdvanceTask(s, k, env))
  {
    match s.clients[k].phase
    case TaskReady => MakeDirectoryKeepsInv(allowed, s, k);
    case Claimed => RunAuditKeepsInv(allowed, s, k, env.audit);
    case Auditing(_) => CheckAuditKeepsInv(allowed, s, k, env);
    case HasTaskReceipt(_) => PublishTaskKeepsInv(allowed, s, k);
    case TaskFileOpen(_) => PublishTaskKeepsInv(allowed, s, k);
    case TaskFileWritten(_) => PublishTaskKeepsInv(allowed, s, k);
    case TaskDone(_, _) => FinishTaskKeepsInv(allowed, s, k);
    case _ =>
  }

  lemma AdvanceKeepsInv(allowed: set<HostRequest>, s: Job, k: nat, env: Env)
    requires Inv(allowed, s) && k in s.clients
    ensures Inv(allowed, AdvanceClient(s, k, env))
  {
    var cl := s.clients[k];
    assert ClientOk(allowed, s, k, cl);
    if IsBeforeClaim(cl.phase) {
      BeforeClaimLands(allowed, s, k, env);
      MoveKeepsInv(allowed, s, k, BeforeClaim(s, cl.delivery, cl.phase, env));
    } else if cl.delivery.HostDelivery? && IsBeforeDelegation(cl.phase) {
      BeforeDelegationLands(allowed, s, k, env);
      MoveKeepsInv(allowed, s, k, BeforeDelegation(s, cl.delivery.request, cl.phase, env));
    } else if cl.delivery.HostDelivery? && IsAfterDelegation(cl.phase) {
      AdvanceAfterKeepsInv(allowed, s, k, env);
    } else {
      AdvanceTaskKeepsInv(allowed, s, k, env);
    }
  }

  predicate ActionAllowed(allowed: set<HostRequest>, a: Action) {
    a.Deliver? && a.delivery.HostDelivery? ==> a.delivery.request in allowed
  }

  /** All host requests delivered in the run are in `allowed`. */
  predicate OnlyFrom(allowed: set<HostRequest>, acts: seq<Action>) {
    forall i :: 0 <= i < |acts| ==> ActionAllowed(allowed, acts[i])
  }

  lemma DeliverKeepsInv(allowed: set<HostRequest>, jobId: string, s: Job, k: nat, d: Delivery)
    requires Inv(allowed, s) && ActionAllowed(allowed, Deliver(k, d))
    ensures Inv(allowed, Step(jobId, s, Deliver(k, d)))
  {
    var s' := Step(jobId, s, Deliver(k, d));
    if s' != s {
      OthersStayOk(allowed, s, s', k);
      LogOkSame(allowed, s, s');
    }
  }

  lemma PlaceStopKeepsInv(allowed: set<HostRequest>, jobId: string, s: Job)
    requires Inv(allowed, s)
    ensures Inv(allowed, Step(jobId, s, PlaceStop))
  {
    var s' := Step(jobId, s, PlaceStop);
    forall j | j in s'.clients ensures ClientOk(allowed, s', j, s'.clients[j]) {
      ClientOkEvolves(allowed, s, s', j + 1, j, s.clients[j]);
    }
    LogOkSame(allowed, s, s');
  }

  lemma StepKeepsInv(allowed: set<HostRequest>, jobId: string, s: Job, a: Action)
    requires Inv(allowed, s) && ActionAllowed(allowed, a)
    ensures Inv(allowed, Step(jobId, s, a))
  {
    match a
    case Deliver(k, d) => DeliverKeepsInv(allowed, jobId, s, k, d);
    case Advance(k, env) => if k in s.clients { AdvanceKeepsInv(allowed, s, k, env); }
    case Crash(k) =>
      if k in s.clients && !IsOver(s.clients[k].phase) {
        assert ClientOk(allowed, s, k, s.clients[k]);
        MoveKeepsInv(allowed, s, k, Crashed);
      }
    case PlaceStop => PlaceStopKeepsInv(allowed, jobId, s);
  }

  lemma {:induction false} RunsKeepInv(allowed: set<HostRequest>, jobId: string, acts: seq<Action>)
    requires OnlyFrom(allowed, acts)
    ensures Inv(allowed, Run(jobId, acts))
  {
    if acts != [] {
      RunsKeepInv(allowed, jobId, acts[..|acts| - 1]);
      StepKeepsInv(allowed, jobId, Run(jobId, acts[..|acts| - 1]), acts[|acts| - 1]);
    }
  }
}
