/** Redelivery: what one host delivery, running alone after any history, ends in. */
module JobsRedelivery {
  import opened Wrappers
  import opened Jobs
  import opened JobsInvariant
  import opened JobsSafety
  import opened JobsSchedules

  /** How a redelivered host request ends, by what the directory holds. */
  function Verdict(s: Job, r: HostRequest): Phase {
    match VisibleHost(s)
    case Some(Torn) => Failed(InvalidJson)
    case Some(Whole(h)) => HostReturned(h, true)
    case None =>
      if s.stop then HostReturned(SealHost(CancelledBeforeDispatch(r)), false)
      else
        match s.receipt
        case None => Failed(NeedsReconciliation)
        case Some(Torn) => Failed(InvalidJson)
        case Some(Whole(i)) =>
          if i.body.request != TaskOf(HostDelivery(r)) then Failed(TaskIdConflict)
          else HostReturned(HostReceiptFor(r, i), true)
  }

  /** A host receipt that was returned is the last thing logged. */
  ghost predicate IsLogged(log: seq<Event>, k: nat, phase: Phase) {
    phase.HostReturned? ==>
      log != [] && exists q :: log[|log| - 1] == HostAnswered(k, q, phase.host, phase.replayed)
  }

  /** Running alone, client `k` comes to an end in `phase`, having run no audit. */
  ghost predicate EndsIn(jobId: string, s: Job, k: nat, env: Env, phase: Phase) {
    exists s' :: && Reaches(jobId, Alone(k, env), s, s') && k in s'.clients && s'.clients[k].phase == phase
                 && s.log <= s'.log && NoAuditFrom(s'.log, |s.log|) && IsLogged(s'.log, k, phase)
  }

  /** A delivery that the host's own checks let through. */
  predicate Entered(s: Job, k: nat, r: HostRequest, env: Env) {
    && k in s.clients && s.clients[k] == Client(HostDelivery(r), HostStart)
    && s.present && IsPlaced(env.placement) && env.contextGranted && ValidHost(r)
  }

  /** The task's checks would let it through too. */
  predicate Ready(s: Job, k: nat, r: HostRequest, env: Env) {
    Entered(s, k, r, env) && env.sourceClean && ValidTask(TaskOf(HostDelivery(r)))
  }

  lemma EndsInMoved(jobId: string, s: Job, k: nat, env: Env, phase: Phase)
    requires k in s.clients && Reaches(jobId, Alone(k, env), s, Moved(s, k, phase)) && !phase.HostReturned?
    ensures EndsIn(jobId, s, k, env, phase)
  {
    assert NoAuditFrom(Moved(s, k, phase).log, |s.log|);
  }

  /** From a settled receipt, one more step answers. */
  lemma AnswerReaches(jobId: string, s: Job, m: Job, k: nat, r: HostRequest, env: Env, h: HostReceipt, replayed: bool)
    requires k in m.clients && m.clients[k] == Client(HostDelivery(r), HostSettled(h, replayed))
    requires Reaches(jobId, Alone(k, env), s, m) && m.log == s.log
    ensures EndsIn(jobId, s, k, env, HostReturned(h, replayed))
  {
    ReachesStep(jobId, Alone(k, env), s, m, Advance(k, env));
    var s' := AnswerHost(m, k, r, h, replayed);
    assert Step(jobId, m, Advance(k, env)) == s';
    assert NoAuditFrom(s'.log, |s.log|);
    assert s'.log[|s'.log| - 1] == HostAnswered(k, r, h, replayed);
  }

  /** Extends a reached state, in which only `k` has moved, by one more move of `k`. */
  lemma StepOn(jobId: string, s: Job, k: nat, env: Env, p: Phase, q: Phase)
    requires k in s.clients && Reaches(jobId, Alone(k, env), s, Moved(s, k, p))
    requires AdvanceClient(Moved(s, k, p), k, env) == Moved(s, k, q)
    ensures Reaches(jobId, Alone(k, env), s, Moved(s, k, q))
  {
    ReachesStep(jobId, Alone(k, env), s, Moved(s, k, p), Advance(k, env));
  }

  lemma BeforeClaimStep(s: Job, k: nat, env: Env, p: Phase)
    requires k in s.clients && IsBeforeClaim(p)
    ensures AdvanceClient(Moved(s, k, p), k, env) == Moved(s, k, BeforeClaim(s, s.clients[k].delivery, p, env))
  {
  }

  lemma BeforeDelegationStep(s: Job, k: nat, r: HostRequest, env: Env, p: Phase)
    requires k in s.clients && s.clients[k].delivery == HostDelivery(r) && IsBeforeDelegation(p)
    ensures AdvanceClient(Moved(s, k, p), k, env) == Moved(s, k, BeforeDelegation(s, r, p, env))
  {
  }

  lemma ReplayReached(jobId: string, s: Job, k: nat, r: HostRequest, env: Env)
    requires Ready(s, k, r, env) && VisibleHost(s).Some?
    ensures Reaches(jobId, Alone(k, env), s, Moved(s, k, HostReplay))
  {
    assert Moved(s, k, HostStart) == s;
    ReachesSelf(jobId, Alone(k, env), s);
    BeforeDelegationStep(s, k, r, env, HostStart);
    StepOn(jobId, s, k, env, HostStart, HostReplay);
  }

  lemma TornReceiptIsRejected(jobId: string, s: Job, k: nat, r: HostRequest, env: Env)
    requires Ready(s, k, r, env) && VisibleHost(s) == Some(Torn)
    ensures EndsIn(jobId, s, k, env, Failed(InvalidJson))
  {
    ReplayReached(jobId, s, k, r, env);
    BeforeDelegationStep(s, k, r, env, HostReplay);
    StepOn(jobId, s, k, env, HostReplay, Failed(InvalidJson));
    EndsInMoved(jobId, s, k, env, Failed(InvalidJson));
  }

  lemma VisibleReceiptReplays(jobId: string, s: Job, k: nat, r: HostRequest, env: Env, h: HostReceipt)
    requires Ready(s, k, r, env) && VisibleHost(s) == Some(Whole(h))
    requires h.body.request == r && h.digest == h.body
    ensures EndsIn(jobId, s, k, env, HostReturned(h, true))
  {
    assert LoadHostReceipt(Whole(h), r) == Success(h);
    ReplayReached(jobId, s, k, r, env);
    BeforeDelegationStep(s, k, r, env, HostReplay);
    StepOn(jobId, s, k, env, HostReplay, HostSettled(h, true));
    AnswerReaches(jobId, s, Moved(s, k, HostSettled(h, true)), k, r, env, h, true);
  }

  lemma EntryReaches(jobId: string, s: Job, k: nat, r: HostRequest, env: Env)
    requires Entered(s, k, r, env) && VisibleHost(s).None?
    ensures Reaches(jobId, Alone(k, env), s, Moved(s, k, if s.stop then CancelSeen else NoStop))
  {
    assert Moved(s, k, HostStart) == s;
    ReachesSelf(jobId, Alone(k, env), s);
    BeforeDelegationStep(s, k, r, env, HostStart);
    StepOn(jobId, s, k, env, HostStart, NoHostReceipt);
    BeforeDelegationStep(s, k, r, env, NoHostReceipt);
    StepOn(jobId, s, k, env, NoHostReceipt, if s.stop then CancelSeen else NoStop);
  }

  lemma StopReachesOpening(jobId: string, s: Job, k: nat, r: HostRequest, env: Env)
    requires Entered(s, k, r, env) && VisibleHost(s).None? && s.stop
    ensures Reaches(jobId, Alone(k, env), s, Moved(s, k, HostOpening(SealHost(CancelledBeforeDispatch(r)), false)))
  {
    EntryReaches(jobId, s, k, r, env);
    BeforeDelegationStep(s, k, r, env, CancelSeen);
    StepOn(jobId, s, k, env, CancelSeen, HostOpening(SealHost(CancelledBeforeDispatch(r)), false));
  }

  lemma UnpublishedNeedsReconciliation(jobId: string, s: Job, k: nat, r: HostRequest, env: Env)
    requires Ready(s, k, r, env) && VisibleHost(s).None? && !s.stop && s.receipt.None?
    ensures EndsIn(jobId, s, k, env, Failed(NeedsReconciliation))
  {
    EntryReaches(jobId, s, k, r, env);
    BeforeDelegationStep(s, k, r, env, NoStop);
    StepOn(jobId, s, k, env, NoStop, NoTaskReceipt);
    BeforeDelegationStep(s, k, r, env, NoTaskReceipt);
    StepOn(jobId, s, k, env, NoTaskReceipt, Failed(NeedsReconciliation));
    EndsInMoved(jobId, s, k, env, Failed(NeedsReconciliation));
  }

  lemma PublishedReachesTask(jobId: string, s: Job, k: nat, r: HostRequest, env: Env)
    requires Ready(s, k, r, env) && VisibleHost(s).None? && !s.stop && s.receipt.Some?
    ensures Reaches(jobId, Alone(k, env), s, Moved(s, k, TaskReady))
  {
    EntryReaches(jobId, s, k, r, env);
    BeforeDelegationStep(s, k, r, env, NoStop);
    StepOn(jobId, s, k, env, NoStop, TaskStart);
    BeforeClaimStep(s, k, env, TaskStart);
    StepOn(jobId, s, k, env, TaskStart, TaskReady);
  }

  lemma PublishedReachesReplay(jobId: string, s: Job, k: nat, r: HostRequest, env: Env)
    requires Ready(s, k, r, env) && VisibleHost(s).None? && !s.stop && s.receipt.Some?
    ensures Reaches(jobId, Alone(k, env), s, Moved(s, k, TaskReplay))
  {
    PublishedReachesTask(jobId, s, k, r, env);
    StepOn(jobId, s, k, env, TaskReady, DirectoryExists);
    BeforeClaimStep(s, k, env, DirectoryExists);
    StepOn(jobId, s, k, env, DirectoryExists, TaskReplay);
  }

  lemma OtherTaskConflicts(jobId: string, s: Job, k: nat, r: HostRequest, env: Env, i: TaskReceipt)
    requires Ready(s, k, r, env) && VisibleHost(s).None? && !s.stop && s.receipt == Some(Whole(i))
    requires i.body.request != TaskOf(HostDelivery(r))
    ensures EndsIn(jobId, s, k, env, Failed(TaskIdConflict))
  {
    PublishedReachesReplay(jobId, s, k, r, env);
    BeforeClaimStep(s, k, env, TaskReplay);
    StepOn(jobId, s, k, env, TaskReplay, Failed(TaskIdConflict));
    EndsInMoved(jobId, s, k, env, Failed(TaskIdConflict));
  }

  lemma BuiltReachesOpening(jobId: string, s: Job, k: nat, r: HostRequest, env: Env, h: HostReceipt)
    requires Ready(s, k, r, env) && VisibleHost(s).None?
    requires Reaches(jobId, Alone(k, env), s, Moved(s, k, HostBuilt(h, true)))
    ensures Reaches(jobId, Alone(k, env), s, Moved(s, k, HostOpening(h, true)))
  {
    StepOn(jobId, s, k, env, HostBuilt(h, true), HostOpening(h, true));
  }

  lemma PublishedReachesDone(jobId: string, s: Job, k: nat, r: HostRequest, env: Env, i: TaskReceipt)
    requires Ready(s, k, r, env) && VisibleHost(s).None? && !s.stop
    requires s.receipt == Some(Whole(i)) && i.digest == i.body && i.body.request == TaskOf(HostDelivery(r))
    ensures Reaches(jobId, Alone(k, env), s, Moved(s, k, TaskDone(i, true)))
  {
    PublishedReachesReplay(jobId, s, k, r, env);
    BeforeClaimStep(s, k, env, TaskReplay);
    StepOn(jobId, s, k, env, TaskReplay, TaskDone(i, true));
  }

  lemma PublishedReachesOpening(jobId: string, s: Job, k: nat, r: HostRequest, env: Env, i: TaskReceipt)
    requires Ready(s, k, r, env) && VisibleHost(s).None? && !s.stop
    requires s.receipt == Some(Whole(i)) && i.digest == i.body && i.body.request == TaskOf(HostDelivery(r))
    ensures Reaches(jobId, Alone(k, env), s, Moved(s, k, HostOpening(HostReceiptFor(r, i), true)))
  {
    var h := HostReceiptFor(r, i);
    PublishedReachesDone(jobId, s, k, r, env, i);
    StepOn(jobId, s, k, env, TaskDone(i, true), HostBuilt(h, true));
    BuiltReachesOpening(jobId, s, k, r, env, h);
  }

  lemma WritingPublishes(jobId: string, s: Job, m: Job, k: nat, n: nat, r: HostRequest, env: Env, h: HostReceipt,
    replayed: bool)
    requires k in m.clients && m.clients[k] == Client(HostDelivery(r), HostWriting(n, h, replayed))
    requires Reaches(jobId, Alone(k, env), s, m) && m.log == s.log
    requires m.hostTmp == Some(n) && n < |m.inodes|
    ensures EndsIn(jobId, s, k, env, HostReturned(h, replayed))
  {
    var m' := WriteHostTmp(m, k, n, h, replayed, env.cleanOverwrite);
    assert Step(jobId, m, Advance(k, env)) == m';
    ReachesStep(jobId, Alone(k, env), s, m, Advance(k, env));
    WrittenPublishes(jobId, s, m', k, r, env, h, replayed);
  }

  lemma WrittenPublishes(jobId: string, s: Job, m: Job, k: nat, r: HostRequest, env: Env, h: HostReceipt,
    replayed: bool)
    requires k in m.clients && m.clients[k] == Client(HostDelivery(r), HostWritten(h, replayed))
    requires Reaches(jobId, Alone(k, env), s, m) && m.log == s.log && m.hostTmp.Some?
    ensures EndsIn(jobId, s, k, env, HostReturned(h, replayed))
  {
    var m' := RenameHostTmp(m, k, h, replayed);
    assert Step(jobId, m, Advance(k, env)) == m';
    ReachesStep(jobId, Alone(k, env), s, m, Advance(k, env));
    AnswerReaches(jobId, s, m', k, r, env, h, replayed);
  }

  /** Alone, opening, writing and renaming publish the receipt, whatever a crash left behind. */
  lemma OpeningPublishes(jobId: string, s: Job, m: Job, k: nat, r: HostRequest, env: Env, h: HostReceipt,
    replayed: bool)
    requires k in m.clients && m.clients[k] == Client(HostDelivery(r), HostOpening(h, replayed))
    requires Reaches(jobId, Alone(k, env), s, m) && m.log == s.log
    requires m.hostTmp.Some? ==> m.hostTmp.value < |m.inodes|
    ensures EndsIn(jobId, s, k, env, HostReturned(h, replayed))
  {
    var m' := OpenHostTmp(m, k, h, replayed);
    assert Step(jobId, m, Advance(k, env)) == m';
    ReachesStep(jobId, Alone(k, env), s, m, Advance(k, env));
    WritingPublishes(jobId, s, m', k, m'.hostTmp.value, r, env, h, replayed);
  }

  /**
   For a fixed request, a redelivery into an existing directory never runs the audit again. It
   ends in the visible host receipt, in the one a STOP file asks for even when the task receipt
   is already published, in the one built from that receipt, or in the error that names what
   is missing.
   */
  lemma RedeliverySettles(jobId: string, acts: seq<Action>, r: HostRequest, k: nat, env: Env)
    requires OnlyFrom({r}, acts) && Run(jobId, acts).present
    requires k !in Run(jobId, acts).clients && r.jobId == jobId
    requires ValidHost(r) && ValidTask(TaskOf(HostDelivery(r)))
    requires IsPlaced(env.placement) && env.contextGranted && env.sourceClean
    ensures EndsIn(jobId, Step(jobId, Run(jobId, acts), Deliver(k, HostDelivery(r))), k, env,
                   Verdict(Run(jobId, acts), r))
  {
    var s0 := Run(jobId, acts);
    var s := Step(jobId, s0, Deliver(k, HostDelivery(r)));
    RunsKeepInv({r}, jobId, acts);
    DeliverKeepsInv({r}, jobId, s0, k, HostDelivery(r));
    assert FilesOk({r}, s);
    if VisibleHost(s) == Some(Torn) {
      TornReceiptIsRejected(jobId, s, k, r, env);
    } else if VisibleHost(s).Some? {
      assert VisibleHost(s).value == s.inodes[s.hostReceipt.value];
      VisibleReceiptReplays(jobId, s, k, r, env, VisibleHost(s).value.value);
    } else if s.stop {
      var h := SealHost(CancelledBeforeDispatch(r));
      StopReachesOpening(jobId, s, k, r, env);
      OpeningPublishes(jobId, s, Moved(s, k, HostOpening(h, false)), k, r, env, h, false);
    } else if s.receipt.None? {
      UnpublishedNeedsReconciliation(jobId, s, k, r, env);
    } else {
      var i := s.receipt.value.value;
      if i.body.request != TaskOf(HostDelivery(r)) {
        OtherTaskConflicts(jobId, s, k, r, env, i);
      } else {
        PublishedReachesOpening(jobId, s, k, r, env, i);
        var m := Moved(s, k, HostOpening(HostReceiptFor(r, i), true));
        OpeningPublishes(jobId, s, m, k, r, env, HostReceiptFor(r, i), true);
      }
    }
  }
}
