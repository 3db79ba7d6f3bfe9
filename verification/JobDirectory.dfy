/**
 The two programs as they run: one task and one host request, executed to the end over the
 files of the job directory. Each method is proved to be a run of the step machine in which
 only its own delivery moves.
 */
module JobDirectory {
  import opened Wrappers
  import opened Jobs
  import opened JobsSchedules
  import opened JobsVerdicts

  /** What one execution finds outside the directory; the source is checked before and after the audit. */
  datatype Surroundings = Surroundings(
    placement: Placement, contextGranted: bool, cleanBefore: bool, cleanAfter: bool, audit: AuditOutcome)

  function Before(w: Surroundings): Env {
    Env(w.placement, w.contextGranted, w.cleanBefore, w.audit, true)
  }

  function After(w: Surroundings): Env {
    Env(w.placement, w.contextGranted, w.cleanAfter, w.audit, true)
  }

  /** The host's checks on the request and the paths. */
  function RefusedEarly(r: HostRequest, w: Surroundings): Option<Error> {
    if !ValidHost(r) then Some(RequestInvalid)
    else if IsInside(w.placement.outputRoot, w.placement.root) then Some(ReceiptsInsideCheckout)
    else if IsInside(w.placement.contextDb, w.placement.root) then Some(ContextInsideCheckout)
    else None
  }

  /** The task's checks before its claim. */
  function TaskRefusal(t: TaskRequest, w: Surroundings): Option<Error> {
    if !ValidTask(t) then Some(RequestInvalid)
    else if IsInside(w.placement.outputRoot, w.placement.root) then Some(ReceiptsInsideCheckout)
    else if !w.cleanBefore then Some(SourceCheckFailed)
    else None
  }

  /** A new receipt says what the audit said, and there is none unless the audit was fit to publish. */
  predicate IsOfAudit(t: TaskRequest, w: Surroundings, receipt: TaskReceipt) {
    IsFit(t, w.audit) && w.cleanAfter && receipt == FitReceipt(t, w.audit)
  }

  /** A new host receipt reports the audit, unless the operator stopped the job first. */
  predicate IsOfRequest(r: HostRequest, w: Surroundings, stopped: bool, h: HostReceipt) {
    if stopped then h == HostReceipt(CancelledBeforeDispatch(r), CancelledBeforeDispatch(r))
    else IsFit(TaskOf(HostDelivery(r)), w.audit) && Reports(h.body, r, w.audit) && h.digest == h.body
  }

  class Directory {
    const jobId: string
    var present: bool
    var stop: bool
    var receipt: Option<Content<TaskReceipt>>
    var receiptTmp: Option<Content<TaskReceipt>>
    var hostReceipt: Option<nat>
    var hostTmp: Option<nat>
    var inodes: seq<Content<HostReceipt>>
    ghost var job: Job

    constructor (jobId: string)
      ensures Valid() && job == EMPTY && this.jobId == jobId
    {
      this.jobId := jobId;
      present, stop, receipt, receiptTmp := false, false, None, None;
      hostReceipt, hostTmp, inodes := None, None, [];
      job := EMPTY;
    }

    /** The fields are the files of the machine's state. */
    ghost predicate Valid()
      reads this
    {
      && job.present == present && job.stop == stop && job.receipt == receipt && job.receiptTmp == receiptTmp
      && job.hostReceipt == hostReceipt && job.hostTmp == hostTmp && job.inodes == inodes
      && (hostReceipt.Some? ==> hostReceipt.value < |inodes|) && (hostTmp.Some? ==> hostTmp.value < |inodes|)
    }

    /** Delivery `k` stands at `p`, having come from `start` by its own steps. */
    ghost predicate At(start: Job, k: nat, d: Delivery, p: Phase)
      reads this
    {
      && k in job.clients && job.clients[k] == Client(d, p)
      && Reaches(jobId, ByOne(k, d), start, job)
    }

    /** The visible host receipt is `h`, complete. */
    predicate Shows(h: HostReceipt)
      reads this
    {
      hostReceipt.Some? && hostReceipt.value < |inodes| && inodes[hostReceipt.value] == Whole(h)
    }

    ghost method Take(start: Job, k: nat, d: Delivery, p: Phase, env: Env)
      requires At(start, k, d, p)
      modifies this`job
      ensures job == AdvanceClient(old(job), k, env) && Reaches(jobId, ByOne(k, d), start, job)
    {
      ReachesStep(jobId, ByOne(k, d), start, job, Advance(k, env));
      job := AdvanceClient(job, k, env);
    }

    /** A step that only moves the delivery. */
    ghost method Move(start: Job, k: nat, d: Delivery, p: Phase, q: Phase, env: Env)
      requires Valid() && At(start, k, d, p) && AdvanceClient(job, k, env) == Moved(job, k, q)
      modifies this`job
      ensures Valid() && At(start, k, d, q) && job.clients == old(job.clients)[k := Client(d, q)]
    {
      Take(start, k, d, p, env);
    }

    // ----- The host receipt -----

    method AtomicWrite(ghost start: Job, k: nat, d: Delivery, h: HostReceipt, replayed: bool, w: Surroundings)
      requires Valid() && At(start, k, d, HostOpening(h, replayed)) && d.HostDelivery?
      modifies this
      ensures Valid() && At(start, k, d, HostSettled(h, replayed)) && Shows(h)
    {
      OpenTemporary(start, k, d, h, replayed, w);
      WriteTemporary(start, k, d, h, replayed, w);
      ReplaceReceipt(start, k, d, h, replayed, w);
    }

    method OpenTemporary(ghost start: Job, k: nat, d: Delivery, h: HostReceipt, replayed: bool, w: Surroundings)
      requires Valid() && At(start, k, d, HostOpening(h, replayed)) && d.HostDelivery?
      modifies this
      ensures Valid() && hostTmp.Some? && inodes[hostTmp.value] == Torn
      ensures At(start, k, d, HostWriting(hostTmp.value, h, replayed))
    {
      Take(start, k, d, HostOpening(h, replayed), Before(w));
      if hostTmp.None? {
        hostTmp, inodes := Some(|inodes|), inodes + [Torn];
      } else {
        inodes := inodes[hostTmp.value := Torn];
      }
    }

    method WriteTemporary(ghost start: Job, k: nat, d: Delivery, h: HostReceipt, replayed: bool, w: Surroundings)
      requires Valid() && hostTmp.Some? && inodes[hostTmp.value] == Torn && d.HostDelivery?
      requires At(start, k, d, HostWriting(hostTmp.value, h, replayed))
      modifies this
      ensures Valid() && hostTmp.Some? && inodes[hostTmp.value] == Whole(h)
      ensures At(start, k, d, HostWritten(h, replayed))
    {
      Take(start, k, d, HostWriting(hostTmp.value, h, replayed), Before(w));
      inodes := inodes[hostTmp.value := Whole(h)];
    }

    method ReplaceReceipt(ghost start: Job, k: nat, d: Delivery, h: HostReceipt, replayed: bool, w: Surroundings)
      requires Valid() && hostTmp.Some? && inodes[hostTmp.value] == Whole(h) && d.HostDelivery?
      requires At(start, k, d, HostWritten(h, replayed))
      modifies this
      ensures Valid() && At(start, k, d, HostSettled(h, replayed)) && Shows(h)
    {
      Take(start, k, d, HostWritten(h, replayed), Before(w));
      hostReceipt, hostTmp := hostTmp, None;
    }

    // ----- The task -----

    /** Where a refusal of the task leaves its delivery. */
    ghost predicate Refused(start: Job, k: nat, d: Delivery, e: Error)
      reads this
    {
      At(start, k, d, TaskFailure(d, e))
    }

    method ExecuteTask(ghost start: Job, k: nat, d: Delivery, w: Surroundings)
      returns (r: Result<(TaskReceipt, bool), Error>)
      requires Valid() && At(start, k, d, TaskStart)
      modifies this`present, this`receipt, this`receiptTmp, this`job
      ensures Valid()
      ensures match r
              case Success((receipt, replayed)) => At(start, k, d, TaskDone(receipt, replayed))
              case Failure(e) => Refused(start, k, d, e)
      ensures r.Success? && !r.value.1 ==> IsOfAudit(TaskOf(d), w, r.value.0)
      ensures r.Success? && r.value.1 ==> old(receipt) == Some(Whole(r.value.0))
      ensures !old(present) && TaskRefusal(TaskOf(d), w).None? ==>
                (r.Success? <==> IsFit(TaskOf(d), w.audit) && w.cleanAfter)
    {
      var refusal := TaskRefusal(TaskOf(d), w);
      if refusal.Some? {
        Move(start, k, d, TaskStart, Failed(refusal.value), Before(w));
        return Failure(refusal.value);
      }
      Move(start, k, d, TaskStart, TaskReady, Before(w));
      if present {
        r := ReplayTask(start, k, d, w);
      } else {
        MakeTaskDirectory(start, k, d, w);
        r := AuditAndPublish(start, k, d, w);
      }
    }

    method MakeTaskDirectory(ghost start: Job, k: nat, d: Delivery, w: Surroundings)
      requires Valid() && !present && At(start, k, d, TaskReady)
      modifies this`present, this`job
      ensures Valid() && present && At(start, k, d, Claimed)
    {
      Take(start, k, d, TaskReady, Before(w));
      present := true;
    }

    /** mkdir found the directory: the published receipt, or a refusal. */
    method ReplayTask(ghost start: Job, k: nat, d: Delivery, w: Surroundings)
      returns (r: Result<(TaskReceipt, bool), Error>)
      requires Valid() && present && At(start, k, d, TaskReady)
      modifies this`job
      ensures Valid()
      ensures match r
              case Success((receipt, replayed)) => At(start, k, d, TaskDone(receipt, replayed))
              case Failure(e) => Refused(start, k, d, e)
      ensures r.Success? ==> r.value.1 && receipt == Some(Whole(r.value.0))
    {
      Move(start, k, d, TaskReady, DirectoryExists, Before(w));
      if receipt.None? {
        Move(start, k, d, DirectoryExists, TaskFailure(d, TaskIncompleteOrConcurrent), Before(w));
        return Failure(TaskIncompleteOrConcurrent);
      }
      Move(start, k, d, DirectoryExists, TaskReplay, Before(w));
      r := LoadPublished(start, k, d, w);
    }

    method LoadPublished(ghost start: Job, k: nat, d: Delivery, w: Surroundings)
      returns (r: Result<(TaskReceipt, bool), Error>)
      requires Valid() && receipt.Some? && At(start, k, d, TaskReplay)
      modifies this`job
      ensures Valid()
      ensures match r
              case Success((receipt, replayed)) => At(start, k, d, TaskDone(receipt, replayed))
              case Failure(e) => Refused(start, k, d, e)
      ensures r.Success? ==> r.value.1 && receipt == Some(Whole(r.value.0))
    {
      var loaded := LoadTaskReceipt(receipt.value, TaskOf(d));
      if loaded.Failure? {
        Move(start, k, d, TaskReplay, Failed(loaded.error), Before(w));
        return Failure(loaded.error);
      }
      Move(start, k, d, TaskReplay, TaskDone(loaded.value, true), Before(w));
      return Success((loaded.value, true));
    }

    ghost method RunAudit(start: Job, k: nat, d: Delivery, w: Surroundings)
      requires Valid() && At(start, k, d, Claimed)
      modifies this`job
      ensures Valid() && At(start, k, d, Auditing(w.audit))
    {
      Take(start, k, d, Claimed, Before(w));
    }

    /** The claim is ours: run the audit, check what it returned, publish the receipt. */
    method AuditAndPublish(ghost start: Job, k: nat, d: Delivery, w: Surroundings)
      returns (r: Result<(TaskReceipt, bool), Error>)
      requires Valid() && At(start, k, d, Claimed)
      modifies this`receipt, this`receiptTmp, this`job
      ensures Valid()
      ensures match r
              case Success((receipt, replayed)) => At(start, k, d, TaskDone(receipt, replayed))
              case Failure(e) => Refused(start, k, d, e)
      ensures r.Success? <==> IsFit(TaskOf(d), w.audit) && w.cleanAfter
      ensures r.Success? ==> !r.value.1 && IsOfAudit(TaskOf(d), w, r.value.0)
    {
      RunAudit(start, k, d, w);
      var checked := CheckAudit(start, k, d, w);
      if checked.Failure? {
        return Failure(checked.error);
      }
      PublishReceipt(start, k, d, checked.value, w);
      return Success((checked.value, false));
    }

    /** The checks on what the audit returned, and the receipt made of it. */
    method CheckAudit(ghost start: Job, k: nat, d: Delivery, w: Surroundings) returns (r: Result<TaskReceipt, Error>)
      requires Valid() && At(start, k, d, Auditing(w.audit))
      modifies this`job
      ensures Valid()
      ensures match r
              case Success(receipt) => At(start, k, d, HasTaskReceipt(receipt))
              case Failure(e) => Refused(start, k, d, e)
      ensures r.Success? <==> IsFit(TaskOf(d), w.audit) && w.cleanAfter
      ensures r.Success? ==> IsOfAudit(TaskOf(d), w, r.value)
    {
      ReceiptMadeIff(TaskOf(d), w.audit, w.cleanAfter);
      r := TaskReceiptFor(TaskOf(d), w.audit, w.cleanAfter);
      if r.Failure? {
        Move(start, k, d, Auditing(w.audit), Failed(r.error), After(w));
      } else {
        Move(start, k, d, Auditing(w.audit), HasTaskReceipt(r.value), After(w));
      }
    }

    method PublishReceipt(ghost start: Job, k: nat, d: Delivery, i: TaskReceipt, w: Surroundings)
      requires Valid() && At(start, k, d, HasTaskReceipt(i))
      modifies this`receipt, this`receiptTmp, this`job
      ensures Valid() && At(start, k, d, TaskDone(i, false)) && receipt == Some(Whole(i))
    {
      OpenTaskFile(start, k, d, i, w);
      WriteTaskFile(start, k, d, i, w);
      ReplaceTaskFile(start, k, d, i, w);
    }

    method OpenTaskFile(ghost start: Job, k: nat, d: Delivery, i: TaskReceipt, w: Surroundings)
      requires Valid() && At(start, k, d, HasTaskReceipt(i))
      modifies this`receiptTmp, this`job
      ensures Valid() && At(start, k, d, TaskFileOpen(i))
    {
      Take(start, k, d, HasTaskReceipt(i), After(w));
      receiptTmp := Some(Torn);
    }

    method WriteTaskFile(ghost start: Job, k: nat, d: Delivery, i: TaskReceipt, w: Surroundings)
      requires Valid() && At(start, k, d, TaskFileOpen(i))
      modifies this`receiptTmp, this`job
      ensures Valid() && At(start, k, d, TaskFileWritten(i)) && receiptTmp == Some(Whole(i))
    {
      Take(start, k, d, TaskFileOpen(i), After(w));
      receiptTmp := Some(Whole(i));
    }

    method ReplaceTaskFile(ghost start: Job, k: nat, d: Delivery, i: TaskReceipt, w: Surroundings)
      requires Valid() && At(start, k, d, TaskFileWritten(i)) && receiptTmp == Some(Whole(i))
      modifies this`receipt, this`receiptTmp, this`job
      ensures Valid() && At(start, k, d, TaskDone(i, false)) && receipt == Some(Whole(i))
    {
      Take(start, k, d, TaskFileWritten(i), After(w));
      receipt, receiptTmp := receiptTmp, None;
    }

    // ----- The host request -----

    /** How a result shows in the machine and in the files: a receipt returned is the visible one. */
    ghost predicate Ended(start: Job, k: nat, d: Delivery, r: Result<(HostReceipt, bool), Error>)
      reads this
    {
      match r
      case Success((h, replayed)) => At(start, k, d, HostReturned(h, replayed)) && Shows(h)
      case Failure(e) => At(start, k, d, Failed(e))
    }

    method Answer(ghost start: Job, k: nat, r: HostRequest, h: HostReceipt, replayed: bool, w: Surroundings)
      returns (res: Result<(HostReceipt, bool), Error>)
      requires Valid() && At(start, k, HostDelivery(r), HostSettled(h, replayed)) && Shows(h)
      modifies this`job
      ensures Valid() && Ended(start, k, HostDelivery(r), res) && res == Success((h, replayed))
    {
      Take(start, k, HostDelivery(r), HostSettled(h, replayed), Before(w));
      return Success((h, replayed));
    }

    /** A host receipt is already there: return it, or say why it cannot be returned. */
    method ReplayHost(ghost start: Job, k: nat, r: HostRequest, w: Surroundings)
      returns (res: Result<(HostReceipt, bool), Error>)
      requires Valid() && hostReceipt.Some? && RefusedEarly(r, w).None? && At(start, k, HostDelivery(r), HostStart)
      modifies this`job
      ensures Valid() && Ended(start, k, HostDelivery(r), res) && (res.Success? ==> res.value.1)
    {
      if !w.contextGranted {
        Move(start, k, HostDelivery(r), HostStart, Failed(ContextRefused), Before(w));
        return Failure(ContextRefused);
      }
      Move(start, k, HostDelivery(r), HostStart, HostReplay, Before(w));
      var loaded := LoadHostReceipt(inodes[hostReceipt.value], r);
      if loaded.Failure? {
        Move(start, k, HostDelivery(r), HostReplay, Failed(loaded.error), Before(w));
        return Failure(loaded.error);
      }
      Move(start, k, HostDelivery(r), HostReplay, HostSettled(loaded.value, true), Before(w));
      res := Answer(start, k, r, loaded.value, true, w);
    }

    /** A STOP file is there: the receipt says that nothing was dispatched. */
    method CancelHost(ghost start: Job, k: nat, r: HostRequest, w: Surroundings)
      returns (res: Result<(HostReceipt, bool), Error>)
      requires Valid() && stop && At(start, k, HostDelivery(r), NoHostReceipt)
      modifies this
      ensures Valid() && Ended(start, k, HostDelivery(r), res)
      ensures res.Success? ==> IsOfRequest(r, w, true, res.value.0)
    {
      Move(start, k, HostDelivery(r), NoHostReceipt, CancelSeen, Before(w));
      if !w.contextGranted {
        Move(start, k, HostDelivery(r), CancelSeen, Failed(ContextRefused), Before(w));
        return Failure(ContextRefused);
      }
      var h := SealHost(CancelledBeforeDispatch(r));
      Move(start, k, HostDelivery(r), CancelSeen, HostOpening(h, false), Before(w));
      AtomicWrite(start, k, HostDelivery(r), h, false, w);
      res := Answer(start, k, r, h, false, w);
    }

    /** The checks between the STOP test and the delegation. */
    method MayDelegate(ghost start: Job, k: nat, r: HostRequest, w: Surroundings) returns (res: Result<(), Error>)
      requires Valid() && !stop && At(start, k, HostDelivery(r), NoHostReceipt)
      modifies this`job
      ensures Valid()
      ensures match res
              case Success(_) => At(start, k, HostDelivery(r), TaskStart)
              case Failure(e) => At(start, k, HostDelivery(r), Failed(e))
    {
      Move(start, k, HostDelivery(r), NoHostReceipt, NoStop, Before(w));
      ghost var here := NoStop;
      if receipt.None? {
        Move(start, k, HostDelivery(r), NoStop, NoTaskReceipt, Before(w));
        here := NoTaskReceipt;
        if present {
          Move(start, k, HostDelivery(r), NoTaskReceipt, Failed(NeedsReconciliation), Before(w));
          return Failure(NeedsReconciliation);
        }
      }
      if !w.contextGranted {
        Move(start, k, HostDelivery(r), here, Failed(ContextRefused), Before(w));
        return Failure(ContextRefused);
      }
      Move(start, k, HostDelivery(r), here, TaskStart, Before(w));
      return Success(());
    }

    /** A host receipt appeared meanwhile: it must be the one just built. */
    method CompareReceipt(
      ghost start: Job, k: nat, r: HostRequest, h: HostReceipt, replayed: bool, w: Surroundings)
      returns (res: Result<(), Error>)
      requires Valid() && hostReceipt.Some? && At(start, k, HostDelivery(r), HostCompare(h, replayed))
      modifies this`job
      ensures Valid()
      ensures match res
              case Success(_) => At(start, k, HostDelivery(r), HostSettled(h, replayed)) && Shows(h)
              case Failure(e) => At(start, k, HostDelivery(r), Failed(e))
    {
      var d := HostDelivery(r);
      var existing := LoadHostReceipt(inodes[hostReceipt.value], r);
      if existing.Failure? {
        Move(start, k, d, HostCompare(h, replayed), Failed(existing.error), Before(w));
        return Failure(existing.error);
      }
      if existing.value != h {
        Move(start, k, d, HostCompare(h, replayed), Failed(HostReceiptConflict), Before(w));
        return Failure(HostReceiptConflict);
      }
      Move(start, k, d, HostCompare(h, replayed), HostSettled(h, replayed), Before(w));
      return Success(());
    }

    /** The receipt is built: write it, unless one appeared meanwhile. */
    method PutReceipt(ghost start: Job, k: nat, r: HostRequest, h: HostReceipt, replayed: bool, w: Surroundings)
      returns (res: Result<(), Error>)
      requires Valid() && At(start, k, HostDelivery(r), HostBuilt(h, replayed))
      modifies this
      ensures Valid()
      ensures match res
              case Success(_) => At(start, k, HostDelivery(r), HostSettled(h, replayed)) && Shows(h)
              case Failure(e) => At(start, k, HostDelivery(r), Failed(e))
    {
      if hostReceipt.Some? {
        Move(start, k, HostDelivery(r), HostBuilt(h, replayed), HostCompare(h, replayed), Before(w));
        res := CompareReceipt(start, k, r, h, replayed, w);
      } else {
        Move(start, k, HostDelivery(r), HostBuilt(h, replayed), HostOpening(h, replayed), Before(w));
        AtomicWrite(start, k, HostDelivery(r), h, replayed, w);
        res := Success(());
      }
    }

    /** The delegated receipt is known: build the host's, put it in place and answer. */
    method WrapReceipt(
      ghost start: Job, k: nat, r: HostRequest, inner: TaskReceipt, replayed: bool, w: Surroundings)
      returns (res: Result<(HostReceipt, bool), Error>)
      requires Valid() && At(start, k, HostDelivery(r), TaskDone(inner, replayed))
      modifies this
      ensures Valid() && Ended(start, k, HostDelivery(r), res)
      ensures res.Success? ==> res.value == (HostReceiptFor(r, inner), replayed)
    {
      var h := HostReceiptFor(r, inner);
      Move(start, k, HostDelivery(r), TaskDone(inner, replayed), HostBuilt(h, replayed), Before(w));
      var put := PutReceipt(start, k, r, h, replayed, w);
      if put.Failure? {
        return Failure(put.error);
      }
      res := Answer(start, k, r, h, replayed, w);
    }

    /** Delegate to the task and wrap what it returns. */
    method Delegate(ghost start: Job, k: nat, r: HostRequest, w: Surroundings)
      returns (res: Result<(HostReceipt, bool), Error>)
      requires Valid() && At(start, k, HostDelivery(r), TaskStart)
      modifies this
      ensures Valid() && Ended(start, k, HostDelivery(r), res)
      ensures res.Success? && !res.value.1 ==> IsOfRequest(r, w, false, res.value.0)
    {
      if IsFit(TaskOf(HostDelivery(r)), w.audit) {
        HostReceiptReports(r, w.audit);
      }
      var delegated := ExecuteTask(start, k, HostDelivery(r), w);
      if delegated.Failure? {
        if delegated.error == TaskIncompleteOrConcurrent {
          return Failure(NeedsReconciliation);
        }
        return Failure(delegated.error);
      }
      res := WrapReceipt(start, k, r, delegated.value.0, delegated.value.1, w);
    }

    /** One host request from delivery to answer. */
    method ExecuteHostRequest(k: nat, r: HostRequest, w: Surroundings)
      returns (res: Result<(HostReceipt, bool), Error>)
      requires Valid() && k !in job.clients && r.jobId == jobId
      modifies this
      ensures Valid() && Ended(old(job), k, HostDelivery(r), res)
      ensures res.Success? && !res.value.1 ==> IsOfRequest(r, w, old(stop), res.value.0)
    {
      ghost var start := job;
      ReachesSelf(jobId, ByOne(k, HostDelivery(r)), start);
      ReachesStep(jobId, ByOne(k, HostDelivery(r)), start, start, Deliver(k, HostDelivery(r)));
      job := Step(jobId, job, Deliver(k, HostDelivery(r)));
      var refused := RefusedEarly(r, w);
      if refused.Some? {
        Move(start, k, HostDelivery(r), HostStart, Failed(refused.value), Before(w));
        return Failure(refused.value);
      }
      if hostReceipt.Some? {
        res := ReplayHost(start, k, r, w);
        return;
      }
      Move(start, k, HostDelivery(r), HostStart, NoHostReceipt, Before(w));
      if stop {
        res := CancelHost(start, k, r, w);
        return;
      }
      var allowed := MayDelegate(start, k, r, w);
      if allowed.Failure? {
        return Failure(allowed.error);
      }
      res := Delegate(start, k, r, w);
    }
  }
}
