/**
 The two-layer job protocol in one job directory: a qualification task whose atomic mkdir is
 the claim and whose renamed receipt.json is the result, and a host delivery that wraps it in
 a receipt of its own. Any number of deliveries interleave and may crash between any two steps.

 A text file is opened (which empties it), then written, then renamed, so a writer holds an
 inode that a rename by somebody else can publish early.
 */
module Jobs {
  import opened Wrappers

  datatype TaskRequest = TaskRequest(taskId: string, sourceCommit: string, releaseId: string, repeat: int)

  datatype HostRequest = HostRequest(
    jobId: string, namespace: string, sourceId: string, contextVersion: string,
    sourceCommit: string, releaseId: string, repeat: int)

  datatype Delivery = TaskDelivery(task: TaskRequest) | HostDelivery(request: HostRequest)

  datatype Error =
    | RequestInvalid
    | ReceiptsInsideCheckout
    | ContextInsideCheckout
    | SourceCheckFailed
    | TaskIncompleteOrConcurrent
    | TaskIdConflict
    | ReceiptDigestMismatch
    | InvalidJson
    | AuditRaised
    | AuditUnstable
    | AuditResultInvalid
    | EffectBoundaryInvalid
    | IdentityMismatch
    | ContextRefused
    | NeedsReconciliation
    | JobIdConflict
    | HostReceiptConflict
    | FileNotFound

  /** What the audit returned; `passed` is None when it is not a boolean. */
  datatype AuditPayload = AuditPayload(
    verified: bool, passed: Option<bool>, liveEnabled: bool, releaseClaimAllowed: bool,
    sourceCommit: string, releaseId: string, findings: seq<string>)

  datatype AuditOutcome = AuditFails | AuditReturns(payload: AuditPayload)

  datatype TaskReceiptBody = TaskReceiptBody(request: TaskRequest, passed: bool, findings: seq<string>)

  /** A receipt carries the digest of the rest of it; the digest is named by what was hashed. */
  datatype TaskReceipt = TaskReceipt(body: TaskReceiptBody, digest: TaskReceiptBody)

  datatype HostReceiptBody =
    | Delegated(request: HostRequest, inner: TaskReceiptBody, passed: bool, blocker: Option<string>)
    | CancelledBeforeDispatch(request: HostRequest)

  datatype HostReceipt = HostReceipt(body: HostReceiptBody, digest: HostReceiptBody)

  datatype Content<+T> = Torn | Whole(value: T)

  datatype Phase =
    // the host, before it delegates
    | HostStart
    | HostReplay
    | NoHostReceipt
    | CancelSeen
    | NoStop
    | NoTaskReceipt
    // the task
    | TaskStart
    | TaskReady
    | DirectoryExists
    | TaskReplay
    | Claimed
    | Auditing(outcome: AuditOutcome)
    | HasTaskReceipt(receipt: TaskReceipt)
    | TaskFileOpen(receipt: TaskReceipt)
    | TaskFileWritten(receipt: TaskReceipt)
    | TaskDone(receipt: TaskReceipt, replayed: bool)
    // the host, after it delegated
    | HostBuilt(host: HostReceipt, replayed: bool)
    | HostCompare(host: HostReceipt, replayed: bool)
    | HostOpening(host: HostReceipt, replayed: bool)
    | HostWriting(inode: nat, host: HostReceipt, replayed: bool)
    | HostWritten(host: HostReceipt, replayed: bool)
    | HostSettled(host: HostReceipt, replayed: bool)
    // over
    | TaskReturned(receipt: TaskReceipt, replayed: bool)
    | HostReturned(host: HostReceipt, replayed: bool)
    | Failed(error: Error)
    | Crashed

  datatype Client = Client(delivery: Delivery, phase: Phase)

  datatype Event =
    | AuditRan(client: nat, outcome: AuditOutcome)
    | TaskAnswered(client: nat, task: TaskRequest, receipt: TaskReceipt, replayed: bool)
    | HostAnswered(client: nat, request: HostRequest, host: HostReceipt, replayed: bool)

  /** `claimedBy` records whose mkdir succeeded; no step reads it. */
  datatype Job = Job(
    present: bool, stop: bool,
    receipt: Option<Content<TaskReceipt>>, receiptTmp: Option<Content<TaskReceipt>>,
    hostReceipt: Option<nat>, hostTmp: Option<nat>, inodes: seq<Content<HostReceipt>>,
    clients: map<nat, Client>, log: seq<Event>, claimedBy: Option<nat>)

  /** Resolved paths, by their parts: the checkout, the root of all job directories, the context database. */
  datatype Placement = Placement(root: seq<string>, outputRoot: seq<string>, contextDb: seq<string>)

  /** What a step finds outside the directory. */
  datatype Env = Env(
    placement: Placement, contextGranted: bool, sourceClean: bool, audit: AuditOutcome, cleanOverwrite: bool)

  datatype Action =
    | Deliver(k: nat, delivery: Delivery)
    | Advance(k: nat, env: Env)
    | Crash(k: nat)
    | PlaceStop

  const EMPTY := Job(false, false, None, None, None, None, [], map[], [], None)

  // ----- Requests and receipts -----

  predicate IsIdCharacter(c: char) {
    'a' <= c <= 'z' || 'A' <= c <= 'Z' || '0' <= c <= '9'
  }

  predicate IsTaskIdentifier(s: string) {
    && 1 <= |s| <= 64 && IsIdCharacter(s[0])
    && forall i :: 1 <= i < |s| ==> IsIdCharacter(s[i]) || s[i] == '_' || s[i] == '-'
  }

  predicate IsHostIdentifier(s: string) {
    && 1 <= |s| <= 128 && IsIdCharacter(s[0])
    && forall i :: 1 <= i < |s| ==>
                     IsIdCharacter(s[i]) || s[i] == '_' || s[i] == '.' || s[i] == ':' || s[i] == '-'
  }

  predicate IsHex(s: string, length: nat) {
    |s| == length && forall i :: 0 <= i < |s| ==> '0' <= s[i] <= '9' || 'a' <= s[i] <= 'f'
  }

  predicate ValidTask(t: TaskRequest) {
    IsTaskIdentifier(t.taskId) && IsTaskIdentifier(t.releaseId) && IsHex(t.sourceCommit, 40) && 2 <= t.repeat <= 5
  }

  predicate ValidHost(r: HostRequest) {
    && IsHostIdentifier(r.jobId) && IsHostIdentifier(r.namespace)
    && IsHostIdentifier(r.sourceId) && IsHostIdentifier(r.releaseId)
    && IsHex(r.contextVersion, 64) && IsHex(r.sourceCommit, 40) && 2 <= r.repeat <= 5
  }

  /** The path is `root` or below it. */
  predicate IsInside(path: seq<string>, root: seq<string>) {
    root <= path
  }

  predicate IsPlaced(p: Placement) {
    !IsInside(p.outputRoot, p.root) && !IsInside(p.contextDb, p.root)
  }

  function TaskOf(d: Delivery): TaskRequest {
    match d
    case TaskDelivery(t) => t
    case HostDelivery(r) => TaskRequest(r.jobId, r.sourceCommit, r.releaseId, r.repeat)
  }

  function SealTask(body: TaskReceiptBody): TaskReceipt {
    TaskReceipt(body, body)
  }

  function SealHost(body: HostReceiptBody): HostReceipt {
    HostReceipt(body, body)
  }

  /** The checks on the audit payload, then the receipt. */
  function TaskReceiptFor(t: TaskRequest, outcome: AuditOutcome, sourceClean: bool): Result<TaskReceipt, Error> {
    match outcome
    case AuditFails => Failure(AuditRaised)
    case AuditReturns(p) =>
      if !sourceClean then Failure(SourceCheckFailed)
      else if !p.verified then Failure(AuditUnstable)
      else if p.passed.None? then Failure(AuditResultInvalid)
      else if p.liveEnabled || p.releaseClaimAllowed then Failure(EffectBoundaryInvalid)
      else if p.sourceCommit != t.sourceCommit || p.releaseId != t.releaseId then Failure(IdentityMismatch)
      else Success(SealTask(TaskReceiptBody(t, p.passed.value, p.findings)))
  }

  /** The host receipt is a function of the request and the delegated receipt. */
  function HostReceiptFor(r: HostRequest, inner: TaskReceipt): HostReceipt {
    SealHost(Delegated(r, inner.digest, inner.body.passed,
                       if inner.body.findings == [] then None else Some(inner.body.findings[0])))
  }

  function LoadTaskReceipt(content: Content<TaskReceipt>, t: TaskRequest): Result<TaskReceipt, Error> {
    match content
    case Torn => Failure(InvalidJson)
    case Whole(r) =>
      if r.body.request != t then Failure(TaskIdConflict)
      else if r.digest != r.body then Failure(ReceiptDigestMismatch)
      else Success(r)
  }

  function LoadHostReceipt(content: Content<HostReceipt>, r: HostRequest): Result<HostReceipt, Error> {
    match content
    case Torn => Failure(InvalidJson)
    case Whole(h) =>
      if h.body.request != r then Failure(JobIdConflict)
      else if h.digest != h.body then Failure(ReceiptDigestMismatch)
      else Success(h)
  }

  // ----- One step of one delivery -----

  function Moved(s: Job, k: nat, phase: Phase): Job
    requires k in s.clients
  {
    s.(clients := s.clients[k := s.clients[k].(phase := phase)])
  }

  /** The visible host receipt, when there is one. */
  function VisibleHost(s: Job): Option<Content<HostReceipt>> {
    match s.hostReceipt
    case Some(n) => if n < |s.inodes| then Some(s.inodes[n]) else None
    case None => None
  }

  /** The host's checks before it delegates, in the order it makes them. */
  function BeforeDelegation(s: Job, r: HostRequest, phase: Phase, env: Env): Phase {
    match phase
    case HostStart =>
      if !ValidHost(r) then Failed(RequestInvalid)
      else if IsInside(env.placement.outputRoot, env.placement.root) then Failed(ReceiptsInsideCheckout)
      else if IsInside(env.placement.contextDb, env.placement.root) then Failed(ContextInsideCheckout)
      else if VisibleHost(s).Some? then (if env.contextGranted then HostReplay else Failed(ContextRefused))
      else NoHostReceipt
    case HostReplay =>
      (match VisibleHost(s)
       case None => Failed(FileNotFound)
       case Some(content) =>
         match LoadHostReceipt(content, r)
         case Success(h) => HostSettled(h, true)
         case Failure(e) => Failed(e))
    case NoHostReceipt => if s.stop then CancelSeen else NoStop
    case CancelSeen =>
      if env.contextGranted then HostOpening(SealHost(CancelledBeforeDispatch(r)), false)
      else Failed(ContextRefused)
    case NoStop =>
      if s.receipt.None? then NoTaskReceipt
      else if env.contextGranted then TaskStart else Failed(ContextRefused)
    case _ =>
      if s.present then Failed(NeedsReconciliation)
      else if env.contextGranted then TaskStart else Failed(ContextRefused)
  }

  /** A host turns the task's refusal of a half-done directory into its own error. */
  function TaskFailure(d: Delivery, e: Error): Phase {
    Failed(if d.HostDelivery? && e == TaskIncompleteOrConcurrent then NeedsReconciliation else e)
  }

  /** The task's steps up to its claim, which do not write. */
  function BeforeClaim(s: Job, d: Delivery, phase: Phase, env: Env): Phase {
    match phase
    case TaskStart =>
      if !ValidTask(TaskOf(d)) then Failed(RequestInvalid)
      else if IsInside(env.placement.outputRoot, env.placement.root) then Failed(ReceiptsInsideCheckout)
      else if !env.sourceClean then Failed(SourceCheckFailed)
      else TaskReady
    case DirectoryExists =>
      if s.receipt.None? then TaskFailure(d, TaskIncompleteOrConcurrent) else TaskReplay
    case _ =>
      if s.receipt.None? then Failed(FileNotFound)
      else
        match LoadTaskReceipt(s.receipt.value, TaskOf(d))
        case Success(r) => TaskDone(r, true)
        case Failure(e) => Failed(e)
  }

  /** mkdir: the atomic claim. */
  function MakeDirectory(s: Job, k: nat): Job
    requires k in s.clients
  {
    if s.present then Moved(s, k, DirectoryExists)
    else Moved(s, k, Claimed).(present := true, claimedBy := Some(k))
  }

  function RunAudit(s: Job, k: nat, outcome: AuditOutcome): Job
    requires k in s.clients
  {
    Moved(s, k, Auditing(outcome)).(log := s.log + [AuditRan(k, outcome)])
  }

  /** Publishing receipt.json: open the temporary file, write it, rename it. */
  function PublishTask(s: Job, k: nat, phase: Phase): Job
    requires k in s.clients && (phase.HasTaskReceipt? || phase.TaskFileOpen? || phase.TaskFileWritten?)
  {
    match phase
    case HasTaskReceipt(r) => Moved(s, k, TaskFileOpen(r)).(receiptTmp := Some(Torn))
    case TaskFileOpen(r) => Moved(s, k, TaskFileWritten(r)).(receiptTmp := Some(Whole(r)))
    case TaskFileWritten(r) =>
      Moved(s, k, TaskDone(r, false)).(receipt := s.receiptTmp, receiptTmp := None)
  }

  function FinishTask(s: Job, k: nat, r: TaskReceipt, replayed: bool): Job
    requires k in s.clients
  {
    match s.clients[k].delivery
    case TaskDelivery(t) =>
      Moved(s, k, TaskReturned(r, replayed)).(log := s.log + [TaskAnswered(k, t, r, replayed)])
    case HostDelivery(q) => Moved(s, k, HostBuilt(HostReceiptFor(q, r), replayed))
  }

  /** Opening the host's temporary file empties the inode the name leads to, if there is one. */
  function OpenHostTmp(s: Job, k: nat, h: HostReceipt, replayed: bool): Job
    requires k in s.clients
  {
    match s.hostTmp
    case Some(n) =>
      if n < |s.inodes| then Moved(s, k, HostWriting(n, h, replayed)).(inodes := s.inodes[n := Torn])
      else s
    case None =>
      Moved(s, k, HostWriting(|s.inodes|, h, replayed)).(
      hostTmp := Some(|s.inodes|), inodes := s.inodes + [Torn])
  }

  /** Writing over another receipt leaves its tail behind unless the new text covers it. */
  function WriteHostTmp(s: Job, k: nat, n: nat, h: HostReceipt, replayed: bool, clean: bool): Job
    requires k in s.clients && n < |s.inodes|
  {
    var mixed := s.inodes[n].Whole? && s.inodes[n].value != h && !clean;
    Moved(s, k, HostWritten(h, replayed)).(inodes := s.inodes[n := if mixed then Torn else Whole(h)])
  }

  function AnswerHost(s: Job, k: nat, r: HostRequest, h: HostReceipt, replayed: bool): Job
    requires k in s.clients
  {
    Moved(s, k, HostReturned(h, replayed)).(log := s.log + [HostAnswered(k, r, h, replayed)])
  }

  function RenameHostTmp(s: Job, k: nat, h: HostReceipt, replayed: bool): Job
    requires k in s.clients
  {
    if s.hostTmp.None? then Moved(s, k, Failed(FileNotFound))
    else Moved(s, k, HostSettled(h, replayed)).(hostReceipt := s.hostTmp, hostTmp := None)
  }

  function CompareHost(s: Job, r: HostRequest, h: HostReceipt, replayed: bool): Phase {
    match VisibleHost(s)
    case None => Failed(FileNotFound)
    case Some(content) =>
      match LoadHostReceipt(content, r)
      case Failure(e) => Failed(e)
      case Success(existing) => if existing != h then Failed(HostReceiptConflict) else HostSettled(h, replayed)
  }

  predicate IsBeforeDelegation(p: Phase) {
    p.HostStart? || p.HostReplay? || p.NoHostReceipt? || p.CancelSeen? || p.NoStop? || p.NoTaskReceipt?
  }

  predicate IsBeforeClaim(p: Phase) {
    p.TaskStart? || p.DirectoryExists? || p.TaskReplay?
  }

  predicate IsAfterDelegation(p: Phase) {
    p.HostBuilt? || p.HostCompare? || p.HostOpening? || p.HostWriting? || p.HostWritten?
    || p.HostSettled?
  }

  function AdvanceAfter(s: Job, k: nat, r: HostRequest, env: Env): Job
    requires k in s.clients && IsAfterDelegation(s.clients[k].phase)
  {
    match s.clients[k].phase
    case HostBuilt(h, replayed) =>
      Moved(s, k, if VisibleHost(s).Some? then HostCompare(h, replayed) else HostOpening(h, replayed))
    case HostCompare(h, replayed) => Moved(s, k, CompareHost(s, r, h, replayed))
    case HostOpening(h, replayed) => OpenHostTmp(s, k, h, replayed)
    case HostWriting(n, h, replayed) =>
      if n < |s.inodes| then WriteHostTmp(s, k, n, h, replayed, env.cleanOverwrite) else s
    case HostWritten(h, replayed) => RenameHostTmp(s, k, h, replayed)
    case HostSettled(h, replayed) => AnswerHost(s, k, r, h, replayed)
  }

  function AdvanceTask(s: Job, k: nat, env: Env): Job
    requires k in s.clients
  {
    var d := s.clients[k].delivery;
    match s.clients[k].phase
    case TaskReady => MakeDirectory(s, k)
    case Claimed => RunAudit(s, k, env.audit)
    case Auditing(outcome) =>
      (match TaskReceiptFor(TaskOf(d), outcome, env.sourceClean)
       case Success(r) => Moved(s, k, HasTaskReceipt(r))
       case Failure(e) => Moved(s, k, Failed(e)))
    case HasTaskReceipt(_) => PublishTask(s, k, s.clients[k].phase)
    case TaskFileOpen(_) => PublishTask(s, k, s.clients[k].phase)
    case TaskFileWritten(_) => PublishTask(s, k, s.clients[k].phase)
    case TaskDone(r, replayed) => FinishTask(s, k, r, replayed)
    case _ => s
  }

  function AdvanceClient(s: Job, k: nat, env: Env): Job
    requires k in s.clients
  {
    var cl := s.clients[k];
    if IsBeforeClaim(cl.phase) then Moved(s, k, BeforeClaim(s, cl.delivery, cl.phase, env))
    else if cl.delivery.HostDelivery? && IsBeforeDelegation(cl.phase) then
      Moved(s, k, BeforeDelegation(s, cl.delivery.request, cl.phase, env))
    else if cl.delivery.HostDelivery? && IsAfterDelegation(cl.phase) then
      AdvanceAfter(s, k, cl.delivery.request, env)
    else AdvanceTask(s, k, env)
  }

  predicate IsOver(p: Phase) {
    p.TaskReturned? || p.HostReturned? || p.Failed? || p.Crashed?
  }

  /** One step in the directory `jobId`; an action that is not enabled changes nothing. */
  function Step(jobId: string, s: Job, a: Action): Job {
    match a
    case Deliver(k, d) =>
      if k in s.clients || TaskOf(d).taskId != jobId then s
      else s.(clients := s.clients[k := Client(d, if d.HostDelivery? then HostStart else TaskStart)])
    case Advance(k, env) => if k in s.clients then AdvanceClient(s, k, env) else s
    case Crash(k) => if k in s.clients && !IsOver(s.clients[k].phase) then Moved(s, k, Crashed) else s
    case PlaceStop => s.(present := true, stop := true)
  }

  function RunFrom(jobId: string, s: Job, acts: seq<Action>): Job {
    if acts == [] then s else Step(jobId, RunFrom(jobId, s, acts[..|acts| - 1]), acts[|acts| - 1])
  }

  function Run(jobId: string, acts: seq<Action>): Job {
    RunFrom(jobId, EMPTY, acts)
  }
}
