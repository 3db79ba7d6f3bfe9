/**
 When two host deliveries write at the same time. The temporary file has a fixed name, so a
 second writer empties the inode the first one is about to publish; and the check for an
 existing receipt is made before the write, so a second request may overwrite a first one.
 */
module JobsRaces {
  import opened Wrappers
  import opened Jobs
  import opened JobsInvariant
  import opened JobsFrames
  import opened JobsSafety
  import opened JobsSchedules

  function Writers(s: Job): set<nat> {
    set k | k in s.clients && IsWriter(s.clients[k].phase)
  }

  predicate VisiblyTorn(s: Job) {
    VisibleHost(s) == Some(Torn)
  }

  /** Never more than `n` deliveries between opening and renaming the host's temporary file. */
  ghost predicate WithinWriters(jobId: string, acts: seq<Action>, n: nat) {
    forall i :: 0 <= i <= |acts| ==> |Writers(Run(jobId, acts[..i]))| <= n
  }

  // ----- One writer at a time -----

  ghost predicate SingleWriterOk(s: Job) {
    && (s.hostReceipt.Some? ==>
          && s.hostReceipt.value < |s.inodes| && s.inodes[s.hostReceipt.value].Whole?
          && s.hostTmp != s.hostReceipt)
    && (s.hostTmp.Some? ==> s.hostTmp.value < |s.inodes|)
    && (forall k :: k in s.clients && s.clients[k].phase.HostWriting? ==>
                      && s.hostTmp == Some(s.clients[k].phase.inode)
                      && s.inodes[s.hostTmp.value].Torn?)
    && (forall k :: k in s.clients && s.clients[k].phase.HostWritten? ==>
                      s.hostTmp.Some? && s.inodes[s.hostTmp.value].Whole?)
  }

  lemma OneWriter(s: Job, j: nat, k: nat)
    requires j in Writers(s) && k in Writers(s) && |Writers(s)| <= 1
    ensures j == k
  {
    assert |Writers(s) - {j}| == 0;
    assert k !in Writers(s) - {j};
  }

  lemma OpeningKeepsSingleWriter(s: Job, k: nat, h: HostReceipt, replayed: bool)
    requires SingleWriterOk(s) && k in s.clients && s.clients[k].phase == HostOpening(h, replayed)
    requires |Writers(OpenHostTmp(s, k, h, replayed))| <= 1
    ensures SingleWriterOk(OpenHostTmp(s, k, h, replayed))
  {
    var s' := OpenHostTmp(s, k, h, replayed);
    assert k in Writers(s');
    forall j | j in s'.clients && IsWriter(s'.clients[j].phase) ensures j == k {
      OneWriter(s', j, k);
    }
  }

  lemma WritingKeepsSingleWriter(s: Job, k: nat, n: nat, h: HostReceipt, replayed: bool, clean: bool)
    requires SingleWriterOk(s) && k in s.clients && s.clients[k].phase == HostWriting(n, h, replayed)
    requires |Writers(s)| <= 1
    ensures SingleWriterOk(WriteHostTmp(s, k, n, h, replayed, clean))
  {
    assert k in Writers(s);
    forall j | j in s.clients && IsWriter(s.clients[j].phase) ensures j == k {
      OneWriter(s, j, k);
    }
  }

  lemma RenamingKeepsSingleWriter(s: Job, k: nat, h: HostReceipt, replayed: bool)
    requires SingleWriterOk(s) && k in s.clients && s.clients[k].phase == HostWritten(h, replayed)
    requires |Writers(s)| <= 1
    ensures SingleWriterOk(RenameHostTmp(s, k, h, replayed))
  {
    assert k in Writers(s);
    forall j | j in s.clients && IsWriter(s.clients[j].phase) ensures j == k {
      OneWriter(s, j, k);
    }
  }

  /** Steps that touch neither the host's files nor a writer keep the condition. */
  lemma QuietStepKeepsSingleWriter(s: Job, s': Job)
    requires SingleWriterOk(s)
    requires s'.hostReceipt == s.hostReceipt && s'.hostTmp == s.hostTmp && s'.inodes == s.inodes
    requires forall k :: k in s'.clients && IsWriter(s'.clients[k].phase) ==>
                           k in s.clients && s.clients[k].phase == s'.clients[k].phase
    ensures SingleWriterOk(s')
  {
  }

  lemma AdvanceOfWriter(s: Job, k: nat, env: Env)
    requires k in s.clients && s.clients[k].delivery.HostDelivery? && TouchesHostFiles(s.clients[k].phase)
    ensures AdvanceClient(s, k, env) == AdvanceAfter(s, k, s.clients[k].delivery.request, env)
  {
  }

  lemma HostStepKeepsSingleWriter(s: Job, k: nat, r: HostRequest, env: Env)
    requires SingleWriterOk(s) && k in s.clients && TouchesHostFiles(s.clients[k].phase)
    requires |Writers(s)| <= 1 && |Writers(AdvanceAfter(s, k, r, env))| <= 1
    ensures SingleWriterOk(AdvanceAfter(s, k, r, env))
  {
    match s.clients[k].phase
    case HostOpening(h, replayed) => OpeningKeepsSingleWriter(s, k, h, replayed);
    case HostWriting(n, h, replayed) => WritingKeepsSingleWriter(s, k, n, h, replayed, env.cleanOverwrite);
    case HostWritten(h, replayed) => RenamingKeepsSingleWriter(s, k, h, replayed);
  }

  lemma QuietDeliveryKeepsSingleWriter(s: Job, s': Job, k: nat)
    requires SingleWriterOk(s) && ClientStep(s, s', k) && !TouchesHostFiles(s.clients[k].phase)
    ensures SingleWriterOk(s')
  {
    QuietStepKeepsSingleWriter(s, s');
  }

  /** A task delivery never stands among the host's phases. */
  lemma WriterIsHost(allowed: set<HostRequest>, s: Job, k: nat)
    requires k in s.clients && ClientOk(allowed, s, k, s.clients[k]) && TouchesHostFiles(s.clients[k].phase)
    ensures s.clients[k].delivery.HostDelivery?
  {
  }

  lemma AdvanceKeepsSingleWriter(allowed: set<HostRequest>, s: Job, k: nat, env: Env)
    requires SingleWriterOk(s) && k in s.clients && ClientOk(allowed, s, k, s.clients[k])
    requires |Writers(s)| <= 1 && |Writers(AdvanceClient(s, k, env))| <= 1
    ensures SingleWriterOk(AdvanceClient(s, k, env))
  {
    if TouchesHostFiles(s.clients[k].phase) {
      WriterIsHost(allowed, s, k);
      AdvanceOfWriter(s, k, env);
      HostStepKeepsSingleWriter(s, k, s.clients[k].delivery.request, env);
    } else {
      AdvanceFrames(s, k, env);
      if AdvanceClient(s, k, env) != s {
        QuietDeliveryKeepsSingleWriter(s, AdvanceClient(s, k, env), k);
      }
    }
  }

  lemma StepKeepsSingleWriter(jobId: string, init: seq<Action>, a: Action)
    requires var s := Run(jobId, init);
             SingleWriterOk(s) && |Writers(s)| <= 1 && |Writers(Step(jobId, s, a))| <= 1
    ensures SingleWriterOk(Step(jobId, Run(jobId, init), a))
  {
    var s := Run(jobId, init);
    if a.Advance? && a.k in s.clients {
      AnyRunKeepsInv(jobId, init);
      AdvanceKeepsSingleWriter(RequestsOf(init), s, a.k, a.env);
    } else {
      QuietStepKeepsSingleWriter(s, Step(jobId, s, a));
    }
  }

  lemma WithinPrefix(jobId: string, acts: seq<Action>, n: nat, k: nat)
    requires WithinWriters(jobId, acts, n) && k <= |acts|
    ensures WithinWriters(jobId, acts[..k], n) && |Writers(Run(jobId, acts[..k]))| <= n
  {
    forall i | 0 <= i <= k ensures acts[..k][..i] == acts[..i] {
    }
  }

  lemma WholeIsWithin(jobId: string, acts: seq<Action>, n: nat)
    requires WithinWriters(jobId, acts, n)
    ensures |Writers(Run(jobId, acts))| <= n
  {
    WithinPrefix(jobId, acts, n, |acts|);
    assert acts[..|acts|] == acts;
  }

  lemma {:induction false} SingleWriterRuns(jobId: string, acts: seq<Action>)
    requires WithinWriters(jobId, acts, 1)
    ensures SingleWriterOk(Run(jobId, acts))
  {
    if acts != [] {
      var n := |acts| - 1;
      WithinPrefix(jobId, acts, 1, n);
      WholeIsWithin(jobId, acts, 1);
      SingleWriterRuns(jobId, acts[..n]);
      StepKeepsSingleWriter(jobId, acts[..n], acts[n]);
    }
  }

  /** With one writer at a time, a visible host receipt is always complete. */
  lemma OneWriterNeverTears(jobId: string, acts: seq<Action>)
    requires WithinWriters(jobId, acts, 1)
    ensures !VisiblyTorn(Run(jobId, acts))
  {
    SingleWriterRuns(jobId, acts);
  }

  // ----- Two writers -----

  function CleanEnv(a: HostRequest): Env {
    Env(Placement(["checkout"], [], []), true, true,
        AuditReturns(AuditPayload(true, Some(true), false, false, a.sourceCommit, a.releaseId, [])), true)
  }

  function AuditOf(a: HostRequest): Event {
    AuditRan(0, CleanEnv(a).audit)
  }

  function AuditedReceipt(a: HostRequest): TaskReceipt {
    SealTask(TaskReceiptBody(TaskOf(HostDelivery(a)), true, []))
  }

  function Two(a: HostRequest, b: HostRequest, pa: Phase, pb: Phase): map<nat, Client> {
    map[0 := Client(HostDelivery(a), pa), 1 := Client(HostDelivery(b), pb)]
  }

  /** Nothing claimed yet. */
  function Fresh(a: HostRequest, b: HostRequest, pa: Phase): Job {
    EMPTY.(clients := Two(a, b, pa, HostStart))
  }

  /** Delivery 0 has claimed the directory. */
  function Claiming(
    a: HostRequest, b: HostRequest, pa: Phase, tmp: Option<Content<TaskReceipt>>, log: seq<Event>): Job
  {
    Job(true, false, None, tmp, None, None, [], Two(a, b, pa, HostStart), log, Some(0))
  }

  /** The task receipt is published. */
  function Published(
    a: HostRequest, b: HostRequest, pa: Phase, pb: Phase,
    host: Option<nat>, tmp: Option<nat>, inodes: seq<Content<HostReceipt>>): Job
  {
    Job(true, false, Some(Whole(AuditedReceipt(a))), None, host, tmp, inodes,
        Two(a, b, pa, pb), [AuditOf(a)], Some(0))
  }

  /** Two valid requests for this directory that delegate the same task. */
  predicate SameTask(jobId: string, a: HostRequest, b: HostRequest) {
    && a.jobId == jobId && b.jobId == jobId && ValidHost(a) && ValidHost(b)
    && TaskOf(HostDelivery(a)) == TaskOf(HostDelivery(b)) && ValidTask(TaskOf(HostDelivery(a)))
  }

  ghost predicate PairReaches(jobId: string, a: HostRequest, b: HostRequest, s: Job) {
    Reaches(jobId, Pair(a, b), EMPTY, s)
  }

  lemma PairStep(jobId: string, a: HostRequest, b: HostRequest, s: Job, k: nat, s': Job)
    requires PairReaches(jobId, a, b, s) && k < 2 && k in s.clients
    requires AdvanceClient(s, k, CleanEnv(a)) == s'
    ensures PairReaches(jobId, a, b, s')
  {
    ReachesStep(jobId, Pair(a, b), EMPTY, s, Advance(k, CleanEnv(a)));
  }

  lemma BothDelivered(jobId: string, a: HostRequest, b: HostRequest)
    requires SameTask(jobId, a, b)
    ensures PairReaches(jobId, a, b, Fresh(a, b, HostStart))
  {
    ReachesSelf(jobId, Pair(a, b), EMPTY);
    ReachesStep(jobId, Pair(a, b), EMPTY, EMPTY, Deliver(0, HostDelivery(a)));
    var s := Step(jobId, EMPTY, Deliver(0, HostDelivery(a)));
    ReachesStep(jobId, Pair(a, b), EMPTY, s, Deliver(1, HostDelivery(b)));
    assert Step(jobId, s, Deliver(1, HostDelivery(b))) == Fresh(a, b, HostStart);
  }

  lemma FirstFindsNothing(jobId: string, a: HostRequest, b: HostRequest)
    requires SameTask(jobId, a, b)
    ensures PairReaches(jobId, a, b, Fresh(a, b, NoHostReceipt))
  {
    BothDelivered(jobId, a, b);
    FirstMoves(jobId, a, b, HostStart, NoHostReceipt);
  }

  lemma FirstPassesChecks(jobId: string, a: HostRequest, b: HostRequest)
    requires SameTask(jobId, a, b)
    ensures PairReaches(jobId, a, b, Fresh(a, b, NoStop))
  {
    FirstFindsNothing(jobId, a, b);
    FirstMoves(jobId, a, b, NoHostReceipt, NoStop);
  }

  lemma FirstReachesTask(jobId: string, a: HostRequest, b: HostRequest)
    requires SameTask(jobId, a, b)
    ensures PairReaches(jobId, a, b, Fresh(a, b, TaskReady))
  {
    FirstPassesChecks(jobId, a, b);
    FirstMoves(jobId, a, b, NoStop, NoTaskReceipt);
    FirstMoves(jobId, a, b, NoTaskReceipt, TaskStart);
    FirstMoves(jobId, a, b, TaskStart, TaskReady);
  }

  lemma FirstMoves(jobId: string, a: HostRequest, b: HostRequest, p: Phase, q: Phase)
    requires PairReaches(jobId, a, b, Fresh(a, b, p))
    requires AdvanceClient(Fresh(a, b, p), 0, CleanEnv(a)) == Moved(Fresh(a, b, p), 0, q)
    ensures PairReaches(jobId, a, b, Fresh(a, b, q))
  {
    TwoUpdate(a, b, p, HostStart, q);
    PairStep(jobId, a, b, Fresh(a, b, p), 0, Fresh(a, b, q));
  }

  lemma TwoUpdate(a: HostRequest, b: HostRequest, pa: Phase, pb: Phase, q: Phase)
    ensures Two(a, b, pa, pb)[0 := Client(HostDelivery(a), q)] == Two(a, b, q, pb)
    ensures Two(a, b, pa, pb)[1 := Client(HostDelivery(b), q)] == Two(a, b, pa, q)
  {
  }

  lemma ClaimStep(a: HostRequest, b: HostRequest)
    ensures AdvanceClient(Fresh(a, b, TaskReady), 0, CleanEnv(a)) == Claiming(a, b, Claimed, None, [])
  {
    TwoUpdate(a, b, TaskReady, HostStart, Claimed);
  }

  lemma AuditSteps(a: HostRequest, b: HostRequest)
    ensures AdvanceClient(Claiming(a, b, Claimed, None, []), 0, CleanEnv(a)) ==
            Claiming(a, b, Auditing(CleanEnv(a).audit), None, [AuditOf(a)])
  {
    TwoUpdate(a, b, Claimed, HostStart, Auditing(CleanEnv(a).audit));
    assert [] + [AuditOf(a)] == [AuditOf(a)];
  }

  lemma ReceiptStep(a: HostRequest, b: HostRequest)
    ensures AdvanceClient(Claiming(a, b, Auditing(CleanEnv(a).audit), None, [AuditOf(a)]), 0, CleanEnv(a)) ==
            Claiming(a, b, HasTaskReceipt(AuditedReceipt(a)), None, [AuditOf(a)])
  {
    TwoUpdate(a, b, Auditing(CleanEnv(a).audit), HostStart, HasTaskReceipt(AuditedReceipt(a)));
  }

  lemma FirstAudits(jobId: string, a: HostRequest, b: HostRequest)
    requires SameTask(jobId, a, b)
    ensures PairReaches(jobId, a, b, Claiming(a, b, HasTaskReceipt(AuditedReceipt(a)), None, [AuditOf(a)]))
  {
    FirstReachesTask(jobId, a, b);
    ClaimStep(a, b);
    PairStep(jobId, a, b, Fresh(a, b, TaskReady), 0, Claiming(a, b, Claimed, None, []));
    AuditSteps(a, b);
    PairStep(jobId, a, b, Claiming(a, b, Claimed, None, []), 0,
             Claiming(a, b, Auditing(CleanEnv(a).audit), None, [AuditOf(a)]));
    ReceiptStep(a, b);
    PairStep(jobId, a, b, Claiming(a, b, Auditing(CleanEnv(a).audit), None, [AuditOf(a)]), 0,
             Claiming(a, b, HasTaskReceipt(AuditedReceipt(a)), None, [AuditOf(a)]));
  }

  lemma PublishSteps(a: HostRequest, b: HostRequest, i: TaskReceipt, log: seq<Event>)
    ensures AdvanceClient(Claiming(a, b, HasTaskReceipt(i), None, log), 0, CleanEnv(a)) ==
            Claiming(a, b, TaskFileOpen(i), Some(Torn), log)
    ensures AdvanceClient(Claiming(a, b, TaskFileOpen(i), Some(Torn), log), 0, CleanEnv(a)) ==
            Claiming(a, b, TaskFileWritten(i), Some(Whole(i)), log)
  {
    TwoUpdate(a, b, HasTaskReceipt(i), HostStart, TaskFileOpen(i));
    TwoUpdate(a, b, TaskFileOpen(i), HostStart, TaskFileWritten(i));
  }

  lemma RenameStep(a: HostRequest, b: HostRequest)
    ensures var i := AuditedReceipt(a);
            AdvanceClient(Claiming(a, b, TaskFileWritten(i), Some(Whole(i)), [AuditOf(a)]), 0, CleanEnv(a)) ==
            Published(a, b, TaskDone(i, false), HostStart, None, None, [])
  {
    TwoUpdate(a, b, TaskFileWritten(AuditedReceipt(a)), HostStart, TaskDone(AuditedReceipt(a), false));
  }

  lemma FirstPublishes(jobId: string, a: HostRequest, b: HostRequest)
    requires SameTask(jobId, a, b)
    ensures PairReaches(jobId, a, b, Published(a, b, TaskDone(AuditedReceipt(a), false), HostStart, None, None, []))
  {
    var i, log := AuditedReceipt(a), [AuditOf(a)];
    FirstAudits(jobId, a, b);
    PublishSteps(a, b, i, log);
    PairStep(jobId, a, b, Claiming(a, b, HasTaskReceipt(i), None, log), 0,
             Claiming(a, b, TaskFileOpen(i), Some(Torn), log));
    PairStep(jobId, a, b, Claiming(a, b, TaskFileOpen(i), Some(Torn), log), 0,
             Claiming(a, b, TaskFileWritten(i), Some(Whole(i)), log));
    RenameStep(a, b);
    PairStep(jobId, a, b, Claiming(a, b, TaskFileWritten(i), Some(Whole(i)), log), 0,
             Published(a, b, TaskDone(i, false), HostStart, None, None, []));
  }

  lemma FirstBuilds(a: HostRequest, b: HostRequest)
    ensures var i, ha := AuditedReceipt(a), HostReceiptFor(a, AuditedReceipt(a));
            AdvanceClient(Published(a, b, TaskDone(i, false), HostStart, None, None, []), 0, CleanEnv(a)) ==
            Published(a, b, HostBuilt(ha, false), HostStart, None, None, [])
  {
    TwoUpdate(a, b, TaskDone(AuditedReceipt(a), false), HostStart,
              HostBuilt(HostReceiptFor(a, AuditedReceipt(a)), false));
  }

  lemma FirstFindsNoReceipt(a: HostRequest, b: HostRequest, ha: HostReceipt)
    ensures AdvanceClient(Published(a, b, HostBuilt(ha, false), HostStart, None, None, []), 0, CleanEnv(a)) ==
            Published(a, b, HostOpening(ha, false), HostStart, None, None, [])
  {
    TwoUpdate(a, b, HostBuilt(ha, false), HostStart, HostOpening(ha, false));
  }

  lemma FirstIsOpening(jobId: string, a: HostRequest, b: HostRequest)
    requires SameTask(jobId, a, b)
    ensures var ha := HostReceiptFor(a, AuditedReceipt(a));
            PairReaches(jobId, a, b, Published(a, b, HostOpening(ha, false), HostStart, None, None, []))
  {
    var i, ha := AuditedReceipt(a), HostReceiptFor(a, AuditedReceipt(a));
    FirstPublishes(jobId, a, b);
    FirstBuilds(a, b);
    FirstFindsNoReceipt(a, b, ha);
    PairStep(jobId, a, b, Published(a, b, TaskDone(i, false), HostStart, None, None, []), 0,
             Published(a, b, HostBuilt(ha, false), HostStart, None, None, []));
    PairStep(jobId, a, b, Published(a, b, HostBuilt(ha, false), HostStart, None, None, []), 0,
             Published(a, b, HostOpening(ha, false), HostStart, None, None, []));
  }

  /** The second delivery, while the first is about to write. */
  lemma SecondMoves(jobId: string, a: HostRequest, b: HostRequest, p: Phase, q: Phase)
    requires var s := Published(a, b, HostOpening(HostReceiptFor(a, AuditedReceipt(a)), false), p, None, None, []);
             PairReaches(jobId, a, b, s) && AdvanceClient(s, 1, CleanEnv(a)) == Moved(s, 1, q)
    ensures PairReaches(jobId, a, b,
                        Published(a, b, HostOpening(HostReceiptFor(a, AuditedReceipt(a)), false), q, None, None, []))
  {
    var s := Published(a, b, HostOpening(HostReceiptFor(a, AuditedReceipt(a)), false), p, None, None, []);
    PairStep(jobId, a, b, s, 1, Moved(s, 1, q));
  }

  lemma SecondReachesTask(jobId: string, a: HostRequest, b: HostRequest)
    requires SameTask(jobId, a, b)
    ensures var ha := HostReceiptFor(a, AuditedReceipt(a));
            PairReaches(jobId, a, b, Published(a, b, HostOpening(ha, false), TaskStart, None, None, []))
  {
    FirstIsOpening(jobId, a, b);
    SecondMoves(jobId, a, b, HostStart, NoHostReceipt);
    SecondMoves(jobId, a, b, NoHostReceipt, NoStop);
    SecondMoves(jobId, a, b, NoStop, TaskStart);
  }

  lemma SecondFindsDirectory(jobId: string, a: HostRequest, b: HostRequest)
    requires SameTask(jobId, a, b)
    ensures var ha := HostReceiptFor(a, AuditedReceipt(a));
            PairReaches(jobId, a, b, Published(a, b, HostOpening(ha, false), DirectoryExists, None, None, []))
  {
    SecondReachesTask(jobId, a, b);
    SecondMoves(jobId, a, b, TaskStart, TaskReady);
    SecondMoves(jobId, a, b, TaskReady, DirectoryExists);
  }

  lemma SecondReachesReplay(jobId: string, a: HostRequest, b: HostRequest)
    requires SameTask(jobId, a, b)
    ensures var ha := HostReceiptFor(a, AuditedReceipt(a));
            PairReaches(jobId, a, b, Published(a, b, HostOpening(ha, false), TaskReplay, None, None, []))
  {
    SecondFindsDirectory(jobId, a, b);
    SecondMoves(jobId, a, b, DirectoryExists, TaskReplay);
  }

  /** Both deliveries have found no host receipt and are about to write one. */
  function BothOpening(a: HostRequest, b: HostRequest): Job {
    Published(a, b, HostOpening(HostReceiptFor(a, AuditedReceipt(a)), false),
              HostOpening(HostReceiptFor(b, AuditedReceipt(a)), true), None, None, [])
  }

  lemma SecondReplaysTask(jobId: string, a: HostRequest, b: HostRequest)
    requires SameTask(jobId, a, b)
    ensures var ha, hb := HostReceiptFor(a, AuditedReceipt(a)), HostReceiptFor(b, AuditedReceipt(a));
            PairReaches(jobId, a, b, Published(a, b, HostOpening(ha, false), HostBuilt(hb, true), None, None, []))
  {
    var i, hb := AuditedReceipt(a), HostReceiptFor(b, AuditedReceipt(a));
    SecondReachesReplay(jobId, a, b);
    SecondMoves(jobId, a, b, TaskReplay, TaskDone(i, true));
    SecondMoves(jobId, a, b, TaskDone(i, true), HostBuilt(hb, true));
  }

  lemma BothReachOpening(jobId: string, a: HostRequest, b: HostRequest)
    requires SameTask(jobId, a, b)
    ensures PairReaches(jobId, a, b, BothOpening(a, b))
  {
    var hb := HostReceiptFor(b, AuditedReceipt(a));
    SecondReplaysTask(jobId, a, b);
    SecondMoves(jobId, a, b, HostBuilt(hb, true), HostOpening(hb, true));
  }

  function FirstWrote(a: HostRequest, b: HostRequest): Job {
    Published(a, b, HostWritten(HostReceiptFor(a, AuditedReceipt(a)), false),
              HostOpening(HostReceiptFor(b, AuditedReceipt(a)), true),
              None, Some(0), [Whole(HostReceiptFor(a, AuditedReceipt(a)))])
  }

  lemma FirstOpens(a: HostRequest, b: HostRequest, ha: HostReceipt, pb: Phase)
    ensures AdvanceClient(Published(a, b, HostOpening(ha, false), pb, None, None, []), 0, CleanEnv(a)) ==
            Published(a, b, HostWriting(0, ha, false), pb, None, Some(0), [Torn])
  {
    TwoUpdate(a, b, HostOpening(ha, false), pb, HostWriting(0, ha, false));
    var none: seq<Content<HostReceipt>> := [];
    assert none + [Torn] == [Torn];
  }

  lemma FirstWrites(a: HostRequest, b: HostRequest, ha: HostReceipt, pb: Phase)
    ensures AdvanceClient(Published(a, b, HostWriting(0, ha, false), pb, None, Some(0), [Torn]), 0, CleanEnv(a)) ==
            Published(a, b, HostWritten(ha, false), pb, None, Some(0), [Whole(ha)])
  {
    TwoUpdate(a, b, HostWriting(0, ha, false), pb, HostWritten(ha, false));
    assert [Torn][0 := Whole(ha)] == [Whole(ha)];
  }

  lemma FirstRenames(a: HostRequest, b: HostRequest, ha: HostReceipt, pb: Phase, inodes: seq<Content<HostReceipt>>)
    ensures AdvanceClient(Published(a, b, HostWritten(ha, false), pb, None, Some(0), inodes), 0, CleanEnv(a)) ==
            Published(a, b, HostSettled(ha, false), pb, Some(0), None, inodes)
  {
    TwoUpdate(a, b, HostWritten(ha, false), pb, HostSettled(ha, false));
  }

  lemma FirstReachesWritten(jobId: string, a: HostRequest, b: HostRequest)
    requires SameTask(jobId, a, b)
    ensures PairReaches(jobId, a, b, FirstWrote(a, b))
  {
    var ha, pb := HostReceiptFor(a, AuditedReceipt(a)), HostOpening(HostReceiptFor(b, AuditedReceipt(a)), true);
    BothReachOpening(jobId, a, b);
    FirstOpens(a, b, ha, pb);
    PairStep(jobId, a, b, BothOpening(a, b), 0, Published(a, b, HostWriting(0, ha, false), pb, None, Some(0), [Torn]));
    FirstWrites(a, b, ha, pb);
    PairStep(jobId, a, b, Published(a, b, HostWriting(0, ha, false), pb, None, Some(0), [Torn]), 0, FirstWrote(a, b));
  }

  lemma SecondOpensSameInode(a: HostRequest, b: HostRequest, ha: HostReceipt, hb: HostReceipt)
    ensures AdvanceClient(Published(a, b, HostWritten(ha, false), HostOpening(hb, true), None, Some(0), [Whole(ha)]),
                          1, CleanEnv(a)) ==
            Published(a, b, HostWritten(ha, false), HostWriting(0, hb, true), None, Some(0), [Torn])
  {
    TwoUpdate(a, b, HostWritten(ha, false), HostOpening(hb, true), HostWriting(0, hb, true));
    assert [Whole(ha)][0 := Torn] == [Torn];
  }

  /** The first writes; the second opens, emptying the same inode; the first renames it. */
  lemma TwoWritersTear(jobId: string, a: HostRequest, b: HostRequest)
    requires SameTask(jobId, a, b)
    ensures exists s :: PairReaches(jobId, a, b, s) && VisiblyTorn(s)
  {
    var ha, hb := HostReceiptFor(a, AuditedReceipt(a)), HostReceiptFor(b, AuditedReceipt(a));
    FirstReachesWritten(jobId, a, b);
    var s3 := Published(a, b, HostWritten(ha, false), HostWriting(0, hb, true), None, Some(0), [Torn]);
    SecondOpensSameInode(a, b, ha, hb);
    PairStep(jobId, a, b, FirstWrote(a, b), 1, s3);
    var s4 := Published(a, b, HostSettled(ha, false), HostWriting(0, hb, true), Some(0), None, [Torn]);
    FirstRenames(a, b, ha, HostWriting(0, hb, true), [Torn]);
    PairStep(jobId, a, b, s3, 0, s4);
    assert VisiblyTorn(s4);
  }
}
