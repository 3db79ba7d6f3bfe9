/** What one step does to the callers and to the log, whatever it does to the rows. */
module AuthorizationFrames {
  import opened Wrappers
  import opened Challenges
  import opened Ledger
  import opened Issuer
  import opened ReplayService
  import opened AuthorizationRuns

  /** Where a client may go from where it is; any client that has not returned may crash. */
  predicate MayGo(cl: Client, p: Phase) {
    match cl.phase
    case Started =>
      || p.Raised? || p.Crashed?
      || ((if cl.request.ExecuteRequest? then p.Verified? else p.HasResult?)
          && Verify(cl.service, cl.request.c, cl.nowNs).Success?)
    case Verified => p.ReserveChosen? || p.Committed? || p.Raised? || p.Crashed?
    case ReserveChosen => p.Acquired? || p.Raised? || p.Crashed?
    case Acquired => p.Executing? || p.Crashed?
    case Executing => p.HasResult? || p.Raised? || p.Crashed?
    case HasResult(_) => p.FinalizeChosen? || p.Committed? || p.Raised? || p.Crashed?
    case FinalizeChosen(_) => p.Committed? || p.Raised? || p.Crashed?
    case Committed(e) => p == Returned(e) || p.Crashed?
    case Returned(_) => false
    case _ => p.Crashed?
  }

  /** Only client `k` moves, and only as it may. */
  ghost predicate OnlyMoves(s: System, s': System, k: nat) {
    && k in s.clients && k in s'.clients
    && s'.clients == s.clients[k := s.clients[k].(phase := s'.clients[k].phase)]
    && MayGo(s.clients[k], s'.clients[k].phase)
  }

  /** What a step by client `k` may add to the log. */
  predicate MayLog(cl: Client, k: nat, e: Event) {
    match e
    case ExecutorCalled(j, _, _, op) => j == k && cl.phase.Acquired? && op == cl.request.Op()
    case CallReturned(j, _, x) => j == k && cl.phase == Committed(x)
    case ChallengeRevoked(_) => false
  }

  ghost predicate LogsOwn(s: System, s': System, k: nat)
    requires k in s.clients
  {
    s'.log == s.log || exists e :: s'.log == s.log + [e] && MayLog(s.clients[k], k, e)
  }

  /** The step of one client that is in the system. */
  ghost predicate ClientStep(s: System, s': System, k: nat) {
    OnlyMoves(s, s', k) && LogsOwn(s, s', k)
  }

  lemma VerifyFrames(s: System, k: nat)
    requires k in s.clients && s.clients[k].phase.Started?
    ensures ClientStep(s, VerifyStep(s, k), k)
  {
  }

  lemma ReserveReadFrames(s: System, k: nat)
    requires k in s.clients && s.clients[k].phase.Verified?
    ensures ClientStep(s, ReserveReadStep(s, k), k)
  {
  }

  lemma ReserveUpdateFrames(s: System, k: nat)
    requires k in s.clients && s.clients[k].phase.ReserveChosen?
    ensures ClientStep(s, ReserveUpdateStep(s, k), k)
  {
  }

  lemma ExecuteFrames(s: System, k: nat)
    requires k in s.clients && s.clients[k].phase.Acquired?
    ensures ClientStep(s, ExecuteStep(s, k), k)
  {
    var r := s.clients[k].request;
    assert MayLog(s.clients[k], k, ExecutorCalled(k, r.Id(), r.c.payload.nonceDigest, r.Op()));
  }

  lemma ExecutorFrames(s: System, k: nat, outcome: ExecutorOutcome)
    requires k in s.clients && s.clients[k].phase.Executing?
    ensures ClientStep(s, ExecutorStep(s, k, outcome), k)
  {
  }

  lemma FinalizeReadFrames(s: System, k: nat)
    requires k in s.clients && s.clients[k].phase.HasResult?
    ensures ClientStep(s, FinalizeReadStep(s, k), k)
  {
  }

  lemma FinalizeUpdateFrames(s: System, k: nat, nowNs: int)
    requires k in s.clients && s.clients[k].phase.FinalizeChosen?
    ensures ClientStep(s, FinalizeUpdateStep(s, k, nowNs), k)
  {
  }

  lemma ReturnFrames(s: System, k: nat)
    requires k in s.clients && s.clients[k].phase.Committed?
    ensures ClientStep(s, ReturnStep(s, k), k)
  {
    var x := s.clients[k].phase.execution;
    assert MayLog(s.clients[k], k, CallReturned(k, s.clients[k].request.requestHash, x));
  }

  lemma MoveFrames(s: System, k: nat, p: Phase)
    requires k in s.clients && MayGo(s.clients[k], p)
    ensures ClientStep(s, Moved(s, k, p), k)
  {
  }

  /** A client's action is its step, or nothing. */
  lemma ClientActionFrames(s: System, a: Action)
    requires IsClientAction(a)
    ensures Step(s, a) == s || ClientStep(s, Step(s, a), a.k)
  {
    if Step(s, a) != s {
      match a
      case VerifyAction(k) => VerifyFrames(s, k);
      case ReserveReadAction(k) => ReserveReadFrames(s, k);
      case ReserveUpdateAction(k) => ReserveUpdateFrames(s, k);
      case ExecuteAction(k) => ExecuteFrames(s, k);
      case ExecutorAction(k, outcome) => ExecutorFrames(s, k, outcome);
      case FinalizeReadAction(k) => FinalizeReadFrames(s, k);
      case FinalizeUpdateAction(k, t) => FinalizeUpdateFrames(s, k, t);
      case ReturnAction(k) => ReturnFrames(s, k);
      case CrashAction(k) => MoveFrames(s, k, Crashed);
      case LockTimeoutAction(k) => MoveFrames(s, k, Raised(StoreError));
    }
  }

  lemma OtherActionFrames(s: System, a: Action)
    requires !IsClientAction(a)
    ensures s.log <= Step(s, a).log
    ensures forall i :: |s.log| <= i < |Step(s, a).log| ==> Step(s, a).log[i].ChallengeRevoked?
    ensures Step(s, a).clients == s.clients
            || (a.StartAction? && a.k !in s.clients
                && Step(s, a).clients == s.clients[a.k := Client(a.svc, a.request, a.nowNs, Started)])
  {
  }
}
