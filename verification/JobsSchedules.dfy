/**
 Particular schedules: one delivery running alone, which is what a redelivery after a crash
 is, in fixed or in any surroundings, and two host deliveries that reach their write at the same time.
 */
module JobsSchedules {
  import opened Wrappers
  import opened Jobs
  import opened JobsInvariant
  import opened JobsSafety

  /** Which actions a schedule may use. */
  datatype Schedule = Alone(k: nat, env: Env) | ByOne(k: nat, delivery: Delivery) | Pair(a: HostRequest, b: HostRequest)

  predicate Fits(sch: Schedule, act: Action) {
    match sch
    case Alone(k, env) => act == Advance(k, env)
    case ByOne(k, d) => act == Deliver(k, d) || (act.Advance? && act.k == k)
    case Pair(a, b) =>
      match act
      case Deliver(k, d) => k < 2 && (d == HostDelivery(a) || d == HostDelivery(b))
      case Advance(k, _) => k < 2
      case _ => false
  }

  predicate AllFit(sch: Schedule, acts: seq<Action>) {
    forall i :: 0 <= i < |acts| ==> Fits(sch, acts[i])
  }

  ghost predicate Reaches(jobId: string, sch: Schedule, s: Job, s': Job) {
    exists acts :: AllFit(sch, acts) && RunFrom(jobId, s, acts) == s'
  }

  lemma ReachesSelf(jobId: string, sch: Schedule, s: Job)
    ensures Reaches(jobId, sch, s, s)
  {
    assert AllFit(sch, []) && RunFrom(jobId, s, []) == s;
  }

  lemma ReachesStep(jobId: string, sch: Schedule, s: Job, m: Job, a: Action)
    requires Reaches(jobId, sch, s, m) && Fits(sch, a)
    ensures Reaches(jobId, sch, s, Step(jobId, m, a))
  {
    var acts :| AllFit(sch, acts) && RunFrom(jobId, s, acts) == m;
    var longer := acts + [a];
    assert longer[..|longer| - 1] == acts;
    assert AllFit(sch, longer) && RunFrom(jobId, s, longer) == Step(jobId, m, a);
  }
}
