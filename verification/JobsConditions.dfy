/** Exactly when the host's receipt file is never torn, and exactly when it never changes. */
module JobsConditions {
  import opened Wrappers
  import opened Jobs
  import opened JobsInvariant
  import opened JobsFrames
  import opened JobsSafety
  import opened JobsSchedules
  import opened JobsRaces

  lemma {:induction false} PairRunsTwoClients(jobId: string, a: HostRequest, b: HostRequest, acts: seq<Action>)
    requires AllFit(Pair(a, b), acts)
    ensures Run(jobId, acts).clients.Keys <= {0, 1}
  {
    if acts != [] {
      var init, act := acts[..|acts| - 1], acts[|acts| - 1];
      PairRunsTwoClients(jobId, a, b, init);
      assert Fits(Pair(a, b), act);
      if act.Advance? && act.k in Run(jobId, init).clients {
        AdvanceFrames(Run(jobId, init), act.k, act.env);
      }
    }
  }

  lemma SubsetOfTwo(w: set<nat>)
    requires w <= {0, 1}
    ensures |w| <= 2
  {
    assert w - {0} <= {1};
    assert |w - {0} - {1}| == 0;
  }

  lemma PairStaysWithinTwo(jobId: string, a: HostRequest, b: HostRequest, acts: seq<Action>)
    requires AllFit(Pair(a, b), acts)
    ensures WithinWriters(jobId, acts, 2)
  {
    forall i | 0 <= i <= |acts| ensures |Writers(Run(jobId, acts[..i]))| <= 2 {
      PairRunsTwoClients(jobId, a, b, acts[..i]);
      SubsetOfTwo(Writers(Run(jobId, acts[..i])));
    }
  }

  lemma PairRunsAreAllowed(a: HostRequest, b: HostRequest, acts: seq<Action>)
    requires AllFit(Pair(a, b), acts)
    ensures OnlyFrom({a, b}, acts) && NoStops(acts)
  {
    forall i | 0 <= i < |acts| ensures ActionAllowed({a, b}, acts[i]) && !acts[i].PlaceStop? {
      assert Fits(Pair(a, b), acts[i]);
    }
  }

  /** The run delivers only requests in `allowed`, places no STOP and has at most `n` writers at once. */
  ghost predicate RunsWithin(jobId: string, allowed: set<HostRequest>, acts: seq<Action>, n: nat) {
    OnlyFrom(allowed, acts) && NoStops(acts) && WithinWriters(jobId, acts, n)
  }

  /**
   For one valid request and no STOP file, a visible host receipt is complete in every run with
   at most `n` deliveries writing at once exactly when `n` is at most one.
   */
  lemma NeverTornIffOneWriter(jobId: string, r: HostRequest, n: nat)
    requires SameTask(jobId, r, r)
    ensures (forall acts :: RunsWithin(jobId, {r}, acts, n) ==> !VisiblyTorn(Run(jobId, acts))) <==> n <= 1
  {
    if n <= 1 {
      forall acts | RunsWithin(jobId, {r}, acts, n) ensures !VisiblyTorn(Run(jobId, acts)) {
        assert WithinWriters(jobId, acts, 1);
        OneWriterNeverTears(jobId, acts);
      }
    } else {
      TwoWritersTear(jobId, r, r);
      var s :| PairReaches(jobId, r, r, s) && VisiblyTorn(s);
      var acts :| AllFit(Pair(r, r), acts) && RunFrom(jobId, EMPTY, acts) == s;
      PairRunsAreAllowed(r, r, acts);
      assert {r, r} == {r};
      PairStaysWithinTwo(jobId, r, r, acts);
      assert RunsWithin(jobId, {r}, acts, n) && VisiblyTorn(Run(jobId, acts));
    }
  }

  // ----- Overwriting -----

  /** Once a complete host receipt is visible, no other complete one ever is. */
  ghost predicate NeverOverwritten(jobId: string, allowed: set<HostRequest>) {
    forall acts, more :: OnlyFrom(allowed, acts + more) && NoStops(acts + more) ==>
                           SameVisible(Run(jobId, acts), Run(jobId, acts + more))
  }

  predicate SameVisible(s: Job, s': Job) {
    match (VisibleHost(s), VisibleHost(s'))
    case (Some(Whole(x)), Some(Whole(y))) => x == y
    case _ => true
  }

  lemma VisibleIsBuilt(jobId: string, allowed: set<HostRequest>, acts: seq<Action>, h: HostReceipt)
    requires OnlyFrom(allowed, acts) && NoStops(acts) && VisibleHost(Run(jobId, acts)) == Some(Whole(h))
    ensures var s := Run(jobId, acts);
            && h.body.request in allowed && s.receipt.Some? && s.receipt.value.Whole?
            && h == HostReceiptFor(h.body.request, s.receipt.value.value)
            && s.receipt.value.value.body.request == TaskOf(HostDelivery(h.body.request))
  {
    RunsKeepInv(allowed, jobId, acts);
    NoStopsNoStop(jobId, acts);
  }

  lemma VisibleReceiptsAgree(
    jobId: string, a: HostRequest, b: HostRequest, acts: seq<Action>, more: seq<Action>, x: HostReceipt, y: HostReceipt)
    requires a == b || TaskOf(HostDelivery(a)) != TaskOf(HostDelivery(b))
    requires OnlyFrom({a, b}, acts + more) && NoStops(acts + more)
    requires VisibleHost(Run(jobId, acts)) == Some(Whole(x)) && VisibleHost(Run(jobId, acts + more)) == Some(Whole(y))
    ensures x == y
  {
    assert forall i :: 0 <= i < |acts| ==> acts[i] == (acts + more)[i];
    VisibleIsBuilt(jobId, {a, b}, acts, x);
    VisibleIsBuilt(jobId, {a, b}, acts + more, y);
    ReceiptNeverChanges(jobId, acts, more);
  }

  lemma DifferentTasksNeverOverwrite(
    jobId: string, a: HostRequest, b: HostRequest, acts: seq<Action>, more: seq<Action>)
    requires a == b || TaskOf(HostDelivery(a)) != TaskOf(HostDelivery(b))
    requires OnlyFrom({a, b}, acts + more) && NoStops(acts + more)
    ensures SameVisible(Run(jobId, acts), Run(jobId, acts + more))
  {
    var v, v' := VisibleHost(Run(jobId, acts)), VisibleHost(Run(jobId, acts + more));
    if v.Some? && v.value.Whole? && v'.Some? && v'.value.Whole? {
      VisibleReceiptsAgree(jobId, a, b, acts, more, v.value.value, v'.value.value);
    }
  }

  lemma SecondOpensOwnInode(a: HostRequest, b: HostRequest, ha: HostReceipt, hb: HostReceipt)
    ensures AdvanceClient(Published(a, b, HostSettled(ha, false), HostOpening(hb, true), Some(0), None, [Whole(ha)]),
                          1, CleanEnv(a)) ==
            Published(a, b, HostSettled(ha, false), HostWriting(1, hb, true), Some(0), Some(1), [Whole(ha), Torn])
  {
    TwoUpdate(a, b, HostSettled(ha, false), HostOpening(hb, true), HostWriting(1, hb, true));
    assert [Whole(ha)] + [Torn] == [Whole(ha), Torn];
  }

  lemma SecondWritesOwnInode(a: HostRequest, b: HostRequest, ha: HostReceipt, hb: HostReceipt)
    ensures AdvanceClient(
              Published(a, b, HostSettled(ha, false), HostWriting(1, hb, true), Some(0), Some(1), [Whole(ha), Torn]),
              1, CleanEnv(a)) ==
            Published(a, b, HostSettled(ha, false), HostWritten(hb, true), Some(0), Some(1), [Whole(ha), Whole(hb)])
  {
    TwoUpdate(a, b, HostSettled(ha, false), HostWriting(1, hb, true), HostWritten(hb, true));
    assert [Whole(ha), Torn][1 := Whole(hb)] == [Whole(ha), Whole(hb)];
  }

  lemma SecondRenames(a: HostRequest, b: HostRequest, ha: HostReceipt, hb: HostReceipt)
    ensures AdvanceClient(
              Published(a, b, HostSettled(ha, false), HostWritten(hb, true), Some(0), Some(1), [Whole(ha), Whole(hb)]),
              1, CleanEnv(a)) ==
            Published(a, b, HostSettled(ha, false), HostSettled(hb, true), Some(1), None, [Whole(ha), Whole(hb)])
  {
    TwoUpdate(a, b, HostSettled(ha, false), HostWritten(hb, true), HostSettled(hb, true));
  }

  /** The first delivery's receipt is visible, the second is about to write. */
  function FirstVisible(a: HostRequest, b: HostRequest): Job {
    Published(a, b, HostSettled(HostReceiptFor(a, AuditedReceipt(a)), false),
              HostOpening(HostReceiptFor(b, AuditedReceipt(a)), true),
              Some(0), None, [Whole(HostReceiptFor(a, AuditedReceipt(a)))])
  }

  function SecondVisible(a: HostRequest, b: HostRequest): Job {
    var ha, hb := HostReceiptFor(a, AuditedReceipt(a)), HostReceiptFor(b, AuditedReceipt(a));
    Published(a, b, HostSettled(ha, false), HostSettled(hb, true), Some(1), None, [Whole(ha), Whole(hb)])
  }

  lemma FirstBecomesVisible(jobId: string, a: HostRequest, b: HostRequest)
    requires SameTask(jobId, a, b)
    ensures PairReaches(jobId, a, b, FirstVisible(a, b))
  {
    var ha, pb := HostReceiptFor(a, AuditedReceipt(a)), HostOpening(HostReceiptFor(b, AuditedReceipt(a)), true);
    FirstReachesWritten(jobId, a, b);
    FirstRenames(a, b, ha, pb, [Whole(ha)]);
    PairStep(jobId, a, b, FirstWrote(a, b), 0, FirstVisible(a, b));
  }

  lemma SecondStep(jobId: string, a: HostRequest, b: HostRequest, s: Job, m: Job, s': Job)
    requires Reaches(jobId, Pair(a, b), s, m) && 1 in m.clients && AdvanceClient(m, 1, CleanEnv(a)) == s'
    ensures Reaches(jobId, Pair(a, b), s, s')
  {
    ReachesStep(jobId, Pair(a, b), s, m, Advance(1, CleanEnv(a)));
  }

  lemma SecondOverwrites(jobId: string, a: HostRequest, b: HostRequest)
    ensures Reaches(jobId, Pair(a, b), FirstVisible(a, b), SecondVisible(a, b))
  {
    var ha, hb := HostReceiptFor(a, AuditedReceipt(a)), HostReceiptFor(b, AuditedReceipt(a));
    var s := FirstVisible(a, b);
    var m1 := Published(a, b, HostSettled(ha, false), HostWriting(1, hb, true), Some(0), Some(1), [Whole(ha), Torn]);
    var m2 := Published(a, b, HostSettled(ha, false), HostWritten(hb, true), Some(0), Some(1), [Whole(ha), Whole(hb)]);
    ReachesSelf(jobId, Pair(a, b), s);
    SecondOpensOwnInode(a, b, ha, hb);
    SecondStep(jobId, a, b, s, s, m1);
    SecondWritesOwnInode(a, b, ha, hb);
    SecondStep(jobId, a, b, s, m1, m2);
    SecondRenames(a, b, ha, hb);
    SecondStep(jobId, a, b, s, m2, SecondVisible(a, b));
  }

  lemma SharedTaskOverwrites(jobId: string, a: HostRequest, b: HostRequest)
    requires SameTask(jobId, a, b) && a != b
    ensures !NeverOverwritten(jobId, {a, b})
  {
    FirstBecomesVisible(jobId, a, b);
    SecondOverwrites(jobId, a, b);
    var acts :| AllFit(Pair(a, b), acts) && RunFrom(jobId, EMPTY, acts) == FirstVisible(a, b);
    var more :| AllFit(Pair(a, b), more) && RunFrom(jobId, FirstVisible(a, b), more) == SecondVisible(a, b);
    RunFromConcat(jobId, EMPTY, acts, more);
    PairRunsAreAllowed(a, b, acts + more);
    assert !SameVisible(Run(jobId, acts), Run(jobId, acts + more));
  }

  /**
   With no STOP file, a host receipt of one of two valid requests is never replaced by another
   exactly when the requests are equal or do not delegate the same task.
   */
  lemma NeverOverwrittenIff(jobId: string, a: HostRequest, b: HostRequest)
    requires a.jobId == jobId && b.jobId == jobId && ValidHost(a) && ValidHost(b)
    requires ValidTask(TaskOf(HostDelivery(a))) && ValidTask(TaskOf(HostDelivery(b)))
    ensures NeverOverwritten(jobId, {a, b}) <==> a == b || TaskOf(HostDelivery(a)) != TaskOf(HostDelivery(b))
  {
    if a == b || TaskOf(HostDelivery(a)) != TaskOf(HostDelivery(b)) {
      forall acts, more | OnlyFrom({a, b}, acts + more) && NoStops(acts + more)
        ensures SameVisible(Run(jobId, acts), Run(jobId, acts + more))
      {
        DifferentTasksNeverOverwrite(jobId, a, b, acts, more);
      }
    } else {
      SharedTaskOverwrites(jobId, a, b);
    }
  }
}
