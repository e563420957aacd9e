/** The share loop of the parent reconcile: two accumulators over the shares of the spec, the
    readiness guard and the condition shown to the user. */
module ShareStatus {
  import opened Options
  import opened RotationState

  /** A condition and its rank; the higher rank is the more serious. */
  datatype Condition = Condition(rank: nat, message: string)

  /** A share object as CreateOrUpdate hands it back, and what Mirror makes of its own
      conditions (nothing, if it has none). */
  datatype Object = Object(cr: ServiceCR, mirror: Option<Condition>)

  const RUNNING := Condition(1, "Deployment in progress")

  /** GetHigherPrioCondition: nothing only of nothing and nothing. */
  function HigherPrio(c: Option<Condition>, d: Option<Condition>): Option<Condition> {
    if c.None? then d else if d.None? || c.value.rank >= d.value.rank then c else d
  }

  /** The object has been reconciled for its generation and these secrets. */
  predicate Current(o: Object, cur: Name, curN: Name) {
    o.cr.gen == o.cr.obs && o.cr.applied == Some(Pair(cur, curN))
  }

  predicate IsReady(o: Object) { o.cr.ready == o.cr.spec.tmpl.replicas }

  /** What one share has to complain about. */
  function Complaint(o: Object, cur: Name, curN: Name): Option<Condition> {
    if !Current(o, cur, curN) then Some(RUNNING) else if !IsReady(o) then o.mirror else None
  }

  /** What a share reports: that its deployment is in progress, if it has not been reconciled
      for its generation and these secrets, whatever its own conditions say; otherwise, if
      replicas are missing, what its own conditions say. */
  predicate Reports(o: Object, cur: Name, curN: Name, c: Condition) {
    var current := o.cr.gen == o.cr.obs && o.cr.applied == Some(Pair(cur, curN));
    || (!current && c == Condition(1, "Deployment in progress"))
    || (current && o.cr.ready != o.cr.spec.tmpl.replicas && o.mirror == Some(c))
  }

  /** A share reports nothing, or nothing worse than this. */
  predicate NothingWorse(o: Object, cur: Name, curN: Name, c: Option<Condition>) {
    var current := o.cr.gen == o.cr.obs && o.cr.applied == Some(Pair(cur, curN));
    && (!current ==> c.Some? && c.value.rank >= 1)
    && (current && o.cr.ready != o.cr.spec.tmpl.replicas && o.mirror.Some? ==>
          c.Some? && c.value.rank >= o.mirror.value.rank)
  }

  /** Nothing is reported only if no share reports anything; otherwise some share reports this,
      and none anything worse. */
  ghost predicate WorstReport(shares: map<string, Object>, cur: Name, curN: Name, c: Option<Condition>) {
    && (c.Some? ==> exists name :: name in shares && Reports(shares[name], cur, curN, c.value))
    && (forall name | name in shares :: NothingWorse(shares[name], cur, curN, c))
  }

  /** The ready count of a share that is current is taken over, every other one stays. */
  predicate Counted(was: map<string, nat>, now: map<string, nat>, shares: map<string, Object>, cur: Name, curN: Name,
                    name: string)
  {
    if name in shares && shares[name].cr.gen == shares[name].cr.obs && shares[name].cr.applied == Some(Pair(cur, curN))
    then name in now && now[name] == shares[name].cr.ready
    else (name in now <==> name in was) && (name in now ==> now[name] == was[name])
  }

  lemma ComplaintReports(o: Object, cur: Name, curN: Name, c: Condition)
    ensures Complaint(o, cur, curN) == Some(c) <==> Reports(o, cur, curN, c)
  {
    assert RUNNING == Condition(1, "Deployment in progress");
  }

  lemma MostSeriousReports(shares: map<string, Object>, cur: Name, curN: Name, c: Option<Condition>)
    requires MostSerious(shares, shares.Keys, cur, curN, c)
    ensures WorstReport(shares, cur, curN, c)
  {
    if c.Some? { SomeReport(shares, cur, curN, c.value); }
    forall name | name in shares ensures NothingWorse(shares[name], cur, curN, c) {
      assert name in shares.Keys;
      assert Complaint(shares[name], cur, curN).Some? ==>
          c.Some? && c.value.rank >= Complaint(shares[name], cur, curN).value.rank;
    }
  }

  lemma SomeReport(shares: map<string, Object>, cur: Name, curN: Name, c: Condition)
    requires MostSerious(shares, shares.Keys, cur, curN, Some(c))
    ensures exists name :: name in shares && Reports(shares[name], cur, curN, c)
  {
    var name :| name in shares.Keys && Complaint(shares[name], cur, curN) == Some(c);
    ComplaintReports(shares[name], cur, curN, c);
  }

  /** A share that is not ready and says nothing about it. */
  predicate Silent(o: Object, cur: Name, curN: Name) { Current(o, cur, curN) && !IsReady(o) && o.mirror.None? }

  /** The condition is the most serious complaint of these shares, nothing if there is none. */
  ghost predicate MostSerious(shares: map<string, Object>, names: set<string>, cur: Name, curN: Name,
                              c: Option<Condition>)
    requires names <= shares.Keys
  {
    && (c.Some? ==> exists name :: name in names && Complaint(shares[name], cur, curN) == c)
    && (forall name | name in names && Complaint(shares[name], cur, curN).Some? ::
          c.Some? && c.value.rank >= Complaint(shares[name], cur, curN).value.rank)
  }

  lemma MostSeriousNext(shares: map<string, Object>, names: set<string>, cur: Name, curN: Name, c: Option<Condition>,
                        name: string)
    requires names <= shares.Keys && MostSerious(shares, names, cur, curN, c) && name in shares
    ensures MostSerious(shares, names + {name}, cur, curN, HigherPrio(Complaint(shares[name], cur, curN), c))
  {
    var c' := HigherPrio(Complaint(shares[name], cur, curN), c);
    if c'.Some? && c' != Complaint(shares[name], cur, curN) {
      var other :| other in names && Complaint(shares[other], cur, curN) == c;
      assert other in names + {name};
    }
  }

  /** The ready counts of the shares that are current. */
  function Counts(shares: map<string, Object>, names: set<string>, cur: Name, curN: Name): map<string, nat>
    requires names <= shares.Keys
  {
    map name | name in names && Current(shares[name], cur, curN) :: shares[name].cr.ready
  }

  lemma CountsMean(was: map<string, nat>, shares: map<string, Object>, cur: Name, curN: Name)
    ensures forall name :: Counted(was, was + Counts(shares, shares.Keys, cur, curN), shares, cur, curN, name)
  {
  }

  lemma CountsNext(was: map<string, nat>, shares: map<string, Object>, names: set<string>, cur: Name, curN: Name,
                   name: string)
    requires names <= shares.Keys && name in shares
    ensures was + Counts(shares, names + {name}, cur, curN) ==
              if Current(shares[name], cur, curN)
              then (was + Counts(shares, names, cur, curN))[name := shares[name].cr.ready]
              else was + Counts(shares, names, cur, curN)
  {
  }

  class ManilaStatus {
    var readyCounts: map<string, nat>
    var shareReady: Option<Condition>    // None stands for a true condition

    constructor (readyCounts: map<string, nat>)
      ensures this.readyCounts == readyCounts
    {
      this.readyCounts, shareReady := readyCounts, None;
    }

    /** The loop over the spec's shares, in any order; `ready` is what API and Scheduler left
        in allServicesReady. */
    method MirrorShares(shares: map<string, Object>, cur: Name, curN: Name, ready: bool)
      returns (allServicesReady: bool)
      modifies this
      ensures allServicesReady <==> ready && forall name | name in shares :: Matches(shares[name].cr, cur, curN)
      ensures MostSerious(shares, shares.Keys, cur, curN, shareReady)
      ensures readyCounts == old(readyCounts) + Counts(shares, shares.Keys, cur, curN)
      ensures forall name: string :: Counted(old(readyCounts), readyCounts, shares, cur, curN, name)
      ensures WorstReport(shares, cur, curN, shareReady)
    {
      allServicesReady := ready;
      var shareCondition: Option<Condition> := None;
      var todo := shares.Keys;
      ghost var done := {};
      while todo != {}
        invariant todo <= shares.Keys && done == shares.Keys - todo
        invariant allServicesReady <==> ready && forall name | name in done :: Matches(shares[name].cr, cur, curN)
        invariant MostSerious(shares, done, cur, curN, shareCondition)
        invariant readyCounts == old(readyCounts) + Counts(shares, done, cur, curN)
        decreases |todo|
      {
        var name :| name in todo;
        MostSeriousNext(shares, done, cur, curN, shareCondition, name);
        CountsNext(old(readyCounts), shares, done, cur, curN, name);
        var ready', condition := MirrorOne(name, shares[name], cur, curN);
        allServicesReady := allServicesReady && ready';
        shareCondition := HigherPrio(condition, shareCondition);
        todo, done := todo - {name}, done + {name};
      }
      assert done == shares.Keys;
      shareReady := shareCondition;
      MostSeriousReports(shares, cur, curN, shareReady);
      CountsMean(old(readyCounts), shares, cur, curN);
    }

    method MirrorOne(name: string, o: Object, cur: Name, curN: Name) returns (ready: bool, condition: Option<Condition>)
      modifies `readyCounts
      ensures ready == Matches(o.cr, cur, curN) && condition == Complaint(o, cur, curN)
      ensures forall c :: condition == Some(c) <==> Reports(o, cur, curN, c)
      ensures readyCounts == if Current(o, cur, curN) then old(readyCounts)[name := o.cr.ready] else old(readyCounts)
    {
      ready, condition := true, None;
      if o.cr.gen == o.cr.obs && o.cr.applied == Some(Pair(cur, curN)) {
        readyCounts := readyCounts[name := o.cr.ready];
        if o.cr.ready != o.cr.spec.tmpl.replicas { ready, condition := false, o.mirror; }
      } else {
        ready, condition := false, Some(RUNNING);
      }
    }
  }

  /** The accumulators agree unless a share is silent: no complaint means that every share
      matches or is silent. */
  lemma NoComplaintIff(shares: map<string, Object>, cur: Name, curN: Name)
    ensures (forall name | name in shares :: Complaint(shares[name], cur, curN).None?) <==>
            (forall name | name in shares :: Matches(shares[name].cr, cur, curN) || Silent(shares[name], cur, curN))
  {
    forall name | name in shares
      ensures Complaint(shares[name], cur, curN).None? <==>
                Matches(shares[name].cr, cur, curN) || Silent(shares[name], cur, curN)
    {
      assert Matches(shares[name].cr, cur, curN) <==> Current(shares[name], cur, curN) && IsReady(shares[name]);
    }
  }

  /** So they agree on a map of shares exactly if it does not combine a silent share with
      the absence of any complaint. */
  lemma AccumulatorsAgreeIff(shares: map<string, Object>, cur: Name, curN: Name)
    ensures ((forall name | name in shares :: Complaint(shares[name], cur, curN).None?) <==>
             (forall name | name in shares :: Matches(shares[name].cr, cur, curN))) <==>
            ((exists name :: name in shares && Silent(shares[name], cur, curN)) ==>
             (exists name :: name in shares && Complaint(shares[name], cur, curN).Some?))
  {
    NoComplaintIff(shares, cur, curN);
    forall name | name in shares && Silent(shares[name], cur, curN) ensures !Matches(shares[name].cr, cur, curN) {}
  }

  /** Where they disagree: whenever a share is silent and all others match, the user is told
      that the shares are ready while the guard stays closed. */
  lemma SilentShareMisleads(shares: map<string, Object>, cur: Name, curN: Name, silent: string)
    requires silent in shares && Silent(shares[silent], cur, curN)
    requires forall name | name in shares && name != silent :: Matches(shares[name].cr, cur, curN)
    ensures MostSerious(shares, shares.Keys, cur, curN, None)
    ensures !forall name | name in shares :: Matches(shares[name].cr, cur, curN)
  {
    assert !Matches(shares[silent].cr, cur, curN);
    forall name | name in shares ensures Complaint(shares[name], cur, curN).None? {
      if name != silent { assert Matches(shares[name].cr, cur, curN); }
    }
  }

  /** One such input: a share without conditions whose single replica is not there yet. */
  lemma SilentShareExists(cur: Name, curN: Name)
    ensures var cr := ServiceCR(ServiceSpec(cur, curN, Template(1, 0)), 1, 1, None, Some(Pair(cur, curN)), 0, false);
            var shares := map["nfs" := Object(cr, None)];
            && MostSerious(shares, shares.Keys, cur, curN, None)
            && !forall name | name in shares :: Matches(shares[name].cr, cur, curN)
  {
    var cr := ServiceCR(ServiceSpec(cur, curN, Template(1, 0)), 1, 1, None, Some(Pair(cur, curN)), 0, false);
    SilentShareMisleads(map["nfs" := Object(cr, None)], cur, curN, "nfs");
  }
}
