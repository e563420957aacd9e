/** Theorems about whole runs: when finalizers are released, what a completed reconcile
    leaves, what an applied hash proves, and the write-ahead order of the protocol. */
module RotationHistory {
  import opened Options
  import opened RotationState
  import opened RotationSteps
  import opened RotationSafety
  import opened RotationLedger

  /** Every service the reconcile read from the spec has passed the readiness test for the
      names the reconcile pushes. */
  ghost predicate AllPassed(s: State) {
    s.parent.Running? && forall c | c in s.parent.inst.services :: Passed(s, c)
  }

  /** This step releases secret x at the end of a normal reconcile: the guard held, so every
      service has applied the pushed names, and x is neither of them. */
  ghost predicate ReleasesAfterRollout(s: State, a: Action, x: Name) {
    && a.Advance? && s.parent.Running? && (s.parent.pc.FinishTransport? || s.parent.pc.FinishNotif?)
    && s.parent.ready && AllPassed(s) && x != s.parent.cur && x != s.parent.curN
  }

  lemma GuardMeansAllPassed(s: State)
    requires Base(s) && s.parent.Running? && s.parent.ready && PastPinAC(s.parent.pc) && !s.parent.pc.Deploy?
    ensures AllPassed(s)
  {
    forall c | c in s.parent.inst.services ensures Passed(s, c) {
      assert Visited(s.parent.pc, c);
    }
  }

  /** Advances that touch no finalizer except to add one. */
  lemma MostAdvancesKeepPins(s: State, x: Name)
    requires AdvanceEnabled(s) && Holds(s.secrets, x, TransportConsumer)
    requires !s.parent.pc.FinishTransport? && !s.parent.pc.FinishNotif? && !s.parent.pc.DelList?
    ensures Holds(DoAdvance(s).secrets, x, TransportConsumer)
  {
  }

  lemma LateAdvanceKeepsStatus(s: State)
    requires AdvanceEnabled(s) && (PastPinAC(s.parent.pc) || !Normal(s.parent.pc))
    ensures DoAdvance(s).cr == s.cr || (s.parent.pc.DelDrop? && DoAdvance(s).cr == s.cr.(finalizer := false))
  {
  }

  /** The tracked names in the status are as before, or are those of the in-memory copy. */
  ghost predicate Persists(s: State, cr: ManilaCR) {
    (cr.tracked == s.cr.tracked && cr.trackedN == s.cr.trackedN && cr.trackedAC == s.cr.trackedAC) ||
    (s.parent.Running? && Normal(s.parent.pc) && !PastPinAC(s.parent.pc) &&
     cr.tracked == s.parent.inst.tracked && Value(cr.trackedN) == Value(s.parent.inst.trackedN) &&
     cr.trackedAC == s.parent.inst.trackedAC)
  }

  lemma ReadTransportPersists(s: State)
    requires s.parent.Running? && s.parent.pc.ReadTransport?
    ensures Persists(s, DoReadTransport(s).cr)
  {
  }

  lemma ReadNotifPersists(s: State)
    requires s.parent.Running? && s.parent.pc.ReadNotif?
    ensures Persists(s, DoReadNotif(s).cr)
  {
  }

  lemma HashGatePersists(s: State)
    requires s.parent.Running? && s.parent.pc.HashGate?
    ensures Persists(s, DoHashGate(s).cr)
  {
  }

  lemma PinningPersists(s: State)
    requires AdvanceEnabled(s)
    requires s.parent.pc.PinTransport? || s.parent.pc.PinNotif? || s.parent.pc.PinAC? || s.parent.pc.RenderConfig?
    ensures DoAdvance(s).cr == s.cr
  {
  }

  lemma AdvancePersists(s: State)
    requires AdvanceEnabled(s)
    ensures Persists(s, DoAdvance(s).cr)
  {
    var pc := s.parent.pc;
    if PastPinAC(pc) || !Normal(pc) { LateAdvanceKeepsStatus(s); }
    else if pc.ReadTransport? { ReadTransportPersists(s); }
    else if pc.ReadNotif? { ReadNotifPersists(s); }
    else if pc.HashGate? { HashGatePersists(s); }
    else { PinningPersists(s); }
  }

  /** Every other step of the parent keeps the finalizers of the tracked secrets. */
  lemma OtherParentSteps(s: State, a: Action)
    requires Base(s) && Ledger(s) && Enabled(s, a) && !s.cr.deleting
    requires !IsEnvironmentAction(a) && !IsServiceAction(a) && !a.Advance?
    ensures s.cr.tracked != "" && Holds(s.secrets, s.cr.tracked, TransportConsumer) ==>
              Holds(Step(s, a).secrets, s.cr.tracked, TransportConsumer) && Step(s, a).cr.tracked == s.cr.tracked
    ensures Value(s.cr.trackedN) != "" && Holds(s.secrets, Value(s.cr.trackedN), TransportConsumer) ==>
              Holds(Step(s, a).secrets, Value(s.cr.trackedN), TransportConsumer) &&
              Value(Step(s, a).cr.trackedN) == Value(s.cr.trackedN)
  {
  }

  /** The only step of normal operation that takes the transport finalizer off a tracked
      secret is a release after rollout; until then the name stays tracked. */
  lemma TrackedStep(s: State, a: Action)
    requires Base(s) && Ledger(s) && Enabled(s, a) && !s.cr.deleting
    requires s.cr.tracked != "" && Holds(s.secrets, s.cr.tracked, TransportConsumer)
    ensures Holds(Step(s, a).secrets, s.cr.tracked, TransportConsumer) || ReleasesAfterRollout(s, a, s.cr.tracked)
    ensures Step(s, a).cr.tracked == s.cr.tracked
  {
    if IsEnvironmentAction(a) || IsServiceAction(a) { OutsideKeepsLedger(s, a); }
    else if a.Advance? { TrackedAdvance(s); }
    else { OtherParentSteps(s, a); }
  }

  lemma TrackedAdvance(s: State)
    requires Base(s) && Ledger(s) && AdvanceEnabled(s) && !s.cr.deleting
    requires s.cr.tracked != "" && Holds(s.secrets, s.cr.tracked, TransportConsumer)
    ensures Holds(DoAdvance(s).secrets, s.cr.tracked, TransportConsumer) ||
            ReleasesAfterRollout(s, Advance, s.cr.tracked)
    ensures DoAdvance(s).cr.tracked == s.cr.tracked
  {
    AdvancePersists(s);
    if s.parent.pc.FinishTransport? { ReleaseTransport(s); }
    else if s.parent.pc.FinishNotif? { ReleaseNotif(s, s.cr.tracked); }
    else { MostAdvancesKeepPins(s, s.cr.tracked); }
  }

  lemma ReleaseTransport(s: State)
    requires Base(s) && Ledger(s) && AdvanceEnabled(s) && s.parent.pc.FinishTransport?
    requires s.cr.tracked != "" && Holds(s.secrets, s.cr.tracked, TransportConsumer)
    ensures Holds(DoAdvance(s).secrets, s.cr.tracked, TransportConsumer) ||
            ReleasesAfterRollout(s, Advance, s.cr.tracked)
  {
    if s.parent.ready { GuardMeansAllPassed(s); }
  }

  lemma ReleaseNotif(s: State, x: Name)
    requires Base(s) && AdvanceEnabled(s) && s.parent.pc.FinishNotif?
    requires Holds(s.secrets, x, TransportConsumer) && (x in s.issued || x == Value(s.parent.inst.trackedN))
    requires x != ""
    ensures Holds(DoAdvance(s).secrets, x, TransportConsumer) ||
            (x == Value(s.parent.inst.trackedN) && ReleasesAfterRollout(s, Advance, x))
  {
    if s.parent.ready { GuardMeansAllPassed(s); }
  }

  /** A tracked messaging secret keeps its finalizer, over any stretch of a run without
      deletion, until some step releases it after every service has applied its successor. */
  lemma {:induction false} MessagingReleaseNeedsRollout(ss: seq<State>, acts: seq<Action>, i: nat, j: nat)
    requires IsRun(ss, acts) && i <= j < |ss|
    requires forall m | i <= m < j :: !ss[m].cr.deleting
    requires ss[i].cr.tracked != "" && Holds(ss[i].secrets, ss[i].cr.tracked, TransportConsumer)
    ensures (Holds(ss[j].secrets, ss[i].cr.tracked, TransportConsumer) && ss[j].cr.tracked == ss[i].cr.tracked) ||
            exists m :: i <= m < j && ReleasesAfterRollout(ss[m], acts[m], ss[i].cr.tracked)
    decreases j - i
  {
    if i < j {
      RunLedger(ss, acts, i);
      RunStep(ss, acts, i);
      TrackedStep(ss[i], acts[i]);
      if ReleasesAfterRollout(ss[i], acts[i], ss[i].cr.tracked) {
      } else {
        MessagingReleaseNeedsRollout(ss, acts, i + 1, j);
      }
    }
  }

  /** At the moment of that release the configuration and every service that the reconcile
      read from the spec are on the current name. */
  lemma MessagingReleaseFindsOnlyCurrent(ss: seq<State>, acts: seq<Action>, m: nat)
    requires IsRun(ss, acts) && m < |acts| && !ss[m].cr.deleting
    requires ReleasesAfterRollout(ss[m], acts[m], ss[m].cr.tracked) && ss[m].parent.pc.FinishTransport?
    requires ss[m].cr.tracked != ""
    ensures On(ss[m], ss[m].parent.cur)
    ensures forall c | c in ss[m].parent.inst.services :: c in ss[m].svcs && AllOn(ss[m].svcs[c], ss[m].parent.cur)
  {
    RunLedger(ss, acts, m);
    forall c | c in ss[m].parent.inst.services
      ensures c in ss[m].svcs && AllOn(ss[m].svcs[c], ss[m].parent.cur)
    {
      GuardMeansRolled(ss[m], c);
    }
  }

  // ---------------------------------------------------------------- notifications

  lemma TrackedNotifAdvance(s: State)
    requires Base(s) && Ledger(s) && AdvanceEnabled(s) && !s.cr.deleting
    requires Value(s.cr.trackedN) != "" && Holds(s.secrets, Value(s.cr.trackedN), TransportConsumer)
    ensures Holds(DoAdvance(s).secrets, Value(s.cr.trackedN), TransportConsumer) ||
            ReleasesAfterRollout(s, Advance, Value(s.cr.trackedN))
    ensures Value(DoAdvance(s).cr.trackedN) == Value(s.cr.trackedN)
  {
    AdvancePersists(s);
    if s.parent.pc.FinishTransport? { KeepNotifPin(s); }
    else if s.parent.pc.FinishNotif? { ReleaseNotif(s, Value(s.cr.trackedN)); }
    else { MostAdvancesKeepPins(s, Value(s.cr.trackedN)); }
  }

  lemma KeepNotifPin(s: State)
    requires NamesOk(s) && s.parent.Running? && s.parent.pc.FinishTransport?
    requires Value(s.cr.trackedN) != "" && Holds(s.secrets, Value(s.cr.trackedN), TransportConsumer)
    ensures Holds(DoFinishTransport(s).secrets, Value(s.cr.trackedN), TransportConsumer)
  {
  }

  lemma TrackedNotifStep(s: State, a: Action)
    requires Base(s) && Ledger(s) && Enabled(s, a) && !s.cr.deleting
    requires Value(s.cr.trackedN) != "" && Holds(s.secrets, Value(s.cr.trackedN), TransportConsumer)
    ensures Holds(Step(s, a).secrets, Value(s.cr.trackedN), TransportConsumer) ||
            ReleasesAfterRollout(s, a, Value(s.cr.trackedN))
    ensures Value(Step(s, a).cr.trackedN) == Value(s.cr.trackedN)
  {
    if IsEnvironmentAction(a) || IsServiceAction(a) { OutsideKeepsLedger(s, a); }
    else if a.Advance? { TrackedNotifAdvance(s); }
    else { OtherParentSteps(s, a); }
  }

  /** Teardown is deferred: the tracked notifications secret stays pinned and tracked until
      every service has applied names without it, whatever toggles, errors and crashes
      happen in between. */
  lemma {:induction false} NotificationsReleaseDeferred(ss: seq<State>, acts: seq<Action>, i: nat, j: nat)
    requires IsRun(ss, acts) && i <= j < |ss|
    requires forall m | i <= m < j :: !ss[m].cr.deleting
    requires Value(ss[i].cr.trackedN) != "" &&
             Holds(ss[i].secrets, Value(ss[i].cr.trackedN), TransportConsumer)
    ensures (Holds(ss[j].secrets, Value(ss[i].cr.trackedN), TransportConsumer) &&
             Value(ss[j].cr.trackedN) == Value(ss[i].cr.trackedN)) ||
            exists m :: i <= m < j && ReleasesAfterRollout(ss[m], acts[m], Value(ss[i].cr.trackedN))
    decreases j - i
  {
    if i < j {
      RunLedger(ss, acts, i);
      RunStep(ss, acts, i);
      TrackedNotifStep(ss[i], acts[i]);
      if ReleasesAfterRollout(ss[i], acts[i], Value(ss[i].cr.trackedN)) {
      } else {
        NotificationsReleaseDeferred(ss, acts, i + 1, j);
      }
    }
  }

  lemma NotifUrlAdvance(s: State)
    requires AdvanceEnabled(s) && s.notifUrl.Some? && DoAdvance(s).notifUrl.None?
    ensures s.parent.pc.DropNotifUrl?
  {
  }

  lemma NotifUrlStep(s: State, a: Action)
    requires Enabled(s, a) && s.notifUrl.Some? && Step(s, a).notifUrl.None?
    ensures a.Advance? && s.parent.Running? && s.parent.pc.DropNotifUrl?
  {
    if a.Advance? { NotifUrlAdvance(s); }
  }

  /** The notifications TransportURL is deleted only by a reconcile that pushed no
      notifications secret, after every service applied that. */
  lemma NotifUrlDeletedAfterRollout(ss: seq<State>, acts: seq<Action>, i: nat)
    requires IsRun(ss, acts) && i < |acts|
    requires ss[i].notifUrl.Some? && ss[i + 1].notifUrl.None?
    ensures AllPassed(ss[i]) && ss[i].parent.ready && ss[i].parent.curN == ""
  {
    RunLedger(ss, acts, i);
    RunStep(ss, acts, i);
    NotifUrlStep(ss[i], acts[i]);
    GuardMeansAllPassed(ss[i]);
  }

  // ---------------------------------------------------------------- completed reconciles

  /** A completed reconcile leaves the transport finalizer only on tracked and current
      names, and on exactly the current ones when the guard held; it leaves the AC
      finalizer only on the tracked and the requested name, and the requested one has it. */
  lemma CompletedReconcileHolders(ss: seq<State>, acts: seq<Action>, i: nat)
    requires IsRun(ss, acts) && i < |ss| && ss[i].parent.Running? && ss[i].parent.pc.Complete?
    ensures var p := ss[i].parent;
            && HoldersWithin(ss[i].secrets, TransportConsumer,
                             {p.inst.tracked, p.cur, Value(p.inst.trackedN), p.curN})
            && Holds(ss[i].secrets, p.cur, TransportConsumer)
            && (p.curN != "" ==> Holds(ss[i].secrets, p.curN, TransportConsumer))
            && (p.ready ==> AllPassed(ss[i]) && p.inst.tracked == p.cur && Value(p.inst.trackedN) == p.curN)
            && (p.ready ==> forall x | x != "" ::
                  Holds(ss[i].secrets, x, TransportConsumer) <==> x == p.cur || x == p.curN)
            && HoldersWithin(ss[i].secrets, ACConsumer, {p.inst.trackedAC, p.inst.ac})
            && (p.inst.ac != "" ==> Holds(ss[i].secrets, p.inst.ac, ACConsumer))
            && (p.ready ==> p.inst.trackedAC == p.inst.ac)
  {
    RunLedger(ss, acts, i);
    if ss[i].parent.ready { GuardMeansAllPassed(ss[i]); }
  }

  lemma ACStep(s: State, a: Action)
    requires Enabled(s, a) && Step(s, a).cr.trackedAC != s.cr.trackedAC
    ensures s.parent.Running? && (a.Exit? || a.Advance?) && Step(s, a).cr.trackedAC == s.parent.inst.trackedAC
  {
    if a.Advance? { AdvancePersists(s); }
  }

  /** The tracked AC name moves off a non-empty secret only under the guard. */
  lemma ACMovesUnderGuard(ss: seq<State>, acts: seq<Action>, i: nat)
    requires IsRun(ss, acts) && i < |acts|
    requires ss[i].cr.trackedAC != "" && ss[i + 1].cr.trackedAC != ss[i].cr.trackedAC
    ensures AllPassed(ss[i]) && ss[i].parent.ready
    ensures ss[i + 1].cr.trackedAC == ss[i].parent.inst.ac
  {
    RunLedger(ss, acts, i);
    RunStep(ss, acts, i);
    ACStep(ss[i], acts[i]);
    GuardMeansAllPassed(ss[i]);
  }

  // ---------------------------------------------------------------- deletion

  /** Whenever a secret holds one of the two consumer finalizers, the Manila object still
      has its own.  So that finalizer is dropped only when neither is held anywhere,
      whatever errors, crashes and retries came before, and on names in neither status
      nor spec as much as on tracked ones. */
  lemma FinalizerOutlivesPins(ss: seq<State>, acts: seq<Action>, i: nat, x: Name, f: Finalizer)
    requires IsRun(ss, acts) && i < |ss| && Holds(ss[i].secrets, x, f)
    ensures ss[i].cr.finalizer
  {
    RunLedger(ss, acts, i);
  }

  lemma FinalizerStep(s: State, a: Action)
    requires Enabled(s, a) && s.cr.finalizer && !Step(s, a).cr.finalizer
    ensures a.Advance? && s.parent.Running? && s.parent.pc.DelDrop?
    ensures Step(s, a).secrets == s.secrets
  {
    if a.Advance? { FinalizerAdvance(s); }
  }

  lemma FinalizerAdvance(s: State)
    requires AdvanceEnabled(s) && s.cr.finalizer && !DoAdvance(s).cr.finalizer
    ensures s.parent.pc.DelDrop?
  {
    if PastPinAC(s.parent.pc) || !Normal(s.parent.pc) { LateAdvanceKeepsStatus(s); }
  }

  lemma FinalizerDroppedLast(ss: seq<State>, acts: seq<Action>, i: nat)
    requires IsRun(ss, acts) && i < |acts| && ss[i].cr.finalizer && !ss[i + 1].cr.finalizer
    ensures ss[i].cr.deleting && ss[i + 1].secrets == ss[i].secrets
    ensures NoHolder(ss[i].secrets, TransportConsumer) && NoHolder(ss[i].secrets, ACConsumer)
  {
    RunLedger(ss, acts, i);
    RunStep(ss, acts, i);
    FinalizerStep(ss[i], acts[i]);
  }

  // ---------------------------------------------------------------- a writing reconcile never releases

  predicate WritesService(a: Action) { a.DeployOne? && !a.snap.Cached? }

  predicate NotReady(s: State) {
    s.parent.Running? ==> PastPinAC(s.parent.pc) && !s.parent.ready
  }

  lemma NotReadyAdvance(s: State)
    requires NotReady(s) && AdvanceEnabled(s)
    ensures NotReady(DoAdvance(s))
  {
  }

  lemma NotReadyStays(s: State, a: Action)
    requires NotReady(s) && Enabled(s, a) && !a.Start?
    ensures NotReady(Step(s, a))
  {
    if a.Advance? { NotReadyAdvance(s); }
    else if IsEnvironmentAction(a) || IsServiceAction(a) { assert Step(s, a).parent == s.parent; }
  }

  lemma WriteMakesNotReady(s: State, a: Action)
    requires Base(s) && Enabled(s, a) && WritesService(a)
    ensures NotReady(Step(s, a))
  {
    WriteIsNotReady(s, a.c, a.snap);
  }

  lemma RunWriteNotReady(ss: seq<State>, acts: seq<Action>, i: nat)
    requires IsRun(ss, acts) && i < |acts| && WritesService(acts[i])
    ensures NotReady(ss[i + 1])
  {
    RunInv(ss, acts, i);
    RunStep(ss, acts, i);
    WriteMakesNotReady(ss[i], acts[i]);
  }

  lemma {:induction false} WriteKeepsNotReady(ss: seq<State>, acts: seq<Action>, i: nat, j: nat)
    requires IsRun(ss, acts) && i < j < |ss| && WritesService(acts[i])
    requires forall m | i < m < j :: !acts[m].Start?
    ensures NotReady(ss[j])
    decreases j - i
  {
    if j == i + 1 {
      RunWriteNotReady(ss, acts, i);
    } else {
      RunStep(ss, acts, j - 1);
      WriteKeepsNotReady(ss, acts, i, j - 1);
      NotReadyStays(ss[j - 1], acts[j - 1]);
    }
  }

  /** A reconcile that writes a service object releases nothing: from the write to the next
      Start, without deletion, the tracked secret stays pinned and tracked. */
  lemma NoReleaseAfterWrite(ss: seq<State>, acts: seq<Action>, i: nat, j: nat)
    requires IsRun(ss, acts) && i < j < |ss| && WritesService(acts[i])
    requires forall m | i < m < j :: !acts[m].Start?
    requires forall m | i < m < j :: !ss[m].cr.deleting
    requires ss[i + 1].cr.tracked != "" && Holds(ss[i + 1].secrets, ss[i + 1].cr.tracked, TransportConsumer)
    ensures Holds(ss[j].secrets, ss[i + 1].cr.tracked, TransportConsumer)
    ensures ss[j].cr.tracked == ss[i + 1].cr.tracked
  {
    MessagingReleaseNeedsRollout(ss, acts, i + 1, j);
    forall m | i < m < j ensures !ReleasesAfterRollout(ss[m], acts[m], ss[i + 1].cr.tracked) {
      WriteKeepsNotReady(ss, acts, i, m);
    }
  }

  // ---------------------------------------------------------------- an applied hash is true history

  ghost predicate Claims(k: Service, p: Pair) {
    (exists v :: 0 <= v < |k.versions| && k.versions[v].applied == Some(p)) ||
    (k.run.Reconciling? && k.run.inst.applied == Some(p))
  }

  /** In this step service c found every pod running the template whose hash it had computed
      in this very reconcile, from a spec naming p. */
  ghost predicate FoundRolled(s: State, a: Action, c: ServiceId, p: Pair) {
    && a.ServiceCheck? && a.c == c && a.rolled && Enabled(s, a) && s.svcs[c].versions != []
    && var k := s.svcs[c];
    && p == Pair(k.run.inst.spec.t, k.run.inst.spec.n)
    && k.run.pc.input.t == p.t && k.run.pc.input.n == p.n
    && RolledTo(k, k.run.pc.input)
    && Named(k, k.run.inst.spec) && Recorded(k, k.run.pc.input)
  }

  /** Leaving a reconcile claims nothing new. */
  lemma ExitClaims(k: Service, inst: ServiceCR, p: Pair)
    requires k.versions != [] && k.run.Reconciling? && inst.applied == k.run.inst.applied
    requires Claims(Exited(k, k.run.base, inst), p)
    ensures Claims(k, p)
  {
    var k' := Exited(k, k.run.base, inst);
    var v :| 0 <= v < |k'.versions| && k'.versions[v].applied == Some(p);
    assert k.versions[|k.versions| - 1] == Last(k);
    if v < |k.versions| { assert k.versions[v] == k'.versions[v]; }
  }

  lemma StartClaims(k: Service, j: nat, p: Pair)
    requires j < |k.versions| && Claims(Started(k, j), p)
    ensures Claims(k, p)
  {
    if Started(k, j).run.inst.applied != Some(p) {
      var v :| 0 <= v < |k.versions| && Started(k, j).versions[v].applied == Some(p);
      assert k.versions[v].applied == Some(p);
    }
  }

  /** Same revisions and same in-memory claim, or no reconcile: nothing new is claimed. */
  lemma SameClaims(k: Service, k': Service, p: Pair)
    requires k'.versions == k.versions && Claims(k', p)
    requires k'.run.Reconciling? ==> k.run.Reconciling? && k'.run.inst.applied == k.run.inst.applied
    ensures Claims(k, p)
  {
    if !(k'.run.Reconciling? && k'.run.inst.applied == Some(p)) {
      var v :| 0 <= v < |k'.versions| && k'.versions[v].applied == Some(p);
      assert k.versions[v].applied == Some(p);
    }
  }

  lemma AdvanceClaims(s: State, c: ServiceId, p: Pair)
    requires c in s.svcs && AdvanceServiceEnabled(s.svcs[c], s.cfg, s.secrets)
    requires Claims(Advanced(s.svcs[c], s.cfg, s.secrets), p)
    ensures Claims(s.svcs[c], p)
  {
    var k := s.svcs[c];
    var k' := Advanced(k, s.cfg, s.secrets);
    if k.run.pc.Gate? && k'.run.Resting? {
      var input := Input(k.run.inst.spec.t, k.run.inst.spec.n, k.run.pc.seen, k.run.pc.own);
      ExitClaims(k, k.run.inst.(hash := Some(input)), p);
    } else {
      SameClaims(k, k', p);
    }
  }

  lemma CheckClaims(s: State, a: Action, p: Pair)
    requires Enabled(s, a) && a.ServiceCheck? && ServiceOk(s.svcs[a.c])
    requires Claims(Step(s, a).svcs[a.c], p)
    ensures Claims(s.svcs[a.c], p) || FoundRolled(s, a, a.c, p)
  {
    var k := s.svcs[a.c];
    if !a.rolled { SameClaims(k, Checked(k, a.ready, a.rolled), p); }
    else if p != Pair(k.run.inst.spec.t, k.run.inst.spec.n) {
      SameClaims(k, Checked(k, a.ready, a.rolled).(run := Resting), p);
    }
  }

  lemma ServiceClaims(s: State, a: Action, p: Pair)
    requires Enabled(s, a) && IsServiceAction(a) && a.c in s.svcs && ServiceOk(s.svcs[a.c])
    requires a.c in Step(s, a).svcs
    requires Claims(Step(s, a).svcs[a.c], p)
    ensures Claims(s.svcs[a.c], p) || FoundRolled(s, a, a.c, p)
  {
    if a.ServiceStart? { StartClaims(s.svcs[a.c], a.j, p); }
    else if a.ServiceAdvance? { AdvanceClaims(s, a.c, p); }
    else if a.ServiceCheck? { CheckClaims(s, a, p); }
    else if a.ServiceExit? { ExitClaims(s.svcs[a.c], s.svcs[a.c].run.inst, p); }
    else { SameClaims(s.svcs[a.c], Step(s, a).svcs[a.c], p); }
  }

  lemma DeployClaims(s: State, c: ServiceId, snap: Snapshot, p: Pair)
    requires s.parent.Running? && DeployEnabled(s, c, snap)
    requires c in s.svcs ==> ServiceOk(s.svcs[c])
    requires Claims(DoDeploy(s, c, snap).svcs[c], p)
    ensures c in s.svcs && Claims(s.svcs[c], p)
  {
    var k' := DoDeploy(s, c, snap).svcs[c];
    if exists v :: 0 <= v < |k'.versions| && k'.versions[v].applied == Some(p) {
      var v :| 0 <= v < |k'.versions| && k'.versions[v].applied == Some(p);
      if c in s.svcs {
        var k := s.svcs[c];
        assert k.versions[|k.versions| - 1] == Last(k);
        if v < |k.versions| { assert k.versions[v] == k'.versions[v]; }
      }
    }
  }

  lemma CleanupClaims(s: State, c: ServiceId, p: Pair)
    requires CleanupEnabled(s, c) && Claims(DoCleanup(s, c).svcs[c], p)
    ensures Claims(s.svcs[c], p)
  {
    var k, k' := s.svcs[c], DoCleanup(s, c).svcs[c];
    if exists v :: 0 <= v < |k'.versions| && k'.versions[v].applied == Some(p) {
      var v :| 0 <= v < |k'.versions| && k'.versions[v].applied == Some(p);
      assert k.versions[|k.versions| - 1] == Last(k);
      if v < |k.versions| { assert k.versions[v] == k'.versions[v]; }
    }
  }

  lemma ServiceClaimStep(s: State, a: Action, c: ServiceId, p: Pair)
    requires Base(s) && Enabled(s, a) && IsServiceAction(a)
    requires c in Step(s, a).svcs && Claims(Step(s, a).svcs[c], p)
    ensures c in s.svcs && (Claims(s.svcs[c], p) || FoundRolled(s, a, c, p))
  {
    hide Claims, FoundRolled;
    ServiceStepPuts(s, a);
    if a.c == c { ServiceClaims(s, a, p); }
  }

  lemma ParentClaimStep(s: State, a: Action, c: ServiceId, p: Pair)
    requires Base(s) && Enabled(s, a) && (a.DeployOne? || a.CleanupOne?)
    requires c in Step(s, a).svcs && Claims(Step(s, a).svcs[c], p)
    ensures c in s.svcs && Claims(s.svcs[c], p)
  {
    if a.c == c {
      if a.DeployOne? { DeployClaims(s, c, a.snap, p); } else { CleanupClaims(s, c, p); }
    }
  }

  lemma ClaimStep(s: State, a: Action, c: ServiceId, p: Pair)
    requires Base(s) && Enabled(s, a) && c in Step(s, a).svcs && Claims(Step(s, a).svcs[c], p)
    ensures c in s.svcs && (Claims(s.svcs[c], p) || FoundRolled(s, a, c, p))
  {
    if IsServiceAction(a) { ServiceClaimStep(s, a, c, p); }
    else if a.DeployOne? || a.CleanupOne? { ParentClaimStep(s, a, c, p); }
    else { OtherStepsKeepServices(s, a); }
  }

  /** If any revision of a service object, or the reconcile in flight, claims that the pair
      (t, n) is applied, then at some earlier step the service's reconcile, started from a
      spec naming (t, n), found every pod on the input hash it had just computed.  A failed
      or unready reconcile never advances the claim. */
  lemma {:induction false} AppliedHashIsHistory(ss: seq<State>, acts: seq<Action>, i: nat, c: ServiceId, p: Pair)
    requires IsRun(ss, acts) && i < |ss| && c in ss[i].svcs && Claims(ss[i].svcs[c], p)
    ensures exists j :: 0 <= j < i && FoundRolled(ss[j], acts[j], c, p)
  {
    if i > 0 {
      RunInv(ss, acts, i - 1);
      RunStep(ss, acts, i - 1);
      ClaimStep(ss[i - 1], acts[i - 1], c, p);
      if !FoundRolled(ss[i - 1], acts[i - 1], c, p) { AppliedHashIsHistory(ss, acts, i - 1, c, p); }
    }
  }

  // ---------------------------------------------------------------- write-ahead

  /** A service spec is written only when its secrets are pinned, the configuration in the
      store was rendered from them, and the parent has persisted that input hash. */
  lemma SpecWriteAhead(ss: seq<State>, acts: seq<Action>, i: nat)
    requires IsRun(ss, acts) && i < |acts| && WritesService(acts[i])
    ensures acts[i].c in ss[i + 1].svcs && ss[i + 1].svcs[acts[i].c].versions != []
    ensures var spec := Last(ss[i + 1].svcs[acts[i].c]).spec;
            && Holds(ss[i].secrets, spec.t, TransportConsumer)
            && (spec.n != "" ==> Holds(ss[i].secrets, spec.n, TransportConsumer))
            && ss[i].cfg.Some? && ss[i].cfg.value.t == spec.t && ss[i].cfg.value.n == spec.n
            && ss[i].cr.hash == ss[i].cfg
  {
    RunInv(ss, acts, i);
    RunStep(ss, acts, i);
  }

  /** CONFIG_HASH reaches a StatefulSet only after some persisted revision of the service
      object recorded it. */
  lemma ConfigHashWriteAhead(ss: seq<State>, acts: seq<Action>, i: nat, c: ServiceId)
    requires IsRun(ss, acts) && i < |ss| && c in ss[i].svcs && ss[i].svcs[c].sts.Some?
    ensures Recorded(ss[i].svcs[c], ss[i].svcs[c].sts.value)
    ensures ss[i].svcs[c].cfg.Some?
  {
    RunInv(ss, acts, i);
  }
}
