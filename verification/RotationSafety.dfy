/** The invariant of every reachable state: what the parent's reconcile has established, and
    that services tell the truth about the messaging name of the stored configuration.

    One hypothesis is built into the environment's actions: every issued name is fresh, so
    messaging and notifications names are disjoint. */
module RotationSafety {
  import opened Options
  import opened RotationState
  import opened RotationSteps

  // ---------------------------------------------------------------- positions in the parent's reconcile

  predicate Normal(pc: ParentPc) {
    !pc.DelList? && !pc.DelPruneTransport? && !pc.DelPruneAC? && !pc.DelDrop?
  }

  predicate PastRead(pc: ParentPc) { Normal(pc) && !pc.ReadTransport? }

  predicate PastPin(pc: ParentPc) { PastRead(pc) && !pc.PinTransport? }

  predicate PastNotif(pc: ParentPc) { PastPin(pc) && !pc.ReadNotif? && !pc.PinNotif? }

  predicate PastRender(pc: ParentPc) { PastNotif(pc) && !pc.RenderConfig? }

  predicate PastGate(pc: ParentPc) { PastRender(pc) && !pc.HashGate? }

  predicate PastPinAC(pc: ParentPc) { PastGate(pc) && !pc.PinAC? }

  predicate Visited(pc: ParentPc, c: ServiceId) {
    PastPinAC(pc) && (pc.Deploy? ==> c !in pc.todo)
  }

  // ---------------------------------------------------------------- names

  predicate NameIn(x: Name, names: set<Name>) { x == "" || x in names }

  ghost predicate NamesOk(s: State) {
    && s.issued !! s.issuedN && "" !in s.issued && "" !in s.issuedN
    && NameIn(s.url, s.issued) && NameIn(s.cr.tracked, s.issued)
    && NameIn(Value(s.notifUrl), s.issuedN) && NameIn(Value(s.cr.trackedN), s.issuedN)
    && (s.parent.Running? ==>
        var p := s.parent;
        && NameIn(p.cur, s.issued) && NameIn(p.inst.tracked, s.issued)
        && NameIn(p.curN, s.issuedN) && NameIn(Value(p.inst.trackedN), s.issuedN)
        && (p.pc.DropNotifUrl? ==> p.curN == ""))
  }

  // ---------------------------------------------------------------- the parent

  /** What a running parent reconcile has established before its current call. */
  ghost predicate ParentOk(s: State) {
    s.parent.Running? ==>
      var p := s.parent;
      && (!Normal(p.pc) ==> s.cr.deleting)
      && (Normal(p.pc) ==> p.inst.hash == s.cr.hash)
      && (PastRead(p.pc) ==> p.cur != "")
      && (PastPin(p.pc) ==> Holds(s.secrets, p.cur, TransportConsumer))
      && (PastNotif(p.pc) && p.curN != "" ==> Holds(s.secrets, p.curN, TransportConsumer))
      && (p.pc.ReadTransport? || p.pc.PinTransport? || p.pc.ReadNotif? ==> p.curN == "")
      && (p.pc.PinNotif? || (PastNotif(p.pc) && p.inst.notifOn) ==> p.curN != "")
      && (PastRender(p.pc) ==> s.cfg.Some? && s.cfg.value.t == p.cur && s.cfg.value.n == p.curN)
      && (PastGate(p.pc) ==> s.cr.hash == s.cfg)
      && (p.pc.Deploy? ==> p.pc.todo <= p.inst.services.Keys)
  }

  // ---------------------------------------------------------------- a service

  ghost predicate Recorded(k: Service, input: Input) {
    exists j :: 0 <= j < |k.versions| && k.versions[j].hash == Some(input)
  }

  ghost predicate Named(k: Service, spec: ServiceSpec) {
    exists j :: 0 <= j < |k.versions| && k.versions[j].spec == spec
  }

  ghost predicate RunOk(k: Service)
    requires k.run.Reconciling? && k.versions != []
  {
    var inst := k.run.inst;
    && k.live
    && inst.obs <= Last(k).gen
    && (inst.hash.Some? ==> Recorded(k, inst.hash.value))
    && Named(k, inst.spec)
    && (k.run.pc.Patch? || k.run.pc.Check? ==>
        && inst.hash == Some(k.run.pc.input)
        && k.run.pc.input.t == inst.spec.t && k.run.pc.input.n == inst.spec.n)
    && (k.run.pc.Gate? || k.run.pc.Patch? || k.run.pc.Check? ==> k.cfg.Some?)
    && (k.run.pc.Check? ==> k.sts == Some(k.run.pc.input))
  }

  ghost predicate ServiceOk(k: Service) {
    && k.versions != []
    && (forall j :: 0 <= j < |k.versions| ==> k.versions[j].obs <= k.versions[j].gen)
    && (!k.live ==> k.run.Resting? && k.cfg.None? && k.sts.None? && k.pods == map[])
    && (k.live ==> k.born < |k.versions| &&
                   forall j :: k.born <= j < |k.versions| ==> k.versions[j].gen <= Last(k).gen)
    && (k.sts.Some? ==> k.cfg.Some? && Recorded(k, k.sts.value))
    && (k.run.Reconciling? ==> RunOk(k))
  }

  /** Every messaging name a service mentions is in `names`. */
  ghost predicate Within(k: Service, names: set<Name>) {
    && (forall j :: 0 <= j < |k.versions| ==>
          k.versions[j].spec.t in names &&
          (k.versions[j].applied.Some? ==> k.versions[j].applied.value.t in names))
    && (k.run.Reconciling? ==>
          k.run.inst.spec.t in names && (k.run.inst.applied.Some? ==> k.run.inst.applied.value.t in names))
    && (k.cfg.Some? ==> k.cfg.value.t in names)
    && (k.sts.Some? ==> k.sts.value.t in names)
    && (forall i | i in k.pods :: k.pods[i].tmpl.t in names && k.pods[i].cred.t in names)
  }

  ghost predicate AllOn(k: Service, x: Name) {
    && (k.cfg.Some? ==> k.cfg.value.t == x)
    && (forall i | i in k.pods :: k.pods[i].cred.t == x)
  }

  /** The service tells the truth about name x: whatever mentions x was written after the
      parent's configuration came from x (`on`), and an applied hash for x means that no
      pod and no configuration of the service is from another name. */
  ghost predicate Truthful(k: Service, x: Name, on: bool) {
    && (forall j :: 0 <= j < |k.versions| ==>
          && (k.versions[j].spec.t == x ==> on)
          && (k.versions[j].applied.Some? && k.versions[j].applied.value.t == x ==> on && AllOn(k, x)))
    && (k.run.Reconciling? ==>
          && (k.run.inst.spec.t == x ==> on)
          && (k.run.inst.applied.Some? && k.run.inst.applied.value.t == x ==> on && AllOn(k, x))
          && (k.run.inst.spec.t == x && (k.run.pc.Gate? || k.run.pc.Patch? || k.run.pc.Check?) ==>
                k.cfg.Some? && k.cfg.value.t == x))
    && (k.cfg.Some? && k.cfg.value.t == x ==> on)
    && (k.sts.Some? && k.sts.value.t == x ==> k.cfg.Some? && k.cfg.value.t == x)
    && (forall i | i in k.pods && k.pods[i].tmpl.t == x ::
          k.pods[i].cred.t == x && k.cfg.Some? && k.cfg.value.t == x)
  }

  // ---------------------------------------------------------------- safety of the whole state

  ghost predicate On(s: State, x: Name) { s.cfg.Some? && s.cfg.value.t == x }

  /** Nothing mentions name x yet. */
  ghost predicate Untouched(s: State, x: Name) {
    && (s.cfg.Some? ==> s.cfg.value.t in s.issued - {x})
    && forall c | c in s.svcs :: Within(s.svcs[c], s.issued - {x})
  }

  /** The stored configuration is from x, or nothing mentions x yet. */
  ghost predicate Clear(s: State, x: Name) { On(s, x) || Untouched(s, x) }

  /** Some revision of c passes the readiness test for the names this reconcile pushes. */
  ghost predicate Passed(s: State, c: ServiceId)
    requires s.parent.Running?
  {
    c in s.svcs && c in s.parent.inst.services &&
    exists j :: 0 <= j < |s.svcs[c].versions| &&
      s.svcs[c].versions[j].spec == Desired(s.parent.inst, c, s.parent.cur, s.parent.curN) &&
      Matches(s.svcs[c].versions[j], s.parent.cur, s.parent.curN)
  }

  ghost predicate GuardOk(s: State) {
    s.parent.Running? && s.parent.ready ==>
      forall c | c in s.parent.inst.services && Visited(s.parent.pc, c) :: Passed(s, c)
  }

  /** A name that the parent has read may not be the current one any more; then nothing
      mentions the current one. */
  ghost predicate ParentSafe(s: State) {
    s.parent.Running? && PastRead(s.parent.pc) ==>
      Clear(s, s.parent.cur) && (s.parent.cur != s.url ==> Untouched(s, s.url))
  }

  ghost predicate Base(s: State) {
    && NamesOk(s)
    && ParentOk(s)
    && GuardOk(s)
    && (forall c | c in s.svcs :: ServiceOk(s.svcs[c]))
    && (s.cfg.Some? ==> s.cfg.value.t in s.issued)
    && (forall c | c in s.svcs :: Within(s.svcs[c], s.issued))
  }

  ghost predicate Safe(s: State) {
    && (s.cfg.Some? ==> forall c | c in s.svcs :: Truthful(s.svcs[c], s.cfg.value.t, true))
    && (s.url != "" ==> Clear(s, s.url))
    && ParentSafe(s)
  }

  ghost predicate Inv(s: State) {
    Base(s) && (!s.cr.deleting ==> Safe(s))
  }

  // ---------------------------------------------------------------- steps of one service

  /** How a step of a service, its object or its pods may change the service; `cfg` is the
      parent's configuration. */
  ghost predicate Evolves(k: Service, k': Service, cfg: Option<Config>) {
    && k.versions <= k'.versions
    && ServiceOk(k')
    && (k'.live ==> k.live)
    && (k'.cfg.Some? ==> k'.cfg == k.cfg || k'.cfg == cfg)
    && (forall i | i in k'.pods ::
          (i in k.pods && k'.pods[i].cred == k.pods[i].cred) || k.cfg == Some(k'.pods[i].cred))
  }

  /** Truthful and Within survive together for one service step. */
  ghost predicate Keeps(k: Service, k': Service, cfg: Option<Config>, names: set<Name>) {
    && Evolves(k, k', cfg)
    && (Within(k, names) && (cfg.Some? ==> cfg.value.t in names) ==> Within(k', names))
    && (forall x, on | on == (cfg.Some? && cfg.value.t == x) && Truthful(k, x, on) :: Truthful(k', x, on))
  }

  lemma RecordsGrow(k: Service, versions: seq<ServiceCR>)
    requires k.versions <= versions && ServiceOk(k)
    ensures forall input | Recorded(k, input) :: Recorded(k.(versions := versions), input)
    ensures forall spec | Named(k, spec) :: Named(k.(versions := versions), spec)
  {
    forall input | Recorded(k, input) ensures Recorded(k.(versions := versions), input) {
      var j :| 0 <= j < |k.versions| && k.versions[j].hash == Some(input);
      assert versions[j].hash == Some(input);
    }
    forall spec | Named(k, spec) ensures Named(k.(versions := versions), spec) {
      var j :| 0 <= j < |k.versions| && k.versions[j].spec == spec;
      assert versions[j].spec == spec;
    }
  }

  /** Recorded and Named depend on the revisions only. */
  lemma RecordsDependOnVersions(k: Service, k': Service)
    requires k.versions == k'.versions
    ensures forall input :: Recorded(k, input) <==> Recorded(k', input)
    ensures forall spec :: Named(k, spec) <==> Named(k', spec)
  {
  }

  lemma StartedOk(k: Service, j: nat, cfg: Option<Config>, names: set<Name>)
    requires ServiceOk(k) && StartEnabled(k, j)
    ensures Keeps(k, Started(k, j), cfg, names)
  {
    var k' := Started(k, j);
    RecordsDependOnVersions(k, k');
    assert k'.versions[j].spec == k'.run.inst.spec && k'.versions[j].hash == k'.run.inst.hash;
  }

  lemma ExitedOk(k: Service, inst: ServiceCR, cfg: Option<Config>, names: set<Name>)
    requires ServiceOk(k) && k.run.Reconciling?
    requires inst.obs <= Last(k).gen && inst.applied == k.run.inst.applied
    ensures Keeps(k, Exited(k, k.run.base, inst), cfg, names)
  {
    hide Recorded, Named;
    var j := |k.versions| - 1;
    assert k.versions[j] == Last(k);
    RecordsGrow(k, PersistService(k, k.run.base, inst));
    RecordsDependOnVersions(k.(versions := PersistService(k, k.run.base, inst)), Exited(k, k.run.base, inst));
  }

  lemma VerifiedOk(k: Service, cfg: Option<Config>, secrets: map<Name, set<Finalizer>>, names: set<Name>)
    requires ServiceOk(k) && AdvanceServiceEnabled(k, cfg, secrets) && k.run.pc.Verify?
    ensures Keeps(k, Advanced(k, cfg, secrets), cfg, names)
  {
    RecordsDependOnVersions(k, Advanced(k, cfg, secrets));
  }

  lemma RenderedOk(k: Service, cfg: Option<Config>, secrets: map<Name, set<Finalizer>>, names: set<Name>)
    requires ServiceOk(k) && AdvanceServiceEnabled(k, cfg, secrets) && k.run.pc.Render?
    ensures Keeps(k, Advanced(k, cfg, secrets), cfg, names)
  {
    RecordsDependOnVersions(k, Advanced(k, cfg, secrets));
  }

  lemma GatePassedOk(k: Service, cfg: Option<Config>, names: set<Name>, input: Input)
    requires ServiceOk(k) && k.run.Reconciling? && k.run.pc.Gate? && k.run.inst.hash == Some(input)
    requires input == Input(k.run.inst.spec.t, k.run.inst.spec.n, k.run.pc.seen, k.run.pc.own)
    ensures Keeps(k, k.(run := k.run.(pc := Patch(input))), cfg, names)
  {
    RecordsDependOnVersions(k, k.(run := k.run.(pc := Patch(input))));
  }

  lemma GatedOk(k: Service, cfg: Option<Config>, secrets: map<Name, set<Finalizer>>, names: set<Name>)
    requires ServiceOk(k) && AdvanceServiceEnabled(k, cfg, secrets) && k.run.pc.Gate?
    ensures Keeps(k, Advanced(k, cfg, secrets), cfg, names)
  {
    var input := Input(k.run.inst.spec.t, k.run.inst.spec.n, k.run.pc.seen, k.run.pc.own);
    if k.run.inst.hash == Some(input) { GatePassedOk(k, cfg, names, input); }
    else { ExitedOk(k, k.run.inst.(hash := Some(input)), cfg, names); }
  }

  lemma PatchedOk(k: Service, cfg: Option<Config>, secrets: map<Name, set<Finalizer>>, names: set<Name>)
    requires ServiceOk(k) && AdvanceServiceEnabled(k, cfg, secrets) && k.run.pc.Patch?
    ensures Keeps(k, Advanced(k, cfg, secrets), cfg, names)
  {
    RecordsDependOnVersions(k, Advanced(k, cfg, secrets));
  }

  lemma AdvancedOk(k: Service, cfg: Option<Config>, secrets: map<Name, set<Finalizer>>, names: set<Name>)
    requires ServiceOk(k) && AdvanceServiceEnabled(k, cfg, secrets)
    ensures Keeps(k, Advanced(k, cfg, secrets), cfg, names)
  {
    match k.run.pc {
      case Verify => VerifiedOk(k, cfg, secrets, names);
      case Render(_) => RenderedOk(k, cfg, secrets, names);
      case Gate(_, _) => GatedOk(k, cfg, secrets, names);
      case Patch(_) => PatchedOk(k, cfg, secrets, names);
    }
  }

  lemma CheckedOk(k: Service, ready: nat, rolled: bool, cfg: Option<Config>, names: set<Name>)
    requires ServiceOk(k) && k.run.Reconciling? && k.run.pc.Check?
    requires rolled ==> RolledTo(k, k.run.pc.input)
    ensures Keeps(k, Checked(k, ready, rolled), cfg, names)
  {
    var k' := Checked(k, ready, rolled);
    RecordsDependOnVersions(k, k');
    forall x, on | on == (cfg.Some? && cfg.value.t == x) && Truthful(k, x, on)
      ensures Truthful(k', x, on)
    {
      if rolled && k.run.inst.spec.t == x {
        forall i | i in k.pods ensures k.pods[i].cred.t == x { assert k.pods[i].tmpl == k.run.pc.input; }
        assert AllOn(k', x);
      }
    }
  }

  lemma CrashedOk(k: Service, cfg: Option<Config>, names: set<Name>)
    requires ServiceOk(k)
    ensures Keeps(k, Crashed(k), cfg, names)
  {
    hide Recorded, Named;
    RecordsDependOnVersions(k, Crashed(k));
  }

  lemma GoneOk(k: Service, cfg: Option<Config>, names: set<Name>)
    requires ServiceOk(k) && k.run.Resting?
    ensures Keeps(k, Gone(k), cfg, names)
  {
    RecordsDependOnVersions(k, Gone(k));
  }

  lemma PodStartedOk(k: Service, i: nat, cfg: Option<Config>, names: set<Name>)
    requires ServiceOk(k) && k.sts.Some? && k.cfg.Some?
    ensures Keeps(k, PodStarted(k, i), cfg, names)
  {
    hide Recorded, Named;
    RecordsDependOnVersions(k, PodStarted(k, i));
  }

  lemma PodRestartedOk(k: Service, i: nat, cfg: Option<Config>, names: set<Name>)
    requires ServiceOk(k) && i in k.pods && k.cfg.Some?
    ensures Keeps(k, PodRestarted(k, i), cfg, names)
  {
    hide Recorded, Named;
    RecordsDependOnVersions(k, PodRestarted(k, i));
  }

  lemma PodStoppedOk(k: Service, i: nat, cfg: Option<Config>, names: set<Name>)
    requires ServiceOk(k) && i in k.pods
    ensures Keeps(k, PodStopped(k, i), cfg, names)
  {
    hide Recorded, Named;
    RecordsDependOnVersions(k, PodStopped(k, i));
  }

  predicate IsServiceAction(a: Action) {
    a.ServiceStart? || a.ServiceAdvance? || a.ServiceCheck? || a.ServiceExit? || a.ServiceCrash?
    || a.ServiceGone? || a.PodStart? || a.PodRestart? || a.PodStop?
  }

  predicate IsPodAction(a: Action) { a.PodStart? || a.PodRestart? || a.PodStop? }

  lemma PodStepKeeps(s: State, a: Action, names: set<Name>)
    requires Enabled(s, a) && IsPodAction(a) && forall c | c in s.svcs :: ServiceOk(s.svcs[c])
    ensures a.c in s.svcs && a.c in Step(s, a).svcs && Step(s, a) == Put(s, a.c, Step(s, a).svcs[a.c])
    ensures Keeps(s.svcs[a.c], Step(s, a).svcs[a.c], s.cfg, names)
  {
    var k := s.svcs[a.c];
    if a.PodStart? { PodStartedOk(k, a.i, s.cfg, names); }
    else if a.PodRestart? { PodRestartedOk(k, a.i, s.cfg, names); }
    else { PodStoppedOk(k, a.i, s.cfg, names); }
  }

  lemma ServiceStepPuts(s: State, a: Action)
    requires Enabled(s, a) && IsServiceAction(a)
    ensures a.c in s.svcs && a.c in Step(s, a).svcs && Step(s, a) == Put(s, a.c, Step(s, a).svcs[a.c])
  {
  }

  lemma ReconcileStepKeeps(s: State, a: Action, names: set<Name>)
    requires Enabled(s, a) && IsServiceAction(a) && !IsPodAction(a) && forall c | c in s.svcs :: ServiceOk(s.svcs[c])
    ensures a.c in s.svcs && a.c in Step(s, a).svcs && Step(s, a) == Put(s, a.c, Step(s, a).svcs[a.c])
    ensures Keeps(s.svcs[a.c], Step(s, a).svcs[a.c], s.cfg, names)
  {
    hide Keeps;
    ServiceStepPuts(s, a);
    var k := s.svcs[a.c];
    match a {
      case ServiceStart(_, j) => StartedOk(k, j, s.cfg, names);
      case ServiceAdvance(_) => AdvancedOk(k, s.cfg, s.secrets, names);
      case ServiceCheck(_, ready, rolled) => CheckedOk(k, ready, rolled, s.cfg, names);
      case ServiceExit(_) => ExitedOk(k, k.run.inst, s.cfg, names);
      case ServiceCrash(_) => CrashedOk(k, s.cfg, names);
      case ServiceGone(_) => GoneOk(k, s.cfg, names);
    }
  }

  lemma ServiceStepKeeps(s: State, a: Action, names: set<Name>)
    requires Enabled(s, a) && IsServiceAction(a) && forall c | c in s.svcs :: ServiceOk(s.svcs[c])
    ensures a.c in s.svcs && a.c in Step(s, a).svcs && Step(s, a) == Put(s, a.c, Step(s, a).svcs[a.c])
    ensures Keeps(s.svcs[a.c], Step(s, a).svcs[a.c], s.cfg, names)
  {
    if IsPodAction(a) { PodStepKeeps(s, a, names); } else { ReconcileStepKeeps(s, a, names); }
  }

  lemma AdvanceKeepsServices(s: State)
    requires AdvanceEnabled(s)
    ensures DoAdvance(s).svcs == s.svcs
  {
  }

  lemma OtherStepsKeepServices(s: State, a: Action)
    requires Enabled(s, a) && !IsServiceAction(a) && !a.DeployOne? && !a.CleanupOne?
    ensures Step(s, a).svcs == s.svcs
  {
    if a.Advance? { AdvanceKeepsServices(s); }
  }

  /** Passing the readiness test survives any growth of the revision lists. */
  lemma PassedGrows(s: State, s': State, c: ServiceId)
    requires s.parent.Running? && s'.parent.Running? && Passed(s, c) && c in s'.svcs
    requires s'.parent.inst.services == s.parent.inst.services
    requires s'.parent.cur == s.parent.cur && s'.parent.curN == s.parent.curN
    requires s.svcs[c].versions <= s'.svcs[c].versions
    ensures Passed(s', c)
  {
    var j :| 0 <= j < |s.svcs[c].versions| &&
      s.svcs[c].versions[j].spec == Desired(s.parent.inst, c, s.parent.cur, s.parent.curN) &&
      Matches(s.svcs[c].versions[j], s.parent.cur, s.parent.curN);
    assert s'.svcs[c].versions[j] == s.svcs[c].versions[j];
  }

  lemma GuardGrows(s: State, s': State)
    requires GuardOk(s)
    requires s'.parent.Running? ==> s.parent.Running? && s'.parent.inst.services == s.parent.inst.services
    requires s'.parent.Running? ==> s'.parent.cur == s.parent.cur && s'.parent.curN == s.parent.curN
    requires s'.parent.Running? && s'.parent.ready ==> s.parent.ready
    requires s'.parent.Running? ==> forall c | Visited(s'.parent.pc, c) :: Visited(s.parent.pc, c)
    requires forall c | c in s.svcs :: c in s'.svcs && s.svcs[c].versions <= s'.svcs[c].versions
    ensures GuardOk(s')
  {
    if s'.parent.Running? && s'.parent.ready {
      forall c | c in s'.parent.inst.services && Visited(s'.parent.pc, c) ensures Passed(s', c) {
        PassedGrows(s, s', c);
      }
    }
  }

  lemma PutBase(s: State, c: ServiceId, k': Service)
    requires Base(s) && c in s.svcs && Keeps(s.svcs[c], k', s.cfg, s.issued)
    ensures Base(Put(s, c, k'))
  {
    GuardGrows(s, Put(s, c, k'));
  }

  lemma PutTruthful(s: State, c: ServiceId, k': Service)
    requires Base(s) && Safe(s) && c in s.svcs && Keeps(s.svcs[c], k', s.cfg, s.issued) && s.cfg.Some?
    ensures forall d | d in Put(s, c, k').svcs :: Truthful(Put(s, c, k').svcs[d], s.cfg.value.t, true)
  {
    var x := s.cfg.value.t;
    assert true == (s.cfg.Some? && s.cfg.value.t == x);
    assert Truthful(s.svcs[c], x, true);
    assert Truthful(k', x, true);
  }

  lemma PutClear(s: State, c: ServiceId, k': Service, x: Name)
    requires c in s.svcs && Keeps(s.svcs[c], k', s.cfg, s.issued - {x})
    ensures Clear(s, x) ==> Clear(Put(s, c, k'), x)
    ensures Untouched(s, x) ==> Untouched(Put(s, c, k'), x)
  {
  }

  lemma ServiceStepInv(s: State, a: Action)
    requires Inv(s) && Enabled(s, a) && IsServiceAction(a)
    ensures Inv(Step(s, a))
  {
    hide Inv, Step, Keeps, Enabled;
    InvServices(s);
    hide Base, ServiceOk;
    forall names: set<Name>
      ensures a.c in s.svcs && a.c in Step(s, a).svcs && Keeps(s.svcs[a.c], Step(s, a).svcs[a.c], s.cfg, names)
    {
      ServiceStepKeeps(s, a, names);
    }
    ServiceStepPuts(s, a);
    PutInv(s, a.c, Step(s, a).svcs[a.c]);
  }

  lemma InvServices(s: State)
    requires Inv(s)
    ensures forall c | c in s.svcs :: ServiceOk(s.svcs[c])
  {
  }

  lemma PutInv(s: State, c: ServiceId, k': Service)
    requires Inv(s) && c in s.svcs && forall names: set<Name> :: Keeps(s.svcs[c], k', s.cfg, names)
    ensures Inv(Put(s, c, k'))
  {
    PutBase(s, c, k');
    if !s.cr.deleting {
      hide Keeps, Truthful, Clear, Untouched;
      if s.cfg.Some? { PutTruthful(s, c, k'); }
      PutClear(s, c, k', s.url);
      if s.parent.Running? { PutClear(s, c, k', s.parent.cur); }
    }
  }

  // ---------------------------------------------------------------- steps of the environment

  lemma RotateBase(s: State, x: Name)
    requires Base(s) && Enabled(s, RotateTransport(x))
    ensures Base(Step(s, RotateTransport(x)))
  {
    var s' := Step(s, RotateTransport(x));
    assert NamesOk(s') && ParentOk(s');
    GuardGrows(s, s');
    forall c | c in s.svcs ensures Within(s.svcs[c], s'.issued) { WithinGrows(s.svcs[c], s.issued, s'.issued); }
  }

  lemma WithinGrows(k: Service, names: set<Name>, names': set<Name>)
    requires Within(k, names) && names <= names'
    ensures Within(k, names')
  {
  }

  /** A service that does not mention x is truthful about it. */
  lemma UnmentionedTruthful(k: Service, names: set<Name>, x: Name, on: bool)
    requires Within(k, names) && x !in names
    ensures Truthful(k, x, on)
  {
  }

  lemma RotateSafe(s: State, x: Name)
    requires Base(s) && Safe(s) && Enabled(s, RotateTransport(x))
    ensures Safe(Step(s, RotateTransport(x)))
  {
    var s' := Step(s, RotateTransport(x));
    assert s'.issued - {x} == s.issued;
    if s.parent.Running? && Untouched(s, s.parent.cur) { IssuedUntouched(s, s', s.parent.cur); }
  }

  lemma IssuedUntouched(s: State, s': State, x: Name)
    requires Untouched(s, x) && s'.svcs == s.svcs && s'.cfg == s.cfg && s.issued <= s'.issued
    ensures Untouched(s', x)
  {
    forall c | c in s.svcs ensures Within(s.svcs[c], s'.issued - {x}) {
      WithinGrows(s.svcs[c], s.issued - {x}, s'.issued - {x});
    }
  }

  lemma RotateInv(s: State, x: Name)
    requires Inv(s) && Enabled(s, RotateTransport(x))
    ensures Inv(Step(s, RotateTransport(x)))
  {
    RotateBase(s, x);
    if !s.cr.deleting { RotateSafe(s, x); }
  }

  /** Steps that leave the services, the configuration, the messaging names and the transport
      finalizers alone. */
  ghost predicate Quiet(s: State, s': State) {
    && (NamesOk(s) && ParentOk(s) ==> NamesOk(s') && ParentOk(s'))
    && s'.svcs == s.svcs && s'.cfg == s.cfg && s'.url == s.url && s'.issued == s.issued && s.issuedN <= s'.issuedN
    && s'.cr.tracked == s.cr.tracked && (s.cr.deleting ==> s'.cr.deleting)
    && (forall x :: Holds(s.secrets, x, TransportConsumer) <==> Holds(s'.secrets, x, TransportConsumer))
    && (s'.parent == s.parent || s'.parent.Idle?)
  }

  lemma QuietInv(s: State, s': State)
    requires Inv(s) && Quiet(s, s')
    ensures Inv(s')
  {
    GuardGrows(s, s');
  }

  lemma EnvironmentQuiet(s: State, a: Action)
    requires Enabled(s, a)
    requires a.IssueNotif? || a.EditServices? || a.ToggleNotif? || a.RequestAC? || a.BumpInputs?
             || a.CreateSecret? || a.DeleteSecret? || a.DeleteManila? || a.Adopt? || a.Crash?
    ensures Quiet(s, Step(s, a))
  {
  }

  lemma EnvironmentInv(s: State, a: Action)
    requires Inv(s) && Enabled(s, a)
    requires a.IssueNotif? || a.EditServices? || a.ToggleNotif? || a.RequestAC? || a.BumpInputs?
             || a.CreateSecret? || a.DeleteSecret? || a.DeleteManila? || a.Adopt? || a.Crash?
    ensures Inv(Step(s, a))
  {
    EnvironmentQuiet(s, a);
    QuietInv(s, Step(s, a));
  }

  // ---------------------------------------------------------------- steps of the parent

  /** Ending a reconcile, whatever it has put into the status. */
  ghost predicate Leaves(s: State, s': State) {
    && s.parent.Running? && s'.parent.Idle?
    && (NamesOk(s) && ParentOk(s) ==> NamesOk(s') && ParentOk(s'))
    && s'.svcs == s.svcs && s'.cfg == s.cfg && s'.url == s.url && s'.issued == s.issued
    && s'.secrets == s.secrets && s'.cr.services == s.cr.services && s'.cr.deleting == s.cr.deleting
    && (s'.cr.tracked == s.parent.inst.tracked || s'.cr.tracked == s.cr.tracked)
  }

  lemma LeaveInv(s: State, s': State)
    requires Inv(s) && Leaves(s, s')
    ensures Inv(s')
  {
    GuardEarly(s');
  }

  /** Moves within a reconcile that keep cur, the tracked name and every messaging pin. */
  ghost predicate Moves(s: State, s': State) {
    && s.parent.Running? && s'.parent.Running? && PastRead(s.parent.pc) && PastRead(s'.parent.pc)
    && NamesOk(s') && ParentOk(s')
    && s'.svcs == s.svcs && s'.cfg == s.cfg && s'.url == s.url && s'.issued == s.issued && s'.cr == s.cr
    && s'.issuedN == s.issuedN
    && (forall x | x in s.issued && Holds(s.secrets, x, TransportConsumer) :: Holds(s'.secrets, x, TransportConsumer))
    && (forall x | Holds(s'.secrets, x, TransportConsumer) ::
          Holds(s.secrets, x, TransportConsumer) || x == s.parent.cur || x in s.issuedN)
    && s'.parent.cur == s.parent.cur && s'.parent.inst.tracked == s.parent.inst.tracked
    && s'.parent.inst.services == s.parent.inst.services
    && (!PastPinAC(s'.parent.pc) || s'.parent.pc == Deploy(s.parent.inst.services.Keys) ||
        (PastPinAC(s.parent.pc) && s'.parent.curN == s.parent.curN && s'.parent.ready == s.parent.ready &&
         (s.parent.pc.Deploy? ==> s.parent.pc.todo == {}) && !s'.parent.pc.Deploy?))
  }

  lemma MoveGuard(s: State, s': State)
    requires GuardOk(s) && Moves(s, s')
    ensures GuardOk(s')
  {
    if !PastPinAC(s'.parent.pc) { GuardEarly(s'); }
    else if s'.parent.pc != Deploy(s.parent.inst.services.Keys) { GuardGrows(s, s'); }
  }

  lemma MoveInv(s: State, s': State)
    requires Inv(s) && Moves(s, s')
    ensures Inv(s')
  {
    MoveGuard(s, s');
  }

  lemma GuardEarly(s: State)
    requires s.parent.Running? ==> !PastPinAC(s.parent.pc)
    ensures GuardOk(s)
  {
  }

  lemma LeaveLeaves(s: State)
    requires s.parent.Running?
    ensures Leaves(s, Leave(s))
  {
  }

  lemma StartInv(s: State)
    requires Inv(s) && Enabled(s, Start)
    ensures Inv(Step(s, Start))
  {
  }

  lemma ReadTransportBase(s: State)
    requires Base(s) && s.parent.Running? && s.parent.pc.ReadTransport? && s.url != ""
    ensures Base(DoReadTransport(s))
  {
    GuardEarly(DoReadTransport(s));
  }

  lemma ReadTransportInv(s: State)
    requires Inv(s) && s.parent.Running? && s.parent.pc.ReadTransport?
    ensures Inv(DoReadTransport(s))
  {
    if s.url == "" {
      LeaveLeaves(s);
      LeaveInv(s, Leave(s));
    } else {
      ReadTransportBase(s);
    }
  }

  lemma PinsMove(s: State)
    requires NamesOk(s) && ParentOk(s) && AdvanceEnabled(s)
    requires s.parent.pc.PinTransport? || s.parent.pc.PinNotif? || s.parent.pc.PinAC?
    ensures Moves(s, DoAdvance(s))
  {
  }

  lemma ReadNotifMovesOn(s: State)
    requires NamesOk(s) && ParentOk(s) && s.parent.Running? && s.parent.pc.ReadNotif?
    requires DoReadNotif(s).parent.Running? && !DoReadNotif(s).parent.pc.ReadNotif?
    ensures Moves(s, DoReadNotif(s))
  {
  }

  lemma ReadNotifStays(s: State)
    requires NamesOk(s) && ParentOk(s) && s.parent.Running? && s.parent.pc.ReadNotif?
    requires DoReadNotif(s).parent.Running? && DoReadNotif(s).parent.pc.ReadNotif?
    ensures Moves(s, DoReadNotif(s))
  {
    hide Holds;
  }

  lemma ReadNotifMoves(s: State)
    requires NamesOk(s) && ParentOk(s) && s.parent.Running? && s.parent.pc.ReadNotif?
    ensures DoReadNotif(s).parent.Running? ==> Moves(s, DoReadNotif(s))
  {
    if DoReadNotif(s).parent.Running? {
      if DoReadNotif(s).parent.pc.ReadNotif? { ReadNotifStays(s); } else { ReadNotifMovesOn(s); }
    }
  }

  lemma ReadNotifLeaves(s: State)
    requires NamesOk(s) && ParentOk(s) && s.parent.Running? && s.parent.pc.ReadNotif?
    ensures DoReadNotif(s).parent.Idle? ==> Leaves(s, DoReadNotif(s))
  {
  }

  lemma ReadNotifInv(s: State)
    requires Inv(s) && s.parent.Running? && s.parent.pc.ReadNotif?
    ensures Inv(DoReadNotif(s))
  {
    var s' := DoReadNotif(s);
    ReadNotifMoves(s);
    ReadNotifLeaves(s);
    if s'.parent.Idle? { LeaveInv(s, s'); } else { MoveInv(s, s'); }
  }

  lemma RenderedTruthful(s: State)
    requires Base(s) && Safe(s) && s.parent.Running? && s.parent.pc.RenderConfig?
    ensures forall c | c in s.svcs :: Truthful(s.svcs[c], s.parent.cur, true)
  {
    if !On(s, s.parent.cur) {
      forall c | c in s.svcs ensures Truthful(s.svcs[c], s.parent.cur, true) {
        UnmentionedTruthful(s.svcs[c], s.issued - {s.parent.cur}, s.parent.cur, true);
      }
    }
  }

  lemma RenderConfigInv(s: State)
    requires Inv(s) && AdvanceEnabled(s) && s.parent.pc.RenderConfig?
    ensures Inv(DoRenderConfig(s))
  {
    GuardGrows(s, DoRenderConfig(s));
    if !s.cr.deleting { RenderedTruthful(s); }
  }

  lemma HashGateMoves(s: State)
    requires NamesOk(s) && ParentOk(s) && s.parent.Running? && s.parent.pc.HashGate?
    ensures Moves(s, DoHashGate(s)) || Leaves(s, DoHashGate(s))
  {
  }

  lemma HashGateInv(s: State)
    requires Inv(s) && s.parent.Running? && s.parent.pc.HashGate?
    ensures Inv(DoHashGate(s))
  {
    HashGateMoves(s);
    if Leaves(s, DoHashGate(s)) { LeaveInv(s, DoHashGate(s)); } else { MoveInv(s, DoHashGate(s)); }
  }

  lemma PinsInv(s: State)
    requires Inv(s) && AdvanceEnabled(s)
    requires s.parent.pc.PinTransport? || s.parent.pc.PinNotif? || s.parent.pc.PinAC?
    ensures Inv(DoAdvance(s))
  {
    PinsMove(s);
    MoveInv(s, DoAdvance(s));
  }

  /** The service before CreateOrUpdate, with an empty record if it never existed. */
  ghost predicate Grown(s: State, c: ServiceId, k': Service, spec: ServiceSpec) {
    && (c in s.svcs ==> s.svcs[c].versions <= k'.versions && k'.cfg == s.svcs[c].cfg && k'.pods == s.svcs[c].pods)
    && (c !in s.svcs ==> k'.cfg.None? && k'.pods == map[])
    && ServiceOk(k')
    && (forall names | spec.t in names && (c in s.svcs ==> Within(s.svcs[c], names)) :: Within(k', names))
    && (forall x, on | (spec.t == x ==> on) && (c in s.svcs ==> Truthful(s.svcs[c], x, on)) :: Truthful(k', x, on))
  }

  lemma NewServiceGrown(s: State, c: ServiceId, snap: Snapshot)
    requires s.parent.Running? && DeployEnabled(s, c, snap) && c !in s.svcs
    ensures Grown(s, c, DeployService(s, c, snap), Desired(s.parent.inst, c, s.parent.cur, s.parent.curN))
  {
  }

  lemma UpdatedServiceGrown(s: State, c: ServiceId)
    requires s.parent.Running? && DeployEnabled(s, c, Updated) && c in s.svcs && ServiceOk(s.svcs[c])
    ensures Grown(s, c, DeployService(s, c, Updated), Desired(s.parent.inst, c, s.parent.cur, s.parent.curN))
  {
    hide Recorded, Named;
    var k, k' := s.svcs[c], DeployService(s, c, Updated);
    assert k.versions[|k.versions| - 1] == Last(k);
    RecordsGrow(k, k'.versions);
    RecordsDependOnVersions(k.(versions := k'.versions), k');
  }

  lemma RecreatedServiceGrown(s: State, c: ServiceId)
    requires s.parent.Running? && DeployEnabled(s, c, Created) && c in s.svcs && ServiceOk(s.svcs[c])
    ensures Grown(s, c, DeployService(s, c, Created), Desired(s.parent.inst, c, s.parent.cur, s.parent.curN))
  {
    hide Recorded, Named;
  }

  lemma OldServiceGrown(s: State, c: ServiceId, snap: Snapshot)
    requires s.parent.Running? && DeployEnabled(s, c, snap) && c in s.svcs && ServiceOk(s.svcs[c])
    ensures Grown(s, c, DeployService(s, c, snap), Desired(s.parent.inst, c, s.parent.cur, s.parent.curN))
  {
    hide ServiceOk, Within, Truthful;
    match snap {
      case Cached(_) =>
      case Updated => UpdatedServiceGrown(s, c);
      case Created => RecreatedServiceGrown(s, c);
    }
  }

  lemma DeployServiceGrown(s: State, c: ServiceId, snap: Snapshot)
    requires s.parent.Running? && DeployEnabled(s, c, snap)
    requires c in s.svcs ==> ServiceOk(s.svcs[c])
    ensures Grown(s, c, DeployService(s, c, snap), Desired(s.parent.inst, c, s.parent.cur, s.parent.curN))
  {
    if c in s.svcs { OldServiceGrown(s, c, snap); } else { NewServiceGrown(s, c, snap); }
  }

  /** A reconcile that writes a service object is not ready any more. */
  lemma WriteIsNotReady(s: State, c: ServiceId, snap: Snapshot)
    requires s.parent.Running? && DeployEnabled(s, c, snap)
    requires c in s.svcs ==> ServiceOk(s.svcs[c])
    ensures !snap.Cached? ==> !DoDeploy(s, c, snap).parent.ready
    ensures snap.Cached? ==> DoDeploy(s, c, snap).svcs == s.svcs
  {
    if snap.Updated? { assert s.svcs[c].versions[|s.svcs[c].versions| - 1] == Last(s.svcs[c]); }
  }

  lemma DeployGuard(s: State, c: ServiceId, snap: Snapshot)
    requires Base(s) && s.parent.Running? && DeployEnabled(s, c, snap)
    ensures GuardOk(DoDeploy(s, c, snap))
  {
    var s' := DoDeploy(s, c, snap);
    WriteIsNotReady(s, c, snap);
    if s'.parent.ready {
      forall d | d in s'.parent.inst.services && Visited(s'.parent.pc, d) ensures Passed(s', d) {
        if d == c { assert s'.svcs[c].versions[snap.k] == DeployObject(s, c, snap); }
        else { PassedGrows(s, s', d); }
      }
    }
  }

  lemma DeployNames(s: State, c: ServiceId, snap: Snapshot)
    requires NamesOk(s) && ParentOk(s) && s.parent.Running? && DeployEnabled(s, c, snap)
    ensures NamesOk(DoDeploy(s, c, snap)) && ParentOk(DoDeploy(s, c, snap)) && s.parent.cur in s.issued
  {
  }

  lemma DeployedOk(s: State, c: ServiceId, snap: Snapshot, d: ServiceId)
    requires Base(s) && s.parent.Running? && DeployEnabled(s, c, snap)
    requires d in DoDeploy(s, c, snap).svcs && s.parent.cur in s.issued
    ensures ServiceOk(DoDeploy(s, c, snap).svcs[d]) && Within(DoDeploy(s, c, snap).svcs[d], s.issued)
  {
    DeployServiceGrown(s, c, snap);
  }

  lemma DeployBase(s: State, c: ServiceId, snap: Snapshot)
    requires Base(s) && s.parent.Running? && DeployEnabled(s, c, snap)
    ensures Base(DoDeploy(s, c, snap))
  {
    DeployNames(s, c, snap);
    DeployGuard(s, c, snap);
    var s' := DoDeploy(s, c, snap);
    forall d | d in s'.svcs ensures ServiceOk(s'.svcs[d]) && Within(s'.svcs[d], s'.issued) {
      DeployedOk(s, c, snap, d);
    }
  }

  lemma DeployTruthful(s: State, c: ServiceId, snap: Snapshot)
    requires Base(s) && Safe(s) && s.parent.Running? && DeployEnabled(s, c, snap) && s.cfg.Some?
    ensures forall d | d in DoDeploy(s, c, snap).svcs :: Truthful(DoDeploy(s, c, snap).svcs[d], s.cfg.value.t, true)
  {
    DeployServiceGrown(s, c, snap);
  }

  lemma DeployUntouched(s: State, c: ServiceId, snap: Snapshot, x: Name)
    requires Untouched(s, x) && s.parent.Running? && DeployEnabled(s, c, snap)
    requires c in s.svcs ==> ServiceOk(s.svcs[c])
    requires s.parent.cur in s.issued - {x}
    ensures Untouched(DoDeploy(s, c, snap), x)
  {
    DeployServiceGrown(s, c, snap);
  }

  lemma DeployParentSafe(s: State, c: ServiceId, snap: Snapshot)
    requires Base(s) && Safe(s) && s.parent.Running? && DeployEnabled(s, c, snap)
    ensures ParentSafe(DoDeploy(s, c, snap)) && (s.url != "" ==> Clear(DoDeploy(s, c, snap), s.url))
  {
    if s.parent.cur != s.url { DeployUntouched(s, c, snap, s.url); }
  }

  lemma DeploySafe(s: State, c: ServiceId, snap: Snapshot)
    requires Base(s) && Safe(s) && s.parent.Running? && DeployEnabled(s, c, snap)
    ensures Safe(DoDeploy(s, c, snap))
  {
    DeployTruthful(s, c, snap);
    DeployParentSafe(s, c, snap);
  }

  lemma MarkedKeeps(k: Service, cfg: Option<Config>, names: set<Name>)
    requires ServiceOk(k)
    ensures Keeps(k, k.(versions := k.versions + [Last(k).(deleting := true)]), cfg, names)
  {
    hide Recorded, Named;
    var k' := k.(versions := k.versions + [Last(k).(deleting := true)]);
    assert k.versions[|k.versions| - 1] == Last(k);
    RecordsGrow(k, k'.versions);
  }

  lemma CleanupInv(s: State, c: ServiceId)
    requires Inv(s) && CleanupEnabled(s, c)
    ensures Inv(DoCleanup(s, c))
  {
    forall names: set<Name> ensures Keeps(s.svcs[c], DoCleanup(s, c).svcs[c], s.cfg, names) {
      MarkedKeeps(s.svcs[c], s.cfg, names);
    }
    PutInv(s, c, DoCleanup(s, c).svcs[c]);
  }

  /** When the guard holds at the end of a normal reconcile, no service that the reconcile has
      deployed uses any name but the one that the reconcile pushes. */
  lemma GuardMeansRolled(s: State, c: ServiceId)
    requires Base(s) && Safe(s) && s.parent.Running? && s.parent.ready
    requires PastPinAC(s.parent.pc) && !s.parent.pc.Deploy?
    requires c in s.parent.inst.services
    ensures c in s.svcs && AllOn(s.svcs[c], s.parent.cur)
  {
    assert Visited(s.parent.pc, c) && Passed(s, c);
    assert Truthful(s.svcs[c], s.parent.cur, true);
  }

  lemma FinishTransportBase(s: State)
    requires Base(s) && s.parent.Running? && s.parent.pc.FinishTransport?
    ensures Base(DoFinishTransport(s))
  {
    var s' := DoFinishTransport(s);
    GuardGrows(s, s');
  }

  lemma FinishTransportSafe(s: State)
    requires Base(s) && Safe(s) && s.parent.Running? && s.parent.pc.FinishTransport?
    ensures Safe(DoFinishTransport(s))
  {
  }

  lemma FinishNotifMoves(s: State)
    requires NamesOk(s) && ParentOk(s) && s.parent.Running? && s.parent.pc.FinishNotif?
    ensures Moves(s, DoFinishNotif(s))
  {
  }

  predicate Settles(pc: ParentPc) {
    pc.DropNotifUrl? || pc.FinishAC? || pc.Deploy? || pc.Cleanup? || pc.PruneTransport? || pc.PruneAC?
  }

  lemma SettlingStatusMoves(s: State)
    requires NamesOk(s) && ParentOk(s) && AdvanceEnabled(s) && (s.parent.pc.DropNotifUrl? || s.parent.pc.FinishAC?)
    ensures Moves(s, DoAdvance(s))
  {
  }

  lemma PassingMoves(s: State)
    requires NamesOk(s) && ParentOk(s) && AdvanceEnabled(s) && Settles(s.parent.pc)
    requires !s.parent.pc.DropNotifUrl? && !s.parent.pc.FinishAC?
    ensures Moves(s, DoAdvance(s))
  {
    hide Holds;
  }

  lemma SettlingMoves(s: State)
    requires NamesOk(s) && ParentOk(s) && AdvanceEnabled(s) && Settles(s.parent.pc)
    ensures Moves(s, DoAdvance(s))
  {
    if s.parent.pc.DropNotifUrl? || s.parent.pc.FinishAC? { SettlingStatusMoves(s); } else { PassingMoves(s); }
  }

  lemma TailInv(s: State)
    requires Inv(s) && AdvanceEnabled(s) && (s.parent.pc.FinishNotif? || Settles(s.parent.pc))
    ensures Inv(DoAdvance(s))
  {
    if s.parent.pc.FinishNotif? { FinishNotifMoves(s); } else { SettlingMoves(s); }
    MoveInv(s, DoAdvance(s));
  }

  lemma PruneBase(s: State, x: Name)
    requires Base(s) && PruneEnabled(s, x)
    ensures Base(DoPrune(s, x))
  {
    var s' := DoPrune(s, x);
    assert ParentOk(s');
    GuardGrows(s, s');
  }

  lemma PruneSafe(s: State, x: Name)
    requires Base(s) && Safe(s) && PruneEnabled(s, x) && Normal(s.parent.pc)
    ensures Safe(DoPrune(s, x))
  {
  }

  lemma DeletionFrame(s: State)
    requires AdvanceEnabled(s) && !Normal(s.parent.pc) && s.cr.deleting
    ensures DoAdvance(s).svcs == s.svcs && DoAdvance(s).cfg == s.cfg && DoAdvance(s).issued == s.issued
    ensures DoAdvance(s).cr.deleting
    ensures DoAdvance(s).parent.Running? ==> !Normal(DoAdvance(s).parent.pc)
  {
  }

  lemma DelListNames(s: State)
    requires NamesOk(s) && ParentOk(s) && s.parent.Running? && s.parent.pc.DelList?
    ensures NamesOk(DoDelList(s)) && ParentOk(DoDelList(s))
  {
  }

  lemma DelRestNames(s: State)
    requires NamesOk(s) && ParentOk(s) && AdvanceEnabled(s) && !Normal(s.parent.pc) && !s.parent.pc.DelList?
    ensures NamesOk(DoAdvance(s)) && ParentOk(DoAdvance(s))
  {
  }

  lemma DeletionNames(s: State)
    requires NamesOk(s) && ParentOk(s) && AdvanceEnabled(s) && !Normal(s.parent.pc)
    ensures NamesOk(DoAdvance(s)) && ParentOk(DoAdvance(s))
  {
    if s.parent.pc.DelList? { DelListNames(s); } else { DelRestNames(s); }
  }

  lemma DeletionInv(s: State)
    requires Inv(s) && AdvanceEnabled(s) && !Normal(s.parent.pc)
    ensures Inv(DoAdvance(s))
  {
    DeletionFrame(s);
    DeletionNames(s);
    GuardEarly(DoAdvance(s));
  }

  lemma FinishTransportInv(s: State)
    requires Inv(s) && s.parent.Running? && s.parent.pc.FinishTransport?
    ensures Inv(DoFinishTransport(s))
  {
    FinishTransportBase(s);
    if !s.cr.deleting { FinishTransportSafe(s); }
  }

  lemma AdvanceInv(s: State)
    requires Inv(s) && AdvanceEnabled(s)
    ensures Inv(DoAdvance(s))
  {
    var pc := s.parent.pc;
    if !Normal(pc) { DeletionInv(s); }
    else if pc.PinTransport? || pc.PinNotif? || pc.PinAC? { PinsInv(s); }
    else if pc.FinishNotif? || Settles(pc) { TailInv(s); }
    else if pc.ReadTransport? { ReadTransportInv(s); }
    else if pc.ReadNotif? { ReadNotifInv(s); }
    else if pc.RenderConfig? { RenderConfigInv(s); }
    else if pc.HashGate? { HashGateInv(s); }
    else { FinishTransportInv(s); }
  }

  // ---------------------------------------------------------------- all runs

  lemma DeployInv(s: State, c: ServiceId, snap: Snapshot)
    requires Inv(s) && s.parent.Running? && DeployEnabled(s, c, snap)
    ensures Inv(DoDeploy(s, c, snap))
  {
    DeployBase(s, c, snap);
    if !s.cr.deleting { DeploySafe(s, c, snap); }
  }

  lemma PruneInv(s: State, x: Name)
    requires Inv(s) && PruneEnabled(s, x)
    ensures Inv(DoPrune(s, x))
  {
    PruneBase(s, x);
    if !s.cr.deleting { PruneSafe(s, x); }
  }

  lemma StepInv(s: State, a: Action)
    requires Inv(s) && Enabled(s, a)
    ensures Inv(Step(s, a))
  {
    if IsServiceAction(a) { ServiceStepInv(s, a); }
    else if a.RotateTransport? { RotateInv(s, a.x); }
    else if a.Start? { StartInv(s); }
    else if a.Advance? { AdvanceInv(s); }
    else if a.DeployOne? { DeployInv(s, a.c, a.snap); }
    else if a.CleanupOne? { CleanupInv(s, a.c); }
    else if a.PruneOne? { PruneInv(s, a.x); }
    else if a.Exit? { LeaveLeaves(s); LeaveInv(s, Leave(s)); }
    else { EnvironmentInv(s, a); }
  }

  lemma InitInv(s: State)
    requires Init(s)
    ensures Inv(s)
  {
  }

  lemma {:induction false} RunInv(ss: seq<State>, acts: seq<Action>, i: nat)
    requires IsRun(ss, acts) && i < |ss|
    ensures Inv(ss[i])
  {
    if i == 0 {
      InitInv(ss[0]);
    } else {
      RunInv(ss, acts, i - 1);
      RunStep(ss, acts, i - 1);
      StepInv(ss[i - 1], acts[i - 1]);
    }
  }

  lemma RunStep(ss: seq<State>, acts: seq<Action>, i: nat)
    requires IsRun(ss, acts) && i < |acts|
    ensures Enabled(ss[i], acts[i]) && ss[i + 1] == Step(ss[i], acts[i])
  {
    assert Stepped(ss, acts, i);
  }
}
