/** The actors of a fair schedule (the parent, each service's controller, each StatefulSet's
    pods), what each does when it runs undisturbed, and that this is a path of the step
    system that never takes a service further from having applied its spec. */
module RotationActors {
  import opened Options
  import opened RotationState
  import opened RotationSteps
  import opened RotationSafety
  import opened RotationEffects

  // ---------------------------------------------------------------- a whole service reconcile

  predicate Readable(v: ServiceCR, cfg: Option<Config>, secrets: map<Name, set<Finalizer>>) {
    cfg.Some? && v.spec.t in secrets && (v.spec.n == "" || v.spec.n in secrets)
  }

  /** The input hash of a service whose configuration is rendered from cfg. */
  function InputOf(v: ServiceCR, cfg: Config): Input {
    Input(v.spec.t, v.spec.n, cfg, cfg)
  }

  function Replicas(k: Service): nat
    requires k.versions != []
  {
    Last(k).spec.tmpl.replicas
  }

  /** The wanted number of pods, all on the StatefulSet's template. */
  predicate Rolled(k: Service)
    requires k.versions != []
  {
    k.sts.Some? && |k.pods| == Replicas(k) && forall i | i in k.pods :: k.pods[i].tmpl == k.sts.value
  }

  /** An uninterrupted service reconcile: ReadyCount is the number of pods. */
  function ServiceEffect(k: Service, cfg: Option<Config>, secrets: map<Name, set<Finalizer>>): Service
    requires k.versions != []
  {
    var v := Last(k);
    var inst := v.(obs := v.gen);
    if !Readable(v, cfg, secrets) then Exited(k, v, inst)
    else
      var input := InputOf(v, cfg.value);
      if v.hash != Some(input) then Exited(k.(cfg := cfg), v, inst.(hash := Some(input)))
      else
        var k' := k.(cfg := cfg, sts := Some(input));
        Exited(k', v, inst.(ready := |k.pods|,
                         applied := if Rolled(k') then Some(Pair(v.spec.t, v.spec.n)) else v.applied))
  }

  /** What a service's controller does with its object: an object being deleted goes. */
  function ServiceTurn(k: Service, cfg: Option<Config>, secrets: map<Name, set<Finalizer>>): Service
    requires k.versions != []
  {
    if Last(k).deleting then Gone(k) else ServiceEffect(k, cfg, secrets)
  }

  /** The StatefulSet brings its pods to the template and the replica count. */
  function PodsEffect(k: Service): Service
    requires k.versions != []
  {
    if k.sts.None? || k.cfg.None? || Rolled(k) then k else k.(pods := FreshPods(k, Replicas(k)))
  }

  function FreshPods(k: Service, n: nat): (pods: map<nat, Pod>)
    requires k.sts.Some? && k.cfg.Some?
    ensures |pods| == n
    ensures forall i :: i in pods ==> i < n && pods[i] == Pod(k.sts.value, k.cfg.value)
  {
    if n == 0 then map[] else FreshPods(k, n - 1)[n - 1 := Pod(k.sts.value, k.cfg.value)]
  }

  // ---------------------------------------------------------------- actors

  datatype Actor = TheParent | TheService(c: ServiceId) | ThePods(c: ServiceId)

  /** Quiet apart from whole effects: the parent's inputs are there and no reconcile of a
      service in the spec is in flight. */
  ghost predicate Steady(s: State) {
    && Inv(s) && CanReconcile(s)
    && forall c | c in s.cr.services && c in s.svcs && s.svcs[c].live :: s.svcs[c].run.Resting?
  }

  predicate Present(s: State, c: ServiceId) { c in s.cr.services && c in s.svcs && s.svcs[c].live }

  ghost function Effect(s: State, actor: Actor): State
    requires Steady(s)
  {
    match actor
    case TheParent => ParentEffect(s)
    case TheService(c) => if Present(s, c) then Put(s, c, ServiceTurn(s.svcs[c], s.cfg, s.secrets)) else s
    case ThePods(c) => if Present(s, c) then Put(s, c, PodsEffect(s.svcs[c])) else s
  }

  predicate Ready(s: State, c: ServiceId) {
    c in s.svcs && s.svcs[c].born < |s.svcs[c].versions| && s.svcs[c].live && s.svcs[c].run.Resting? &&
    !Last(s.svcs[c]).deleting
  }

  /** The service after its Render step. */
  function Gating(k: Service, cfg: Config): Service
    requires k.versions != []
  {
    k.(cfg := Some(cfg), run := Reconciling(Gate(cfg, cfg), Last(k).(obs := Last(k).gen), Last(k)))
  }

  /** One step of service c, seen as replacing its record. */
  lemma LeadsPut(s: State, c: ServiceId, k: Service, a: Action, k': Service)
    requires Leads(s, Put(s, c, k)) && Enabled(Put(s, c, k), a)
    requires Step(Put(s, c, k), a) == Put(Put(s, c, k), c, k')
    ensures Leads(s, Put(s, c, k'))
  {
    LeadsStep(s, Put(s, c, k), a);
    assert Put(Put(s, c, k), c, k') == Put(s, c, k');
  }

  /** A start from the current revision. */
  function Begun(k: Service): Service
    requires k.versions != []
  {
    Started(k, |k.versions| - 1)
  }

  lemma LeadsStarted(s: State, c: ServiceId)
    requires Ready(s, c)
    ensures Leads(s, Put(s, c, Begun(s.svcs[c])))
  {
    LeadsRefl(s);
    LeadsStep(s, s, ServiceStart(c, |s.svcs[c].versions| - 1));
  }

  lemma LeadsAdvanced(s: State, c: ServiceId, k: Service)
    requires Leads(s, Put(s, c, k)) && AdvanceServiceEnabled(k, s.cfg, s.secrets)
    ensures Leads(s, Put(s, c, Advanced(k, s.cfg, s.secrets)))
  {
    LeadsPut(s, c, k, ServiceAdvance(c), Advanced(k, s.cfg, s.secrets));
  }

  lemma LeadsChecked(s: State, c: ServiceId, k: Service, ready: nat, rolled: bool)
    requires Leads(s, Put(s, c, k)) && k.versions != [] && k.run.Reconciling? && k.run.pc.Check?
    requires rolled ==> RolledTo(k, k.run.pc.input)
    ensures Leads(s, Put(s, c, Checked(k, ready, rolled)))
  {
    LeadsPut(s, c, k, ServiceCheck(c, ready, rolled), Checked(k, ready, rolled));
  }

  lemma LeadsExited(s: State, c: ServiceId, k: Service)
    requires Leads(s, Put(s, c, k)) && k.versions != [] && k.run.Reconciling?
    ensures Leads(s, Put(s, c, Exited(k, k.run.base, k.run.inst))) && Leads(s, Put(s, c, Crashed(k)))
  {
    LeadsPut(s, c, k, ServiceExit(c), Exited(k, k.run.base, k.run.inst));
    LeadsPut(s, c, k, ServiceCrash(c), Crashed(k));
  }

  lemma GatingLeads(s: State, c: ServiceId)
    requires Ready(s, c) && Readable(Last(s.svcs[c]), s.cfg, s.secrets)
    ensures Leads(s, Put(s, c, Gating(s.svcs[c], s.cfg.value)))
  {
    var k1 := Begun(s.svcs[c]);
    LeadsStarted(s, c);
    LeadsAdvanced(s, c, k1);
    var k2 := Advanced(k1, s.cfg, s.secrets);
    LeadsAdvanced(s, c, k2);
    assert Advanced(k2, s.cfg, s.secrets) == Gating(s.svcs[c], s.cfg.value);
  }

  lemma UnreadableLeads(s: State, c: ServiceId)
    requires Ready(s, c) && !Readable(Last(s.svcs[c]), s.cfg, s.secrets)
    ensures Leads(s, Put(s, c, ServiceEffect(s.svcs[c], s.cfg, s.secrets)))
  {
    var k1 := Begun(s.svcs[c]);
    LeadsStarted(s, c);
    LeadsExited(s, c, k1);
    assert Exited(k1, k1.run.base, k1.run.inst) == ServiceEffect(s.svcs[c], s.cfg, s.secrets);
  }

  /** The service after its Patch step. */
  function Checking(k: Service, cfg: Config): Service
    requires k.versions != []
  {
    var input := InputOf(Last(k), cfg);
    k.(cfg := Some(cfg), sts := Some(input),
       run := Reconciling(Check(input), Last(k).(obs := Last(k).gen), Last(k)))
  }

  lemma CheckingLeads(s: State, c: ServiceId)
    requires Ready(s, c) && Readable(Last(s.svcs[c]), s.cfg, s.secrets)
    requires Last(s.svcs[c]).hash == Some(InputOf(Last(s.svcs[c]), s.cfg.value))
    ensures Leads(s, Put(s, c, Checking(s.svcs[c], s.cfg.value)))
  {
    GatingLeads(s, c);
    var k3 := Gating(s.svcs[c], s.cfg.value);
    LeadsAdvanced(s, c, k3);
    var k4 := Advanced(k3, s.cfg, s.secrets);
    LeadsAdvanced(s, c, k4);
    assert Advanced(k4, s.cfg, s.secrets) == Checking(s.svcs[c], s.cfg.value);
  }

  lemma CheckedLeads(s: State, c: ServiceId)
    requires Ready(s, c) && Readable(Last(s.svcs[c]), s.cfg, s.secrets)
    requires Last(s.svcs[c]).hash == Some(InputOf(Last(s.svcs[c]), s.cfg.value))
    ensures Leads(s, Put(s, c, ServiceEffect(s.svcs[c], s.cfg, s.secrets)))
  {
    hide Leads;
    var k := s.svcs[c];
    CheckingLeads(s, c);
    var k5 := Checking(k, s.cfg.value);
    var rolled := Rolled(k.(cfg := s.cfg, sts := k5.sts));
    LeadsChecked(s, c, k5, |k.pods|, rolled);
    var k6 := Checked(k5, |k.pods|, rolled);
    LeadsExited(s, c, k6);
    assert Exited(k6, k6.run.base, k6.run.inst) == ServiceEffect(k, s.cfg, s.secrets);
  }

  lemma GatedLeads(s: State, c: ServiceId)
    requires Ready(s, c) && Readable(Last(s.svcs[c]), s.cfg, s.secrets)
    requires Last(s.svcs[c]).hash != Some(InputOf(Last(s.svcs[c]), s.cfg.value))
    ensures Leads(s, Put(s, c, ServiceEffect(s.svcs[c], s.cfg, s.secrets)))
  {
    GatingLeads(s, c);
    var k3 := Gating(s.svcs[c], s.cfg.value);
    LeadsAdvanced(s, c, k3);
    assert Advanced(k3, s.cfg, s.secrets) == ServiceEffect(s.svcs[c], s.cfg, s.secrets);
  }

  lemma ServiceEffectLeads(s: State, c: ServiceId)
    requires Ready(s, c)
    ensures Leads(s, Put(s, c, ServiceEffect(s.svcs[c], s.cfg, s.secrets)))
  {
    var v := Last(s.svcs[c]);
    if !Readable(v, s.cfg, s.secrets) { UnreadableLeads(s, c); }
    else if v.hash == Some(InputOf(v, s.cfg.value)) { CheckedLeads(s, c); }
    else { GatedLeads(s, c); }
  }

  lemma ServiceTurnLeads(s: State, c: ServiceId)
    requires c in s.svcs && s.svcs[c].born < |s.svcs[c].versions| && s.svcs[c].live && s.svcs[c].run.Resting?
    ensures Leads(s, Put(s, c, ServiceTurn(s.svcs[c], s.cfg, s.secrets)))
  {
    if Last(s.svcs[c]).deleting {
      LeadsRefl(s);
      LeadsStep(s, s, ServiceGone(c));
    } else {
      ServiceEffectLeads(s, c);
    }
  }

  lemma LeadsStopped(s: State, c: ServiceId, k: Service, i: nat)
    requires Leads(s, Put(s, c, k)) && i in k.pods
    ensures Leads(s, Put(s, c, PodStopped(k, i)))
  {
    LeadsPut(s, c, k, PodStop(c, i), PodStopped(k, i));
  }

  lemma LeadsPodStarted(s: State, c: ServiceId, k: Service, i: nat)
    requires Leads(s, Put(s, c, k)) && k.sts.Some? && k.cfg.Some?
    ensures Leads(s, Put(s, c, PodStarted(k, i)))
  {
    LeadsPut(s, c, k, PodStart(c, i), PodStarted(k, i));
  }

  /** From any pods that a state on the way to s has, down to none. */
  lemma {:induction false} StopPodsLeads(s: State, c: ServiceId, k: Service)
    requires Leads(s, Put(s, c, k))
    ensures Leads(s, Put(s, c, k.(pods := map[])))
    decreases |k.pods|
  {
    hide Leads;
    if k.pods == map[] {
      assert k.(pods := map[]) == k;
    } else {
      var i :| i in k.pods;
      LeadsStopped(s, c, k, i);
      assert k.pods.Keys == (k.pods - {i}).Keys + {i};
      StopPodsLeads(s, c, PodStopped(k, i));
    }
  }

  lemma {:induction false} StartPodsLeads(s: State, c: ServiceId, k: Service, n: nat)
    requires k.sts.Some? && k.cfg.Some? && Leads(s, Put(s, c, k.(pods := map[])))
    ensures Leads(s, Put(s, c, k.(pods := FreshPods(k, n))))
  {
    if n > 0 {
      StartPodsLeads(s, c, k, n - 1);
      LeadsPodStarted(s, c, k.(pods := FreshPods(k, n - 1)), n - 1);
    }
  }

  lemma PodsEffectLeads(s: State, c: ServiceId)
    requires c in s.svcs && s.svcs[c].versions != []
    ensures Leads(s, Put(s, c, PodsEffect(s.svcs[c])))
  {
    var k := s.svcs[c];
    LeadsRefl(s);
    assert Put(s, c, k) == s;
    if PodsEffect(k) != k {
      StopPodsLeads(s, c, k);
      StartPodsLeads(s, c, k, Replicas(k));
    }
  }

  /** Every effect is a path of the step system, so it keeps the invariant. */
  lemma EffectLeads(s: State, actor: Actor)
    requires Steady(s)
    ensures Leads(s, Effect(s, actor)) && Inv(Effect(s, actor))
  {
    LeadsRefl(s);
    match actor {
      case TheParent => ParentEffectLeads(s);
      case TheService(c) => if Present(s, c) { assert ServiceOk(s.svcs[c]); ServiceTurnLeads(s, c); }
      case ThePods(c) => if Present(s, c) { PodsEffectLeads(s, c); }
    }
    LeadsInv(s, Effect(s, actor));
  }

  // ---------------------------------------------------------------- the measure

  function Not(b: bool): nat { if b then 0 else 1 }

  const TOP: nat := 11

  /** How far a service is from having applied its spec and configuration cfg. */
  function Rank(k: Service, cfg: Option<Config>): (r: nat)
    requires k.versions != []
    ensures r <= TOP
  {
    var v := Last(k);
    if cfg.None? then TOP - 3 + Not(v.obs == v.gen) + 2 * Not(Rolled(k))
    else
      var input := InputOf(v, cfg.value);
      Not(k.cfg == cfg) + Not(v.obs == v.gen) + Not(v.hash == Some(input)) + 4 * Not(k.sts == Some(input)) +
      2 * Not(Rolled(k)) + Not(v.ready == |k.pods|) + Not(v.applied == Some(Pair(v.spec.t, v.spec.n)))
  }

  /** k' is k, or nearer to having applied its spec. */
  ghost predicate Nearer(k: Service, k': Service, cfg: Option<Config>) {
    && k.versions != [] && k'.versions != [] && (k' == k || Rank(k', cfg) < Rank(k, cfg))
    && Last(k').spec == Last(k).spec && Last(k').deleting == Last(k).deleting
    && k'.live == k.live && k'.run.Resting?
  }

  lemma UnreadableNearer(k: Service, cfg: Option<Config>)
    requires k.versions != [] && k.run.Resting?
    ensures Nearer(k, Exited(k, Last(k), Last(k).(obs := Last(k).gen)), cfg)
  {
  }

  lemma GatedNearer(k: Service, cfg: Config)
    requires k.versions != [] && k.run.Resting? && Last(k).hash != Some(InputOf(Last(k), cfg))
    ensures Nearer(k, Exited(k.(cfg := Some(cfg)), Last(k),
                             Last(k).(obs := Last(k).gen, hash := Some(InputOf(Last(k), cfg)))), Some(cfg))
  {
  }

  /** A service reconcile changes nothing or brings the service nearer. */
  lemma ServiceEffectDescends(k: Service, cfg: Option<Config>, secrets: map<Name, set<Finalizer>>)
    requires k.versions != [] && k.run.Resting?
    ensures Nearer(k, ServiceEffect(k, cfg, secrets), cfg)
  {
    if !Readable(Last(k), cfg, secrets) {
      UnreadableNearer(k, cfg);
    } else if Last(k).hash != Some(InputOf(Last(k), cfg.value)) {
      GatedNearer(k, cfg.value);
    }
  }

  lemma PodsEffectDescends(k: Service, cfg: Option<Config>)
    requires k.versions != [] && k.run.Resting?
    ensures Nearer(k, PodsEffect(k), cfg)
  {
  }

  /** A service that neither its controller nor its pods will change has applied its spec. */
  lemma SettledService(k: Service, cfg: Option<Config>, secrets: map<Name, set<Finalizer>>)
    requires k.versions != [] && k.run.Resting? && Readable(Last(k), cfg, secrets)
    requires ServiceEffect(k, cfg, secrets) == k && PodsEffect(k) == k
    ensures Rank(k, cfg) == 0
    ensures Matches(Last(k), Last(k).spec.t, Last(k).spec.n) && Rolled(k) && k.cfg == cfg
    ensures k.sts == Some(InputOf(Last(k), cfg.value))
  {
  }

  lemma ZeroRankSettled(k: Service, cfg: Option<Config>, secrets: map<Name, set<Finalizer>>)
    requires k.versions != [] && k.run.Resting? && Readable(Last(k), cfg, secrets) && Rank(k, cfg) == 0
    ensures ServiceEffect(k, cfg, secrets) == k && PodsEffect(k) == k
    ensures Matches(Last(k), Last(k).spec.t, Last(k).spec.n)
  {
  }

  // ---------------------------------------------------------------- the parent's effect

  /** The inputs of a run are the same in both states. */
  ghost predicate SameInputs(s: State, s': State) {
    && s'.url == s.url && NotifName(s') == NotifName(s) && s'.extra == s.extra
    && s'.cr.services == s.cr.services && s'.cr.notifOn == s.cr.notifOn && s'.cr.ac == s.cr.ac
  }

  lemma PreparedFrame(s: State)
    requires CanReconcile(s)
    ensures SameInputs(s, Prepared(s)) && Prepared(s).svcs == s.svcs && Prepared(s).cfg == Some(WantedConfig(s))
    ensures Prepared(s).secrets.Keys == s.secrets.Keys && Prepared(s).notifUrl == s.notifUrl
    ensures Prepared(s).parent.Idle? ==> CanReconcile(Prepared(s)) && Prepared(s).cr.hash == Some(WantedConfig(s))
    ensures Prepared(s).parent.Running? ==> s.cr.hash == Some(WantedConfig(s)) && Prepared(s).cr == s.cr
  {
  }

  /** What RolledOut does to a service in the spec. */
  ghost function DeployedService(p: State, c: ServiceId): Service
    requires p.parent.Running? && c in p.parent.inst.services
    requires c in p.svcs ==> p.svcs[c].versions != []
  {
    var d := DoPinAC(p);
    DeployService(d, c, Fresh(d, c))
  }

  lemma RolledOutShape(p: State)
    requires p.parent.Running? && p.parent.pc.PinAC? && forall c | c in p.svcs :: p.svcs[c].versions != []
    ensures RolledOut(p) == p.(secrets := DoPinAC(p).secrets, svcs := RolledOut(p).svcs,
              parent := p.parent.(pc := FinishTransport, ready := RolledOut(p).parent.ready))
    ensures RolledOut(p).svcs.Keys == p.svcs.Keys + p.parent.inst.services.Keys
  {
  }

  lemma RolledOutAt(p: State, c: ServiceId)
    requires p.parent.Running? && p.parent.pc.PinAC? && forall c | c in p.svcs :: p.svcs[c].versions != []
    requires c in p.svcs || c in p.parent.inst.services
    ensures c in RolledOut(p).svcs && RolledOut(p).svcs[c].versions != []
    ensures c in p.parent.inst.services ==> RolledOut(p).svcs[c] == DeployedService(p, c)
    ensures c !in p.parent.inst.services ==>
              RolledOut(p).svcs[c] == if Stray(p, c) then Marked(p.svcs[c]) else p.svcs[c]
  {
    var d := At(DeployedTo(DoPinAC(p), p.parent.inst.services.Keys), Cleanup);
    if c in p.parent.inst.services {
      assert d.svcs[c] == DeployedService(p, c);
      assert c !in Strays(d);
    } else {
      assert d.svcs[c] == p.svcs[c];
      assert c in Strays(d) <==> Stray(p, c);
    }
  }

  lemma RolledOutFrame(p: State)
    requires p.parent.Running? && p.parent.pc.PinAC? && forall c | c in p.svcs :: p.svcs[c].versions != []
    ensures RolledOut(p) == p.(secrets := DoPinAC(p).secrets, svcs := RolledOut(p).svcs,
              parent := p.parent.(pc := FinishTransport, ready := RolledOut(p).parent.ready))
    ensures forall c | c in p.parent.inst.services ::
              c in RolledOut(p).svcs && RolledOut(p).svcs[c] == DeployedService(p, c)
    ensures forall c | c in p.svcs && c !in p.parent.inst.services ::
              c in RolledOut(p).svcs && RolledOut(p).svcs[c] == if Stray(p, c) then Marked(p.svcs[c]) else p.svcs[c]
    ensures RolledOut(p).svcs.Keys == p.svcs.Keys + p.parent.inst.services.Keys
    ensures forall c | c in RolledOut(p).svcs :: RolledOut(p).svcs[c].versions != []
  {
    RolledOutShape(p);
    forall c | c in p.svcs || c in p.parent.inst.services
      ensures c in RolledOut(p).svcs && RolledOut(p).svcs[c].versions != []
      ensures c in p.parent.inst.services ==> RolledOut(p).svcs[c] == DeployedService(p, c)
      ensures c !in p.parent.inst.services ==>
                RolledOut(p).svcs[c] == if Stray(p, c) then Marked(p.svcs[c]) else p.svcs[c]
    {
      RolledOutAt(p, c);
    }
  }

  lemma RolledOutReady(p: State)
    requires p.parent.Running? && p.parent.pc.PinAC? && forall c | c in p.svcs :: p.svcs[c].versions != []
    ensures RolledOut(p).parent.ready <==>
              forall c | c in p.parent.inst.services ::
                Matches(DeployObject(DoPinAC(p), c, Fresh(DoPinAC(p), c)), p.parent.cur, p.parent.curN)
  {
  }

  lemma EndedFrame(q: State)
    requires q.parent.Running?
    ensures Ended(q).svcs == q.svcs && Ended(q).cfg == q.cfg && Ended(q).url == q.url && Ended(q).extra == q.extra
    ensures Ended(q).secrets.Keys == q.secrets.Keys && Ended(q).parent.Idle?
    ensures Ended(q).notifUrl == q.notifUrl || (Ended(q).notifUrl.None? && q.parent.curN == "")
    ensures Ended(q).cr == Persist(q.cr, FinalInst(q.parent))
  {
  }

  lemma ParentFrame(s: State)
    requires CanReconcile(s)
    ensures SameInputs(s, ParentEffect(s)) && CanReconcile(ParentEffect(s))
    ensures ParentEffect(s).cfg == Some(WantedConfig(s)) && ParentEffect(s).cr.hash == Some(WantedConfig(s))
    ensures forall c | c in s.svcs && c !in s.cr.services ::
              c in ParentEffect(s).svcs &&
              (ParentEffect(s).svcs[c] == s.svcs[c] || ParentEffect(s).svcs[c] == Marked(s.svcs[c]))
  {
    PreparedFrame(s);
    var p := Prepared(s);
    if p.parent.Running? {
      RolledOutFrame(p);
      EndedFrame(RolledOut(p));
    }
  }

  ghost predicate Pushed(s: State, c: ServiceId) {
    Present(s, c) && s.svcs[c].versions != [] &&
    Last(s.svcs[c]).spec == ServiceSpec(s.url, NotifName(s), s.cr.services[c])
  }

  /** CreateOrUpdate leaves the desired spec, and writes nothing if it was there. */
  lemma DeployedServiceFacts(p: State, c: ServiceId)
    requires p.parent.Running? && c in p.parent.inst.services
    requires c in p.svcs ==> p.svcs[c].versions != []
    ensures var k := DeployedService(p, c);
            && k.live && k.versions != [] && Last(k).spec == Desired(p.parent.inst, c, p.parent.cur, p.parent.curN)
            && k.run == (if c in p.svcs then p.svcs[c].run else Resting)
            && (c in p.svcs && p.svcs[c].live ==> Last(k).deleting == Last(p.svcs[c]).deleting)
            && (c !in p.svcs || !p.svcs[c].live ==> !Last(k).deleting)
            && (c in p.svcs && p.svcs[c].live && Last(p.svcs[c]).spec == Last(k).spec ==> k == p.svcs[c])
  {
  }

  lemma EffectAt(s: State, c: ServiceId)
    requires CanReconcile(s) && s.cr.hash == Some(WantedConfig(s)) && c in s.cr.services
    ensures Prepared(s).parent.Running? && Prepared(s).parent.inst.services == s.cr.services
    ensures c in ParentEffect(s).svcs && ParentEffect(s).svcs[c] == DeployedService(Prepared(s), c)
  {
    PreparedFrame(s);
    RolledOutAt(Prepared(s), c);
  }

  /** A full parent pass pushes every spec, and writes none that is there already. */
  lemma ParentPushes(s: State, c: ServiceId)
    requires CanReconcile(s) && s.cr.hash == Some(WantedConfig(s)) && c in s.cr.services
    ensures Pushed(ParentEffect(s), c)
    ensures Pushed(s, c) ==> ParentEffect(s).svcs[c] == s.svcs[c]
    ensures ParentEffect(s).svcs[c].run == (if c in s.svcs then s.svcs[c].run else Resting)
    ensures Present(s, c) ==> Last(ParentEffect(s).svcs[c]).deleting == Last(s.svcs[c]).deleting
    ensures !Present(s, c) ==> !Last(ParentEffect(s).svcs[c]).deleting
  {
    EffectAt(s, c);
    ParentFrame(s);
    DeployedServiceFacts(Prepared(s), c);
  }

  /** Before the gate opens the services are left alone. */
  lemma ParentWaits(s: State)
    requires CanReconcile(s) && s.cr.hash != Some(WantedConfig(s))
    ensures ParentEffect(s).svcs == s.svcs
  {
    PreparedFrame(s);
  }
}
