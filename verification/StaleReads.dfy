/** Why three reads have to be current: a service's read of the parent's configuration, the
    parent's read of the TransportURL, and the parent's read of its own object.  One reconcile
    that reads an older revision of one of them leaves a pod on a released secret, or a secret
    pinned for ever. */
module StaleReads {
  import opened Options
  import opened RotationState
  import opened RotationSteps
  import opened RotationSafety
  import opened RotationEffects
  import opened RotationActors
  import opened RotationFixpoint
  import opened Convergence
  import opened RotationRuns
  import opened RotationLimits

  // ---------------------------------------------------------------- the parent's configuration

  /** The reconciles of a service, and a rollout in between, that all read configuration cfg. */
  function RolledWith(k: Service, cfg: Config, secrets: map<Name, set<Finalizer>>): Service
    requires k.versions != [] && !Last(k).deleting
  {
    var k1 := ServiceEffect(k, Some(cfg), secrets);
    var k2 := ServiceEffect(k1, Some(cfg), secrets);
    ServiceEffect(PodsEffect(k2), Some(cfg), secrets)
  }

  lemma FirstLook(k: Service, cfg: Config, secrets: map<Name, set<Finalizer>>)
    requires k.versions != [] && k.run.Resting? && Readable(Last(k), Some(cfg), secrets) && k.live
    ensures var k1 := ServiceEffect(k, Some(cfg), secrets);
            && k1.versions != [] && k1.run.Resting? && k1.live && Last(k1).spec == Last(k).spec
            && Last(k1).deleting == Last(k).deleting && Last(k1).hash == Some(InputOf(Last(k), cfg))
            && (Last(k).hash != Some(InputOf(Last(k), cfg)) ==> k1.pods == k.pods)
  {
  }

  lemma SecondLook(k: Service, cfg: Config, secrets: map<Name, set<Finalizer>>)
    requires k.versions != [] && k.run.Resting? && Readable(Last(k), Some(cfg), secrets) && k.live
    requires Last(k).hash == Some(InputOf(Last(k), cfg)) && Replicas(k) > 0
    requires forall i | i in k.pods :: k.pods[i].tmpl != InputOf(Last(k), cfg)
    ensures var k2 := ServiceEffect(k, Some(cfg), secrets);
            && k2.versions != [] && k2.live && Last(k2).spec == Last(k).spec && Last(k2).hash == Last(k).hash
            && Last(k2).deleting == Last(k).deleting && k2.run.Resting?
            && var k3 := PodsEffect(k2);
            && Rolled(k3) && k3.sts == Some(InputOf(Last(k), cfg)) && k3.cfg == Some(cfg) && k3.pods != map[]
            && Last(k3) == Last(k2) && k3.versions == k2.versions && k3.live && k3.run.Resting?
            && forall i | i in k3.pods :: k3.pods[i].cred == cfg
  {
    assert !Rolled(k.(sts := Some(InputOf(Last(k), cfg)))) by { if |k.pods| == Replicas(k) { assert k.pods != map[]; } }
  }

  lemma ThirdLook(k: Service, cfg: Config, secrets: map<Name, set<Finalizer>>)
    requires k.versions != [] && k.run.Resting? && Readable(Last(k), Some(cfg), secrets) && k.live
    requires Last(k).hash == Some(InputOf(Last(k), cfg)) && k.sts == Some(InputOf(Last(k), cfg)) && Rolled(k)
    ensures var k4 := ServiceEffect(k, Some(cfg), secrets);
            && k4.versions != [] && k4.live && Last(k4).spec == Last(k).spec && k4.pods == k.pods
            && Matches(Last(k4), Last(k).spec.t, Last(k).spec.n)
  {
  }

  /** Whatever configuration they read, they end in claiming the names of the spec. */
  lemma RolledWithMatches(k: Service, cfg: Config, secrets: map<Name, set<Finalizer>>)
    requires k.versions != [] && k.run.Resting? && Readable(Last(k), Some(cfg), secrets) && k.live
    requires !Last(k).deleting && Replicas(k) > 0 && Last(k).hash != Some(InputOf(Last(k), cfg))
    requires forall i | i in k.pods :: k.pods[i].tmpl != InputOf(Last(k), cfg)
    ensures var e := RolledWith(k, cfg, secrets);
            && e.versions != [] && e.live && Last(e).spec == Last(k).spec && e.pods != map[]
            && Matches(Last(e), Last(k).spec.t, Last(k).spec.n)
            && forall i | i in e.pods :: e.pods[i].cred == cfg
  {
    FirstLook(k, cfg, secrets);
    var k1 := ServiceEffect(k, Some(cfg), secrets);
    SecondLook(k1, cfg, secrets);
    var k3 := PodsEffect(ServiceEffect(k1, Some(cfg), secrets));
    ThirdLook(k3, cfg, secrets);
    hide ServiceEffect, PodsEffect;
  }

  /** What a push makes of a service that has another spec. */
  function Asked(k: Service, spec: ServiceSpec): Service
    requires k.versions != []
  {
    k.(versions := k.versions + [Last(k).(spec := spec, gen := Last(k).gen + 1)])
  }

  lemma PushShape(f: State, c: ServiceId)
    requires CanReconcile(f) && AtGate(f) && Present(f, c)
    requires Last(f.svcs[c]).spec != ServiceSpec(f.url, NotifName(f), f.cr.services[c])
    ensures c in ParentEffect(f).svcs
    ensures ParentEffect(f).svcs[c] == Asked(f.svcs[c], ServiceSpec(f.url, NotifName(f), f.cr.services[c]))
  {
    hide ParentEffect, RolledOut, Prepared;
    EffectAt(f, c);
    FullPass(f);
    hide CanReconcile;
  }

  /** The gate and the push, for a service that has not applied the current name. */
  lemma GateAndPush(r: State, c: ServiceId)
    requires CanReconcile(r) && r.cr.hash != Some(WantedConfig(r)) && r.cr.tracked != "" && Present(r, c)
    requires Last(r.svcs[c]).spec.t != r.url && Last(r.svcs[c]).applied != Some(Pair(r.url, NotifName(r)))
    ensures CanReconcile(ParentEffect(r)) && CanReconcile(ParentEffect(ParentEffect(r)))
    ensures var e := ParentEffect(ParentEffect(r));
            && SameInputs(r, e) && AtGate(e) && e.cr.tracked == r.cr.tracked && c in e.svcs
            && e.svcs[c] == Asked(r.svcs[c], ServiceSpec(r.url, NotifName(r), r.cr.services[c]))
            && Holds(e.secrets, r.url, TransportConsumer) && e.secrets.Keys == r.secrets.Keys
            && (Value(r.cr.trackedN) == NotifName(r) ==> Value(e.cr.trackedN) == NotifName(r))
  {
    FirstPass(r);
    var f := ParentEffect(r);
    NotReadyYet(f, c);
    PushShape(f, c);
    UnreadyTracked(f);
    ParentFrame(f);
    UnreadyPassKeeps(f, r.url);
    UnreadyStatus(f);
  }

  lemma UnreadyStatus(f: State)
    requires CanReconcile(f) && AtGate(f) && !RolledOut(Prepared(f)).parent.ready
    ensures Value(f.cr.trackedN) == NotifName(f) ==> Value(ParentEffect(f).cr.trackedN) == NotifName(f)
    ensures ParentEffect(f).secrets.Keys == f.secrets.Keys
  {
    FullPass(f);
    UnreadyParent(f);
    EndedFrame(RolledOut(Prepared(f)));
  }

  /** Of a quiet state: the service's status is that of its spec and configuration. */
  lemma QuietHash(s: State, c: ServiceId)
    requires Steady(s) && Quiescent(s) && c in s.cr.services
    ensures Converged(s) && AtGate(s) && RunsCurrent(s, c)
    ensures Last(s.svcs[c]).hash == s.svcs[c].sts && s.svcs[c].run.Resting?
  {
    QuiescentConverged(s);
    AtGateWhenQuiet(s);
    assert RunsCurrent(s, c);
    assert Effect(s, TheService(c)) == s && Effect(s, ThePods(c)) == s;
    QuietService(s, c);
  }

  /** A rotation in which the only service reads the configuration of before the rotation: it
      claims the new name, and the parent releases the old secret that its pods read. */
  lemma StaleConfigStranded(s: State, c: ServiceId, x: Name) returns (e2: State, m: State, e: State, pod: nat)
    requires Steady(s) && Quiescent(s) && Enabled(s, RotateTransport(x)) && s.cr.services.Keys == {c}
    requires s.cr.services[c].replicas > 0
    ensures Leads(s, e2) && e2.url == x && c in e2.svcs && e2.svcs[c].versions != [] && !Last(e2.svcs[c]).deleting
    ensures m == Put(e2, c, RolledWith(e2.svcs[c], WantedConfig(s), e2.secrets))
    ensures CanReconcile(m) && e == ParentEffect(m) && Stranded(e, c, pod)
  {
    var r := Step(s, RotateTransport(x));
    QuietBefore(s, c, x);
    RotationPushed(s, r, c, x);
    e2 := ParentEffect(ParentEffect(r));
    LeadsPushed(s, r, x);
    m, e, pod := ReleasedUnder(s, r, e2, c, x);
  }

  lemma ReleasedUnder(s: State, r: State, e2: State, c: ServiceId, x: Name) returns (m: State, e: State, pod: nat)
    requires Steady(s) && Quiescent(s) && s.cr.services.Keys == {c} && s.cr.services[c].replicas > 0
    requires Before(s, r, c, x) && Behind(s, e2, c, x)
    ensures e2.svcs[c].versions != [] && !Last(e2.svcs[c]).deleting
    ensures m == Put(e2, c, RolledWith(e2.svcs[c], WantedConfig(s), e2.secrets))
    ensures CanReconcile(m) && e == ParentEffect(m) && Stranded(e, c, pod)
  {
    PushedReadsOld(s, r, e2, c, x);
    m := Put(e2, c, RolledWith(e2.svcs[c], WantedConfig(s), e2.secrets));
    assert m.cr.tracked == s.url && s.url != m.url && s.url != "" && Value(m.cr.trackedN) == NotifName(m) != s.url;
    hide Steady, ParentEffect, CanReconcile, Guard, AllPushed, AtGate, RolledWith, Before, Behind, WantedConfig;
    e := ParentEffect(m);
    GuardReleases(m, c, s.url);
    pod :| pod in m.svcs[c].pods;
  }

  /** What a rotation finds in a quiet state. */
  ghost predicate Before(s: State, r: State, c: ServiceId, x: Name) {
    && CanReconcile(r) && r == s.(url := x, issued := r.issued, secrets := r.secrets)
    && r.secrets.Keys == s.secrets.Keys + {x}
    && r.cr.hash != Some(WantedConfig(r)) && s.cr.tracked == s.url != "" && s.url != x
    && Value(s.cr.trackedN) == NotifName(s) && s.url != NotifName(s)
    && s.url in s.secrets && (NotifName(s) == "" || NotifName(s) in s.secrets)
    && Present(s, c) && s.svcs[c].versions != [] && Last(s.svcs[c]).spec.t == s.url
    && Last(s.svcs[c]).applied == Some(Pair(s.url, NotifName(s)))
  }

  lemma QuietBefore(s: State, c: ServiceId, x: Name)
    requires Steady(s) && Quiescent(s) && Enabled(s, RotateTransport(x)) && c in s.cr.services
    ensures Steady(Step(s, RotateTransport(x))) && Before(s, Step(s, RotateTransport(x)), c, x)
  {
    QuietNames(s, c);
    RotatedSteady(s, x);
    hide Quiescent, Converged, Holds;
  }

  lemma QuietNames(s: State, c: ServiceId)
    requires Steady(s) && Quiescent(s) && c in s.cr.services
    ensures AtGate(s) && s.cr.tracked == s.url != "" && s.url in s.issued && s.url !in s.issuedN
    ensures Value(s.cr.trackedN) == NotifName(s) && NameIn(NotifName(s), s.issuedN)
    ensures s.url in s.secrets && (NotifName(s) == "" || NotifName(s) in s.secrets)
    ensures Present(s, c) && s.svcs[c].versions != [] && Last(s.svcs[c]).spec.t == s.url
    ensures Last(s.svcs[c]).applied == Some(Pair(s.url, NotifName(s)))
  {
    QuietHash(s, c);
    hide Quiescent;
  }

  /** What the push of the rotation leaves. */
  ghost predicate Behind(s: State, e: State, c: ServiceId, x: Name) {
    && CanReconcile(e) && AtGate(e) && e.cr.tracked == s.url && e.url == x && c in e.svcs
    && e.cr.services == s.cr.services && NotifName(e) == NotifName(s) && Value(e.cr.trackedN) == NotifName(s)
    && c in s.svcs && s.svcs[c].versions != [] && c in s.cr.services
    && e.svcs[c] == Asked(s.svcs[c], ServiceSpec(x, NotifName(s), s.cr.services[c]))
    && e.secrets.Keys == s.secrets.Keys + {x}
  }

  lemma RotationPushed(s: State, r: State, c: ServiceId, x: Name)
    requires Before(s, r, c, x)
    ensures CanReconcile(ParentEffect(r)) && CanReconcile(ParentEffect(ParentEffect(r)))
    ensures Behind(s, ParentEffect(ParentEffect(r)), c, x)
  {
    GateAndPush(r, c);
    hide ParentEffect;
  }

  lemma LeadsPushed(s: State, r: State, x: Name)
    requires Enabled(s, RotateTransport(x)) && r == Step(s, RotateTransport(x))
    requires Steady(r) && CanReconcile(ParentEffect(r))
    ensures Leads(s, ParentEffect(ParentEffect(r)))
  {
    LeadsRefl(s);
    LeadsStep(s, s, RotateTransport(x));
    hide Step, Enabled;
    EffectLeads(r, TheParent);
    LeadsTrans(s, r, ParentEffect(r));
    ParentEffectLeads(ParentEffect(r));
    LeadsTrans(s, ParentEffect(r), ParentEffect(ParentEffect(r)));
  }

  lemma AskedRollsWith(k0: Service, k: Service, cfg0: Config, cfg: Config, secrets: map<Name, set<Finalizer>>,
                       spec: ServiceSpec)
    requires k0.versions != [] && k0.run.Resting? && k0.live && !Last(k0).deleting && k == Asked(k0, spec)
    requires k0.sts == Some(InputOf(Last(k0), cfg0)) && Last(k0).hash == k0.sts && Rolled(k0)
    requires spec.t != Last(k0).spec.t && spec.t in secrets && (spec.n == "" || spec.n in secrets)
    requires spec.tmpl.replicas > 0
    ensures k.versions != [] && !Last(k).deleting && Last(k).spec == spec
    ensures var e := RolledWith(k, cfg, secrets);
            && e.versions != [] && e.live && Last(e).spec == spec && e.pods != map[]
            && Matches(Last(e), spec.t, spec.n) && forall i | i in e.pods :: e.pods[i].cred == cfg
  {
    RolledWithMatches(k, cfg, secrets);
    hide RolledWith;
  }

  lemma OldRolls(s: State, r: State, e2: State, c: ServiceId, x: Name)
    requires Steady(s) && Quiescent(s) && c in s.cr.services && s.cr.services[c].replicas > 0
    requires Before(s, r, c, x) && Behind(s, e2, c, x)
    ensures var k, spec := e2.svcs[c], ServiceSpec(x, NotifName(s), s.cr.services[c]);
            && k.versions != [] && !Last(k).deleting && Last(k).spec == spec
            && var e := RolledWith(k, WantedConfig(s), e2.secrets);
            && e.versions != [] && e.live && Last(e).spec == spec && e.pods != map[]
            && Matches(Last(e), x, NotifName(s)) && forall i | i in e.pods :: e.pods[i].cred == WantedConfig(s)
  {
    QuietHash(s, c);
    assert RunsCurrent(s, c);
    hide Steady, Quiescent, Converged, RolledWith, CanReconcile;
    AskedRollsWith(s.svcs[c], e2.svcs[c], WantedConfig(s), WantedConfig(s), e2.secrets,
                   ServiceSpec(x, NotifName(s), s.cr.services[c]));
  }

  lemma PushedReadsOld(s: State, r: State, e2: State, c: ServiceId, x: Name)
    requires Steady(s) && Quiescent(s) && s.cr.services.Keys == {c} && s.cr.services[c].replicas > 0
    requires Before(s, r, c, x) && Behind(s, e2, c, x)
    ensures e2.svcs[c].versions != [] && !Last(e2.svcs[c]).deleting
    ensures var m := Put(e2, c, RolledWith(e2.svcs[c], WantedConfig(s), e2.secrets));
            && CanReconcile(m) && AtGate(m) && AllPushed(m) && Guard(m) && m.svcs[c].pods != map[]
            && forall i | i in m.svcs[c].pods :: m.svcs[c].pods[i].cred.t == s.url
  {
    OldRolls(s, r, e2, c, x);
    hide RolledWith, Steady, Quiescent, Before, Asked, CanReconcile, AllPushed, Guard;
    OnlyOnePushed(e2, c, RolledWith(e2.svcs[c], WantedConfig(s), e2.secrets));
  }

  lemma OnlyOnePushed(s: State, c: ServiceId, k: Service)
    requires CanReconcile(s) && AtGate(s) && s.cr.services.Keys == {c} && k.versions != [] && k.live
    requires Last(k).spec == ServiceSpec(s.url, NotifName(s), s.cr.services[c]) && Matches(Last(k), s.url, NotifName(s))
    ensures var m := Put(s, c, k); CanReconcile(m) && AtGate(m) && AllPushed(m) && Guard(m)
  {
    var m := Put(s, c, k);
    forall d | d in m.cr.services ensures Pushed(m, d) && Matches(Last(m.svcs[d]), m.url, NotifName(m)) {
      assert d == c;
    }
  }

  /** A reconcile under the guard releases the tracked messaging secret. */
  lemma GuardReleases(m: State, c: ServiceId, was: Name)
    requires CanReconcile(m) && AtGate(m) && AllPushed(m) && Guard(m) && c in m.cr.services
    requires m.cr.tracked == was && was != m.url && was != ""
    requires Value(m.cr.trackedN) == NotifName(m) != was
    ensures !Holds(ParentEffect(m).secrets, was, TransportConsumer) && c in ParentEffect(m).cr.services
    ensures c in m.svcs && c in ParentEffect(m).svcs && ParentEffect(m).svcs[c].pods == m.svcs[c].pods
  {
    FullPass(m);
    QuietRollout(m);
    PassKeepsServices(m);
    ParentFrame(m);
    if was in m.secrets { GuardDrops(m, was); }
  }

  lemma GuardDrops(m: State, was: Name)
    requires CanReconcile(m) && AtGate(m) && AllPushed(m) && Guard(m) && was in m.secrets && was != m.url
    requires Value(m.cr.trackedN) == NotifName(m) != was && was != ""
    ensures !Holds(ParentEffect(m).secrets, was, TransportConsumer)
  {
    FullPass(m);
    QuietRollout(m);
    FinalOne(RolledOut(Prepared(m)), was);
    hide RolledOut, Prepared, Guard, AllPushed;
  }

  // ---------------------------------------------------------------- the TransportURL

  /** Two reconciles of the parent that still read name u from the TransportURL. */
  ghost function Misread(s: State, u: Name): State
    requires CanReconcile(s.(url := u)) && CanReconcile(ParentEffect(s.(url := u)))
  {
    ParentEffect(ParentEffect(s.(url := u))).(url := s.url)
  }

  /** They have pushed u. */
  ghost predicate PushedMisread(s: State, e: State, u: Name, c: ServiceId) {
    && CanReconcile(e) && e.url == s.url && e.cr.hash == e.cfg == Some(WantedConfig(s.(url := u)))
    && NotifName(e) == NotifName(s) && Value(e.cr.trackedN) == NotifName(s) && e.cr.tracked == s.url
    && e.cr.services == s.cr.services && Holds(e.secrets, u, TransportConsumer)
    && e.secrets.Keys == s.secrets.Keys
    && c in s.cr.services && c in s.svcs && s.svcs[c].versions != [] && c in e.svcs
    && e.svcs[c] == Asked(s.svcs[c], ServiceSpec(u, NotifName(s), s.cr.services[c]))
  }

  lemma MisreadPushes(s: State, u: Name, c: ServiceId)
    requires Steady(s) && Quiescent(s) && c in s.cr.services && u != "" && u != s.url && u in s.secrets
    ensures CanReconcile(s.(url := u)) && CanReconcile(ParentEffect(s.(url := u)))
    ensures PushedMisread(s, Misread(s, u), u, c)
  {
    QuietNames(s, c);
    MisreadReconciles(s, u);
    var a := s.(url := u);
    hide Quiescent, Inv, Steady;
    GateAndPush(a, c);
    var e := ParentEffect(ParentEffect(a));
    hide ParentEffect;
    ReadsCurrently(e, s.url);
  }

  lemma MisreadReconciles(s: State, u: Name)
    requires Steady(s) && u != "" && u in s.secrets
    ensures CanReconcile(s.(url := u))
  {
  }

  lemma ReadsCurrently(e: State, t: Name)
    requires CanReconcile(e) && t != "" && t in e.secrets
    ensures CanReconcile(e.(url := t))
  {
  }

  /** Service c moves to what was pushed, and the parent reads the TransportURL as it is. */
  ghost function MovedAway(e: State, c: ServiceId): State
    requires c in e.svcs && e.svcs[c].versions != [] && !Last(e.svcs[c]).deleting && e.cfg.Some?
  {
    Put(e, c, RolledWith(e.svcs[c], e.cfg.value, e.secrets))
  }

  lemma MisreadRolls(s: State, e: State, u: Name, c: ServiceId)
    requires Steady(s) && Quiescent(s) && PushedMisread(s, e, u, c) && s.cr.services[c].replicas > 0 && u != s.url
    requires u in s.secrets
    ensures !Last(e.svcs[c]).deleting
    ensures var m := MovedAway(e, c);
            && CanReconcile(m) && Present(m, c) && m.svcs[c].versions != [] && m.svcs[c].pods != map[]
            && Last(m.svcs[c]).applied == Some(Pair(u, NotifName(s)))
            && forall i | i in m.svcs[c].pods :: m.svcs[c].pods[i].cred.t == u
  {
    QuietRolled(s, c);
    QuietNames(s, c);
    hide Steady, Quiescent, CanReconcile, RolledWith, Asked;
    AskedRollsWith(s.svcs[c], e.svcs[c], WantedConfig(s), WantedConfig(s.(url := u)), e.secrets,
                   ServiceSpec(u, NotifName(s), s.cr.services[c]));
    MovedReconciles(e, c);
  }

  lemma QuietRolled(s: State, c: ServiceId)
    requires Steady(s) && Quiescent(s) && c in s.cr.services
    ensures c in s.svcs && s.svcs[c].versions != [] && s.svcs[c].run.Resting? && s.svcs[c].live
    ensures !Last(s.svcs[c]).deleting && Rolled(s.svcs[c])
    ensures Last(s.svcs[c]).hash == s.svcs[c].sts == Some(InputOf(Last(s.svcs[c]), WantedConfig(s)))
  {
    QuietHash(s, c);
    hide Steady, Quiescent, Converged;
  }

  lemma MovedReconciles(e: State, c: ServiceId)
    requires CanReconcile(e) && c in e.svcs && e.svcs[c].versions != [] && !Last(e.svcs[c]).deleting && e.cfg.Some?
    requires RolledWith(e.svcs[c], e.cfg.value, e.secrets).versions != []
    ensures CanReconcile(MovedAway(e, c))
  {
  }

  /** From any quiet state, with an earlier messaging secret u still there: two reconciles of
      the parent read u from an old revision of the TransportURL, service c moves to it, and
      the next two read it currently.  They strip u, which c's pods read. */
  lemma StaleUrlStranded(s: State, u: Name, c: ServiceId) returns (m: State, e: State, pod: nat)
    requires Steady(s) && Quiescent(s) && c in s.cr.services && s.cr.services[c].replicas > 0
    requires u in s.issued && u != s.url && u in s.secrets
    ensures CanReconcile(s.(url := u)) && CanReconcile(ParentEffect(s.(url := u)))
    ensures c in Misread(s, u).svcs && Misread(s, u).svcs[c].versions != [] && Misread(s, u).cfg.Some?
    ensures !Last(Misread(s, u).svcs[c]).deleting && m == MovedAway(Misread(s, u), c)
    ensures CanReconcile(m) && CanReconcile(ParentEffect(m)) && e == ParentEffect(ParentEffect(m))
    ensures Stranded(e, c, pod) && e.svcs[c].pods[pod].cred.t == u
  {
    assert u != "" && u !in s.issuedN;
    MisreadPushes(s, u, c);
    var w := Misread(s, u);
    MisreadRolls(s, w, u, c);
    m := MovedAway(w, c);
    NameNotNotif(s, u);
    hide Steady, Quiescent, Misread, RolledWith, ParentEffect;
    ReadsAgain(m, u, c);
    e := ParentEffect(ParentEffect(m));
    pod :| pod in m.svcs[c].pods;
  }

  lemma NameNotNotif(s: State, u: Name)
    requires Steady(s) && u in s.issued
    ensures u != NotifName(s) && u != ""
  {
  }

  lemma ReadsAgain(m: State, u: Name, c: ServiceId)
    requires CanReconcile(m) && Present(m, c) && m.svcs[c].versions != [] && m.cr.tracked == m.url != u
    requires m.cr.hash.Some? && m.cr.hash.value.t == u && Last(m.svcs[c]).applied == Some(Pair(u, NotifName(m)))
    requires Holds(m.secrets, u, TransportConsumer) && u != "" && u != NotifName(m)
    requires Value(m.cr.trackedN) == NotifName(m)
    ensures CanReconcile(ParentEffect(m))
    ensures var e := ParentEffect(ParentEffect(m));
            && !Holds(e.secrets, u, TransportConsumer) && c in e.cr.services && c in e.svcs
            && e.svcs[c].pods == m.svcs[c].pods
  {
    TwoPasses(m, c);
    var f := ParentEffect(m);
    UnreadyPassKeeps(f, u);
    PushKeepsPods(f, c);
  }

  // ---------------------------------------------------------------- the parent's own object

  /** A reconcile that begins from revision v of the Manila, up to its first pin. */
  function BegunFrom(s: State, v: ManilaCR): State
    requires s.url != ""
  {
    DoPinTransport(DoReadTransport(s.(parent := Running(ReadTransport, v, "", "", true))))
  }

  /** A Manila whose finalizer has gone, and a reconcile that still sees a revision with it: it
      pins a secret that no finalizer of the Manila outlives any more. */
  lemma StaleObjectPins(s: State, v: ManilaCR)
    requires !s.cr.finalizer && v.finalizer && !v.deleting && s.url != "" && s.url in s.secrets
    ensures Holds(BegunFrom(s, v).secrets, s.url, TransportConsumer) && !BegunFrom(s, v).cr.finalizer
  {
  }
}
