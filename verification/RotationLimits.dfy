/** What the code does not give: inputs on which a pod of a service in the spec loses its
    messaging secret.  A share that leaves the spec and comes back before its old object is
    gone brings pods with it whose secret was released meanwhile; and of two overlapping
    rotations the middle secret is pruned under the pods that have already moved to it. */
module RotationLimits {
  import opened Options
  import opened RotationState
  import opened RotationSteps
  import opened RotationSafety
  import opened RotationEffects
  import opened RotationActors
  import opened RotationFixpoint
  import opened Convergence
  import opened RotationRuns

  /** A pod of a service in the spec that reads a messaging secret nobody holds. */
  predicate Stranded(s: State, c: ServiceId, pod: nat) {
    && c in s.cr.services && c in s.svcs && pod in s.svcs[c].pods
    && !Holds(s.secrets, s.svcs[c].pods[pod].cred.t, TransportConsumer)
  }

  // ---------------------------------------------------------------- a share that comes back

  /** The pods of a service outside the spec go on as they are. */
  ghost predicate GoesOn(s: State, s': State, c: ServiceId) {
    c in s.svcs && c in s'.svcs && s'.svcs[c].pods == s.svcs[c].pods && s'.svcs[c].live == s.svcs[c].live
  }

  lemma ParentGoesOn(s: State, c: ServiceId)
    requires CanReconcile(s) && c !in s.cr.services && c in s.svcs
    ensures GoesOn(s, ParentEffect(s), c)
  {
    ParentFrame(s);
    hide ParentEffect;
  }

  lemma EffectGoesOn(s: State, actor: Actor, c: ServiceId)
    requires Steady(s) && c !in s.cr.services && c in s.svcs
    ensures GoesOn(s, Effect(s, actor), c)
  {
    if actor.TheParent? { ParentGoesOn(s, c); }
  }

  lemma {:induction false} AfterGoesOn(s: State, actors: seq<Actor>, c: ServiceId)
    requires Steady(s) && c !in s.cr.services && c in s.svcs
    ensures Steady(After(s, actors)) && GoesOn(s, After(s, actors), c)
    decreases |actors|
  {
    AfterDescends(s, actors);
    if actors != [] {
      EffectDescends(s, actors[0]);
      EffectGoesOn(s, actors[0], c);
      AfterGoesOn(Effect(s, actors[0]), actors[1..], c);
    }
  }

  lemma {:induction false} RoundsGoOn(s: State, rounds: seq<seq<Actor>>, c: ServiceId)
    requires Steady(s) && c !in s.cr.services && c in s.svcs
    ensures GoesOn(s, AfterRounds(s, rounds), c)
    decreases |rounds|
  {
    if rounds != [] {
      AfterDescends(s, rounds[0]);
      AfterGoesOn(s, rounds[0], c);
      RoundsGoOn(After(s, rounds[0]), rounds[1..], c);
    }
  }

  lemma EditedSteady(s: State, m: map<ServiceId, Template>)
    requires Steady(s) && m.Keys <= s.cr.services.Keys
    ensures Steady(Step(s, EditServices(m)))
  {
    StepInv(s, EditServices(m));
  }

  lemma LeftAndRotated(s: State, c: ServiceId, x: Name)
    requires Steady(s) && c in s.cr.services && Enabled(s, RotateTransport(x))
    ensures var s2 := Step(Step(s, EditServices(s.cr.services - {c})), RotateTransport(x));
            Steady(s2) && Leads(s, s2)
  {
    var s1 := Step(s, EditServices(s.cr.services - {c}));
    EditedSteady(s, s.cr.services - {c});
    RotatedSteady(s1, x);
    LeadsRefl(s);
    LeadsStep(s, s, EditServices(s.cr.services - {c}));
    LeadsStep(s, s1, RotateTransport(x));
  }

  /** From any converged state: take a service with pods out of the spec, rotate, let as many
      rounds pass as the rotation needs, and put the service back.  Its pods still read the
      previous secret, which has been released. */
  lemma ReaddedPodStranded(s: State, c: ServiceId, pod: nat, x: Name, rounds: seq<seq<Actor>>) returns (e: State)
    requires Steady(s) && Converged(s) && c in s.cr.services && pod in s.svcs[c].pods
    requires Enabled(s, RotateTransport(x))
    requires forall i | 0 <= i < |rounds| :: IsRound(s, rounds[i])
    requires |rounds| >= Measure(Step(Step(s, EditServices(s.cr.services - {c})), RotateTransport(x)))
    ensures Leads(s, e) && !e.cr.deleting && Stranded(e, c, pod)
  {
    var s2 := Step(Step(s, EditServices(s.cr.services - {c})), RotateTransport(x));
    LeftAndRotated(s, c, x);
    forall i | 0 <= i < |rounds| ensures IsRound(s2, rounds[i]) { assert IsRound(s, rounds[i]); }
    RoundsConverge(s2, rounds);
    var m := AfterRounds(s2, rounds);
    LeadsTrans(s, s2, m);
    e := Step(m, EditServices(s.cr.services));
    LeadsStep(s, m, EditServices(s.cr.services));
    RoundsGoOn(s2, rounds, c);
    ConvergedPods(s);
    assert s.url in s2.issued && NotifName(s2) !in s2.issued && s.url != x;
  }

  /** There is always a name that was not issued yet. */
  lemma FreshName(names: set<Name>) returns (x: Name)
    ensures x != "" && x !in names
  {
    var n := Longer(names);
    x := seq(n, _ => 'x');
    assert |x| == n;
  }

  lemma {:induction false} Longer(names: set<Name>) returns (n: nat)
    ensures n > 0 && forall x | x in names :: |x| < n
    decreases |names|
  {
    n := 1;
    if names != {} {
      var y :| y in names;
      n := Longer(names - {y});
      if n <= |y| { n := |y| + 1; }
    }
  }

  lemma FreshRotation(s: State, c: ServiceId) returns (x: Name)
    requires Converged(s)
    ensures Enabled(s, RotateTransport(x)) && Enabled(s, EditServices(s.cr.services - {c}))
    ensures Enabled(Step(s, EditServices(s.cr.services - {c})), RotateTransport(x))
  {
    x := FreshName(s.issued + s.issuedN);
  }

  lemma SomeRounds(s: State, n: nat) returns (rounds: seq<seq<Actor>>)
    requires s.cr.services.Keys <= Empty().cr.services.Keys
    ensures |rounds| == n && forall i | 0 <= i < |rounds| :: IsRound(s, rounds[i])
  {
    FullRoundIsRound(s);
    rounds := seq(n, _ => FullRound());
  }

  lemma Strand(s: State, c: ServiceId, pod: nat) returns (e: State)
    requires Steady(s) && Converged(s) && s.cr.services.Keys <= Empty().cr.services.Keys && c in s.cr.services
    requires c in s.svcs && pod in s.svcs[c].pods
    ensures Leads(s, e) && !e.cr.deleting && Stranded(e, c, pod)
  {
    hide *;
    var x := FreshRotation(s, c);
    var n := Measure(Step(Step(s, EditServices(s.cr.services - {c})), RotateTransport(x)));
    var rounds := SomeRounds(s, n);
    e := ReaddedPodStranded(s, c, pod, x, rounds);
  }

  /** So some run ends with such a pod. */
  lemma SomeReaddedPodStranded() returns (ss: seq<State>, acts: seq<Action>, pod: nat)
    ensures IsRun(ss, acts) && !ss[|acts|].cr.deleting && Stranded(ss[|acts|], Share("nfs"), pod)
  {
    ss, acts := SomeRunConverges();
    pod :| pod in ss[|acts|].svcs[Share("nfs")].pods;
    var e := Strand(ss[|acts|], Share("nfs"), pod);
    LeadsExtendsRun(ss, acts, e);
    ss, acts :| IsRun(ss, acts) && ss[|acts|] == e;
  }

  // ---------------------------------------------------------------- two rotations that overlap

  /** The parent's next two reconciles: the gate, then the push, which cannot be ready for a
      service that has not applied the new name. */
  lemma FirstPass(s: State)
    requires CanReconcile(s) && s.cr.hash != Some(WantedConfig(s)) && s.cr.tracked != ""
    ensures CanReconcile(ParentEffect(s)) && AtGate(ParentEffect(s)) && SameInputs(s, ParentEffect(s))
    ensures ParentEffect(s).secrets == Pinned(s) && ParentEffect(s).cr.tracked == s.cr.tracked
    ensures Value(ParentEffect(s).cr.trackedN) == Value(s.cr.trackedN) && ParentEffect(s).svcs == s.svcs
  {
    ParentFrame(s);
    ParentWaits(s);
  }

  lemma TwoPasses(s: State, c: ServiceId)
    requires CanReconcile(s) && s.cr.hash != Some(WantedConfig(s)) && s.cr.tracked != ""
    requires c in s.cr.services && c in s.svcs && Last(s.svcs[c]).applied != Some(Pair(s.url, NotifName(s)))
    ensures CanReconcile(ParentEffect(s)) && AtGate(ParentEffect(s)) && SameInputs(s, ParentEffect(s))
    ensures ParentEffect(s).secrets == Pinned(s) && ParentEffect(s).cr.tracked == s.cr.tracked
    ensures Value(ParentEffect(s).cr.trackedN) == Value(s.cr.trackedN)
    ensures c in ParentEffect(s).svcs && ParentEffect(s).svcs[c] == s.svcs[c]
    ensures !RolledOut(Prepared(ParentEffect(s))).parent.ready
  {
    FirstPass(s);
    NotReadyYet(ParentEffect(s), c);
  }

  /** CreateOrUpdate leaves what is applied alone. */
  lemma NotReadyYet(s: State, c: ServiceId)
    requires CanReconcile(s) && AtGate(s)
    requires c in s.cr.services && c in s.svcs && Last(s.svcs[c]).applied != Some(Pair(s.url, NotifName(s)))
    ensures Prepared(s).parent.Running? && !RolledOut(Prepared(s)).parent.ready
  {
    FullPass(s);
    var p := Prepared(s);
    RolledOutReady(p);
    assert !Matches(DeployObject(DoPinAC(p), c, Fresh(DoPinAC(p), c)), p.parent.cur, p.parent.curN);
  }

  lemma UnreadyTracked(s: State)
    requires CanReconcile(s) && AtGate(s) && !RolledOut(Prepared(s)).parent.ready && s.cr.tracked != ""
    ensures ParentEffect(s).cr.tracked == s.cr.tracked
  {
    FullPass(s);
    UnreadyParent(s);
    UnreadyInst(RolledOut(Prepared(s)).parent);
    EndedFrame(RolledOut(Prepared(s)));
  }

  /** One service reconcile records the input hash, a second one brings the StatefulSet to the
      current spec and configuration. */
  lemma FirstTurn(k: Service, cfg: Config, secrets: map<Name, set<Finalizer>>)
    requires k.versions != [] && k.run.Resting? && Readable(Last(k), Some(cfg), secrets) && !Last(k).deleting
    ensures var k1 := ServiceTurn(k, Some(cfg), secrets);
            && k1.versions != [] && k1.run.Resting? && !Last(k1).deleting && k1.live == k.live
            && Last(k1).spec == Last(k).spec && Last(k1).hash == Some(InputOf(Last(k), cfg))
  {
  }

  lemma SecondTurn(k: Service, cfg: Config, secrets: map<Name, set<Finalizer>>)
    requires k.versions != [] && k.run.Resting? && Readable(Last(k), Some(cfg), secrets) && !Last(k).deleting
    requires Last(k).hash == Some(InputOf(Last(k), cfg))
    ensures var k2 := ServiceTurn(k, Some(cfg), secrets);
            && k2.versions != [] && k2.sts == Some(InputOf(Last(k), cfg)) && k2.cfg == Some(cfg)
            && Last(k2).spec == Last(k).spec && k2.live == k.live && k2.run.Resting?
  {
  }

  lemma TwoTurns(k: Service, cfg: Config, secrets: map<Name, set<Finalizer>>)
    requires k.versions != [] && k.run.Resting? && Readable(Last(k), Some(cfg), secrets) && !Last(k).deleting
    ensures var k1 := ServiceTurn(k, Some(cfg), secrets);
            && k1.versions != [] && Readable(Last(k1), Some(cfg), secrets) && !Last(k1).deleting && k1.live == k.live
            && var k2 := ServiceTurn(k1, Some(cfg), secrets);
            && k2.versions != [] && k2.sts == Some(InputOf(Last(k), cfg)) && k2.cfg == Some(cfg)
            && Last(k2).spec == Last(k).spec && k2.live == k.live && k2.run.Resting?
  {
    hide ServiceTurn;
    FirstTurn(k, cfg, secrets);
    SecondTurn(ServiceTurn(k, Some(cfg), secrets), cfg, secrets);
  }

  lemma TurnSteady(s: State, c: ServiceId)
    requires Steady(s) && Present(s, c)
    ensures var e := Put(s, c, ServiceTurn(s.svcs[c], s.cfg, s.secrets)); Steady(e) && Leads(s, e)
  {
    EffectLeads(s, TheService(c));
    EffectDescends(s, TheService(c));
  }

  lemma PodsSteady(s: State, c: ServiceId)
    requires Steady(s) && Present(s, c)
    ensures var e := Put(s, c, PodsEffect(s.svcs[c])); Steady(e) && Leads(s, e)
  {
    EffectLeads(s, ThePods(c));
    EffectDescends(s, ThePods(c));
  }

  /** One pushed service rolls out on its own: first its StatefulSet. */
  lemma OneTurnsTwice(s: State, c: ServiceId) returns (k: Service)
    requires Steady(s) && AtGate(s) && Pushed(s, c) && !Doomed(s, c)
    ensures Leads(s, Put(s, c, k)) && Steady(Put(s, c, k)) && k.live && k.versions != []
    ensures Last(k).spec == Last(s.svcs[c]).spec && k.sts.Some? && k.cfg.Some? && k.sts.value.t == s.url
  {
    hide ServiceTurn, Inv;
    var k0 := s.svcs[c];
    TwoTurns(k0, s.cfg.value, s.secrets);
    var k1 := ServiceTurn(k0, s.cfg, s.secrets);
    k := ServiceTurn(k1, s.cfg, s.secrets);
    TurnSteady(s, c);
    TurnSteady(Put(s, c, k1), c);
    assert Put(Put(s, c, k1), c, k) == Put(s, c, k);
    LeadsTrans(s, Put(s, c, k1), Put(s, c, k));
  }

  /** Then its pods. */
  lemma OneRollsOut(s: State, c: ServiceId) returns (k: Service)
    requires Steady(s) && AtGate(s) && Pushed(s, c) && !Doomed(s, c)
    ensures Leads(s, Put(s, c, k)) && Steady(Put(s, c, k)) && k.live && k.versions != []
    ensures Last(k).spec == Last(s.svcs[c]).spec && |k.pods| == Replicas(k)
    ensures forall i | i in k.pods :: k.pods[i].cred.t == s.url
  {
    hide ServiceTurn, Inv;
    var k2 := OneTurnsTwice(s, c);
    k := PodsEffect(k2);
    PodsSteady(Put(s, c, k2), c);
    assert Put(Put(s, c, k2), c, k) == Put(s, c, k);
    LeadsTrans(s, Put(s, c, k2), Put(s, c, k));
    OnlyCurrentCreds(Put(s, c, k), c);
  }

  /** Pods on a template of the current name have read it. */
  lemma OnlyCurrentCreds(s: State, c: ServiceId)
    requires Inv(s) && !s.cr.deleting && c in s.svcs && s.svcs[c].versions != [] && Rolled(s.svcs[c])
    requires s.svcs[c].sts.value.t == s.url
    ensures forall i | i in s.svcs[c].pods :: s.svcs[c].pods[i].cred.t == s.url
  {
    assert Clear(s, s.url) && !Untouched(s, s.url);
    assert Truthful(s.svcs[c], s.url, true);
  }

  /** The first rotation, as far as the push and the rollout of service c. */
  lemma HalfRotated(s: State, c: ServiceId, x: Name) returns (m: State)
    requires Steady(s) && AtGate(s) && Converged(s) && Enabled(s, RotateTransport(x))
    requires c in s.cr.services && s.cr.services[c].replicas > 0
    ensures Leads(s, m) && Steady(m) && SameInputs(Step(s, RotateTransport(x)), m)
    ensures m.url == x && m.cr.tracked == s.url && Holds(m.secrets, x, TransportConsumer)
    ensures m.issued == s.issued + {x} && m.issuedN == s.issuedN
    ensures m.cr.hash == Some(WantedConfig(m)) && c in m.svcs && m.svcs[c].pods != map[] && m.svcs[c].versions != []
    ensures forall i | i in m.svcs[c].pods :: m.svcs[c].pods[i].cred.t == x
    ensures Inv(m) && CanReconcile(m) && Present(m, c) && s.url != "" && s.url != x
  {
    var r := Step(s, RotateTransport(x));
    RotatedSteady(s, x);
    LeadsRefl(s);
    LeadsStep(s, s, RotateTransport(x));
    assert RunsCurrent(s, c) && s.url != x;
    HalfPushed(r, c);
    var e2 := ParentEffect(ParentEffect(r));
    LeadsTrans(s, r, e2);
    var k := OneRollsOut(e2, c);
    m := Put(e2, c, k);
    LeadsTrans(s, e2, m);
    ParentKeepsIssued(r);
    ParentKeepsIssued(ParentEffect(r));
  }

  lemma HalfPushed(r: State, c: ServiceId)
    requires Steady(r) && r.cr.hash != Some(WantedConfig(r)) && r.cr.tracked != ""
    requires c in r.cr.services && Present(r, c) && r.svcs[c].versions != []
    requires !Last(r.svcs[c]).deleting && Last(r.svcs[c]).applied != Some(Pair(r.url, NotifName(r)))
    ensures CanReconcile(ParentEffect(r))
    ensures var e := ParentEffect(ParentEffect(r));
            && Leads(r, e) && Steady(e) && SameInputs(r, e) && AtGate(e) && Pushed(e, c) && !Doomed(e, c)
            && e.cr.tracked == r.cr.tracked && Holds(e.secrets, r.url, TransportConsumer)
  {
    TwoPasses(r, c);
    var e1 := ParentEffect(r);
    EffectLeads(r, TheParent);
    EffectDescends(r, TheParent);
    EffectLeads(e1, TheParent);
    EffectDescends(e1, TheParent);
    LeadsTrans(r, e1, ParentEffect(e1));
    ParentKeepsSteady(e1);
    ParentPushes(e1, c);
    UnreadyTracked(e1);
    UnreadyPassKeeps(e1, r.url);
  }

  lemma ParentKeepsIssued(s: State)
    requires CanReconcile(s)
    ensures ParentEffect(s).issued == s.issued && ParentEffect(s).issuedN == s.issuedN
  {
    if Prepared(s).parent.Running? { RolledOutShape(Prepared(s)); }
  }

  lemma DeployedKeepsPods(p: State, c: ServiceId)
    requires p.parent.Running? && c in p.parent.inst.services && c in p.svcs && p.svcs[c].versions != []
    requires p.svcs[c].live
    ensures DeployedService(p, c).pods == p.svcs[c].pods
  {
  }

  /** The second rotation begins before the first one has ended. */
  lemma Overtaken(m: State, n: State, c: ServiceId, y: Name)
    requires Inv(m) && CanReconcile(m) && m.cr.hash == Some(WantedConfig(m)) && Present(m, c)
    requires m.cr.tracked != "" && m.cr.tracked != m.url && Holds(m.secrets, m.url, TransportConsumer)
    requires Enabled(m, RotateTransport(y)) && n == Step(m, RotateTransport(y))
    ensures CanReconcile(n) && CanReconcile(ParentEffect(n))
    ensures var e := ParentEffect(ParentEffect(n));
            && Leads(m, e) && !Holds(e.secrets, m.url, TransportConsumer)
            && c in e.cr.services && c in e.svcs && e.svcs[c].pods == m.svcs[c].pods && !e.cr.deleting
  {
    StepInv(m, RotateTransport(y));
    NewName(m, n, c, y);
    hide Inv;
    TwoPasses(n, c);
    OvertakenLeads(m, n, y);
    OvertakenPin(m, n, y);
    PushKeepsPods(ParentEffect(n), c);
  }

  lemma NewName(m: State, n: State, c: ServiceId, y: Name)
    requires Inv(m) && CanReconcile(m) && m.cr.hash == Some(WantedConfig(m)) && Present(m, c)
    requires Enabled(m, RotateTransport(y)) && n == Step(m, RotateTransport(y))
    ensures CanReconcile(n) && n.cr.hash != Some(WantedConfig(n)) && m.url in m.issued && NamesOk(m)
    ensures Last(n.svcs[c]).applied != Some(Pair(n.url, NotifName(n)))
  {
    assert Within(m.svcs[c], m.issued) && m.svcs[c].versions[|m.svcs[c].versions| - 1] == Last(m.svcs[c]);
  }

  lemma PushKeepsPods(f: State, c: ServiceId)
    requires CanReconcile(f) && AtGate(f) && Present(f, c)
    ensures c in ParentEffect(f).cr.services && c in ParentEffect(f).svcs && !ParentEffect(f).cr.deleting
    ensures ParentEffect(f).svcs[c].pods == f.svcs[c].pods
  {
    ParentFrame(f);
    EffectAt(f, c);
    FullPass(f);
    DeployedKeepsPods(Prepared(f), c);
  }

  lemma OvertakenLeads(m: State, n: State, y: Name)
    requires Enabled(m, RotateTransport(y)) && n == Step(m, RotateTransport(y))
    requires Inv(n) && CanReconcile(n) && CanReconcile(ParentEffect(n))
    ensures Leads(m, ParentEffect(ParentEffect(n)))
  {
    LeadsRefl(m);
    LeadsStep(m, m, RotateTransport(y));
    hide Step, Enabled;
    var f := ParentEffect(n);
    ParentEffectLeads(n);
    LeadsInv(n, f);
    ParentEffectLeads(f);
    LeadsTrans(m, n, f);
    LeadsTrans(m, f, ParentEffect(f));
  }

  lemma OvertakenPin(m: State, n: State, y: Name)
    requires NamesOk(m) && CanReconcile(m) && CanReconcile(n) && m.url in m.issued
    requires m.cr.tracked != "" && m.cr.tracked != m.url && Holds(m.secrets, m.url, TransportConsumer)
    requires Enabled(m, RotateTransport(y)) && n == Step(m, RotateTransport(y))
    requires var f := ParentEffect(n);
             && CanReconcile(f) && AtGate(f) && SameInputs(n, f) && f.secrets == Pinned(n)
             && f.cr.tracked == m.cr.tracked && Value(f.cr.trackedN) == Value(m.cr.trackedN)
             && !RolledOut(Prepared(f)).parent.ready
    ensures !Holds(ParentEffect(ParentEffect(n)).secrets, m.url, TransportConsumer)
  {
    hide ParentEffect, RolledOut, Prepared;
    UnreadyPassKeeps(ParentEffect(n), m.url);
  }

  /** From any converged state: rotate to x, let one service with pods move to it, and issue y
      before x is tracked.  Two reconciles later that service's pods, which are in the spec and
      have moved as asked, read a secret whose finalizer is gone. */
  lemma MiddleSecretStranded(s: State, c: ServiceId, x: Name, y: Name) returns (m: State, e: State, pod: nat)
    requires Steady(s) && AtGate(s) && Converged(s) && Enabled(s, RotateTransport(x))
    requires c in s.cr.services && s.cr.services[c].replicas > 0
    requires y != "" && y != x && y !in s.issued && y !in s.issuedN
    ensures Leads(s, m) && m.url == x && m.cr.tracked == s.url && Enabled(m, RotateTransport(y))
    ensures Leads(m, e) && !e.cr.deleting && Stranded(e, c, pod) && e.svcs[c].pods[pod].cred.t == x
  {
    hide ParentEffect, Inv, Steady, CanReconcile, Converged, AtGate, SameInputs, WantedConfig, Leads, Present;
    m := HalfRotated(s, c, x);
    Overtaken(m, Step(m, RotateTransport(y)), c, y);
    e := ParentEffect(ParentEffect(Step(m, RotateTransport(y))));
    pod :| pod in m.svcs[c].pods;
  }

  /** So some run ends with such a pod too. */
  lemma SomeMiddleSecretStranded() returns (ss: seq<State>, acts: seq<Action>, pod: nat)
    ensures IsRun(ss, acts) && !ss[|acts|].cr.deleting && Stranded(ss[|acts|], Share("nfs"), pod)
  {
    hide Steady, Quiescent, AtGate, Converged, Stranded;
    ss, acts := SomeRunConverges();
    AtGateWhenQuiet(ss[|acts|]);
    var e;
    e, pod := TwoFreshRotations(ss[|acts|], Share("nfs"));
    LeadsExtendsRun(ss, acts, e);
    ss, acts :| IsRun(ss, acts) && ss[|acts|] == e;
  }

  lemma AtGateWhenQuiet(s: State)
    requires Steady(s) && Quiescent(s)
    ensures AtGate(s)
  {
    assert Effect(s, TheParent) == s;
    ParentStaysIffSettled(s);
  }

  lemma TwoFreshRotations(s: State, c: ServiceId) returns (e: State, pod: nat)
    requires Steady(s) && AtGate(s) && Converged(s) && c in s.cr.services && s.cr.services[c].replicas > 0
    ensures Leads(s, e) && !e.cr.deleting && Stranded(e, c, pod)
  {
    hide Steady, AtGate, Converged, Stranded, Leads;
    var x := FreshName(s.issued + s.issuedN);
    var y := FreshName(s.issued + s.issuedN + {x});
    var m;
    m, e, pod := MiddleSecretStranded(s, c, x, y);
    LeadsTrans(s, m, e);
  }
}
