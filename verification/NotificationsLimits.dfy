/** What the code does not give for notifications.  Switched off before their secret was
    tracked, they leave their TransportURL behind, and pods that have read the secret lose it.
    Switched off after it was tracked they lose it too: a service that had applied "no
    notifications" before still says so while its pods read the secret, and the guard
    believes it. */
module NotificationsLimits {
  import opened Options
  import opened RotationState
  import opened RotationSteps
  import opened RotationSafety
  import opened RotationEffects
  import opened RotationActors
  import opened RotationFixpoint
  import opened Convergence
  import opened RotationRuns
  import opened RotationLimits
  import opened NotificationsTeardown

  // ---------------------------------------------------------------- switching notifications on

  /** A converged state without notifications. */
  ghost predicate Off(s: State) {
    Steady(s) && AtGate(s) && Converged(s) && !s.cr.notifOn
  }

  /** The state that differs from s in notifications only: the TransportURL holds n, which
      nobody tracks yet. */
  ghost predicate SwitchedOn(s: State, r: State, n: Name) {
    && r == s.(cr := s.cr.(notifOn := true, trackedN := r.cr.trackedN), notifUrl := Some(n),
               issuedN := s.issuedN + {n}, secrets := WithSecret(s.secrets, n))
    && Value(r.cr.trackedN) == ""
  }

  /** The first reconcile with notifications on, up to the wait for the TransportURL. */
  lemma FirstWait(s: State)
    requires CanReconcile(s.(cr := s.cr.(notifOn := false))) && s.cr.notifOn && s.notifUrl == None
    requires s.cr.tracked == s.url && Holds(s.secrets, s.url, TransportConsumer)
    requires Value(s.cr.trackedN) == ""
    ensures Leads(s, s.(cr := s.cr.(trackedN := Some("")), notifUrl := Some("")))
  {
    AddHeld(s.secrets, s.url, TransportConsumer);
    LeadsRefl(s);
    LeadsStart(s, s);
    LeadsAdvance(s, DoStart(s));
    LeadsAdvance(s, DoReadTransport(DoStart(s)));
    var a := s.(parent := Running(ReadNotif, s.cr, s.url, "", true));
    assert DoPinTransport(DoReadTransport(DoStart(s))) == a;
    WaitsForUrl(s, a);
  }

  lemma WaitsForUrl(s: State, a: State)
    requires Leads(s, a) && s.cr.notifOn && s.notifUrl == None && Value(s.cr.trackedN) == "" && s.parent.Idle?
    requires a == s.(parent := Running(ReadNotif, s.cr, s.url, "", true))
    ensures Leads(s, s.(cr := s.cr.(trackedN := Some("")), notifUrl := Some("")))
  {
    var inst := s.cr.(trackedN := Some(""));
    var b := s.(parent := Running(ReadNotif, inst, s.url, "", true));
    if s.cr.trackedN.None? {
      LeadsAdvance(s, a);
      assert DoReadNotif(a) == b;
    } else {
      assert a == b;
    }
    LeadsAdvance(s, b);
    LeadsAdvance(s, DoReadNotif(b));
    assert DoReadNotif(DoReadNotif(b)) == s.(cr := inst, notifUrl := Some(""));
  }

  lemma SwitchOn(s: State, n: Name) returns (r: State)
    requires Off(s) && n != "" && n !in s.issued && n !in s.issuedN
    ensures Leads(s, r) && Steady(r) && SwitchedOn(s, r, n)
  {
    var s1 := Step(s, ToggleNotif(true));
    LeadsRefl(s);
    LeadsStep(s, s, ToggleNotif(true));
    var s2 := s1;
    if s1.notifUrl.None? {
      assert s1.(cr := s1.cr.(notifOn := false)) == s;
      FirstWait(s1);
      s2 := s1.(cr := s1.cr.(trackedN := Some("")), notifUrl := Some(""));
      LeadsTrans(s, s1, s2);
    }
    LeadsStep(s, s2, IssueNotif(n));
    r := Step(s2, IssueNotif(n));
    LeadsInv(s, r);
  }

  // ---------------------------------------------------------------- the TransportURL that stays

  /** Notifications are off, nothing is tracked, and the TransportURL is there. */
  ghost predicate Untracked(s: State, n: Name) {
    Steady(s) && !s.cr.notifOn && Value(s.cr.trackedN) == "" && s.notifUrl == Some(n)
  }

  lemma SwitchedOff(s: State, n: Name) returns (q: State)
    requires Off(s) && n != "" && n !in s.issued && n !in s.issuedN
    ensures Leads(s, q) && Untracked(q, n) && SameInputs(s, q)
  {
    var r := SwitchOn(s, n);
    LeadsStep(s, r, ToggleNotif(false));
    q := Step(r, ToggleNotif(false));
    LeadsInv(s, q);
  }

  lemma ParentUntracked(s: State, n: Name)
    requires Untracked(s, n)
    ensures ParentEffect(s).notifUrl == Some(n) && Value(ParentEffect(s).cr.trackedN) == ""
    ensures !ParentEffect(s).cr.notifOn
  {
    PreparedFrame(s);
    var p := Prepared(s);
    if p.parent.Running? { RolledOutShape(p); }
  }

  lemma EffectUntracked(s: State, actor: Actor, n: Name)
    requires Untracked(s, n)
    ensures Untracked(Effect(s, actor), n)
  {
    EffectDescends(s, actor);
    if actor.TheParent? { ParentUntracked(s, n); }
    hide ParentEffect;
  }

  lemma {:induction false} AfterUntracked(s: State, actors: seq<Actor>, n: Name)
    requires Untracked(s, n)
    ensures Untracked(After(s, actors), n)
    decreases |actors|
  {
    if actors != [] {
      EffectDescends(s, actors[0]);
      EffectUntracked(s, actors[0], n);
      AfterUntracked(Effect(s, actors[0]), actors[1..], n);
    }
  }

  lemma {:induction false} RoundsUntracked(s: State, rounds: seq<seq<Actor>>, n: Name)
    requires Untracked(s, n)
    ensures Untracked(AfterRounds(s, rounds), n)
    decreases |rounds|
  {
    if rounds != [] {
      AfterDescends(s, rounds[0]);
      AfterUntracked(s, rounds[0], n);
      RoundsUntracked(After(s, rounds[0]), rounds[1..], n);
    }
  }

  /** From any converged state without notifications: switch them on, let their TransportURL
      get its secret, and switch them off before a reconcile tracks it.  Whatever rounds
      follow, all converges, nothing more will happen, and the TransportURL is still there. */
  lemma UrlLeftBehind(s: State, n: Name) returns (q: State)
    requires Off(s) && n != "" && n !in s.issued && n !in s.issuedN
    ensures Leads(s, q) && Steady(q) && SameInputs(s, q)
    ensures forall rounds: seq<seq<Actor>> |
              (forall i | 0 <= i < |rounds| :: IsRound(q, rounds[i])) && |rounds| >= Measure(q) ::
              var e := AfterRounds(q, rounds);
              Leads(s, e) && Steady(e) && Quiescent(e) && Converged(e) && !e.cr.notifOn && e.notifUrl == Some(n)
  {
    q := SwitchedOff(s, n);
    forall rounds: seq<seq<Actor>> |
        (forall i | 0 <= i < |rounds| :: IsRound(q, rounds[i])) && |rounds| >= Measure(q)
      ensures var e := AfterRounds(q, rounds);
              Leads(s, e) && Steady(e) && Quiescent(e) && Converged(e) && !e.cr.notifOn && e.notifUrl == Some(n)
    {
      RoundsConverge(q, rounds);
      RoundsUntracked(q, rounds, n);
      LeadsTrans(s, q, AfterRounds(q, rounds));
    }
  }

  /** The converged run with a share is such a state. */
  lemma SomeOff() returns (ss: seq<State>, acts: seq<Action>, n: Name)
    ensures IsRun(ss, acts) && Off(ss[|acts|]) && ss[|acts|].cr.services == Empty().cr.services
    ensures n != "" && n !in ss[|acts|].issued && n !in ss[|acts|].issuedN
  {
    ss, acts := SomeRunConverges();
    AtGateWhenQuiet(ss[|acts|]);
    n := FreshName(ss[|acts|].issued + ss[|acts|].issuedN);
  }

  /** So some run from an empty namespace ends that way. */
  lemma SomeUrlLeftBehind() returns (ss: seq<State>, acts: seq<Action>, n: Name)
    ensures IsRun(ss, acts) && Steady(ss[|acts|]) && Quiescent(ss[|acts|]) && Converged(ss[|acts|])
    ensures !ss[|acts|].cr.notifOn && ss[|acts|].notifUrl == Some(n) && n != ""
  {
    ss, acts, n := SomeOff();
    var q := UrlLeftBehind(ss[|acts|], n);
    var rounds := SomeRounds(q, Measure(q));
    var e := AfterRounds(q, rounds);
    hide Off, Converged, Quiescent, Steady, Leads;
    LeadsExtendsRun(ss, acts, e);
    ss, acts :| IsRun(ss, acts) && ss[|acts|] == e;
  }

  // ---------------------------------------------------------------- pods that have read the secret

  /** A pod of a service in the spec that reads a notifications secret nobody holds. */
  predicate Deafened(s: State, c: ServiceId, pod: nat) {
    && c in s.cr.services && c in s.svcs && pod in s.svcs[c].pods && s.svcs[c].pods[pod].cred.n != ""
    && !Holds(s.secrets, s.svcs[c].pods[pod].cred.n, TransportConsumer)
  }

  /** The service says that it has applied the current messaging name without notifications,
      and has all its pods. */
  predicate Claims(k: Service, t: Name, tmpl: Template) {
    && k.versions != [] && k.live && k.run.Resting? && !Last(k).deleting
    && Last(k).applied == Some(Pair(t, "")) && Last(k).spec.t == t && Last(k).spec.tmpl == tmpl
    && Last(k).ready == tmpl.replicas == |k.pods|
  }

  predicate ClaimsAt(s: State, c: ServiceId) {
    c in s.cr.services && c in s.svcs && Claims(s.svcs[c], s.url, s.cr.services[c])
  }

  lemma ConvergedClaims(s: State, c: ServiceId)
    requires Off(s) && c in s.cr.services
    ensures ClaimsAt(s, c) && forall i | i in s.svcs[c].pods :: s.svcs[c].pods[i].tmpl.n == ""
  {
    assert RunsCurrent(s, c);
  }

  /** Two reconciles and a rollout: the pods read configuration cfg, and the service still
      claims what it claimed before. */
  lemma FreshRollout(k: Service, cfg: Config, secrets: map<Name, set<Finalizer>>, t: Name, tmpl: Template)
    requires Claims(k, t, tmpl) && Readable(Last(k), Some(cfg), secrets) && tmpl.replicas > 0
    requires forall i | i in k.pods :: k.pods[i].tmpl != InputOf(Last(k), cfg)
    ensures var k1 := ServiceTurn(k, Some(cfg), secrets);
            && k1.versions != [] && k1.live
            && var k2 := ServiceTurn(k1, Some(cfg), secrets);
            && k2.versions != [] && k2.live
            && var k3 := PodsEffect(k2);
            && Claims(k3, t, tmpl) && Last(k3).spec == Last(k).spec
            && forall i | i in k3.pods :: k3.pods[i].cred == cfg
  {
    FirstClaim(k, cfg, secrets, t, tmpl);
    SecondClaim(ServiceTurn(k, Some(cfg), secrets), cfg, secrets, t, tmpl);
    hide ServiceTurn;
  }

  lemma FirstClaim(k: Service, cfg: Config, secrets: map<Name, set<Finalizer>>, t: Name, tmpl: Template)
    requires Claims(k, t, tmpl) && Readable(Last(k), Some(cfg), secrets) && tmpl.replicas > 0
    requires forall i | i in k.pods :: k.pods[i].tmpl != InputOf(Last(k), cfg)
    ensures var k1 := ServiceTurn(k, Some(cfg), secrets);
            && Claims(k1, t, tmpl) && Last(k1).spec == Last(k).spec && k1.pods == k.pods
            && Last(k1).hash == Some(InputOf(Last(k), cfg))
  {
    assert k.pods != map[];
  }

  lemma SecondClaim(k: Service, cfg: Config, secrets: map<Name, set<Finalizer>>, t: Name, tmpl: Template)
    requires Claims(k, t, tmpl) && Readable(Last(k), Some(cfg), secrets) && tmpl.replicas > 0
    requires forall i | i in k.pods :: k.pods[i].tmpl != InputOf(Last(k), cfg)
    requires Last(k).hash == Some(InputOf(Last(k), cfg))
    ensures var k2 := ServiceTurn(k, Some(cfg), secrets);
            && k2.versions != [] && k2.live && Claims(PodsEffect(k2), t, tmpl)
            && Last(PodsEffect(k2)).spec == Last(k).spec
            && forall i | i in PodsEffect(k2).pods :: PodsEffect(k2).pods[i].cred == cfg
  {
    assert k.pods != map[];
  }

  /** One pushed service moves to the current configuration. */
  lemma MovesOver(s: State, c: ServiceId) returns (m: State)
    requires Steady(s) && AtGate(s) && Pushed(s, c) && ClaimsAt(s, c) && s.cr.services[c].replicas > 0
    requires forall i | i in s.svcs[c].pods :: s.svcs[c].pods[i].tmpl != InputOf(Last(s.svcs[c]), WantedConfig(s))
    ensures Leads(s, m) && Steady(m) && ClaimsAt(m, c) && m == s.(svcs := s.svcs[c := m.svcs[c]])
    ensures Last(m.svcs[c]).spec == Last(s.svcs[c]).spec
    ensures forall i | i in m.svcs[c].pods :: m.svcs[c].pods[i].cred == WantedConfig(s)
  {
    hide ServiceTurn, Inv;
    var k := s.svcs[c];
    FreshRollout(k, WantedConfig(s), s.secrets, s.url, s.cr.services[c]);
    var k1 := ServiceTurn(k, s.cfg, s.secrets);
    var k2 := ServiceTurn(k1, s.cfg, s.secrets);
    TurnSteady(s, c);
    TurnSteady(Put(s, c, k1), c);
    assert Put(Put(s, c, k1), c, k2) == Put(s, c, k2);
    LeadsTrans(s, Put(s, c, k1), Put(s, c, k2));
    PodsSteady(Put(s, c, k2), c);
    m := Put(s, c, PodsEffect(k2));
    assert Put(Put(s, c, k2), c, PodsEffect(k2)) == m;
    LeadsTrans(s, Put(s, c, k2), m);
  }

  // ---------------------------------------------------------------- pushes

  /** A push keeps what a service claims, and leaves the desired spec. */
  lemma PushKeepsClaim(f: State, c: ServiceId)
    requires CanReconcile(f) && AtGate(f) && ClaimsAt(f, c)
    ensures Prepared(f).parent.Running? && Prepared(f).parent.inst.services == f.cr.services
    ensures Claims(DeployedService(Prepared(f), c), f.url, f.cr.services[c])
    ensures Last(DeployedService(Prepared(f), c)).spec == ServiceSpec(f.url, NotifName(f), f.cr.services[c])
    ensures DeployedService(Prepared(f), c).pods == f.svcs[c].pods
  {
    FullPass(f);
  }

  /** While a service still has another spec, a push is not ready. */
  lemma PushNotReady(f: State, c: ServiceId)
    requires CanReconcile(f) && AtGate(f) && Present(f, c) && ServiceOk(f.svcs[c])
    requires Last(f.svcs[c]).spec.n != NotifName(f)
    ensures Prepared(f).parent.Running? && !RolledOut(Prepared(f)).parent.ready
  {
    FullPass(f);
    var p := Prepared(f);
    RolledOutReady(p);
    assert f.svcs[c].versions[|f.svcs[c].versions| - 1] == Last(f.svcs[c]);
    assert !Matches(DeployObject(DoPinAC(p), c, Fresh(DoPinAC(p), c)), p.parent.cur, p.parent.curN);
  }

  /** What such a push does to a service and to notifications. */
  lemma UnreadyPush(f: State, c: ServiceId)
    requires CanReconcile(f) && AtGate(f) && ClaimsAt(f, c) && ServiceOk(f.svcs[c]) && f.cr.tracked != ""
    requires Last(f.svcs[c]).spec.n != NotifName(f)
    ensures CanReconcile(ParentEffect(f)) && AtGate(ParentEffect(f)) && SameInputs(f, ParentEffect(f))
    ensures ClaimsAt(ParentEffect(f), c) && Pushed(ParentEffect(f), c)
    ensures ParentEffect(f).svcs[c].pods == f.svcs[c].pods
    ensures Value(ParentEffect(f).cr.trackedN) ==
              if Value(f.cr.trackedN) == "" then NotifName(f) else Value(f.cr.trackedN)
    ensures ParentEffect(f).cr.tracked == f.cr.tracked
  {
    ParentFrame(f);
    FullPass(f);
    PushKeepsClaim(f, c);
    PushNotReady(f, c);
    EffectAt(f, c);
    UnreadyParent(f);
    EndedFrame(RolledOut(Prepared(f)));
    hide DeployedService;
  }

  ghost predicate AllClaim(s: State) { forall c | c in s.cr.services :: ClaimsAt(s, c) }

  /** Every service of the spec has been asked to use notifications secret n, "" for none. */
  ghost predicate Asked(s: State, n: Name) {
    AllClaim(s) && forall c | c in s.cr.services :: Last(s.svcs[c]).spec.n == n
  }

  ghost predicate SamePods(s: State, s': State) {
    forall c | c in s.cr.services && c in s.svcs :: c in s'.svcs && s'.svcs[c].pods == s.svcs[c].pods
  }

  /** The gate, and then an unready push of another notifications name. */
  lemma AsksAgain(s: State, n: Name, c: ServiceId)
    requires Steady(s) && Asked(s, n) && NotifName(s) != n && s.cr.tracked != "" && c in s.cr.services
    requires s.cr.hash != Some(WantedConfig(s))
    ensures var f := ParentEffect(s);
            && Leads(s, f) && Steady(f) && SameInputs(s, f) && AtGate(f) && Asked(f, n) && f.svcs == s.svcs
            && f.secrets == Pinned(s) && f.cr.tracked == s.cr.tracked && Value(f.cr.trackedN) == Value(s.cr.trackedN)
            && !RolledOut(Prepared(f)).parent.ready
    ensures PushAsks(s, ParentEffect(ParentEffect(s)))
  {
    FirstPass(s);
    var f := ParentEffect(s);
    EffectLeads(s, TheParent);
    ParentKeepsSteady(s);
    AskedStill(s, f, n);
    assert ClaimsAt(f, c) && ServiceOk(f.svcs[c]);
    PushNotReady(f, c);
    AsksNow(f, n, c);
    LeadsTrans(s, f, ParentEffect(f));
  }

  lemma AskedStill(s: State, f: State, n: Name)
    requires Asked(s, n) && f.svcs == s.svcs && f.url == s.url && f.cr.services == s.cr.services
    ensures Asked(f, n) && SamePods(s, f)
  {
    forall c | c in f.cr.services ensures ClaimsAt(f, c) && Last(f.svcs[c]).spec.n == n { assert ClaimsAt(s, c); }
  }

  ghost predicate PushAsks(s: State, e: State) {
    && Leads(s, e) && Steady(e) && SameInputs(s, e) && AtGate(e) && Asked(e, NotifName(s)) && AllPushed(e)
    && SamePods(s, e) && e.cr.tracked == s.cr.tracked
    && Value(e.cr.trackedN) == if Value(s.cr.trackedN) == "" then NotifName(s) else Value(s.cr.trackedN)
  }

  lemma AsksNow(f: State, n: Name, c: ServiceId)
    requires Steady(f) && AtGate(f) && Asked(f, n) && NotifName(f) != n && f.cr.tracked != "" && c in f.cr.services
    ensures PushAsks(f, ParentEffect(f))
  {
    EffectLeads(f, TheParent);
    ParentKeepsSteady(f);
    var e := ParentEffect(f);
    forall d | d in f.cr.services
      ensures d in f.svcs && d in e.svcs && ClaimsAt(e, d) && Pushed(e, d) && e.svcs[d].pods == f.svcs[d].pods
    {
      assert ClaimsAt(f, d) && ServiceOk(f.svcs[d]);
      UnreadyPush(f, d);
    }
    UnreadyNames(f, c);
  }

  lemma UnreadyNames(f: State, c: ServiceId)
    requires Steady(f) && AtGate(f) && ClaimsAt(f, c) && f.cr.tracked != ""
    requires Last(f.svcs[c]).spec.n != NotifName(f)
    ensures Value(ParentEffect(f).cr.trackedN) ==
              if Value(f.cr.trackedN) == "" then NotifName(f) else Value(f.cr.trackedN)
    ensures ParentEffect(f).cr.tracked == f.cr.tracked
  {
    assert ServiceOk(f.svcs[c]);
    UnreadyPush(f, c);
  }

  // ---------------------------------------------------------------- a stale claim

  /** Notifications are on and pushed, and their secret n is pinned. */
  ghost predicate Using(s: State, n: Name) {
    && Steady(s) && AtGate(s) && AllPushed(s) && Asked(s, n) && NotifName(s) == n != "" && s.cr.notifOn
    && Holds(s.secrets, n, TransportConsumer) && s.cr.tracked != ""
  }

  lemma Tracked(s: State, n: Name, c: ServiceId) returns (e: State)
    requires Off(s) && n != "" && n !in s.issued && n !in s.issuedN && c in s.cr.services
    ensures Leads(s, e) && Using(e, n) && Value(e.cr.trackedN) == n && SamePods(s, e)
    ensures e.cr.services == s.cr.services
  {
    var r := SwitchOn(s, n);
    AskedAtFirst(s, r, n);
    AsksAgain(r, "", c);
    e := ParentEffect(ParentEffect(r));
    UnreadyPassKeeps(ParentEffect(r), n);
    LeadsTrans(s, r, e);
  }

  lemma AskedAtFirst(s: State, r: State, n: Name)
    requires Off(s) && Steady(r) && SwitchedOn(s, r, n) && n != ""
    ensures Asked(r, "") && SamePods(s, r) && NotifName(r) == n && r.cr.hash != Some(WantedConfig(r))
    ensures r.cr.tracked == s.url == s.cr.tracked != ""
  {
    forall c | c in r.cr.services ensures ClaimsAt(r, c) && Last(r.svcs[c]).spec.n == "" {
      ConvergedClaims(s, c);
      assert RunsCurrent(s, c);
    }
  }

  /** Service c moves over. */
  lemma MovedOver(s: State, n: Name, c: ServiceId) returns (m: State)
    requires Using(s, n) && c in s.cr.services && s.cr.services[c].replicas > 0
    requires forall i | i in s.svcs[c].pods :: s.svcs[c].pods[i].tmpl.n == ""
    ensures Leads(s, m) && Steady(m) && ClaimsAt(m, c) && m == s.(svcs := s.svcs[c := m.svcs[c]])
    ensures Last(m.svcs[c]).spec.n == n && m.svcs[c].pods != map[]
    ensures forall i | i in m.svcs[c].pods :: m.svcs[c].pods[i].cred.n == n
  {
    AskedOne(s, n, c);
    assert Pushed(s, c);
    hide Inv, Steady, Converged, Asked, AllPushed;
    m := MovesOver(s, c);
    assert m.svcs[c].pods != map[];
  }

  lemma LeadsOff(s: State, m: State)
    requires Leads(s, m)
    ensures Leads(s, m.(cr := m.cr.(notifOn := false)))
  {
    LeadsStep(s, m, ToggleNotif(false));
  }

  /** And notifications go off. */
  lemma MovedBack(s: State, n: Name, c: ServiceId) returns (q: State)
    requires Using(s, n) && c in s.cr.services && s.cr.services[c].replicas > 0
    requires forall i | i in s.svcs[c].pods :: s.svcs[c].pods[i].tmpl.n == ""
    ensures Leads(s, q) && Steady(q) && Asked(q, n) && NotifName(q) == "" && q.cr.hash != Some(WantedConfig(q))
    ensures q.cr == s.cr.(notifOn := false) && q.secrets == s.secrets && q.url == s.url && q.issuedN == s.issuedN
    ensures c in q.svcs && q.svcs[c].pods != map[] && forall i | i in q.svcs[c].pods :: q.svcs[c].pods[i].cred.n == n
  {
    var m := MovedOver(s, n, c);
    hide Inv, Steady, Converged, Asked, AllPushed, ClaimsAt, AtGate, WantedConfig, Using, Leads, NotifName;
    q := m.(cr := m.cr.(notifOn := false));
    LeadsOff(s, m);
    SwitchedBack(s, m, q, n, c);
  }

  /** Then that is pushed. */
  lemma MovedAndOff(s: State, n: Name, c: ServiceId) returns (e: State)
    requires Using(s, n) && c in s.cr.services && s.cr.services[c].replicas > 0
    requires Value(s.cr.trackedN) == n && forall i | i in s.svcs[c].pods :: s.svcs[c].pods[i].tmpl.n == ""
    ensures Leads(s, e) && Steady(e) && AtGate(e) && AllPushed(e) && Asked(e, "") && !e.cr.notifOn
    ensures e.cr.services == s.cr.services && c in e.svcs && e.svcs[c].pods != map[]
    ensures forall i | i in e.svcs[c].pods :: e.svcs[c].pods[i].cred.n == n
    ensures Value(e.cr.trackedN) == n && Holds(e.secrets, n, TransportConsumer)
  {
    var q := MovedBack(s, n, c);
    AsksAgain(q, n, c);
    e := ParentEffect(ParentEffect(q));
    AskedKeepsPin(q, n);
    LeadsTrans(s, q, e);
    hide Asked, Leads, AllPushed;
  }

  lemma SwitchedBack(s: State, m: State, q: State, n: Name, c: ServiceId)
    requires Using(s, n) && c in s.cr.services && Steady(m) && ClaimsAt(m, c)
    requires m == s.(svcs := s.svcs[c := m.svcs[c]]) && Last(m.svcs[c]).spec.n == n
    requires q == m.(cr := m.cr.(notifOn := false))
    ensures Steady(q) && Asked(q, n) && NotifName(q) == "" && q.cr.hash != Some(WantedConfig(q))
  {
    ToggledSteady(m);
    AskedPut(s, q, n, c);
    hide Steady, Asked, ClaimsAt, AllPushed;
  }

  lemma AskedPut(s: State, q: State, n: Name, c: ServiceId)
    requires Asked(s, n) && c in q.svcs && q.svcs == s.svcs[c := q.svcs[c]]
    requires q.url == s.url && q.cr.services == s.cr.services
    requires ClaimsAt(q, c) && Last(q.svcs[c]).spec.n == n
    ensures Asked(q, n)
  {
    assert q.svcs[c].versions != [];
    hide Claims;
    forall d | d in q.cr.services
      ensures ClaimsAt(q, d) && q.svcs[d].versions != [] && Last(q.svcs[d]).spec.n == n
    {
      if d != c { AskedOne(s, n, d); }
    }
  }

  lemma AskedOne(s: State, n: Name, c: ServiceId)
    requires Asked(s, n) && c in s.cr.services
    ensures ClaimsAt(s, c) && s.svcs[c].versions != [] && Last(s.svcs[c]).spec.n == n
  {
  }

  lemma ToggledSteady(m: State)
    requires Steady(m) && m.cr.notifOn
    ensures Steady(m.(cr := m.cr.(notifOn := false)))
  {
    StepInv(m, ToggleNotif(false));
  }

  /** An unready push keeps the tracked secret. */
  lemma AskedKeepsPin(q: State, n: Name)
    requires CanReconcile(q) && CanReconcile(ParentEffect(q)) && AtGate(ParentEffect(q)) && n != ""
    requires !RolledOut(Prepared(ParentEffect(q))).parent.ready
    requires ParentEffect(q).secrets == Pinned(q) && Holds(q.secrets, n, TransportConsumer)
    requires Value(ParentEffect(q).cr.trackedN) == n && ParentEffect(q).cr.tracked != ""
    ensures Holds(ParentEffect(ParentEffect(q)).secrets, n, TransportConsumer)
  {
    hide ParentEffect;
    UnreadyPassKeeps(ParentEffect(q), n);
  }

  // ---------------------------------------------------------------- every service looks once

  ghost function TurnedTo(s: State, done: set<ServiceId>): State
    requires forall c | c in done :: Present(s, c) && s.svcs[c].versions != []
  {
    s.(svcs := map c | c in s.svcs :: if c in done then ServiceTurn(s.svcs[c], s.cfg, s.secrets) else s.svcs[c])
  }

  lemma {:induction false} AllTurn(s: State, done: set<ServiceId>)
    requires Steady(s) && forall c | c in done :: Present(s, c) && s.svcs[c].versions != []
    ensures Steady(TurnedTo(s, done)) && Leads(s, TurnedTo(s, done))
    decreases |done|
  {
    hide Steady, Leads, ServiceTurn, Present;
    if done == {} {
      assert TurnedTo(s, {}).svcs == s.svcs;
      LeadsRefl(s);
    } else {
      var c :| c in done;
      AllTurn(s, done - {c});
      OneMoreTurn(s, done - {c}, c);
      assert done - {c} + {c} == done;
    }
  }

  lemma OneMoreTurn(s: State, done: set<ServiceId>, c: ServiceId)
    requires forall d | d in done + {c} :: Present(s, d) && s.svcs[d].versions != []
    requires Steady(TurnedTo(s, done)) && Leads(s, TurnedTo(s, done)) && c !in done
    ensures Steady(TurnedTo(s, done + {c})) && Leads(s, TurnedTo(s, done + {c}))
  {
    hide Steady, Leads, ServiceTurn;
    var m := TurnedTo(s, done);
    assert c in done + {c};
    assert Present(s, c) && m.svcs[c] == s.svcs[c];
    TurnSteady(m, c);
    assert TurnedTo(s, done + {c}).svcs == m.svcs[c := ServiceTurn(s.svcs[c], s.cfg, s.secrets)];
    LeadsTrans(s, m, TurnedTo(s, done + {c}));
  }

  /** A service that claims what it is asked for matches as soon as it has looked at its spec,
      whatever its pods run. */
  lemma ClaimMatches(k: Service, cfg: Option<Config>, secrets: map<Name, set<Finalizer>>, t: Name, tmpl: Template)
    requires Claims(k, t, tmpl) && Last(k).spec.n == ""
    ensures var k1 := ServiceTurn(k, cfg, secrets);
            && k1.versions != [] && k1.live && Last(k1).spec == Last(k).spec && Matches(Last(k1), t, "")
            && k1.pods == k.pods
  {
  }

  lemma TurnedMatches(s: State, c: ServiceId)
    requires AllPushed(s) && Asked(s, "") && NotifName(s) == "" && c in s.cr.services
    requires forall c | c in s.cr.services :: Present(s, c) && s.svcs[c].versions != []
    ensures var g := TurnedTo(s, s.cr.services.Keys);
            Pushed(g, c) && Matches(Last(g.svcs[c]), s.url, "") && g.svcs[c].pods == s.svcs[c].pods
  {
    assert ClaimsAt(s, c) && Pushed(s, c);
    ClaimMatches(s.svcs[c], s.cfg, s.secrets, s.url, s.cr.services[c]);
    hide ServiceTurn;
  }

  lemma TurnedGuard(s: State)
    requires Steady(s) && AtGate(s) && AllPushed(s) && Asked(s, "") && NotifName(s) == ""
    requires forall c | c in s.cr.services :: Present(s, c) && s.svcs[c].versions != []
    ensures var g := TurnedTo(s, s.cr.services.Keys);
            Leads(s, g) && Steady(g) && AtGate(g) && AllPushed(g) && Guard(g) && SamePods(s, g)
  {
    AllTurn(s, s.cr.services.Keys);
    var g := TurnedTo(s, s.cr.services.Keys);
    hide Steady, Leads, ServiceTurn, Asked, AtGate;
    forall c | c in s.cr.services
      ensures Pushed(g, c) && Matches(Last(g.svcs[c]), s.url, "") && g.svcs[c].pods == s.svcs[c].pods
    {
      TurnedMatches(s, c);
    }
  }

  /** Then the guard releases the tracked secret. */
  lemma GuardBelieves(s: State, n: Name, c: ServiceId) returns (e: State)
    requires Steady(s) && AtGate(s) && AllPushed(s) && Asked(s, "") && !s.cr.notifOn && c in s.cr.services
    requires n in s.issuedN && c in s.svcs
    ensures Leads(s, e) && !e.cr.deleting && !Holds(e.secrets, n, TransportConsumer)
    ensures c in e.cr.services && c in e.svcs && e.svcs[c].pods == s.svcs[c].pods
  {
    forall d | d in s.cr.services ensures Present(s, d) && s.svcs[d].versions != [] { assert Pushed(s, d); }
    TurnedGuard(s);
    var g := TurnedTo(s, s.cr.services.Keys);
    e := ParentEffect(g);
    EffectLeads(g, TheParent);
    LeadsTrans(s, g, e);
    TeardownDeletesUrl(g);
    PassKeepsServices(g);
    ParentFrame(g);
  }

  /** From any converged state without notifications in which service c wants pods: switch
      notifications on, push and track their secret, let c's pods read it, and switch them
      off.  Once every service has looked at its spec, the guard holds, and the tracked
      secret is released while c's pods read it. */
  lemma TrackedSecretStranded(s: State, n: Name, c: ServiceId) returns (m: State, e: State, pod: nat)
    requires Off(s) && n != "" && n !in s.issued && n !in s.issuedN
    requires c in s.cr.services && s.cr.services[c].replicas > 0
    ensures Leads(s, m) && Value(m.cr.trackedN) == n && Holds(m.secrets, n, TransportConsumer)
    ensures Leads(m, e) && !e.cr.deleting && Deafened(e, c, pod) && e.svcs[c].pods[pod].cred.n == n
  {
    ConvergedClaims(s, c);
    var r := Tracked(s, n, c);
    m := MovedAndOff(r, n, c);
    LeadsTrans(s, r, m);
    TrackedIssued(m, n);
    e := GuardBelieves(m, n, c);
    pod :| pod in m.svcs[c].pods;
  }

  lemma TrackedIssued(m: State, n: Name)
    requires Inv(m) && Value(m.cr.trackedN) == n != ""
    ensures n in m.issuedN
  {
  }

  // ---------------------------------------------------------------- a secret that is never tracked

  /** A reconcile that has deployed everything, and dies. */
  ghost function PushedOnly(f: State): State
    requires CanReconcile(f) && AtGate(f)
  {
    RolledOut(Prepared(f)).(parent := Idle)
  }

  lemma PushedOnlyLeads(f: State)
    requires CanReconcile(f) && AtGate(f) && Inv(f)
    ensures Leads(f, PushedOnly(f)) && Inv(PushedOnly(f))
  {
    FullPass(f);
    PreparedLeads(f);
    assert AdvanceEnabled(Prepared(f));
    RolledOutLeads(Prepared(f));
    LeadsTrans(f, Prepared(f), RolledOut(Prepared(f)));
    RolledOutShape(Prepared(f));
    LeadsOut(f, RolledOut(Prepared(f)));
    LeadsInv(f, PushedOnly(f));
  }

  lemma PushedOnlyFrame(f: State)
    requires CanReconcile(f) && AtGate(f)
    ensures var w := PushedOnly(f);
            && w == f.(secrets := PinnedAC(f), svcs := w.svcs) && w.secrets.Keys == f.secrets.Keys
            && forall c | c in w.svcs :: w.svcs[c].versions != []
    ensures forall c | c in f.cr.services ::
              c in PushedOnly(f).svcs && PushedOnly(f).svcs[c] == DeployedService(Prepared(f), c)
  {
    FullPass(f);
    RolledOutFrame(Prepared(f));
  }

  lemma PushedOnlyAt(f: State, c: ServiceId)
    requires CanReconcile(f) && AtGate(f) && c in f.cr.services && ClaimsAt(f, c)
    ensures c in PushedOnly(f).svcs && Claims(PushedOnly(f).svcs[c], f.url, f.cr.services[c])
    ensures Last(PushedOnly(f).svcs[c]).spec == ServiceSpec(f.url, NotifName(f), f.cr.services[c])
    ensures PushedOnly(f).svcs[c].pods == f.svcs[c].pods
  {
    PushedOnlyFrame(f);
    PushKeepsClaim(f, c);
    hide DeployedService, Prepared, PinnedAC, PushedOnly;
  }

  lemma PushedOnlyPins(f: State, n: Name)
    requires CanReconcile(f) && AtGate(f) && Holds(f.secrets, n, TransportConsumer)
    ensures var w := PushedOnly(f);
            Holds(w.secrets, n, TransportConsumer) && w == f.(secrets := w.secrets, svcs := w.svcs) && CanReconcile(w)
  {
    PushedOnlyFrame(f);
    hide PushedOnly, Prepared;
  }

  lemma PushedOnlyAsked(f: State, n: Name)
    requires CanReconcile(f) && AtGate(f) && Asked(f, "") && NotifName(f) == n
    requires PushedOnly(f) == f.(secrets := PushedOnly(f).secrets, svcs := PushedOnly(f).svcs)
    ensures Asked(PushedOnly(f), n) && AllPushed(PushedOnly(f)) && SamePods(f, PushedOnly(f))
  {
    var w := PushedOnly(f);
    forall c | c in f.cr.services
      ensures c in f.svcs && c in w.svcs && Claims(w.svcs[c], w.url, w.cr.services[c])
      ensures Last(w.svcs[c]).spec == ServiceSpec(w.url, n, w.cr.services[c]) && w.svcs[c].pods == f.svcs[c].pods
    {
      AskedOne(f, "", c);
      PushedOnlyAt(f, c);
    }
    hide PushedOnly, CanReconcile;
  }

  lemma PushedOnlyUses(f: State, n: Name)
    requires Steady(f) && AtGate(f) && Asked(f, "") && NotifName(f) == n != "" && f.cr.notifOn
    requires Holds(f.secrets, n, TransportConsumer) && f.cr.tracked != ""
    ensures Leads(f, PushedOnly(f)) && Using(PushedOnly(f), n) && SamePods(f, PushedOnly(f))
    ensures PushedOnly(f).cr == f.cr && PushedOnly(f).issuedN == f.issuedN
  {
    SteadyReconciles(f);
    PushedOnlyLeads(f);
    PushedOnlyPins(f, n);
    PushedOnlyAsked(f, n);
    hide PushedOnly, Inv, Leads, Steady, Asked, AllPushed, SamePods, CanReconcile;
    ClaimsSteady(PushedOnly(f), n);
  }

  lemma SteadyReconciles(f: State)
    requires Steady(f)
    ensures CanReconcile(f) && Inv(f)
  {
  }

  lemma ClaimsSteady(w: State, n: Name)
    requires Inv(w) && CanReconcile(w) && Asked(w, n)
    ensures Steady(w)
  {
    forall c | c in w.cr.services ensures ClaimsAt(w, c) {}
  }

  /** From any converged state without notifications in which service c wants pods: switch
      notifications on, push their secret in a reconcile that dies before it tracks it, let
      c's pods read it, and switch them off.  The next push, while services still have to roll
      out, strips the secret that c's pods read. */
  lemma UntrackedSecretStranded(s: State, n: Name, c: ServiceId) returns (e: State, pod: nat)
    requires Off(s) && n != "" && n !in s.issued && n !in s.issuedN
    requires c in s.cr.services && s.cr.services[c].replicas > 0
    ensures Leads(s, e) && !e.cr.deleting && Deafened(e, c, pod) && e.svcs[c].pods[pod].cred.n == n
  {
    ConvergedClaims(s, c);
    var w := NeverTracked(s, n, c);
    var q := MovedBack(w, n, c);
    AsksAgain(q, n, c);
    e := ParentEffect(ParentEffect(q));
    NeverKept(q, n);
    LeadsTrans(s, w, q);
    LeadsTrans(s, q, e);
    pod :| pod in q.svcs[c].pods;
  }

  lemma NeverTracked(s: State, n: Name, c: ServiceId) returns (w: State)
    requires Off(s) && n != "" && n !in s.issued && n !in s.issuedN && c in s.cr.services
    ensures Leads(s, w) && Using(w, n) && Value(w.cr.trackedN) == "" && SamePods(s, w)
    ensures w.cr.services == s.cr.services && n in w.issuedN
  {
    var r := SwitchOn(s, n);
    AskedAtFirst(s, r, n);
    AsksAgain(r, "", c);
    ParentKeepsIssued(r);
    var f := ParentEffect(r);
    LeadsTrans(s, r, f);
    PushedOnlyUses(f, n);
    w := PushedOnly(f);
    LeadsTrans(s, f, w);
  }

  /** An unready push strips a secret that is not tracked. */
  lemma NeverKept(q: State, n: Name)
    requires Inv(q) && CanReconcile(q) && CanReconcile(ParentEffect(q)) && AtGate(ParentEffect(q)) && n in q.issuedN
    requires !RolledOut(Prepared(ParentEffect(q))).parent.ready
    requires !ParentEffect(q).cr.notifOn && NamesOk(ParentEffect(q))
    requires ParentEffect(q).secrets == Pinned(q) && Holds(q.secrets, n, TransportConsumer)
    requires Value(ParentEffect(q).cr.trackedN) == "" && ParentEffect(q).cr.tracked != ""
    ensures !Holds(ParentEffect(ParentEffect(q)).secrets, n, TransportConsumer)
  {
    ParentKeepsIssued(q);
    hide ParentEffect;
    OnlyTrackedIsDeferred(ParentEffect(q), n);
  }

  // ---------------------------------------------------------------- runs

  /** Both happen in runs from an empty namespace, with the pod of a share. */
  lemma SomeTrackedSecretStranded() returns (ss: seq<State>, acts: seq<Action>, pod: nat)
    ensures IsRun(ss, acts) && !ss[|acts|].cr.deleting && Deafened(ss[|acts|], Share("nfs"), pod)
  {
    var n;
    ss, acts, n := SomeOff();
    var m, e;
    m, e, pod := TrackedSecretStranded(ss[|acts|], n, Share("nfs"));
    hide Off, Leads, Deafened;
    LeadsTrans(ss[|acts|], m, e);
    LeadsExtendsRun(ss, acts, e);
    ss, acts :| IsRun(ss, acts) && ss[|acts|] == e;
  }

  lemma SomeUntrackedSecretStranded() returns (ss: seq<State>, acts: seq<Action>, pod: nat)
    ensures IsRun(ss, acts) && !ss[|acts|].cr.deleting && Deafened(ss[|acts|], Share("nfs"), pod)
  {
    var n;
    ss, acts, n := SomeOff();
    var e;
    e, pod := UntrackedSecretStranded(ss[|acts|], n, Share("nfs"));
    hide Off, Leads, Deafened;
    LeadsExtendsRun(ss, acts, e);
    ss, acts :| IsRun(ss, acts) && ss[|acts|] == e;
  }
}
