/** Convergence without undisturbed reconciles: infinite behaviours in which every atomic step
    of the parent, the services and the pods interleaves with the others, reconciles fail and
    crash, and whatever was in flight at the beginning goes on.  If the environment rests,
    the caches are up to date and each controller comes to the end of a reconcile again and
    again, the behaviour converges and stays converged. */
module RotationFairness {
  import opened Options
  import opened RotationState
  import opened RotationSteps
  import opened RotationSafety
  import opened RotationLedger
  import opened RotationEffects
  import opened RotationActors
  import opened RotationFixpoint
  import opened Convergence

  // ---------------------------------------------------------------- calm behaviours

  predicate RolledOver(k: Service) { k.versions != [] && Rolled(k) }

  /** The caches are up to date. */
  predicate FreshRead(s: State, c: ServiceId, snap: Snapshot)
    requires s.parent.Running? && DeployEnabled(s, c, snap)
  {
    (c in s.svcs ==> s.svcs[c].versions != []) && snap == Fresh(s, c)
  }

  /** A reconcile that read the spec with notifications off takes the TransportURL of
      notifications that have been switched on meanwhile. */
  predicate LateTeardown(s: State, a: Action) {
    s.cr.notifOn && a.Advance? && s.parent.Running? && s.parent.pc.DropNotifUrl?
  }

  /** Any step of a controller or of a pod, errors and crashes included, as long as reads are
      current, a rollout that is complete is reported, and a StatefulSet that is rolled out
      keeps its pods. */
  predicate Regular(s: State, a: Action) {
    Enabled(s, a) &&
    match a
    case Start | Advance | CleanupOne(_) | PruneOne(_) | Exit | Crash => true
    case DeployOne(c, snap) => FreshRead(s, c, snap)
    case ServiceStart(c, j) => j == |s.svcs[c].versions| - 1
    case ServiceCheck(c, ready, rolled) => ready == |s.svcs[c].pods| && (RolledOver(s.svcs[c]) ==> rolled)
    case ServiceAdvance(_) | ServiceExit(_) | ServiceCrash(_) | ServiceGone(_) => true
    case PodStart(c, i) => RolledOver(s.svcs[c]) ==> RolledOver(PodStarted(s.svcs[c], i))
    case PodRestart(_, _) => true
    case PodStop(c, _) => !RolledOver(s.svcs[c])
    case _ => false
  }

  predicate Calm(s: State, a: Action) { Regular(s, a) && !LateTeardown(s, a) }

  predicate Follows(f: nat -> State, a: nat -> Action, i: nat) {
    Calm(f(i), a(i)) && f(i + 1) == Step(f(i), a(i))
  }

  ghost predicate Behaves(f: nat -> State, a: nat -> Action) {
    forall i: nat :: Follows(f, a, i)
  }

  // ---------------------------------------------------------------- fairness

  /** A parent reconcile comes to its end: it has done everything, or it has recorded a new
      input hash. */
  predicate ParentEnds(s: State, a: Action) {
    s.parent.Running? &&
    ((a.Exit? && s.parent.pc.Complete?) || (a.Advance? && s.parent.pc.HashGate? && s.parent.inst.hash != s.cfg))
  }

  /** A service reconcile is about to end, having done everything or found a new input hash. */
  predicate Ending(k: Service) {
    k.versions != [] && k.run.Reconciling? &&
    (k.run.pc.Finished? ||
     (k.run.pc.Gate? &&
      k.run.inst.hash != Some(Input(k.run.inst.spec.t, k.run.inst.spec.n, k.run.pc.seen, k.run.pc.own))))
  }

  predicate ServiceEnds(s: State, a: Action, c: ServiceId) {
    c in s.svcs && Ending(s.svcs[c]) && a == if s.svcs[c].run.pc.Finished? then ServiceExit(c) else ServiceAdvance(c)
  }

  /** A reconcile of c has all that it needs. */
  predicate Servable(s: State, c: ServiceId) {
    Present(s, c) && s.svcs[c].versions != [] && !Last(s.svcs[c]).deleting &&
    Readable(Last(s.svcs[c]), s.cfg, s.secrets)
  }

  /** The StatefulSet of c is rolled out, or has a reason not to be: it is not there, or
      its template is just changing. */
  predicate RolledNow(s: State, s': State, c: ServiceId) {
    (c in s.svcs && c in s'.svcs && s.svcs[c].live && s.svcs[c].sts.Some? && s.svcs[c].cfg.Some? &&
     s'.svcs[c].sts == s.svcs[c].sts) ==> RolledOver(s.svcs[c])
  }

  predicate ParentEndsAt(f: nat -> State, a: nat -> Action, q: nat) { ParentEnds(f(q), a(q)) }

  predicate ServedAt(f: nat -> State, a: nat -> Action, c: ServiceId, q: nat) {
    Servable(f(q), c) ==> ServiceEnds(f(q), a(q), c)
  }

  predicate FreedAt(f: nat -> State, c: ServiceId, q: nat) { !Doomed(f(q), c) }

  predicate RolledAt(f: nat -> State, c: ServiceId, q: nat) { RolledNow(f(q), f(q + 1), c) }

  ghost predicate ParentEndsAfter(f: nat -> State, a: nat -> Action, n: nat) {
    exists q: nat :: q >= n && ParentEndsAt(f, a, q)
  }

  ghost predicate ServedAfter(f: nat -> State, a: nat -> Action, c: ServiceId, n: nat) {
    exists q: nat :: q >= n && ServedAt(f, a, c, q)
  }

  ghost predicate FreedAfter(f: nat -> State, c: ServiceId, n: nat) {
    exists q: nat :: q >= n && FreedAt(f, c, q)
  }

  ghost predicate RolledAfter(f: nat -> State, c: ServiceId, n: nat) {
    exists q: nat :: q >= n && RolledAt(f, c, q)
  }

  /** The parent ends reconciles again and again, and so does every service of the spec that
      can; no object stays deleted but there; no rollout stays unfinished. */
  ghost predicate Fair(f: nat -> State, a: nat -> Action) {
    && (forall n: nat :: ParentEndsAfter(f, a, n))
    && (forall c, n: nat | c in f(0).cr.services :: ServedAfter(f, a, c, n))
    && (forall c, n: nat | c in f(0).cr.services :: FreedAfter(f, c, n))
    && (forall c, n: nat | c in f(0).cr.services :: RolledAfter(f, c, n))
  }

  // ---------------------------------------------------------------- stable predicates

  ghost predicate Always(f: nat -> State, n: nat, P: State -> bool) {
    forall m: nat | m >= n :: P(f(m))
  }

  ghost predicate Stable(P: State -> bool) {
    forall s, a | P(s) && Calm(s, a) :: P(Step(s, a))
  }

  lemma {:induction false} StableUntil(f: nat -> State, a: nat -> Action, n: nat, m: nat, P: State -> bool)
    requires Behaves(f, a) && Stable(P) && P(f(n)) && n <= m
    ensures P(f(m))
    decreases m
  {
    if n < m {
      StableUntil(f, a, n, m - 1, P);
      assert Follows(f, a, m - 1);
    }
  }

  lemma Stays(f: nat -> State, a: nat -> Action, n: nat, P: State -> bool)
    requires Behaves(f, a) && Stable(P) && P(f(n))
    ensures Always(f, n, P)
  {
    forall m: nat | m >= n ensures P(f(m)) { StableUntil(f, a, n, m, P); }
  }

  // ---------------------------------------------------------------- the inputs stay

  /** What holds in every reachable state, with the inputs there. */
  ghost predicate Sound(s: State) { Inv(s) && Ledger(s) && InputsReady(s) }

  ghost predicate Kept(s: State, s': State) { SameInputs(s, s') && InputsReady(s') }

  lemma ServiceKeepsInputs(s: State, a: Action)
    requires Sound(s) && Regular(s, a) && IsServiceAction(a)
    ensures Kept(s, Step(s, a))
  {
    ServiceKeepsRest(s, a);
  }

  lemma LateAdvanceKeepsInputs(s: State)
    requires NamesOk(s) && ParentOk(s) && InputsReady(s) && AdvanceEnabled(s) && PastPinAC(s.parent.pc)
    requires !LateTeardown(s, Advance)
    ensures Kept(s, DoAdvance(s))
  {
  }

  lemma AdvanceKeepsInputs(s: State)
    requires NamesOk(s) && ParentOk(s) && InputsReady(s) && AdvanceEnabled(s) && !LateTeardown(s, Advance)
    ensures Kept(s, DoAdvance(s))
  {
    if PastPinAC(s.parent.pc) { LateAdvanceKeepsInputs(s); }
  }

  /** The inputs stay, except that a late teardown takes the notifications TransportURL; only
      the environment would issue a new one. */
  lemma InputsStayIff(s: State, a: Action)
    requires Sound(s) && Regular(s, a)
    ensures Kept(s, Step(s, a)) <==> !LateTeardown(s, a)
    ensures InputsReady(Step(s, a)) <==> !LateTeardown(s, a)
  {
    if IsServiceAction(a) { ServiceKeepsInputs(s, a); }
    else if a.Advance? && !LateTeardown(s, a) { AdvanceKeepsInputs(s); }
  }

  lemma CalmKeepsSound(s: State, a: Action)
    requires Sound(s) && Calm(s, a)
    ensures Sound(Step(s, a)) && SameInputs(s, Step(s, a))
  {
    StepInv(s, a);
    StepKeepsLedger(s, a);
    InputsStayIff(s, a);
  }

  // ---------------------------------------------------------------- the parent's stages

  /** The reconcile in flight has read the current spec and the current names, and has written
      the configuration that these ask for. */
  ghost predicate InStep(s: State) {
    s.parent.Running? ==>
      var p := s.parent;
      && Normal(p.pc)
      && p.inst.services == s.cr.services && p.inst.notifOn == s.cr.notifOn && p.inst.ac == s.cr.ac
      && (PastRead(p.pc) ==> p.cur == s.url)
      && (p.pc.PinNotif? || PastNotif(p.pc) ==> p.curN == NotifName(s))
      && (PastRender(p.pc) ==> s.cfg == Some(WantedConfig(s)))
  }

  lemma ReadingInStep(s: State)
    requires InStep(s) && ParentOk(s) && AdvanceEnabled(s) && SameInputs(s, DoAdvance(s))
    requires s.parent.pc.ReadTransport? || s.parent.pc.ReadNotif?
    ensures InStep(DoAdvance(s))
  {
  }

  lemma PinningInStep(s: State)
    requires InStep(s) && ParentOk(s) && AdvanceEnabled(s) && SameInputs(s, DoAdvance(s))
    requires s.parent.pc.PinTransport? || s.parent.pc.PinNotif? || s.parent.pc.PinAC?
    ensures InStep(DoAdvance(s))
  {
  }

  lemma RenderingInStep(s: State)
    requires InStep(s) && AdvanceEnabled(s) && SameInputs(s, DoAdvance(s))
    requires s.parent.pc.RenderConfig? || s.parent.pc.HashGate?
    ensures InStep(DoAdvance(s))
  {
  }

  ghost predicate SameTail(s: State, e: State)
    requires s.parent.Running?
  {
    && e.parent.Running? && PastPinAC(e.parent.pc) && !e.parent.pc.Deploy?
    && e.parent.cur == s.parent.cur && e.parent.curN == s.parent.curN && e.parent.ready == s.parent.ready
    && e.parent.inst.services == s.parent.inst.services && e.parent.inst.notifOn == s.parent.inst.notifOn
    && e.parent.inst.ac == s.parent.inst.ac && e.parent.inst.hash == s.parent.inst.hash
    && e.cfg == s.cfg && e.svcs == s.svcs && e.cr == s.cr
  }

  predicate Finishing(pc: ParentPc) { pc.FinishTransport? || pc.FinishNotif? || pc.DropNotifUrl? || pc.FinishAC? }

  lemma FinishFrame(s: State)
    requires AdvanceEnabled(s) && Finishing(s.parent.pc)
    ensures SameTail(s, DoAdvance(s))
  {
  }

  /** What the tail of a reconcile does not touch. */
  lemma TailFrame(s: State)
    requires AdvanceEnabled(s) && PastPinAC(s.parent.pc)
    ensures SameTail(s, DoAdvance(s))
  {
    if Finishing(s.parent.pc) { FinishFrame(s); }
  }

  lemma AdvanceInStep(s: State)
    requires InStep(s) && ParentOk(s) && AdvanceEnabled(s) && SameInputs(s, DoAdvance(s))
    ensures InStep(DoAdvance(s))
  {
    hide ParentOk;
    var pc := s.parent.pc;
    if pc.ReadTransport? || pc.ReadNotif? { ReadingInStep(s); }
    else if pc.PinTransport? || pc.PinNotif? || pc.PinAC? { PinningInStep(s); }
    else if pc.RenderConfig? || pc.HashGate? { RenderingInStep(s); }
    else { TailFrame(s); }
  }

  ghost predicate UpToDate(s: State) { Sound(s) && InStep(s) }

  lemma UpToDateKept(s: State, a: Action)
    requires UpToDate(s) && Calm(s, a)
    ensures UpToDate(Step(s, a))
  {
    CalmKeepsSound(s, a);
    if a.Advance? { AdvanceInStep(s); }
    else if IsServiceAction(a) { ServiceKeepsRest(s, a); }
  }

  ghost predicate Configured(s: State) { UpToDate(s) && s.cfg == Some(WantedConfig(s)) }

  lemma ConfigStep(s: State, a: Action)
    requires Calm(s, a)
    ensures Step(s, a).cfg == s.cfg || (a.Advance? && s.parent.pc.RenderConfig?)
  {
    if IsServiceAction(a) { ServiceKeepsRest(s, a); }
    else if a.Advance? && PastPinAC(s.parent.pc) { TailFrame(s); }
  }

  lemma ConfiguredKept(s: State, a: Action)
    requires Configured(s) && Calm(s, a)
    ensures Configured(Step(s, a))
  {
    hide UpToDate;
    UpToDateKept(s, a);
    ConfigStep(s, a);
    CalmInputs(s, a);
    if Step(s, a).cfg != s.cfg { RenderedWanted(s, a); }
  }

  lemma CalmInputs(s: State, a: Action)
    requires UpToDate(s) && Calm(s, a)
    ensures SameInputs(s, Step(s, a))
  {
    CalmKeepsSound(s, a);
  }

  lemma RenderedWanted(s: State, a: Action)
    requires Calm(s, a) && UpToDate(Step(s, a)) && a.Advance? && s.parent.pc.RenderConfig?
    ensures Step(s, a).cfg == Some(WantedConfig(Step(s, a)))
  {
    hide Sound;
  }

  /** The configuration is the wanted one, and its hash is recorded. */
  ghost predicate Gated(s: State) { UpToDate(s) && AtGate(s) }

  lemma HashStep(s: State, a: Action)
    requires Sound(s) && Calm(s, a) && s.cr.hash == s.cfg
    ensures Step(s, a).cr.hash == s.cr.hash
  {
    if IsServiceAction(a) { ServiceKeepsRest(s, a); }
    else if a.Advance? && PastPinAC(s.parent.pc) { TailFrame(s); }
  }

  lemma GatedKept(s: State, a: Action)
    requires Gated(s) && Calm(s, a)
    ensures Gated(Step(s, a))
  {
    hide Sound;
    ConfiguredKept(s, a);
    HashStep(s, a);
    CalmInputs(s, a);
  }

  // ---------------------------------------------------------------- reaching the gate

  lemma OnlyStartStarts(s: State, a: Action)
    requires Calm(s, a) && s.parent.Idle? && Step(s, a).parent.Running?
    ensures a == Start
  {
    if IsServiceAction(a) { ServiceKeepsRest(s, a); }
  }

  lemma {:induction false} StartBetween(f: nat -> State, a: nat -> Action, i: nat, j: nat) returns (p: nat)
    requires Behaves(f, a) && i <= j && f(i).parent.Idle? && f(j).parent.Running?
    ensures i <= p < j && a(p) == Start && f(p).parent.Idle?
    decreases j
  {
    assert Follows(f, a, j - 1);
    if f(j - 1).parent.Idle? {
      OnlyStartStarts(f(j - 1), a(j - 1));
      p := j - 1;
    } else {
      p := StartBetween(f, a, i, j - 1);
    }
  }

  lemma EndsIdle(s: State, a: Action)
    requires Calm(s, a) && ParentEnds(s, a)
    ensures Step(s, a).parent.Idle?
  {
  }

  /** The parent begins reconciles again and again too. */
  lemma ParentStarts(f: nat -> State, a: nat -> Action, n: nat) returns (p: nat)
    requires Behaves(f, a) && Fair(f, a)
    ensures p >= n && a(p) == Start && f(p).parent.Idle?
  {
    assert ParentEndsAfter(f, a, n);
    var q: nat :| q >= n && ParentEndsAt(f, a, q);
    assert Follows(f, a, q);
    EndsIdle(f(q), a(q));
    assert ParentEndsAfter(f, a, q + 1);
    var r: nat :| r >= q + 1 && ParentEndsAt(f, a, r);
    p := StartBetween(f, a, q + 1, r);
  }

  lemma ParentComesToEnd(f: nat -> State, a: nat -> Action, n: nat) returns (q: nat)
    requires Behaves(f, a) && Fair(f, a)
    ensures q >= n && ParentEnds(f(q), a(q)) && Calm(f(q), a(q)) && f(q + 1) == Step(f(q), a(q))
  {
    assert ParentEndsAfter(f, a, n);
    q :| q >= n && ParentEndsAt(f, a, q);
    assert Follows(f, a, q);
  }

  lemma BeginsUpToDate(s: State)
    requires Sound(s) && Sound(DoStart(s)) && s.parent.Idle?
    ensures UpToDate(DoStart(s))
  {
    hide Inv, Ledger;
  }

  lemma EndConfigured(s: State, a: Action)
    requires UpToDate(s) && ParentEnds(s, a)
    ensures Configured(s)
  {
    hide Sound;
  }

  lemma EndGated(s: State, a: Action)
    requires Configured(s) && Calm(s, a) && ParentEnds(s, a)
    ensures Gated(Step(s, a))
  {
    assert ParentOk(s);
    UpToDateKept(s, a);
    ConfiguredKept(s, a);
    CalmInputs(s, a);
    hide Sound;
  }

  lemma AlwaysSound(f: nat -> State, a: nat -> Action)
    requires Behaves(f, a) && Sound(f(0))
    ensures Always(f, 0, Sound) && Always(f, 0, s => SameInputs(f(0), s))
  {
    forall s, act | Sound(s) && Calm(s, act) ensures Sound(Step(s, act)) { CalmKeepsSound(s, act); }
    Stays(f, a, 0, Sound);
    var P := (s: State) => Sound(s) && SameInputs(f(0), s);
    forall s, act | P(s) && Calm(s, act) ensures P(Step(s, act)) { CalmKeepsSound(s, act); }
    Stays(f, a, 0, P);
  }

  lemma ReachesCurrency(f: nat -> State, a: nat -> Action) returns (n: nat)
    requires Behaves(f, a) && Fair(f, a) && Sound(f(0))
    ensures Always(f, n, UpToDate)
  {
    AlwaysSound(f, a);
    var p := ParentStarts(f, a, 0);
    assert Follows(f, a, p);
    BeginsUpToDate(f(p));
    forall s, act | UpToDate(s) && Calm(s, act) ensures UpToDate(Step(s, act)) { UpToDateKept(s, act); }
    n := p + 1;
    Stays(f, a, n, UpToDate);
  }

  lemma ReachesConfig(f: nat -> State, a: nat -> Action) returns (n: nat)
    requires Behaves(f, a) && Fair(f, a) && Sound(f(0))
    ensures Always(f, n, Configured)
  {
    hide UpToDate, Configured;
    var m := ReachesCurrency(f, a);
    n := ParentComesToEnd(f, a, m);
    EndConfigured(f(n), a(n));
    forall s, act | Configured(s) && Calm(s, act) ensures Configured(Step(s, act)) { ConfiguredKept(s, act); }
    Stays(f, a, n, Configured);
  }

  lemma ReachesGate(f: nat -> State, a: nat -> Action) returns (n: nat)
    requires Behaves(f, a) && Fair(f, a) && Sound(f(0))
    ensures Always(f, n, Gated)
  {
    hide Configured, Gated;
    var m := ReachesConfig(f, a);
    var q := ParentComesToEnd(f, a, m);
    EndGated(f(q), a(q));
    forall s, act | Gated(s) && Calm(s, act) ensures Gated(Step(s, act)) { GatedKept(s, act); }
    n := q + 1;
    Stays(f, a, n, Gated);
  }

  // ---------------------------------------------------------------- pushing a service

  /** The object of wanted service c is not being deleted. */
  ghost predicate Spared(s: State, c: ServiceId) { Gated(s) && c in s.cr.services && !Doomed(s, c) }

  /** A reconcile that has deployed c has left the desired spec. */
  ghost predicate Pushing(s: State, c: ServiceId) {
    Spared(s, c) && (s.parent.Running? && Visited(s.parent.pc, c) ==> Pushed(s, c))
  }

  ghost predicate Settled(s: State, c: ServiceId) { Spared(s, c) && Pushed(s, c) }

  /** Steps of a service leave its spec and its deletion mark alone. */
  lemma ServiceKeepsRevision(s: State, a: Action)
    requires Enabled(s, a) && IsServiceAction(a) && a.c in s.svcs && s.svcs[a.c].versions != []
    ensures Step(s, a) == s.(svcs := s.svcs[a.c := Step(s, a).svcs[a.c]])
    ensures var k, k' := s.svcs[a.c], Step(s, a).svcs[a.c];
            && k'.versions != [] && Last(k').spec == Last(k).spec && Last(k').gen == Last(k).gen
            && Last(k').deleting == Last(k).deleting && (k'.live == k.live || (a.ServiceGone? && Last(k).deleting))
            && (k'.live ==> k.live)
  {
    ServiceStepPuts(s, a);
  }

  lemma DeploySpares(s: State, c: ServiceId, a: Action)
    requires Spared(s, c) && Calm(s, a) && a.DeployOne?
    ensures !Doomed(Step(s, a), c)
  {
    assert c in s.svcs ==> ServiceOk(s.svcs[c]);
    hide Gated;
  }

  lemma CleanupSpares(s: State, c: ServiceId, a: Action)
    requires Spared(s, c) && Calm(s, a) && a.CleanupOne?
    ensures !Doomed(Step(s, a), c)
  {
    assert a.c != c;
    hide Gated;
  }

  lemma ServiceSpares(s: State, c: ServiceId, a: Action)
    requires Spared(s, c) && Calm(s, a) && IsServiceAction(a)
    ensures !Doomed(Step(s, a), c)
  {
    assert a.c in s.svcs && ServiceOk(s.svcs[a.c]);
    ServiceKeepsRevision(s, a);
    hide Gated, ServiceOk;
  }

  lemma SparedKept(s: State, a: Action, c: ServiceId)
    requires Spared(s, c) && Calm(s, a)
    ensures Spared(Step(s, a), c)
  {
    GatedKept(s, a);
    CalmInputs(s, a);
    hide Gated;
    if IsServiceAction(a) { ServiceSpares(s, c, a); }
    else if a.DeployOne? { DeploySpares(s, c, a); }
    else if a.CleanupOne? { CleanupSpares(s, c, a); }
    else if a.Advance? { AdvanceKeepsServices(s); }
  }

  /** The parent has nothing to write to a service that it has pushed. */
  lemma ParentLeaves(s: State, a: Action, c: ServiceId)
    requires Settled(s, c) && Calm(s, a) && !IsServiceAction(a)
    ensures c in Step(s, a).svcs && Step(s, a).svcs[c] == s.svcs[c]
  {
    if a.Advance? { AdvanceKeepsServices(s); }
  }

  lemma ServiceSettled(s: State, a: Action, c: ServiceId)
    requires Enabled(s, a) && IsServiceAction(a) && a.c in s.svcs && s.svcs[a.c].versions != []
    requires Pushed(s, c) && !Doomed(s, c) && SameInputs(s, Step(s, a))
    ensures Pushed(Step(s, a), c)
  {
    ServiceKeepsRevision(s, a);
  }

  lemma SettledKept(s: State, a: Action, c: ServiceId)
    requires Settled(s, c) && Calm(s, a)
    ensures Settled(Step(s, a), c)
  {
    SparedKept(s, a, c);
    CalmInputs(s, a);
    if IsServiceAction(a) {
      ServiceSettled(s, a, c);
    } else {
      ParentLeaves(s, a, c);
    }
  }

  lemma DeployPushes(s: State, a: Action, c: ServiceId)
    requires Spared(s, c) && Calm(s, a) && a.DeployOne? && a.c == c
    ensures Pushed(Step(s, a), c)
  {
    CalmInputs(s, a);
  }

  lemma NotVisitedYet(s: State, a: Action, c: ServiceId)
    requires Spared(s, c) && Calm(s, a) && !(s.parent.Running? && Visited(s.parent.pc, c))
    requires !(a.DeployOne? && a.c == c)
    ensures !(Step(s, a).parent.Running? && Visited(Step(s, a).parent.pc, c))
  {
    hide Sound, Doomed, AtGate, NotifName, WantedConfig, DeployService, DeployObject, Matches, Fresh;
  }

  lemma PushingKept(s: State, a: Action, c: ServiceId)
    requires Pushing(s, c) && Calm(s, a)
    ensures Pushing(Step(s, a), c)
  {
    SparedKept(s, a, c);
    if Pushed(s, c) { SettledKept(s, a, c); }
    else if a.DeployOne? && a.c == c { DeployPushes(s, a, c); }
    else { NotVisitedYet(s, a, c); }
  }

  // ---------------------------------------------------------------- rolling out a service

  /** A reconcile in flight began from the current revision and has read configuration w. */
  ghost predicate RunsOn(k: Service, w: Config)
    requires k.versions != []
  {
    k.run.Reconciling? ==>
      var run, input := k.run, InputOf(Last(k), w);
      && run.base == Last(k)
      && (if run.pc.Finished? then run.inst.obs == Last(k).gen && run.inst.hash == Last(k).hash
          else run.inst == Last(k).(obs := Last(k).gen))
      && (run.pc.Render? ==> run.pc.seen == w)
      && (run.pc.Gate? ==> run.pc.seen == w && run.pc.own == w)
      && (run.pc.Patch? || run.pc.Check? ==> run.pc.input == input)
      && (run.pc.Gate? || run.pc.Patch? || run.pc.Check? || run.pc.Finished? ==> k.cfg == Some(w))
      && (run.pc.Patch? || run.pc.Check? || run.pc.Finished? ==> Last(k).hash == Some(input))
      && (run.pc.Check? || run.pc.Finished? ==> k.sts == Some(input))
  }

  /** What a reconcile has found out is what holds. */
  ghost predicate Reports(k: Service)
    requires k.versions != []
  {
    k.run.Reconciling? && k.run.pc.Finished? ==>
      k.run.inst.ready == |k.pods| && k.run.inst.applied == Some(Pair(Last(k).spec.t, Last(k).spec.n))
  }

  const SERVING: nat := 6

  /** The way of a pushed service to its spec: the reconcile is current; the input hash is
      recorded; the StatefulSet has it; the pods run it; a reconcile has seen that; the status
      says it. */
  ghost predicate Reached(k: Service, w: Config, level: nat) {
    && k.versions != []
    && (level >= 1 ==> RunsOn(k, w))
    && (level >= 2 ==> Last(k).hash == Some(InputOf(Last(k), w)))
    && (level >= 3 ==> k.cfg == Some(w) && k.sts == Some(InputOf(Last(k), w)))
    && (level >= 4 ==> Rolled(k))
    && (level >= 5 ==> Reports(k))
    && (level >= 6 ==> Matches(Last(k), Last(k).spec.t, Last(k).spec.n))
  }

  /** One step of the service keeps the level. */
  ghost predicate LevelKept(k: Service, k': Service, w: Config) {
    forall level: nat | Reached(k, w, level) :: Reached(k', w, level)
  }

  lemma StartKeepsLevel(k: Service, w: Config)
    requires k.versions != [] && StartEnabled(k, |k.versions| - 1)
    ensures LevelKept(k, Started(k, |k.versions| - 1), w)
  {
  }

  lemma AdvanceKeepsLevel(k: Service, w: Config, secrets: map<Name, set<Finalizer>>)
    requires AdvanceServiceEnabled(k, Some(w), secrets)
    ensures LevelKept(k, Advanced(k, Some(w), secrets), w)
  {
  }

  lemma CheckKeepsLevel(k: Service, w: Config, ready: nat, rolled: bool)
    requires k.versions != [] && k.run.Reconciling? && k.run.pc.Check?
    requires ready == |k.pods| && (Rolled(k) ==> rolled)
    ensures LevelKept(k, Checked(k, ready, rolled), w)
  {
  }

  lemma ExitKeepsLevel(k: Service, w: Config)
    requires k.versions != [] && k.run.Reconciling?
    ensures LevelKept(k, Exited(k, k.run.base, k.run.inst), w) && LevelKept(k, Crashed(k), w)
  {
  }

  lemma PodsKeepLevel(k: Service, w: Config, pods: map<nat, Pod>)
    requires k.versions != [] && (Rolled(k) ==> Rolled(k.(pods := pods)))
    ensures LevelKept(k, k.(pods := pods), w)
  {
  }

  /** A settled service of the spec has come so far. */
  ghost predicate Climbed(s: State, c: ServiceId, level: nat) {
    Settled(s, c) && Reached(s.svcs[c], WantedConfig(s), level)
  }

  /** A pod that starts runs the StatefulSet's template, one that restarts keeps its own. */
  lemma PodStepShape(s: State, a: Action, c: ServiceId)
    requires Enabled(s, a) && IsPodAction(a) && a.c == c
    ensures c in s.svcs && c in Step(s, a).svcs
    ensures var k := s.svcs[c];
            Step(s, a).svcs[c] == k.(pods :=
              match a
              case PodStart(_, i) => k.pods[i := Pod(k.sts.value, k.cfg.value)]
              case PodRestart(_, i) => k.pods[i := Pod(k.pods[i].tmpl, k.cfg.value)]
              case PodStop(_, i) => k.pods - {i}
              case _ => map[])
  {
  }

  lemma PodStepKeepsLevel(s: State, a: Action, c: ServiceId)
    requires Settled(s, c) && Calm(s, a) && IsPodAction(a) && a.c == c
    ensures c in Step(s, a).svcs && LevelKept(s.svcs[c], Step(s, a).svcs[c], WantedConfig(s))
  {
    PodStepShape(s, a, c);
    assert s.svcs[c].versions != [];
    var pods := Step(s, a).svcs[c].pods;
    hide Settled, Reached, WantedConfig, Step, Enabled;
    PodsKeepLevel(s.svcs[c], WantedConfig(s), pods);
  }

  lemma ReconcileStepKeepsLevel(s: State, a: Action, c: ServiceId)
    requires Settled(s, c) && Calm(s, a) && IsServiceAction(a) && !IsPodAction(a) && a.c == c
    ensures c in Step(s, a).svcs && LevelKept(s.svcs[c], Step(s, a).svcs[c], WantedConfig(s))
  {
    var k, w := s.svcs[c], WantedConfig(s);
    assert s.cfg == Some(w) && !Last(k).deleting;
    hide Settled, Reached;
    match a {
      case ServiceStart(_, _) => StartKeepsLevel(k, w);
      case ServiceAdvance(_) => AdvanceKeepsLevel(k, w, s.secrets);
      case ServiceCheck(_, ready, rolled) => CheckKeepsLevel(k, w, ready, rolled);
      case ServiceExit(_) => ExitKeepsLevel(k, w);
      case ServiceCrash(_) => ExitKeepsLevel(k, w);
      case ServiceGone(_) =>
    }
  }

  lemma ServiceKeepsLevel(s: State, a: Action, c: ServiceId)
    requires Settled(s, c) && Calm(s, a) && IsServiceAction(a) && a.c == c
    ensures c in Step(s, a).svcs && LevelKept(s.svcs[c], Step(s, a).svcs[c], WantedConfig(s))
  {
    if IsPodAction(a) { PodStepKeepsLevel(s, a, c); } else { ReconcileStepKeepsLevel(s, a, c); }
  }

  lemma ServiceClimbs(s: State, a: Action, c: ServiceId, level: nat)
    requires Settled(s, c) && Calm(s, a) && IsServiceAction(a) && Reached(s.svcs[c], WantedConfig(s), level)
    ensures c in Step(s, a).svcs && Reached(Step(s, a).svcs[c], WantedConfig(s), level)
  {
    assert c in s.svcs;
    hide Settled, Reached;
    if a.c == c { ServiceKeepsLevel(s, a, c); } else { ServiceStepPuts(s, a); }
  }

  lemma ClimbedKept(s: State, a: Action, c: ServiceId, level: nat)
    requires Climbed(s, c, level) && Calm(s, a)
    ensures Climbed(Step(s, a), c, level)
  {
    hide Reached;
    SettledKept(s, a, c);
    CalmInputs(s, a);
    if IsServiceAction(a) { ServiceClimbs(s, a, c, level); } else { ParentLeaves(s, a, c); }
  }

  /** A reconcile that comes to its end takes the service from an odd or early level to the
      next one. */
  lemma EndClimbs(s: State, a: Action, c: ServiceId, level: nat)
    requires Climbed(s, c, level) && level < SERVING && level != 3 && Calm(s, a) && ServiceEnds(s, a, c)
    ensures Climbed(Step(s, a), c, level + 1)
  {
    ClimbedKept(s, a, c, level);
    CalmInputs(s, a);
    EndReaches(s.svcs[c], WantedConfig(s), level);
    assert Step(s, a).svcs[c] == EndOf(s.svcs[c]);
  }

  function EndOf(k: Service): Service
    requires Ending(k)
  {
    if k.run.pc.Finished? then Exited(k, k.run.base, k.run.inst)
    else
      var input := Input(k.run.inst.spec.t, k.run.inst.spec.n, k.run.pc.seen, k.run.pc.own);
      Exited(k, k.run.base, k.run.inst.(hash := Some(input)))
  }

  lemma EndReaches(k: Service, w: Config, level: nat)
    requires Ending(k) && Reached(k, w, level) && level < SERVING && level != 3
    ensures Reached(EndOf(k), w, level + 1)
  {
  }

  lemma ClimbedServable(s: State, c: ServiceId, level: nat)
    requires Climbed(s, c, level)
    ensures Servable(s, c)
  {
    assert ServiceOk(s.svcs[c]);
  }

  // ---------------------------------------------------------------- each service in turn

  ghost predicate AlwaysFor(f: nat -> State, n: nat, c: ServiceId, P: (State, ServiceId) -> bool) {
    forall m: nat | m >= n :: P(f(m), c)
  }

  ghost predicate Ultimately(f: nat -> State, c: ServiceId, P: (State, ServiceId) -> bool) {
    exists n: nat :: AlwaysFor(f, n, c, P)
  }

  /** What ultimately holds of each of finitely many services ultimately holds of all. */
  lemma {:induction false} Together(f: nat -> State, cs: set<ServiceId>, P: (State, ServiceId) -> bool) returns (n: nat)
    requires forall c | c in cs :: Ultimately(f, c, P)
    ensures forall c | c in cs :: AlwaysFor(f, n, c, P)
    decreases |cs|
  {
    n := 0;
    if cs != {} {
      var c :| c in cs;
      var i: nat :| AlwaysFor(f, i, c, P);
      var j := Together(f, cs - {c}, P);
      n := if i > j then i else j;
      forall d | d in cs ensures AlwaysFor(f, n, d, P) {
        if d != c { assert AlwaysFor(f, j, d, P); }
      }
    }
  }

  lemma StaysFor(f: nat -> State, a: nat -> Action, n: nat, c: ServiceId, P: (State, ServiceId) -> bool)
    requires Behaves(f, a) && P(f(n), c)
    requires forall s, act | P(s, c) && Calm(s, act) :: P(Step(s, act), c)
    ensures AlwaysFor(f, n, c, P) && Ultimately(f, c, P)
  {
    var Q := (s: State) => P(s, c);
    Stays(f, a, n, Q);
    forall m: nat | m >= n ensures P(f(m), c) { assert Q(f(m)); }
    assert AlwaysFor(f, n, c, P);
  }

  lemma SameServices(f: nat -> State, a: nat -> Action, m: nat)
    requires Behaves(f, a) && Sound(f(0))
    ensures Sound(f(m)) && f(m).cr.services == f(0).cr.services
  {
    AlwaysSound(f, a);
    assert ((s: State) => SameInputs(f(0), s))(f(m));
  }

  lemma ReachesSpared(f: nat -> State, a: nat -> Action, c: ServiceId)
    requires Behaves(f, a) && Fair(f, a) && Sound(f(0)) && c in f(0).cr.services
    ensures Ultimately(f, c, Spared)
  {
    hide Gated, Sound;
    var m := ReachesGate(f, a);
    assert FreedAfter(f, c, m);
    var q: nat :| q >= m && FreedAt(f, c, q);
    SameServices(f, a, q);
    forall s, act | Spared(s, c) && Calm(s, act) ensures Spared(Step(s, act), c) { SparedKept(s, act, c); }
    StaysFor(f, a, q, c, Spared);
  }

  /** At the end of a reconcile past the gate every service of the spec has been pushed. */
  lemma EndPushed(s: State, a: Action, c: ServiceId)
    requires Pushing(s, c) && ParentEnds(s, a)
    ensures Settled(s, c)
  {
    assert ParentOk(s);
  }

  lemma BeginsPushing(s: State, c: ServiceId)
    requires Spared(DoStart(s), c) && !s.cr.deleting
    ensures Pushing(DoStart(s), c)
  {
    hide Spared;
  }

  lemma ReachesSettled(f: nat -> State, a: nat -> Action, c: ServiceId)
    requires Behaves(f, a) && Fair(f, a) && Sound(f(0)) && c in f(0).cr.services
    ensures Ultimately(f, c, Settled)
  {
    ReachesSpared(f, a, c);
    var m: nat :| AlwaysFor(f, m, c, Spared);
    var p := ParentStarts(f, a, m);
    assert Follows(f, a, p);
    BeginsPushing(f(p), c);
    forall s, act | Pushing(s, c) && Calm(s, act) ensures Pushing(Step(s, act), c) { PushingKept(s, act, c); }
    StaysFor(f, a, p + 1, c, Pushing);
    var q := ParentComesToEnd(f, a, p + 1);
    EndPushed(f(q), a(q), c);
    forall s, act | Settled(s, c) && Calm(s, act) ensures Settled(Step(s, act), c) { SettledKept(s, act, c); }
    StaysFor(f, a, q, c, Settled);
  }

  lemma ReachesFloor(f: nat -> State, a: nat -> Action, c: ServiceId) returns (n: nat)
    requires Behaves(f, a) && Fair(f, a) && Sound(f(0)) && c in f(0).cr.services
    ensures forall m: nat | m >= n :: Climbed(f(m), c, 0)
  {
    ReachesSettled(f, a, c);
    n :| AlwaysFor(f, n, c, Settled);
    forall m: nat | m >= n ensures Climbed(f(m), c, 0) { assert Settled(f(m), c); }
  }

  lemma {:induction false} ReachesLevel(f: nat -> State, a: nat -> Action, c: ServiceId, level: nat) returns (n: nat)
    requires Behaves(f, a) && Fair(f, a) && Sound(f(0)) && c in f(0).cr.services && level <= SERVING
    ensures forall m: nat | m >= n :: Climbed(f(m), c, level)
  {
    hide Climbed, Sound;
    if level == 0 {
      n := ReachesFloor(f, a, c);
    } else {
      var m := ReachesLevel(f, a, c, level - 1);
      if level - 1 == 3 { n := RollsOut(f, a, c, m); } else { n := ServesOnce(f, a, c, m, level - 1); }
      forall s, act | Climbed(s, c, level) && Calm(s, act) ensures Climbed(Step(s, act), c, level) {
        ClimbedKept(s, act, c, level);
      }
      Stays(f, a, n, s => Climbed(s, c, level));
    }
  }

  lemma ServesOnce(f: nat -> State, a: nat -> Action, c: ServiceId, m: nat, level: nat) returns (n: nat)
    requires Behaves(f, a) && Fair(f, a) && c in f(0).cr.services && level < SERVING && level != 3
    requires forall i: nat | i >= m :: Climbed(f(i), c, level)
    ensures Climbed(f(n), c, level + 1)
  {
    hide Climbed, Servable, ServiceEnds, Calm;
    assert ServedAfter(f, a, c, m);
    var q: nat :| q >= m && ServedAt(f, a, c, q);
    assert Climbed(f(q), c, level);
    ClimbedServable(f(q), c, level);
    assert Follows(f, a, q);
    EndClimbs(f(q), a(q), c, level);
    n := q + 1;
  }

  lemma RolledOnce(f: nat -> State, a: nat -> Action, c: ServiceId, m: nat) returns (n: nat)
    requires Behaves(f, a) && Fair(f, a) && c in f(0).cr.services
    ensures n >= m && RolledNow(f(n), f(n + 1), c) && Calm(f(n), a(n)) && f(n + 1) == Step(f(n), a(n))
  {
    hide Calm, RolledNow;
    assert RolledAfter(f, c, m);
    n :| n >= m && RolledAt(f, c, n);
    assert Follows(f, a, n);
  }

  lemma RollsOut(f: nat -> State, a: nat -> Action, c: ServiceId, m: nat) returns (n: nat)
    requires Behaves(f, a) && Fair(f, a) && c in f(0).cr.services
    requires forall i: nat | i >= m :: Climbed(f(i), c, 3)
    ensures Climbed(f(n), c, 4)
  {
    hide Climbed, Calm, RolledNow, Behaves, Fair;
    n := RolledOnce(f, a, c, m);
    assert Climbed(f(n), c, 3) && Climbed(f(n + 1), c, 3);
    TemplateRolls(f(n), a(n), c);
  }

  lemma TemplateRolls(s: State, a: Action, c: ServiceId)
    requires Climbed(s, c, 3) && Calm(s, a) && Climbed(Step(s, a), c, 3) && RolledNow(s, Step(s, a), c)
    ensures Climbed(s, c, 4)
  {
    CalmInputs(s, a);
  }

  // ---------------------------------------------------------------- the end of the rotation

  /** A wanted service runs what is asked for, and says so. */
  ghost predicate Serving(s: State, c: ServiceId) { Climbed(s, c, SERVING) }

  ghost predicate Served(s: State) { Gated(s) && forall c | c in s.cr.services :: Serving(s, c) }

  /** The guard of the reconcile in flight holds. */
  ghost predicate Guarded(s: State) {
    Served(s) && (s.parent.Running? && PastPinAC(s.parent.pc) ==> s.parent.ready)
  }

  /** The status and the finalizers are where the current names ask them to be, and the
      reconcile in flight will not change that. */
  ghost predicate OnNames(s: State) {
    && s.cr.tracked == s.url && Value(s.cr.trackedN) == NotifName(s) && s.cr.trackedAC == s.cr.ac
    && (s.parent.Running? ==>
          var inst := s.parent.inst;
          inst.tracked == s.url && Value(inst.trackedN) == NotifName(s) && inst.trackedAC == s.cr.ac)
    && HeldOn(s.secrets, s.url, NotifName(s), s.cr.ac)
  }

  /** Finalizers are exactly on these names. */
  ghost predicate HeldOn(secrets: map<Name, set<Finalizer>>, t: Name, n: Name, ac: Name) {
    && (forall x | x != "" :: Holds(secrets, x, TransportConsumer) <==> x == t || x == n)
    && (forall x | x != "" :: Holds(secrets, x, ACConsumer) <==> x == ac)
  }

  lemma AddHolds(secrets: map<Name, set<Finalizer>>, x: Name, f: Finalizer)
    ensures forall y, g :: Holds(AddFin(secrets, x, f), y, g) <==>
              Holds(secrets, y, g) || (y == x && g == f && x in secrets)
  {
  }

  lemma DropHolds(secrets: map<Name, set<Finalizer>>, x: Name, f: Finalizer)
    ensures forall y, g :: Holds(DropFin(secrets, x, f), y, g) <==> Holds(secrets, y, g) && !(y == x && g == f)
  {
  }

  lemma AddKeepsHeld(secrets: map<Name, set<Finalizer>>, x: Name, f: Finalizer, t: Name, n: Name, ac: Name)
    requires HeldOn(secrets, t, n, ac) && (if f == TransportConsumer then x == t || x == n else x == ac)
    ensures HeldOn(AddFin(secrets, x, f), t, n, ac)
  {
    AddHolds(secrets, x, f);
  }

  lemma DropKeepsHeld(secrets: map<Name, set<Finalizer>>, x: Name, f: Finalizer, t: Name, n: Name, ac: Name)
    requires HeldOn(secrets, t, n, ac) && (if f == TransportConsumer then x != t && x != n else x != ac)
    ensures HeldOn(DropFin(secrets, x, f), t, n, ac)
  {
    DropHolds(secrets, x, f);
  }

  ghost predicate Done(s: State) { Served(s) && OnNames(s) }

  lemma ServingKept(s: State, a: Action, c: ServiceId)
    requires Serving(s, c) && Calm(s, a)
    ensures Serving(Step(s, a), c)
  {
    ClimbedKept(s, a, c, SERVING);
  }

  lemma ServedKept(s: State, a: Action)
    requires Served(s) && Calm(s, a)
    ensures Served(Step(s, a))
  {
    hide Serving;
    GatedKept(s, a);
    GatedInputs(s, a);
    forall c | c in s.cr.services ensures Serving(Step(s, a), c) { ServingKept(s, a, c); }
  }

  lemma GatedInputs(s: State, a: Action)
    requires Gated(s) && Calm(s, a)
    ensures SameInputs(s, Step(s, a)) && UpToDate(s) && UpToDate(Step(s, a)) && InStep(s)
  {
    CalmInputs(s, a);
    UpToDateKept(s, a);
  }

  lemma DeployReady(s: State, a: Action)
    requires Guarded(s) && Calm(s, a) && a.DeployOne?
    ensures Step(s, a).parent.ready
  {
    var c := a.c;
    assert Serving(s, c) && Settled(s, c) && Reached(s.svcs[c], WantedConfig(s), SERVING);
    assert Matches(Last(s.svcs[c]), s.url, NotifName(s));
    hide Served, Serving, Climbed, Settled, Reached, Sound, Inv;
  }

  lemma GuardedKept(s: State, a: Action)
    requires Guarded(s) && Calm(s, a)
    ensures Guarded(Step(s, a))
  {
    ServedKept(s, a);
    hide Served;
    if a.DeployOne? { DeployReady(s, a); }
    else if IsServiceAction(a) { ServiceKeepsRest(s, a); }
    else if a.Advance? && PastPinAC(s.parent.pc) { TailFrame(s); }
  }

  lemma EndOnNames(s: State, a: Action)
    requires Guarded(s) && Calm(s, a) && ParentEnds(s, a)
    ensures OnNames(Step(s, a))
  {
    assert ParentOk(s) && TailOk(s);
    hide Serving;
  }

  lemma PinOnNames(s: State)
    requires OnNames(s) && InStep(s) && AdvanceEnabled(s) && SameInputs(s, DoAdvance(s))
    requires s.parent.pc.PinTransport? || s.parent.pc.PinNotif? || s.parent.pc.PinAC?
    ensures OnNames(DoAdvance(s))
  {
    var x, f := if s.parent.pc.PinTransport? then s.parent.cur
                else if s.parent.pc.PinNotif? then s.parent.curN else s.cr.ac,
                if s.parent.pc.PinAC? then ACConsumer else TransportConsumer;
    AddKeepsHeld(s.secrets, x, f, s.url, NotifName(s), s.cr.ac);
    hide HeldOn;
  }

  lemma ReadOnNames(s: State)
    requires OnNames(s) && InStep(s) && AdvanceEnabled(s) && SameInputs(s, DoAdvance(s))
    requires s.parent.pc.ReadTransport? || s.parent.pc.ReadNotif? || s.parent.pc.HashGate?
    ensures OnNames(DoAdvance(s))
  {
    hide HeldOn;
  }

  lemma FinishOnNames(s: State)
    requires OnNames(s) && InStep(s) && NamesOk(s) && AdvanceEnabled(s) && SameInputs(s, DoAdvance(s))
    requires Finishing(s.parent.pc)
    ensures OnNames(DoAdvance(s))
  {
    hide HeldOn;
  }

  lemma PassOnNames(s: State)
    requires OnNames(s) && InStep(s) && AdvanceEnabled(s) && SameInputs(s, DoAdvance(s))
    requires s.parent.pc.RenderConfig? || (PastPinAC(s.parent.pc) && !Finishing(s.parent.pc))
    ensures OnNames(DoAdvance(s))
  {
    hide HeldOn;
  }

  lemma AdvanceOnNames(s: State)
    requires OnNames(s) && InStep(s) && NamesOk(s) && AdvanceEnabled(s) && SameInputs(s, DoAdvance(s))
    ensures OnNames(DoAdvance(s))
  {
    var pc := s.parent.pc;
    assert Normal(pc);
    hide OnNames, InStep, NamesOk, SameInputs, AdvanceEnabled;
    if pc.PinTransport? || pc.PinNotif? || pc.PinAC? { PinOnNames(s); }
    else if pc.ReadTransport? || pc.ReadNotif? || pc.HashGate? { ReadOnNames(s); }
    else if Finishing(pc) { FinishOnNames(s); }
    else { PassOnNames(s); }
  }

  lemma PruneOnNames(s: State, x: Name)
    requires OnNames(s) && InStep(s) && PruneEnabled(s, x)
    ensures OnNames(DoPrune(s, x))
  {
    DropKeepsHeld(s.secrets, x, PruneFin(s.parent), s.url, NotifName(s), s.cr.ac);
    hide HeldOn;
  }

  lemma DoneKept(s: State, a: Action)
    requires Done(s) && Calm(s, a)
    ensures Done(Step(s, a))
  {
    ServedKept(s, a);
    GatedInputs(s, a);
    assert NamesOk(s);
    hide Served, UpToDate, NamesOk, InStep, HeldOn;
    if a.Advance? { AdvanceOnNames(s); }
    else if a.PruneOne? { PruneOnNames(s, a.x); }
    else if IsServiceAction(a) { ServiceKeepsRest(s, a); }
  }

  lemma DoneConverged(s: State)
    requires Done(s)
    ensures Converged(s)
  {
    forall c | c in s.cr.services ensures RunsCurrent(s, c) { assert Serving(s, c); }
  }

  lemma ReachesServed(f: nat -> State, a: nat -> Action) returns (n: nat)
    requires Behaves(f, a) && Fair(f, a) && Sound(f(0))
    ensures Always(f, n, Served)
  {
    var m := ReachesGate(f, a);
    forall c | c in f(0).cr.services.Keys ensures Ultimately(f, c, Serving) {
      var k := ReachesLevel(f, a, c, SERVING);
      assert AlwaysFor(f, k, c, Serving);
    }
    var k := Together(f, f(0).cr.services.Keys, Serving);
    n := if m > k then m else k;
    forall i: nat | i >= n ensures Served(f(i)) {
      SameServices(f, a, i);
      assert forall c | c in f(0).cr.services.Keys :: AlwaysFor(f, k, c, Serving);
    }
  }

  /** Every fair behaviour that starts in a reachable state with its inputs there converges,
      and from then on stays converged, whatever its reconciles and pods go on doing. */
  lemma FairBehavioursConverge(f: nat -> State, a: nat -> Action) returns (n: nat)
    requires Behaves(f, a) && Fair(f, a) && Sound(f(0))
    ensures forall m: nat | m >= n :: Converged(f(m)) && SameInputs(f(0), f(m))
  {
    hide Served, Guarded, Done, Sound, Converged, SameInputs;
    var m := ReachesServed(f, a);
    var p := ParentStarts(f, a, m);
    assert Follows(f, a, p);
    BeginsGuarded(f(p));
    forall s, act | Guarded(s) && Calm(s, act) ensures Guarded(Step(s, act)) { GuardedKept(s, act); }
    Stays(f, a, p + 1, Guarded);
    var q := ParentComesToEnd(f, a, p + 1);
    EndDone(f(q), a(q));
    forall s, act | Done(s) && Calm(s, act) ensures Done(Step(s, act)) { DoneKept(s, act); }
    n := q + 1;
    Stays(f, a, n, Done);
    AlwaysSound(f, a);
    forall i: nat | i >= n ensures Converged(f(i)) && SameInputs(f(0), f(i)) {
      DoneConverged(f(i));
      assert ((s: State) => SameInputs(f(0), s))(f(i));
    }
  }

  lemma BeginsGuarded(s: State)
    requires s.parent.Idle? && Served(s) && Served(DoStart(s))
    ensures Guarded(DoStart(s))
  {
  }

  lemma EndDone(s: State, a: Action)
    requires Guarded(s) && Calm(s, a) && ParentEnds(s, a)
    ensures Done(Step(s, a))
  {
    ServedKept(s, a);
    EndOnNames(s, a);
  }

  /** So from the end of every run, with whatever is in flight there. */
  lemma FairRunsConverge(ss: seq<State>, acts: seq<Action>, f: nat -> State, a: nat -> Action) returns (n: nat)
    requires IsRun(ss, acts) && f(0) == ss[|acts|] && InputsReady(f(0)) && Behaves(f, a) && Fair(f, a)
    ensures forall m: nat | m >= n :: Converged(f(m)) && SameInputs(f(0), f(m))
  {
    RunLedger(ss, acts, |acts|);
    n := FairBehavioursConverge(f, a);
  }
}
