/** Which pods read a pinned secret: the main safety theorems.

    A service that reads from a secret loses it only in a step that takes the finalizer off
    while the service uses it.  For messaging these steps are known: the reconcile that takes
    the step does not know of the service, whose object lives outside the spec it read, or it
    prunes a name that is neither the tracked one nor the one it pushes. */
module RotationExposure {
  import opened Options
  import opened RotationState
  import opened RotationSteps
  import opened RotationSafety
  import opened RotationLedger

  predicate Alive(s: State, c: ServiceId) { c in s.svcs && s.svcs[c].live }

  /** A pod has two transport secrets. */
  datatype Wire = Messaging | Notifications

  function NameOn(cred: Config, w: Wire): Name {
    match w
    case Messaging => cred.t
    case Notifications => cred.n
  }

  /** The service's configuration or one of its pods is from secret x. */
  ghost predicate Uses(k: Service, w: Wire, x: Name) {
    (k.cfg.Some? && NameOn(k.cfg.value, w) == x) || exists i :: i in k.pods && NameOn(k.pods[i].cred, w) == x
  }

  /** Pinned, or no secret at all. */
  predicate Secure(s: State, x: Name) { x == "" || Holds(s.secrets, x, TransportConsumer) }

  /** This step takes the finalizer off x while service c uses it. */
  ghost predicate Strips(s: State, a: Action, w: Wire, c: ServiceId, x: Name)
    requires Enabled(s, a)
  {
    Alive(s, c) && Uses(s.svcs[c], w, x) && Secure(s, x) && !Secure(Step(s, a), x)
  }

  // ---------------------------------------------------------------- the invariant

  type Losses = iset<(ServiceId, Name)>

  /** Outside its losses the service uses pinned names only. */
  ghost predicate Reads(s: State, k: Service, w: Wire, c: ServiceId, lost: Losses) {
    forall x | Uses(k, w, x) :: Secure(s, x) || (c, x) in lost
  }

  ghost predicate Covered(s: State, w: Wire, lost: Losses) {
    && (s.cfg.Some? ==> Secure(s, NameOn(s.cfg.value, w)))
    && (forall c | c in s.svcs :: Reads(s, s.svcs[c], w, c, lost))
    && (forall p | p in lost :: Alive(s, p.0) && !Secure(s, p.1))
  }

  /** What is lost after a step: names are pinned again when notifications come back. */
  ghost function Next(s: State, a: Action, w: Wire, lost: Losses): Losses
    requires Enabled(s, a)
  {
    iset p: (ServiceId, Name) |
      (p in lost || Strips(s, a, w, p.0, p.1)) && Alive(Step(s, a), p.0) && !Secure(Step(s, a), p.1)
  }

  // ---------------------------------------------------------------- what a step may change

  /** Services go on using what they used, or begin to use the stored configuration. */
  ghost predicate UsesGrow(s: State, s': State) {
    forall c, w, x | c in s'.svcs && Uses(s'.svcs[c], w, x) ::
      s'.svcs[c].live && (UsedBy(s, c, w, x) || (s.cfg.Some? && NameOn(s.cfg.value, w) == x))
  }

  ghost predicate UsedBy(s: State, c: ServiceId, w: Wire, x: Name) { Alive(s, c) && Uses(s.svcs[c], w, x) }

  lemma SameUses(s: State, s': State)
    requires Base(s) && s'.svcs == s.svcs
    ensures UsesGrow(s, s')
  {
    forall c, w, x | c in s'.svcs && Uses(s'.svcs[c], w, x) ensures UsedBy(s, c, w, x) { assert ServiceOk(s.svcs[c]); }
  }

  lemma EvolvedUses(k: Service, k': Service, cfg: Option<Config>, w: Wire, x: Name)
    requires Evolves(k, k', cfg) && Uses(k', w, x)
    ensures k'.live && k.live && (Uses(k, w, x) || (cfg.Some? && NameOn(cfg.value, w) == x))
  {
    if !(k'.cfg.Some? && NameOn(k'.cfg.value, w) == x) {
      var i :| i in k'.pods && NameOn(k'.pods[i].cred, w) == x;
      assert (i in k.pods && k'.pods[i].cred == k.pods[i].cred) || k.cfg == Some(k'.pods[i].cred);
    }
  }

  lemma PutUses(s: State, c: ServiceId, k': Service)
    requires Base(s) && c in s.svcs && Evolves(s.svcs[c], k', s.cfg)
    ensures UsesGrow(s, Put(s, c, k'))
  {
    forall d, w, x | d in Put(s, c, k').svcs && Uses(Put(s, c, k').svcs[d], w, x)
      ensures Put(s, c, k').svcs[d].live && (UsedBy(s, d, w, x) || (s.cfg.Some? && NameOn(s.cfg.value, w) == x))
    {
      if d == c { EvolvedUses(s.svcs[c], k', s.cfg, w, x); } else { assert ServiceOk(s.svcs[d]); }
    }
  }

  lemma DeployUses(s: State, c: ServiceId, snap: Snapshot)
    requires Base(s) && s.parent.Running? && DeployEnabled(s, c, snap)
    ensures UsesGrow(s, DoDeploy(s, c, snap))
  {
    DeployServiceGrown(s, c, snap);
    var s' := DoDeploy(s, c, snap);
    forall d, w, x | d in s'.svcs && Uses(s'.svcs[d], w, x) ensures s'.svcs[d].live && UsedBy(s, d, w, x) {
      if d in s.svcs { assert ServiceOk(s.svcs[d]) && Uses(s.svcs[d], w, x); }
    }
  }

  lemma StepUses(s: State, a: Action)
    requires Base(s) && Enabled(s, a)
    ensures UsesGrow(s, Step(s, a))
  {
    if IsServiceAction(a) { ServiceStepKeeps(s, a, {}); PutUses(s, a.c, Step(s, a).svcs[a.c]); }
    else if a.DeployOne? { DeployUses(s, a.c, a.snap); }
    else if a.CleanupOne? { MarkedKeeps(s.svcs[a.c], s.cfg, {}); PutUses(s, a.c, Step(s, a).svcs[a.c]); }
    else { OtherStepsKeepServices(s, a); SameUses(s, Step(s, a)); }
  }

  /** The secrets of the stored configuration stay pinned, and so are those of a new one. */
  ghost predicate ConfigPinned(s: State, s': State) {
    && (s'.cfg.Some? && s'.cfg != s.cfg ==> forall w :: Secure(s', NameOn(s'.cfg.value, w)))
    && (s.cfg.Some? ==> forall w | Secure(s, NameOn(s.cfg.value, w)) :: Secure(s', NameOn(s.cfg.value, w)))
    && (s.cfg.Some? ==> s'.cfg.Some?)
  }

  lemma RenderPins(s: State)
    requires NamesOk(s) && ParentOk(s) && s.parent.Running? && s.parent.pc.RenderConfig?
    ensures ConfigPinned(s, DoRenderConfig(s))
  {
  }

  lemma FinishPins(s: State)
    requires NamesOk(s) && ParentOk(s) && s.parent.Running? && AdvanceEnabled(s)
    requires s.parent.pc.FinishTransport? || s.parent.pc.FinishNotif?
    ensures ConfigPinned(s, DoAdvance(s))
  {
  }

  lemma PrunePins(s: State, x: Name)
    requires ParentOk(s) && PruneEnabled(s, x) && Normal(s.parent.pc)
    ensures ConfigPinned(s, DoPrune(s, x))
  {
  }

  lemma AddingPins(s: State)
    requires NamesOk(s) && ParentOk(s) && AdvanceEnabled(s) && Normal(s.parent.pc)
    requires !s.parent.pc.RenderConfig? && !s.parent.pc.FinishTransport? && !s.parent.pc.FinishNotif?
    ensures ConfigPinned(s, DoAdvance(s))
  {
  }

  lemma AdvancePins(s: State)
    requires NamesOk(s) && ParentOk(s) && AdvanceEnabled(s) && Normal(s.parent.pc)
    ensures ConfigPinned(s, DoAdvance(s))
  {
    if s.parent.pc.RenderConfig? { RenderPins(s); }
    else if s.parent.pc.FinishTransport? || s.parent.pc.FinishNotif? { FinishPins(s); }
    else { AddingPins(s); }
  }

  lemma StepPins(s: State, a: Action)
    requires Base(s) && !s.cr.deleting && Enabled(s, a)
    ensures ConfigPinned(s, Step(s, a))
  {
    if a.Advance? { AdvancePins(s); }
    else if a.PruneOne? { PrunePins(s, a.x); }
    else if IsServiceAction(a) { ServiceKeepsRest(s, a); }
  }

  /** While the Manila is not being deleted, what is lost grows by what a step strips, and
      everything else stays covered. */
  lemma StepCovered(s: State, a: Action, w: Wire, lost: Losses)
    requires Inv(s) && !s.cr.deleting && Covered(s, w, lost) && Enabled(s, a)
    ensures Covered(Step(s, a), w, Next(s, a, w, lost))
  {
    StepUses(s, a);
    StepPins(s, a);
    GrowthCovered(s, a, w, lost);
  }

  lemma GrowthCovered(s: State, a: Action, w: Wire, lost: Losses)
    requires Covered(s, w, lost) && Enabled(s, a) && UsesGrow(s, Step(s, a)) && ConfigPinned(s, Step(s, a))
    ensures Covered(Step(s, a), w, Next(s, a, w, lost))
  {
    hide Step, Enabled, Secure, Uses;
    var s' := Step(s, a);
    forall c | c in s'.svcs ensures Reads(s', s'.svcs[c], w, c, Next(s, a, w, lost)) {
      forall x | Uses(s'.svcs[c], w, x) && !Secure(s', x) ensures (c, x) in Next(s, a, w, lost) {
        assert s'.svcs[c].live && UsedBy(s, c, w, x);
        assert Reads(s, s.svcs[c], w, c, lost);
      }
    }
  }

  // ---------------------------------------------------------------- every run

  /** At step m secret x was stripped while c used it; c's object has lived and x has stayed
      unpinned ever since. */
  ghost predicate StrippedSince(ss: seq<State>, acts: seq<Action>, m: nat, i: nat, w: Wire, c: ServiceId, x: Name)
    requires |ss| == |acts| + 1 && m < i < |ss|
  {
    Stepped(ss, acts, m) && Strips(ss[m], acts[m], w, c, x) &&
    forall j | m < j <= i :: Alive(ss[j], c) && !Secure(ss[j], x)
  }

  ghost predicate Stripped(ss: seq<State>, acts: seq<Action>, i: nat, w: Wire, c: ServiceId, x: Name)
    requires |ss| == |acts| + 1 && i < |ss|
  {
    exists m :: 0 <= m < i && StrippedSince(ss, acts, m, i, w, c, x)
  }

  ghost function LossesAt(ss: seq<State>, acts: seq<Action>, i: nat, w: Wire): Losses
    requires |ss| == |acts| + 1 && i < |ss|
  {
    iset p: (ServiceId, Name) | Stripped(ss, acts, i, w, p.0, p.1)
  }

  lemma StrippedNow(ss: seq<State>, acts: seq<Action>, i: nat, w: Wire, c: ServiceId, x: Name)
    requires |ss| == |acts| + 1 && i < |acts| && Stepped(ss, acts, i)
    requires Stripped(ss, acts, i, w, c, x) || Strips(ss[i], acts[i], w, c, x)
    requires Alive(ss[i + 1], c) && !Secure(ss[i + 1], x)
    ensures Stripped(ss, acts, i + 1, w, c, x)
  {
    hide Step, Enabled, Strips;
    if Stripped(ss, acts, i, w, c, x) {
      var m :| 0 <= m < i && StrippedSince(ss, acts, m, i, w, c, x);
      assert StrippedSince(ss, acts, m, i + 1, w, c, x);
    } else {
      assert StrippedSince(ss, acts, i, i + 1, w, c, x);
    }
  }

  lemma LossesNext(ss: seq<State>, acts: seq<Action>, i: nat, w: Wire)
    requires |ss| == |acts| + 1 && i < |acts| && Stepped(ss, acts, i)
    ensures LossesAt(ss, acts, i + 1, w) == Next(ss[i], acts[i], w, LossesAt(ss, acts, i, w))
  {
    hide Step, Enabled, Strips;
    var now, next := LossesAt(ss, acts, i + 1, w), Next(ss[i], acts[i], w, LossesAt(ss, acts, i, w));
    forall p | p in next ensures p in now { StrippedNow(ss, acts, i, w, p.0, p.1); }
    forall p | p in now ensures p in next {
      var m :| 0 <= m < i + 1 && StrippedSince(ss, acts, m, i + 1, w, p.0, p.1);
      if m < i { assert StrippedSince(ss, acts, m, i, w, p.0, p.1); }
    }
  }

  lemma DeletionStays(ss: seq<State>, acts: seq<Action>, i: nat)
    requires IsRun(ss, acts) && i < |acts| && !ss[i + 1].cr.deleting
    ensures !ss[i].cr.deleting
  {
    RunStep(ss, acts, i);
    if ss[i].cr.deleting { StepKeepsDeleting(ss[i], acts[i]); }
  }

  lemma StepKeepsDeleting(s: State, a: Action)
    requires Enabled(s, a) && s.cr.deleting
    ensures Step(s, a).cr.deleting
  {
    if a.Advance? { AdvanceKeepsDeleting(s); }
  }

  lemma AdvanceKeepsDeleting(s: State)
    requires AdvanceEnabled(s) && s.cr.deleting
    ensures DoAdvance(s).cr.deleting
  {
  }

  lemma {:induction false} RunCovered(ss: seq<State>, acts: seq<Action>, i: nat, w: Wire)
    requires IsRun(ss, acts) && i < |ss| && !ss[i].cr.deleting
    ensures Covered(ss[i], w, LossesAt(ss, acts, i, w))
  {
    if i > 0 {
      DeletionStays(ss, acts, i - 1);
      RunCovered(ss, acts, i - 1, w);
      RunInv(ss, acts, i - 1);
      RunStep(ss, acts, i - 1);
      CoveredNext(ss, acts, i - 1, w);
    }
  }

  lemma CoveredNext(ss: seq<State>, acts: seq<Action>, i: nat, w: Wire)
    requires |ss| == |acts| + 1 && i < |acts| && Enabled(ss[i], acts[i]) && ss[i + 1] == Step(ss[i], acts[i])
    requires Inv(ss[i]) && !ss[i].cr.deleting && Covered(ss[i], w, LossesAt(ss, acts, i, w))
    ensures Covered(ss[i + 1], w, LossesAt(ss, acts, i + 1, w))
  {
    assert Stepped(ss, acts, i);
    LossesNext(ss, acts, i, w);
    hide *;
    StepCovered(ss[i], acts[i], w, LossesAt(ss, acts, i, w));
  }

  /** In every state of every run, while the Manila is not being deleted, a pod of any service
      reads a pinned messaging or notifications secret exactly if no step has stripped that
      secret while the service used it, without its being pinned again. */
  lemma PodKeepsIff(ss: seq<State>, acts: seq<Action>, i: nat, w: Wire, c: ServiceId, pod: nat)
    requires IsRun(ss, acts) && i < |ss| && !ss[i].cr.deleting
    requires c in ss[i].svcs && pod in ss[i].svcs[c].pods
    ensures Secure(ss[i], NameOn(ss[i].svcs[c].pods[pod].cred, w)) <==>
            !Stripped(ss, acts, i, w, c, NameOn(ss[i].svcs[c].pods[pod].cred, w))
  {
    RunCovered(ss, acts, i, w);
    var x := NameOn(ss[i].svcs[c].pods[pod].cred, w);
    assert Reads(ss[i], ss[i].svcs[c], w, c, LossesAt(ss, acts, i, w)) && Uses(ss[i].svcs[c], w, x);
    if Stripped(ss, acts, i, w, c, x) { assert (c, x) in LossesAt(ss, acts, i, w); }
  }

  // ---------------------------------------------------------------- messaging

  /** This step takes the transport finalizer off messaging secret x, while c's object lives:
      on behalf of a spec without c, or as a name that the reconcile neither tracks nor pushes. */
  predicate Exposes(s: State, a: Action, c: ServiceId, x: Name)
    requires Enabled(s, a)
  {
    && Alive(s, c) && x in s.issued && s.parent.Running?
    && Holds(s.secrets, x, TransportConsumer) && !Holds(Step(s, a).secrets, x, TransportConsumer)
    && (c !in s.parent.inst.services || a.PruneOne?)
  }

  /** A release under the guard strips no service that the reconcile has read from the spec. */
  lemma StripExposes(s: State, a: Action, c: ServiceId, x: Name)
    requires Inv(s) && !s.cr.deleting && Enabled(s, a) && Strips(s, a, Messaging, c, x)
    ensures Exposes(s, a, c, x)
  {
    assert Within(s.svcs[c], s.issued) && x in s.issued;
    if a.Advance? { AdvanceStrips(s, c, x); }
    else if IsServiceAction(a) { ServiceKeepsRest(s, a); }
  }

  lemma AdvanceStrips(s: State, c: ServiceId, x: Name)
    requires Inv(s) && !s.cr.deleting && AdvanceEnabled(s) && Strips(s, Advance, Messaging, c, x) && x in s.issued
    ensures c !in s.parent.inst.services
  {
    OnlyFinishStrips(s, x);
    if c in s.parent.inst.services { GuardMeansRolled(s, c); }
  }

  lemma OnlyFinishStrips(s: State, x: Name)
    requires NamesOk(s) && ParentOk(s) && !s.cr.deleting && AdvanceEnabled(s) && x in s.issued
    requires Holds(s.secrets, x, TransportConsumer) && !Holds(DoAdvance(s).secrets, x, TransportConsumer)
    ensures s.parent.pc.FinishTransport? && s.parent.ready && x == s.parent.inst.tracked != s.parent.cur
  {
  }

  /** Nothing pins a messaging name again once a reconcile has gone on from it. */
  ghost predicate LeftBehind(s: State, x: Name) {
    x in s.issued && x != s.url && !Holds(s.secrets, x, TransportConsumer) &&
    (s.parent.Running? && PastRead(s.parent.pc) ==> x != s.parent.cur)
  }

  /** Only issued names are pinned, and a name that came after the one being read is not. */
  ghost predicate InOrder(s: State) {
    && (forall x | Holds(s.secrets, x, TransportConsumer) :: x in s.issued + s.issuedN)
    && (s.parent.Running? && PastRead(s.parent.pc) && s.parent.cur != s.url ==>
          !Holds(s.secrets, s.url, TransportConsumer))
  }

  lemma AdvanceInOrder(s: State)
    requires NamesOk(s) && ParentOk(s) && !s.cr.deleting && AdvanceEnabled(s) && InOrder(s)
    ensures InOrder(DoAdvance(s))
  {
  }

  /** Only a reconcile on its way pins anything. */
  lemma OthersPinNothing(s: State, a: Action)
    requires Enabled(s, a) && !a.Advance?
    ensures forall x | Holds(Step(s, a).secrets, x, TransportConsumer) :: Holds(s.secrets, x, TransportConsumer)
  {
    if IsServiceAction(a) { ServiceKeepsRest(s, a); }
  }

  lemma StepInOrder(s: State, a: Action)
    requires Base(s) && !s.cr.deleting && Enabled(s, a) && InOrder(s)
    ensures InOrder(Step(s, a))
  {
    if a.Advance? {
      AdvanceInOrder(s);
    } else {
      OthersPinNothing(s, a);
      if IsServiceAction(a) { ServiceKeepsRest(s, a); }
    }
  }

  lemma AdvanceLeaves(s: State, x: Name)
    requires NamesOk(s) && ParentOk(s) && !s.cr.deleting && AdvanceEnabled(s) && LeftBehind(s, x)
    ensures LeftBehind(DoAdvance(s), x)
  {
  }

  lemma StepLeaves(s: State, a: Action, x: Name)
    requires Base(s) && !s.cr.deleting && Enabled(s, a) && LeftBehind(s, x)
    ensures LeftBehind(Step(s, a), x)
  {
    if a.Advance? { AdvanceLeaves(s, x); }
    else if IsServiceAction(a) { ServiceKeepsRest(s, a); }
  }

  lemma ExposedIsLeft(s: State, a: Action, c: ServiceId, x: Name)
    requires Base(s) && !s.cr.deleting && InOrder(s) && Enabled(s, a) && Exposes(s, a, c, x)
    ensures LeftBehind(Step(s, a), x)
  {
    if a.Advance? { OnlyFinishStrips(s, x); }
    else if IsServiceAction(a) { ServiceKeepsRest(s, a); }
  }

  lemma {:induction false} RunInOrder(ss: seq<State>, acts: seq<Action>, i: nat)
    requires IsRun(ss, acts) && i < |ss| && !ss[i].cr.deleting
    ensures Inv(ss[i]) && InOrder(ss[i])
  {
    RunInv(ss, acts, i);
    if i > 0 {
      DeletionStays(ss, acts, i - 1);
      RunInOrder(ss, acts, i - 1);
      RunStep(ss, acts, i - 1);
      StepInOrder(ss[i - 1], acts[i - 1]);
    }
  }

  lemma {:induction false} StaysLeft(ss: seq<State>, acts: seq<Action>, m: nat, i: nat, x: Name)
    requires IsRun(ss, acts) && m <= i < |ss| && !ss[i].cr.deleting && LeftBehind(ss[m], x)
    ensures LeftBehind(ss[i], x)
    decreases i
  {
    if m < i {
      DeletionStays(ss, acts, i - 1);
      StaysLeft(ss, acts, m, i - 1, x);
      RunInv(ss, acts, i - 1);
      RunStep(ss, acts, i - 1);
      StepLeaves(ss[i - 1], acts[i - 1], x);
    }
  }

  /** Step m has exposed c to the loss of x, and c's object has lived ever since. */
  ghost predicate ExposedSince(ss: seq<State>, acts: seq<Action>, m: nat, i: nat, c: ServiceId, x: Name)
    requires |ss| == |acts| + 1 && m < i < |ss|
  {
    Stepped(ss, acts, m) && Exposes(ss[m], acts[m], c, x) && forall j | m <= j <= i :: Alive(ss[j], c)
  }

  ghost predicate Exposed(ss: seq<State>, acts: seq<Action>, i: nat, c: ServiceId, x: Name)
    requires |ss| == |acts| + 1 && i < |ss|
  {
    exists m :: 0 <= m < i && ExposedSince(ss, acts, m, i, c, x)
  }

  lemma StrippedIsExposed(ss: seq<State>, acts: seq<Action>, i: nat, c: ServiceId, x: Name) returns (m: nat)
    requires IsRun(ss, acts) && i < |ss| && !ss[i].cr.deleting && Stripped(ss, acts, i, Messaging, c, x)
    ensures m < i && StrippedSince(ss, acts, m, i, Messaging, c, x) && ExposedSince(ss, acts, m, i, c, x)
  {
    m :| 0 <= m < i && StrippedSince(ss, acts, m, i, Messaging, c, x);
    EarlierNotDeleting(ss, acts, m, i);
    RunInv(ss, acts, m);
    StripExposes(ss[m], acts[m], c, x);
  }

  lemma {:induction false} EarlierNotDeleting(ss: seq<State>, acts: seq<Action>, m: nat, i: nat)
    requires IsRun(ss, acts) && m <= i < |ss| && !ss[i].cr.deleting
    ensures !ss[m].cr.deleting
    decreases i
  {
    if m < i {
      DeletionStays(ss, acts, i - 1);
      EarlierNotDeleting(ss, acts, m, i - 1);
    }
  }

  lemma ExposedStaysUnpinned(ss: seq<State>, acts: seq<Action>, i: nat, c: ServiceId, x: Name)
    requires IsRun(ss, acts) && i < |ss| && !ss[i].cr.deleting && Exposed(ss, acts, i, c, x)
    ensures !Holds(ss[i].secrets, x, TransportConsumer)
  {
    var m :| 0 <= m < i && ExposedSince(ss, acts, m, i, c, x);
    EarlierNotDeleting(ss, acts, m, i);
    RunInOrder(ss, acts, m);
    RunStep(ss, acts, m);
    ExposedIsLeft(ss[m], acts[m], c, x);
    StaysLeft(ss, acts, m + 1, i, x);
  }

  /** MAIN: in every state of every run, while the Manila is not being deleted, a pod of any
      service, in the spec or not, reads a pinned messaging secret exactly if its service has
      not been exposed to the loss of that secret. */
  lemma PodPinnedIff(ss: seq<State>, acts: seq<Action>, i: nat, c: ServiceId, pod: nat)
    requires IsRun(ss, acts) && i < |ss| && !ss[i].cr.deleting
    requires c in ss[i].svcs && pod in ss[i].svcs[c].pods
    ensures Holds(ss[i].secrets, ss[i].svcs[c].pods[pod].cred.t, TransportConsumer) <==>
            !Exposed(ss, acts, i, c, ss[i].svcs[c].pods[pod].cred.t)
  {
    var x := ss[i].svcs[c].pods[pod].cred.t;
    PodKeepsIff(ss, acts, i, Messaging, c, pod);
    RunInv(ss, acts, i);
    assert Within(ss[i].svcs[c], ss[i].issued) && x != "";
    if Exposed(ss, acts, i, c, x) { ExposedStaysUnpinned(ss, acts, i, c, x); }
    if Stripped(ss, acts, i, Messaging, c, x) { var _ := StrippedIsExposed(ss, acts, i, c, x); }
  }

  // ---------------------------------------------------------------- rotations that do not overlap

  /** Every messaging secret so far was issued only once its predecessor was tracked. */
  ghost predicate Timely(ss: seq<State>, acts: seq<Action>, i: nat)
    requires |ss| == |acts| + 1 && i < |ss|
  {
    forall m | 0 <= m < i && acts[m].RotateTransport? :: ss[m].url == ss[m].cr.tracked
  }

  /** Nothing but the tracked and the current messaging secret is pinned. */
  ghost predicate Narrow(s: State) {
    && InOrder(s)
    && (forall x | x in s.issued && Holds(s.secrets, x, TransportConsumer) :: x == s.url || x == s.cr.tracked)
    && (s.parent.Running? && PastRead(s.parent.pc) ==> s.parent.cur == s.url || s.parent.cur == s.cr.tracked)
  }

  lemma AdvanceNarrow(s: State)
    requires Base(s) && Ledger(s) && !s.cr.deleting && AdvanceEnabled(s) && Narrow(s)
    ensures Narrow(DoAdvance(s))
  {
    AdvanceInOrder(s);
  }

  lemma StepNarrow(s: State, a: Action)
    requires Base(s) && Ledger(s) && !s.cr.deleting && Enabled(s, a) && Narrow(s)
    requires a.RotateTransport? ==> s.url == s.cr.tracked
    ensures Narrow(Step(s, a))
  {
    StepInOrder(s, a);
    if a.Advance? { AdvanceNarrow(s); }
    else if IsServiceAction(a) { ServiceKeepsRest(s, a); }
  }

  lemma {:induction false} RunNarrow(ss: seq<State>, acts: seq<Action>, i: nat)
    requires IsRun(ss, acts) && i < |ss| && !ss[i].cr.deleting && Timely(ss, acts, i)
    ensures Inv(ss[i]) && Ledger(ss[i]) && Narrow(ss[i])
  {
    RunLedger(ss, acts, i);
    if i > 0 {
      DeletionStays(ss, acts, i - 1);
      RunNarrow(ss, acts, i - 1);
      RunStep(ss, acts, i - 1);
      StepNarrow(ss[i - 1], acts[i - 1]);
    }
  }

  /** Then no prune takes the finalizer off a messaging secret. */
  lemma TimelyPrunesNothing(ss: seq<State>, acts: seq<Action>, i: nat, x: Name)
    requires IsRun(ss, acts) && i < |acts| && !ss[i].cr.deleting && Timely(ss, acts, i)
    requires acts[i] == PruneOne(x) && x in ss[i].issued
    ensures Holds(ss[i + 1].secrets, x, TransportConsumer) <==> Holds(ss[i].secrets, x, TransportConsumer)
  {
    RunNarrow(ss, acts, i);
    RunStep(ss, acts, i);
  }

  /** Since c's object was created, no reconcile has run on a spec without c. */
  ghost predicate AlwaysWanted(ss: seq<State>, i: nat, c: ServiceId)
    requires i < |ss|
  {
    forall m | 0 <= m < i && (forall j | m <= j <= i :: Alive(ss[j], c)) && ss[m].parent.Running? ::
      c in ss[m].parent.inst.services
  }

  /** So while rotations do not overlap, an exposure is the work of a reconcile whose spec
      lacked the service. */
  lemma TimelyExposure(ss: seq<State>, acts: seq<Action>, i: nat, c: ServiceId, x: Name) returns (m: nat)
    requires IsRun(ss, acts) && i < |ss| && !ss[i].cr.deleting && Timely(ss, acts, i) && Exposed(ss, acts, i, c, x)
    ensures m < i && ExposedSince(ss, acts, m, i, c, x) && c !in ss[m].parent.inst.services
  {
    m :| 0 <= m < i && ExposedSince(ss, acts, m, i, c, x);
    EarlierNotDeleting(ss, acts, m, i);
    if acts[m].PruneOne? { PrunedName(ss[m], acts[m], x); TimelyPrunesNothing(ss, acts, m, x); }
  }

  lemma PrunedName(s: State, a: Action, x: Name)
    requires Enabled(s, a) && a.PruneOne?
    requires Holds(s.secrets, x, TransportConsumer) && !Holds(Step(s, a).secrets, x, TransportConsumer)
    ensures a.x == x
  {
  }

  /** Then a pod reads a pinned secret exactly if no reconcile whose spec lacked its service has
      exposed it. */
  lemma TimelyPinnedIff(ss: seq<State>, acts: seq<Action>, i: nat, c: ServiceId, pod: nat)
    requires IsRun(ss, acts) && i < |ss| && !ss[i].cr.deleting && Timely(ss, acts, i)
    requires c in ss[i].svcs && pod in ss[i].svcs[c].pods
    ensures Holds(ss[i].secrets, ss[i].svcs[c].pods[pod].cred.t, TransportConsumer) <==>
            forall m | 0 <= m < i && ExposedSince(ss, acts, m, i, c, ss[i].svcs[c].pods[pod].cred.t) ::
              c in ss[m].parent.inst.services
  {
    PodPinnedIff(ss, acts, i, c, pod);
    var x := ss[i].svcs[c].pods[pod].cred.t;
    if Exposed(ss, acts, i, c, x) { var _ := TimelyExposure(ss, acts, i, c, x); }
  }

  /** And every pod of a service that has been in the spec ever since its object exists reads
      a pinned secret. */
  lemma PodCredentialsPinned(ss: seq<State>, acts: seq<Action>, i: nat, c: ServiceId, pod: nat)
    requires IsRun(ss, acts) && i < |ss| && !ss[i].cr.deleting && Timely(ss, acts, i)
    requires c in ss[i].svcs && pod in ss[i].svcs[c].pods && AlwaysWanted(ss, i, c)
    ensures Holds(ss[i].secrets, ss[i].svcs[c].pods[pod].cred.t, TransportConsumer)
  {
    PodPinnedIff(ss, acts, i, c, pod);
    var x := ss[i].svcs[c].pods[pod].cred.t;
    if Exposed(ss, acts, i, c, x) { var _ := TimelyExposure(ss, acts, i, c, x); }
  }

  // ---------------------------------------------------------------- notifications

  /** This step takes the finalizer off a notifications secret: a prune of a name that is
      neither tracked nor pushed, or the release of the tracked one under the guard, in which
      every service of the spec has passed the readiness test for the names pushed. */
  ghost predicate LetsGo(s: State, a: Action, x: Name) {
    s.parent.Running? &&
    ((a == PruneOne(x) && x != Value(s.parent.inst.trackedN) && x != s.parent.curN) ||
     (a.Advance? && s.parent.pc.FinishNotif? && s.parent.ready && x == Value(s.parent.inst.trackedN) &&
      x != s.parent.curN && forall c | c in s.parent.inst.services :: Passed(s, c)))
  }

  lemma StripLetsGo(s: State, a: Action, c: ServiceId, x: Name)
    requires Inv(s) && !s.cr.deleting && Enabled(s, a) && Strips(s, a, Notifications, c, x) && x in s.issuedN
    ensures LetsGo(s, a, x)
  {
    hide Uses;
    if a.Advance? { AdvanceLetsGo(s, x); }
    else if IsServiceAction(a) { ServiceKeepsRest(s, a); }
    else if a.PruneOne? { PrunedName(s, a, x); }
  }

  lemma AdvanceLetsGo(s: State, x: Name)
    requires Base(s) && !s.cr.deleting && AdvanceEnabled(s) && x in s.issuedN
    requires Holds(s.secrets, x, TransportConsumer) && !Holds(DoAdvance(s).secrets, x, TransportConsumer)
    ensures LetsGo(s, Advance, x)
  {
    OnlyFinishNotifStrips(s, x);
    forall c | c in s.parent.inst.services ensures Passed(s, c) { assert Visited(s.parent.pc, c); }
  }

  lemma OnlyFinishNotifStrips(s: State, x: Name)
    requires NamesOk(s) && ParentOk(s) && !s.cr.deleting && AdvanceEnabled(s) && x in s.issuedN
    requires Holds(s.secrets, x, TransportConsumer) && !Holds(DoAdvance(s).secrets, x, TransportConsumer)
    ensures s.parent.pc.FinishNotif? && s.parent.ready && x == Value(s.parent.inst.trackedN) != s.parent.curN
  {
  }

  /** So a pod's notifications secret is unpinned exactly if, since its service used it, such a
      step let it go, and no reconcile has pinned it again. */
  lemma NotifPinnedIff(ss: seq<State>, acts: seq<Action>, i: nat, c: ServiceId, pod: nat)
    requires IsRun(ss, acts) && i < |ss| && !ss[i].cr.deleting
    requires c in ss[i].svcs && pod in ss[i].svcs[c].pods && ss[i].svcs[c].pods[pod].cred.n != ""
    ensures var x := ss[i].svcs[c].pods[pod].cred.n;
            !Holds(ss[i].secrets, x, TransportConsumer) <==>
              exists m :: 0 <= m < i && StrippedSince(ss, acts, m, i, Notifications, c, x) && LetsGo(ss[m], acts[m], x)
  {
    var x := ss[i].svcs[c].pods[pod].cred.n;
    PodKeepsIff(ss, acts, i, Notifications, c, pod);
    if Stripped(ss, acts, i, Notifications, c, x) {
      var m :| 0 <= m < i && StrippedSince(ss, acts, m, i, Notifications, c, x);
      StrippedLetsGo(ss, acts, m, i, c, x);
    }
  }

  lemma StrippedThen(ss: seq<State>, acts: seq<Action>, m: nat, i: nat, c: ServiceId, x: Name)
    requires |ss| == |acts| + 1 && m < i < |ss| && x != ""
    requires StrippedSince(ss, acts, m, i, Notifications, c, x) && IssuedNotif(ss[m])
    ensures Enabled(ss[m], acts[m]) && Strips(ss[m], acts[m], Notifications, c, x) && x in ss[m].issuedN
  {
    hide Step, Enabled;
    assert c in ss[m].svcs && Uses(ss[m].svcs[c], Notifications, x);
    assert NameIn(x, ss[m].issuedN);
    assert Enabled(ss[m], acts[m]);
    assert Strips(ss[m], acts[m], Notifications, c, x);
  }

  lemma StrippedLetsGo(ss: seq<State>, acts: seq<Action>, m: nat, i: nat, c: ServiceId, x: Name)
    requires IsRun(ss, acts) && m < i < |ss| && !ss[i].cr.deleting && x != ""
    requires StrippedSince(ss, acts, m, i, Notifications, c, x)
    ensures LetsGo(ss[m], acts[m], x)
  {
    hide Step, Enabled, Inv, LetsGo, Uses, IssuedNotif;
    EarlierNotDeleting(ss, acts, m, i);
    RunIssuedNotif(ss, acts, m);
    StrippedThen(ss, acts, m, i, c, x);
    StripLetsGo(ss[m], acts[m], c, x);
  }

  /** Configurations and pods name issued notifications secrets only. */
  ghost predicate IssuedNotif(s: State) {
    && (s.cfg.Some? ==> NameIn(s.cfg.value.n, s.issuedN))
    && (forall c, x | c in s.svcs && Uses(s.svcs[c], Notifications, x) :: NameIn(x, s.issuedN))
  }

  lemma StepIssuedNotif(s: State, a: Action)
    requires Base(s) && Enabled(s, a) && IssuedNotif(s)
    ensures IssuedNotif(Step(s, a))
  {
    StepUses(s, a);
    ConfigIssued(s, a);
    hide Step, Enabled, Uses, Base;
    var s' := Step(s, a);
    forall c, x | c in s'.svcs && Uses(s'.svcs[c], Notifications, x) ensures NameIn(x, s'.issuedN) {
      if UsedBy(s, c, Notifications, x) { assert NameIn(x, s.issuedN); } else { assert s.cfg.value.n == x; }
    }
  }

  lemma ConfigIssued(s: State, a: Action)
    requires NamesOk(s) && Enabled(s, a)
    ensures s.issuedN <= Step(s, a).issuedN
    ensures Step(s, a).cfg == s.cfg || (Step(s, a).cfg.Some? && NameIn(Step(s, a).cfg.value.n, s.issuedN))
  {
    if IsServiceAction(a) { ServiceKeepsRest(s, a); } else if a.Advance? { AdvanceIssued(s); }
  }

  lemma AdvanceIssued(s: State)
    requires NamesOk(s) && AdvanceEnabled(s)
    ensures DoAdvance(s).issuedN == s.issuedN
    ensures DoAdvance(s).cfg == s.cfg || (DoAdvance(s).cfg.Some? && NameIn(DoAdvance(s).cfg.value.n, s.issuedN))
  {
  }

  lemma {:induction false} RunIssuedNotif(ss: seq<State>, acts: seq<Action>, i: nat)
    requires IsRun(ss, acts) && i < |ss|
    ensures Inv(ss[i]) && IssuedNotif(ss[i])
  {
    RunInv(ss, acts, i);
    if i > 0 {
      RunIssuedNotif(ss, acts, i - 1);
      RunStep(ss, acts, i - 1);
      StepIssuedNotif(ss[i - 1], acts[i - 1]);
    }
  }
}
