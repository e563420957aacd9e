/** The reconciler of one service object (API, Scheduler and Share have the same shape) as
    imperative code: the hash gate, the StatefulSet, and AppliedInputSecretHash.  It begins
    from a revision that its cache holds; before each of its calls the parent, the other
    services, the pods and the environment may act, and the call may fail or be where the
    process dies. */
module ServiceController {
  import opened Options
  import opened RotationState
  import opened RotationSteps
  import opened RotationSafety
  import opened RotationEffects
  import opened RotationActors

  // ---------------------------------------------------------------- everybody else

  /** What the others may do while a reconcile of c is under way. */
  predicate IsOther(a: Action, c: ServiceId) { !IsServiceAction(a) || IsPodAction(a) || a.c != c }

  function WithRun(s: State, c: ServiceId, run: ServiceRun): State
    requires c in s.svcs
  {
    Put(s, c, s.svcs[c].(run := run))
  }

  lemma OtherAdvance(s: State, c: ServiceId, run: ServiceRun)
    requires c in s.svcs && AdvanceEnabled(s)
    ensures AdvanceEnabled(WithRun(s, c, run))
    ensures DoAdvance(s).svcs == s.svcs && DoAdvance(WithRun(s, c, run)) == WithRun(DoAdvance(s), c, run)
  {
    if PastPinAC(s.parent.pc) { OtherTail(s, c, run); }
    else if s.parent.pc.ReadTransport? || s.parent.pc.ReadNotif? { OtherRead(s, c, run); }
    else { OtherHead(s, c, run); }
  }

  lemma OtherRead(s: State, c: ServiceId, run: ServiceRun)
    requires c in s.svcs && AdvanceEnabled(s) && (s.parent.pc.ReadTransport? || s.parent.pc.ReadNotif?)
    ensures AdvanceEnabled(WithRun(s, c, run))
    ensures DoAdvance(s).svcs == s.svcs && DoAdvance(WithRun(s, c, run)) == WithRun(DoAdvance(s), c, run)
  {
  }

  lemma OtherHead(s: State, c: ServiceId, run: ServiceRun)
    requires c in s.svcs && AdvanceEnabled(s) && !PastPinAC(s.parent.pc)
    requires !s.parent.pc.ReadTransport? && !s.parent.pc.ReadNotif?
    ensures AdvanceEnabled(WithRun(s, c, run))
    ensures DoAdvance(s).svcs == s.svcs && DoAdvance(WithRun(s, c, run)) == WithRun(DoAdvance(s), c, run)
  {
  }

  lemma OtherTail(s: State, c: ServiceId, run: ServiceRun)
    requires c in s.svcs && AdvanceEnabled(s) && PastPinAC(s.parent.pc)
    ensures AdvanceEnabled(WithRun(s, c, run))
    ensures DoAdvance(s).svcs == s.svcs && DoAdvance(WithRun(s, c, run)) == WithRun(DoAdvance(s), c, run)
  {
  }

  /** Seen by the others, s and s' differ at most in the reconcile of c. */
  ghost predicate Unseen(s: State, c: ServiceId, run: ServiceRun, a: Action)
    requires c in s.svcs && Enabled(s, a)
  {
    && Enabled(WithRun(s, c, run), a) && c in Step(s, a).svcs && Step(s, a).svcs[c].run == s.svcs[c].run
    && Step(WithRun(s, c, run), a) == WithRun(Step(s, a), c, run)
  }

  lemma OtherPods(s: State, c: ServiceId, run: ServiceRun, a: Action)
    requires c in s.svcs && Enabled(s, a) && IsPodAction(a) && a.c == c
    ensures Unseen(s, c, run, a)
  {
  }

  lemma OtherService(s: State, c: ServiceId, run: ServiceRun, a: Action)
    requires c in s.svcs && Enabled(s, a) && IsServiceAction(a) && a.c != c
    ensures Unseen(s, c, run, a)
  {
    ServiceStepPuts(s, a);
    SameService(s, c, run, a);
    hide Enabled, Step;
    var k' := Step(s, a).svcs[a.c];
    assert s.svcs[c := s.svcs[c].(run := run)][a.c := k'] == s.svcs[a.c := k'][c := s.svcs[c].(run := run)];
  }

  /** What a service does depends on its own record, the configuration and the secrets. */
  lemma SameService(s: State, c: ServiceId, run: ServiceRun, a: Action)
    requires c in s.svcs && Enabled(s, a) && IsServiceAction(a) && a.c != c
    ensures Enabled(WithRun(s, c, run), a)
    ensures a.c in Step(s, a).svcs && Step(WithRun(s, c, run), a) == Put(WithRun(s, c, run), a.c, Step(s, a).svcs[a.c])
  {
    assert WithRun(s, c, run).svcs[a.c] == s.svcs[a.c];
    hide WithRun, Advanced, Checked, Exited, Started, Gone, PodStarted, PodRestarted, PodStopped;
    hide AdvanceServiceEnabled, StartEnabled, RolledTo;
  }

  lemma DeployUnseen(s: State, c: ServiceId, run: ServiceRun, d: ServiceId, snap: Snapshot)
    requires c in s.svcs && s.parent.Running? && DeployEnabled(s, d, snap)
    ensures DeployEnabled(WithRun(s, c, run), d, snap)
    ensures DeployObject(WithRun(s, c, run), d, snap) == DeployObject(s, d, snap)
    ensures DeployService(WithRun(s, c, run), d, snap) ==
              if d == c then DeployService(s, d, snap).(run := run) else DeployService(s, d, snap)
    ensures d == c ==> DeployService(s, d, snap).run == s.svcs[c].run
  {
  }

  lemma OtherDeploy(s: State, c: ServiceId, run: ServiceRun, a: Action)
    requires c in s.svcs && Enabled(s, a) && a.DeployOne?
    ensures Unseen(s, c, run, a)
  {
    DeployUnseen(s, c, run, a.c, a.snap);
    hide DeployEnabled, DeployObject, DeployService, Matches;
    if a.c != c {
      var k' := DeployService(s, a.c, a.snap);
      assert s.svcs[c := s.svcs[c].(run := run)][a.c := k'] == s.svcs[a.c := k'][c := s.svcs[c].(run := run)];
    }
  }

  lemma OtherCleanup(s: State, c: ServiceId, run: ServiceRun, a: Action)
    requires c in s.svcs && Enabled(s, a) && a.CleanupOne?
    ensures Unseen(s, c, run, a)
  {
    if a.c != c {
      var k' := DoCleanup(s, a.c).svcs[a.c];
      assert s.svcs[c := s.svcs[c].(run := run)][a.c := k'] == s.svcs[a.c := k'][c := s.svcs[c].(run := run)];
    }
  }

  lemma OtherRest(s: State, c: ServiceId, run: ServiceRun, a: Action)
    requires c in s.svcs && Enabled(s, a)
    requires !IsServiceAction(a) && !a.Advance? && !a.DeployOne? && !a.CleanupOne?
    ensures Unseen(s, c, run, a)
  {
  }

  /** They neither see nor touch the reconcile. */
  lemma OtherStep(s: State, c: ServiceId, run: ServiceRun, a: Action)
    requires c in s.svcs && Enabled(s, a) && IsOther(a, c)
    ensures Unseen(s, c, run, a)
  {
    if a.Advance? { OtherAdvance(s, c, run); }
    else if a.DeployOne? { OtherDeploy(s, c, run, a); }
    else if a.CleanupOne? { OtherCleanup(s, c, run, a); }
    else if IsServiceAction(a) { if a.c == c { OtherPods(s, c, run, a); } else { OtherService(s, c, run, a); } }
    else { OtherRest(s, c, run, a); }
  }

  lemma LeadsSound(s: State, s': State, c: ServiceId)
    requires Inv(s) && Leads(s, s') && c in s'.svcs
    ensures Inv(s') && s'.svcs[c].versions != [] && ServiceOk(s'.svcs[c])
  {
    LeadsInv(s, s');
    assert ServiceOk(s'.svcs[c]);
  }

  // ---------------------------------------------------------------- an undisturbed reconcile

  /** The wanted number of pods is there and runs the template with this hash. */
  predicate RolledFor(k: Service, v: ServiceCR, input: Input) {
    |k.pods| == v.spec.tmpl.replicas && RolledTo(k, input)
  }

  /** What a reconcile does that begins from revision v; if the StatefulSet has not observed
      its generation yet, it stops before it looks at the rollout. */
  function EffectFrom(k: Service, v: ServiceCR, cfg: Option<Config>, secrets: map<Name, set<Finalizer>>,
                      observed: bool): Service
    requires k.versions != []
  {
    var inst := v.(obs := v.gen);
    if !Readable(v, cfg, secrets) then Exited(k, v, inst)
    else
      var input := InputOf(v, cfg.value);
      if v.hash != Some(input) then Exited(k.(cfg := cfg), v, inst.(hash := Some(input)))
      else
        var k' := k.(cfg := cfg, sts := Some(input));
        if !observed then Exited(k', v, inst)
        else Exited(k', v, Seen(k', inst, input))
  }

  /** The status once the rollout has been looked at. */
  function Seen(k: Service, inst: ServiceCR, input: Input): ServiceCR {
    inst.(ready := |k.pods|,
          applied := if RolledFor(k, inst, input) then Some(Pair(inst.spec.t, inst.spec.n)) else inst.applied)
  }

  /** From the current revision that is ServiceEffect. */
  lemma EffectFromLast(k: Service, cfg: Option<Config>, secrets: map<Name, set<Finalizer>>)
    requires k.versions != []
    ensures EffectFrom(k, Last(k), cfg, secrets, true) == ServiceEffect(k, cfg, secrets)
  {
  }

  /** The instance of a reconcile that began from the current revision and has changed no more
      than the observed generation and the hash. */
  predicate BarelyBegun(k: Service, base: ServiceCR, inst: ServiceCR) {
    k.versions != [] && base == Last(k) && inst == base.(obs := base.gen, hash := inst.hash)
  }

  /** All that stays but the object's status. */
  predicate StatusOnly(k: Service, k': Service) {
    && k'.pods == k.pods && k'.live == k.live && k'.born == k.born && k'.run.Resting?
    && k.versions != [] && k.versions <= k'.versions && |k'.versions| <= |k.versions| + 1
    && Last(k').spec == Last(k).spec && Last(k').gen == Last(k).gen && Last(k').deleting == Last(k).deleting
  }

  /** The rollout has been looked at: the ready count is the number of pods, complete or not,
      and the names of the spec are applied if the wanted number of pods is there and all run
      this template; otherwise what was applied stays. */
  predicate Looked(k: Service, k': Service, input: Input) {
    && StatusOnly(k, k') && k'.cfg == k.cfg && k'.sts == k.sts
    && Last(k').obs == Last(k).gen && Last(k').ready == |k.pods|
    && Last(k').applied ==
         (if k.sts == Some(input) && |k.pods| == Last(k).spec.tmpl.replicas &&
             forall i | i in k.pods :: k.pods[i].tmpl == input
          then Some(Pair(Last(k).spec.t, Last(k).spec.n)) else Last(k).applied)
  }

  /** A whole reconcile from the current revision: without its inputs it observes the
      generation only; a new input hash is recorded and nothing else, but for the rendered
      configuration; then the StatefulSet gets it, and once that is observed the rollout is
      looked at. */
  predicate Reconciled(k: Service, k': Service, cfg: Option<Config>, secrets: map<Name, set<Finalizer>>,
                       observed: bool)
  {
    && StatusOnly(k, k') && Last(k').obs == Last(k).gen
    && var v, v' := Last(k), Last(k');
    if cfg.None? || v.spec.t !in secrets || (v.spec.n != "" && v.spec.n !in secrets) then
      k'.cfg == k.cfg && k'.sts == k.sts && v' == v.(obs := v.gen)
    else
      var input := Input(v.spec.t, v.spec.n, cfg.value, cfg.value);
      && k'.cfg == cfg && v'.hash == Some(input)
      && if v.hash != Some(input) then k'.sts == k.sts && v'.ready == v.ready && v'.applied == v.applied
         else if !observed then k'.sts == Some(input) && v'.ready == v.ready && v'.applied == v.applied
         else k'.sts == Some(input) && Looked(k.(cfg := cfg, sts := Some(input)), k', input)
  }

  lemma SeenLooked(k: Service, inst: ServiceCR, input: Input)
    requires k.versions != [] && BarelyBegun(k, Last(k), inst)
    ensures Looked(k, Exited(k, Last(k), Seen(k, inst, input)), input)
  {
  }

  lemma EffectReconciled(k: Service, cfg: Option<Config>, secrets: map<Name, set<Finalizer>>, observed: bool)
    requires k.versions != []
    ensures Reconciled(k, EffectFrom(k, Last(k), cfg, secrets, observed), cfg, secrets, observed)
  {
  }

  lemma GateExits(k: Service, pc: ServicePc, inst: ServiceCR, base: ServiceCR, cfg: Option<Config>,
                  secrets: map<Name, set<Finalizer>>)
    requires k.versions != [] && pc.Gate? && inst.hash != Some(Input(inst.spec.t, inst.spec.n, pc.seen, pc.own))
    ensures var input := Input(inst.spec.t, inst.spec.n, pc.seen, pc.own);
            && AdvanceServiceEnabled(k.(run := Reconciling(pc, inst, base)), cfg, secrets)
            && Advanced(k.(run := Reconciling(pc, inst, base)), cfg, secrets) ==
                 Exited(k, base, inst.(hash := Some(input)))
  {
  }

  class ServiceReconciler {
    const c: ServiceId
    // the store, without this reconcile
    var store: State
    // the reconcile: its in-memory instance, and the revision it began from
    var inst: ServiceCR
    var base: ServiceCR
    // what will happen to it: the outcomes of its next calls, and what the others do before
    // each of them; and whether that disturbs it
    var outcomes: seq<Outcome>
    var others: seq<seq<Action>>
    var disturbed: bool
    // the outcome of its latest call
    var last: Outcome

    constructor (c: ServiceId, s: State)
      requires c in s.svcs && s.svcs[c].versions != []
      ensures this.c == c && store == s
    {
      this.c, store := c, s;
      inst, base := Last(s.svcs[c]), Last(s.svcs[c]);
      outcomes, others, disturbed, last := [], [], false, Fine;
    }

    ghost predicate Resting()
      reads `store
    {
      c in store.svcs && store.svcs[c].run.Resting?
    }

    ghost function View(pc: ServicePc): State
      requires Resting()
      reads `store, `inst, `base
    {
      WithRun(store, c, Reconciling(pc, inst, base))
    }

    /** Some steps lead from s to s', and none of them is a crash of this reconcile. */
    ghost predicate Goes(s: State, s': State) { LeadsWithout(ServiceCrash(c), s, s') }

    lemma GoesRefl(s: State)
      ensures Goes(s, s)
    {
      WithoutRefl(ServiceCrash(c), s);
    }

    lemma GoesStep(s: State, m: State, a: Action)
      requires Goes(s, m) && Enabled(m, a) && a != ServiceCrash(c)
      ensures Goes(s, Step(m, a))
    {
      WithoutStep(ServiceCrash(c), s, m, a);
    }

    lemma GoesLeads(s: State, s': State)
      requires Goes(s, s')
      ensures Leads(s, s')
    {
      WithoutLeads(ServiceCrash(c), s, s');
    }

    lemma GoesSound(s: State, s': State)
      requires Inv(s) && Goes(s, s') && c in s'.svcs
      ensures Inv(s') && s'.svcs[c].versions != [] && ServiceOk(s'.svcs[c])
    {
      GoesLeads(s, s');
      LeadsSound(s, s', c);
    }

    /** The reconcile that began in s0 has ended; if its last call, the deferred patch,
        succeeded, no status was lost on the way. */
    ghost predicate Left(s0: State)
      reads `store, `last
    {
      Leads(s0, store) && (last.Fine? ==> Goes(s0, store))
    }

    /** The next call will not succeed. */
    ghost predicate Failing()
      reads `outcomes
    {
      outcomes != [] && !outcomes[0].Fine?
    }

    /** The reconcile that began in s0 has come to pc. */
    ghost predicate On(s0: State, pc: ServicePc)
      reads `store, `inst, `base
    {
      Resting() && Inv(s0) && Goes(s0, View(pc))
    }

    ghost predicate Plain()
      reads `outcomes, `others
    {
      Undisturbed(outcomes, others)
    }

    // -------------------------------------------------------------- calls

    method OneOther(ghost s0: State, ghost pc: ServicePc, a: Action)
      requires On(s0, pc)
      modifies `store, `disturbed
      ensures On(s0, pc) && (old(disturbed) ==> disturbed) && (!disturbed ==> store == old(store))
    {
      hide Inv, Goes, Enabled, Step;
      if IsOther(a, c) && Enabled(store, a) {
        OtherStep(store, c, Reconciling(pc, inst, base), a);
        GoesStep(s0, View(pc), a);
        store, disturbed := Step(store, a), true;
      }
    }

    /** A call: first the others act, then it succeeds or not; calls that no outcome is given
        for succeed. */
    method Call(ghost s0: State, ghost pc: ServicePc) returns (o: Outcome)
      requires On(s0, pc)
      modifies `store, `disturbed, `others, `outcomes, `last
      ensures old(Plain()) ==> Plain() && (disturbed ==> old(disturbed))
      ensures On(s0, pc) && (old(disturbed) ==> disturbed) && (!o.Fine? ==> disturbed)
      ensures !disturbed ==> store == old(store)
      ensures last == o == if old(outcomes) == [] then Fine else old(outcomes)[0]
      ensures outcomes == if old(outcomes) == [] then [] else old(outcomes)[1..]
      ensures old(others) == [] ==> others == [] && store == old(store)
    {
      hide Inv, Goes;
      if others != [] {
        var acts := others[0];
        others := others[1..];
        for i := 0 to |acts|
          invariant outcomes == old(outcomes) && (acts == [] ==> store == old(store))
          invariant old(Plain()) ==> Plain() && acts == [] && (disturbed ==> old(disturbed))
          invariant On(s0, pc) && (old(disturbed) ==> disturbed) && (!disturbed ==> store == old(store))
        {
          OneOther(s0, pc, acts[i]);
        }
      }
      o := Fine;
      if outcomes != [] { o, outcomes := outcomes[0], outcomes[1..]; }
      last := o;
      disturbed := disturbed || !o.Fine?;
    }

    /** The object of the service, its StatefulSet and its pods. */
    function Object(): Service
      requires c in store.svcs
      reads `store
    {
      store.svcs[c]
    }

    /** The deferred PatchInstance: a revision is added only if the status changed. */
    method PatchInstance(ghost s0: State, ghost pc: ServicePc, o: Outcome)
      requires On(s0, pc) && (o.Died? ==> !last.Fine?)
      modifies `store, `disturbed, `others, `outcomes, `last
      ensures old(Plain()) ==> Plain() && (disturbed ==> old(disturbed))
      ensures Left(s0) && (old(disturbed) ==> disturbed)
      ensures !disturbed && o.Fine? ==>
                old(Object()).versions != [] &&
                store == Put(old(store), c, Exited(old(Object()), base, inst))
      ensures old(others) == [] ==>
                store == old(store) ||
                (old(Object()).versions != [] && store == Put(old(store), c, Exited(old(Object()), base, inst)))
    {
      var saved := o;
      if !o.Died? { saved := Call(s0, pc); }
      GoesSound(s0, View(pc));
      hide Inv, Goes;
      LeadsEnd(s0, pc);
      if saved.Fine? { Save(); }
    }

    method Save()
      requires Resting() && Object().versions != []
      modifies `store
      ensures store == Put(old(store), c, Exited(old(Object()), base, inst))
    {
      var k := Object();
      var last := k.versions[|k.versions| - 1];
      var v := Patched(last, base, inst);
      if v != last {
        store := Put(store, c, k.(versions := k.versions + [v]));
      } else {
        assert Put(store, c, k) == store;
      }
    }

    /** A reconcile may end at any point, patched or not. */
    lemma LeadsEnd(s0: State, pc: ServicePc)
      requires On(s0, pc) && Object().versions != []
      ensures var k := Put(store, c, Exited(Object(), base, inst)); Goes(s0, k) && Leads(s0, k)
      ensures Leads(s0, store)
    {
      hide Inv, Leads, Goes;
      GoesStep(s0, View(pc), ServiceExit(c));
      GoesLeads(s0, View(pc));
      LeadsStep(s0, View(pc), ServiceCrash(c));
      assert Step(View(pc), ServiceExit(c)) == Put(store, c, Exited(Object(), base, inst));
      assert Step(View(pc), ServiceCrash(c)) == store;
      GoesLeads(s0, Put(store, c, Exited(Object(), base, inst)));
    }

    /** One step of the reconcile, which replaces the service's record by k'. */
    lemma LeadsOwn(s0: State, pc: ServicePc, a: Action, k': Service)
      requires On(s0, pc) && a != ServiceCrash(c) && Enabled(View(pc), a) && Step(View(pc), a) == Put(View(pc), c, k')
      ensures Goes(s0, Put(store, c, k')) && Leads(s0, Put(store, c, k'))
    {
      GoesStep(s0, View(pc), a);
      assert Put(View(pc), c, k') == Put(store, c, k');
      GoesLeads(s0, Put(store, c, k'));
    }

    // -------------------------------------------------------------- Reconcile

    /** One reconcile, from revision j: a path of the step system whatever happens between its
        calls, and EffectFrom when nothing disturbs it. */
    method Reconcile(j: nat, observed: bool, outcomes: seq<Outcome>, others: seq<seq<Action>>)
      requires Inv(store) && c in store.svcs && StartEnabled(store.svcs[c], j)
      modifies this
      ensures Undisturbed(outcomes, others) ==> !disturbed
      ensures Leads(old(store), store) && Inv(store)
      ensures last.Fine? ==> Goes(old(store), store)
      ensures !disturbed ==>
                store == Put(old(store), c,
                             EffectFrom(old(Object()), old(Object()).versions[j], old(store).cfg, old(store).secrets,
                                        observed))
      ensures !disturbed && j == |old(Object()).versions| - 1 ==>
                Resting() &&
                Reconciled(old(Object()), Object(), old(store).cfg, old(store).secrets, observed)
    {
      ghost var k := Object();
      ghost var s0 := store;
      var v := store.svcs[c].versions[j];
      this.outcomes, this.others, disturbed, last, inst, base := outcomes, others, false, Fine, v.(obs := v.gen), v;
      Begins(s0, j);
      Run(s0, observed);
      LeadsInv(s0, store);
      if !disturbed && j == |k.versions| - 1 { EffectReconciled(k, s0.cfg, s0.secrets, observed); }
    }

    method Run(ghost s0: State, observed: bool)
      requires On(s0, Verify) && Object().versions != [] && inst == base.(obs := base.gen)
      modifies `store, `disturbed, `others, `outcomes, `last, `inst
      ensures old(Plain()) ==> Plain() && (disturbed ==> old(disturbed))
      ensures Left(s0) && (old(disturbed) ==> disturbed)
      ensures !disturbed ==>
                store == Put(old(store), c,
                             EffectFrom(old(Object()), base, old(store).cfg, old(store).secrets, observed))
    {
      hide Inv, Leads, Goes, Exited, RolledFor, Seen, WithRun;
      var seen := VerifySecrets(s0);
      if seen.Some? {
        var own := RenderConfig(s0, seen.value);
        if own.Some? { PassGate(s0, seen.value, own.value, observed); }
      }
    }

    /** From the hash gate on: a new hash is recorded, or the StatefulSet gets the known one. */
    method PassGate(ghost s0: State, seen: Config, own: Config, observed: bool)
      requires On(s0, Gate(seen, own))
      modifies `store, `disturbed, `others, `outcomes, `last, `inst
      ensures old(Plain()) ==> Plain() && (disturbed ==> old(disturbed))
      ensures Left(s0) && (old(disturbed) ==> disturbed)
      ensures !disturbed ==>
                var k, v := old(Object()), old(inst);
                var input := Some(Input(v.spec.t, v.spec.n, seen, own));
                && k.versions != []
                && store == Put(old(store), c,
                                if v.hash != input then Exited(k, base, v.(hash := input))
                                else Exited(k.(sts := input), base,
                                            if observed then Seen(k.(sts := input), v, input.value) else v))
    {
      hide Inv, Leads, Goes, Exited, RolledFor, Seen, WithRun;
      var input := Input(inst.spec.t, inst.spec.n, seen, own);
      var stop := HashGate(s0, seen, own, input);
      if !stop { RollOut(s0, input, observed); }
    }

    lemma Begins(s0: State, j: nat)
      requires store == s0 && Inv(s0) && c in store.svcs && StartEnabled(store.svcs[c], j)
      requires base == store.svcs[c].versions[j] && inst == base.(obs := base.gen)
      ensures On(s0, Verify)
    {
      GoesRefl(s0);
      GoesStep(s0, s0, ServiceStart(c, j));
    }

    /** verifyConfigSecrets: the hash of the parent's configuration, and the secrets. */
    method VerifySecrets(ghost s0: State) returns (seen: Option<Config>)
      requires On(s0, Verify)
      modifies `store, `disturbed, `others, `outcomes, `last
      ensures old(Plain()) ==> Plain() && (disturbed ==> old(disturbed))
      ensures (old(disturbed) ==> disturbed) && (if seen.None? then Left(s0) else On(s0, Render(seen.value)))
      ensures old(Failing()) ==> seen.None?
      ensures seen.None? && !disturbed ==>
                && !Readable(inst, old(store).cfg, old(store).secrets) && old(Object()).versions != []
                && store == Put(old(store), c, Exited(old(Object()), base, inst))
      ensures seen.Some? && !disturbed ==>
                store == old(store) && Readable(inst, store.cfg, store.secrets) && store.cfg == seen
    {
      var o := Call(s0, Verify);
      seen := None;
      if !o.Fine? || !Readable(inst, store.cfg, store.secrets) {
        PatchInstance(s0, Verify, o);
        return;
      }
      VerifyStep(s0);
      seen := store.cfg;
    }

    lemma VerifyStep(s0: State)
      requires On(s0, Verify) && Readable(inst, store.cfg, store.secrets)
      ensures On(s0, Render(store.cfg.value))
    {
      GoesSound(s0, View(Verify));
      hide Inv, Goes;
      GoesStep(s0, View(Verify), ServiceAdvance(c));
    }

    /** Renders the service's own configuration from the parent's. */
    method RenderConfig(ghost s0: State, seen: Config) returns (own: Option<Config>)
      requires On(s0, Render(seen))
      modifies `store, `disturbed, `others, `outcomes, `last
      ensures old(Plain()) ==> Plain() && (disturbed ==> old(disturbed))
      ensures (old(disturbed) ==> disturbed) && (if own.None? then Left(s0) else On(s0, Gate(seen, own.value)))
      ensures old(Failing()) ==> own.None?
      ensures !disturbed && old(store).cfg.Some? ==>
                own == old(store).cfg && store == Put(old(store), c, old(Object()).(cfg := old(store).cfg))
    {
      var o := Call(s0, Render(seen));
      own := None;
      if !o.Fine? || store.cfg.None? {
        PatchInstance(s0, Render(seen), o);
        return;
      }
      RenderStep(s0, seen);
      own := store.cfg;
      store := Put(store, c, Object().(cfg := store.cfg));
    }

    lemma RenderStep(s0: State, seen: Config)
      requires On(s0, Render(seen)) && store.cfg.Some?
      ensures Goes(s0, WithRun(Put(store, c, Object().(cfg := store.cfg)), c,
                                Reconciling(Gate(seen, store.cfg.value), inst, base)))
    {
      GoesSound(s0, View(Render(seen)));
      hide Inv, Goes;
      GoesStep(s0, View(Render(seen)), ServiceAdvance(c));
    }

    /** createHashOfInputHashes: a new hash is recorded and ends the reconcile. */
    method HashGate(ghost s0: State, seen: Config, own: Config, input: Input) returns (stop: bool)
      requires On(s0, Gate(seen, own)) && input == Input(inst.spec.t, inst.spec.n, seen, own)
      modifies `store, `disturbed, `others, `outcomes, `last, `inst
      ensures old(Plain()) ==> Plain() && (disturbed ==> old(disturbed))
      ensures (old(disturbed) ==> disturbed) && (stop <==> old(inst).hash != Some(input))
      ensures stop ==> Left(s0)
      ensures stop && !disturbed ==>
                && old(Object()).versions != []
                && store == Put(old(store), c, Exited(old(Object()), base, old(inst).(hash := Some(input))))
      ensures !stop ==> On(s0, Patch(input)) && store == old(store) && inst == old(inst)
    {
      stop := inst.hash != Some(input);
      if stop {
        var o := Call(s0, Gate(seen, own));
        GateStops(s0, seen, own, input);
        inst := inst.(hash := Some(input));
        if o.Fine? { Save(); }
      } else {
        GatePasses(s0, seen, own, input);
      }
    }

    lemma GateStops(s0: State, seen: Config, own: Config, input: Input)
      requires On(s0, Gate(seen, own)) && input == Input(inst.spec.t, inst.spec.n, seen, own)
      requires inst.hash != Some(input)
      ensures Object().versions != [] && Leads(s0, store)
      ensures var k := Put(store, c, Exited(Object(), base, inst.(hash := Some(input))));
              Goes(s0, k) && Leads(s0, k)
    {
      GoesSound(s0, View(Gate(seen, own)));
      LeadsEnd(s0, Gate(seen, own));
      GateExits(Object(), Gate(seen, own), inst, base, store.cfg, store.secrets);
      hide Inv, Goes, Exited, Advanced, AdvanceServiceEnabled;
      LeadsOwn(s0, Gate(seen, own), ServiceAdvance(c), Exited(Object(), base, inst.(hash := Some(input))));
    }

    lemma GatePasses(s0: State, seen: Config, own: Config, input: Input)
      requires On(s0, Gate(seen, own)) && input == Input(inst.spec.t, inst.spec.n, seen, own)
      requires inst.hash == Some(input)
      ensures On(s0, Patch(input))
    {
      GoesSound(s0, View(Gate(seen, own)));
      hide Inv, Goes;
      GoesStep(s0, View(Gate(seen, own)), ServiceAdvance(c));
    }

    /** Writes CONFIG_HASH; unless the StatefulSet has observed that, the rollout is left to a
        later reconcile. */
    method RollOut(ghost s0: State, input: Input, observed: bool)
      requires On(s0, Patch(input))
      modifies `store, `disturbed, `others, `outcomes, `last, `inst
      ensures old(Plain()) ==> Plain() && (disturbed ==> old(disturbed))
      ensures Left(s0) && (old(disturbed) ==> disturbed)
      ensures old(Failing()) ==> inst == old(inst)
      ensures old(Failing()) && old(others) == [] ==> c in store.svcs && Object().sts == old(Object()).sts
      ensures !disturbed ==>
                var k' := old(Object()).(sts := Some(input));
                && k'.versions != []
                && store == Put(old(store), c,
                                Exited(k', base, if observed then Seen(k', old(inst), input) else old(inst)))
    {
      var o := Call(s0, Patch(input));
      if !o.Fine? {
        PatchInstance(s0, Patch(input), o);
        return;
      }
      hide Inv, Goes;
      PatchStep(s0, input);
      store := Put(store, c, Object().(sts := Some(input)));
      if observed { CheckRollout(s0, input); } else { PatchInstance(s0, Check(input), Fine); }
    }

    lemma PatchStep(s0: State, input: Input)
      requires On(s0, Patch(input))
      ensures Goes(s0, WithRun(Put(store, c, Object().(sts := Some(input))), c, Reconciling(Check(input), inst, base)))
    {
      GoesSound(s0, View(Patch(input)));
      hide Inv, Goes;
      GoesStep(s0, View(Patch(input)), ServiceAdvance(c));
    }

    /** Reads how far the rollout is: the applied hash is recorded only if it is complete. */
    method CheckRollout(ghost s0: State, input: Input)
      requires On(s0, Check(input))
      modifies `store, `disturbed, `others, `outcomes, `last, `inst
      ensures old(Plain()) ==> Plain() && (disturbed ==> old(disturbed))
      ensures Left(s0) && (old(disturbed) ==> disturbed)
      ensures old(Failing()) ==> inst == old(inst)
      ensures !disturbed ==>
                && old(Object()).versions != []
                && store == Put(old(store), c, Exited(old(Object()), base, Seen(old(Object()), old(inst), input)))
      ensures !disturbed && BarelyBegun(old(Object()), base, old(inst)) ==>
                Resting() && Looked(old(Object()), Object(), input)
    {
      ghost var k := Object();
      var o := Call(s0, Check(input));
      if !o.Fine? {
        PatchInstance(s0, Check(input), o);
        return;
      }
      CheckedTemplate(s0, input);
      hide Inv, Goes;
      var rolled := IsReadyForInput(input);
      CheckStep(s0, input);
      inst := inst.(ready := |Object().pods|);
      if rolled { inst := inst.(applied := Some(Pair(inst.spec.t, inst.spec.n))); }
      PatchInstance(s0, Finished, o);
      if !disturbed && BarelyBegun(k, base, old(inst)) { SeenLooked(k, old(inst), input); }
    }

    /** Only this reconcile writes the template. */
    lemma CheckedTemplate(s0: State, input: Input)
      requires On(s0, Check(input))
      ensures Object().sts == Some(input) && Object().versions != []
    {
      GoesSound(s0, View(Check(input)));
      hide Inv, Goes;
    }

    lemma CheckStep(s0: State, input: Input)
      requires On(s0, Check(input))
      ensures Goes(s0, WithRun(store, c, Reconciling(Finished, Seen(Object(), inst, input), base)))
    {
      CheckedTemplate(s0, input);
      hide Inv, Goes;
      var rolled := RolledFor(Object(), inst, input);
      GoesStep(s0, View(Check(input)), ServiceCheck(c, |Object().pods|, rolled));
    }

    /** Every replica is there and runs the template with this hash. */
    method IsReadyForInput(input: Input) returns (ready: bool)
      requires c in store.svcs && Object().sts == Some(input)
      ensures ready <==> RolledFor(Object(), inst, input)
    {
      var pods := Object().pods;
      ready := |pods| == inst.spec.tmpl.replicas;
      var todo := pods.Keys;
      while todo != {}
        invariant todo <= pods.Keys
        invariant ready <==> |pods| == inst.spec.tmpl.replicas &&
                             forall i | i in pods && i !in todo :: pods[i].tmpl == input
        decreases |todo|
      {
        var i :| i in todo;
        ready := ready && pods[i].tmpl == input;
        todo := todo - {i};
      }
    }
  }
}
