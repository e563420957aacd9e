/** The parent reconciler as imperative code over the shared store, call by call.  Before each
    of its calls the environment, the services and the pods may act, a cached read may be old,
    and the call may fail or be where the process dies.  Whatever happens, what the reconciler
    does is a path of the step system; when nothing disturbs it its effect is ParentEffect. */
module ManilaController {
  import opened Options
  import opened RotationState
  import opened RotationSteps
  import opened RotationSafety
  import opened RotationLedger
  import opened RotationEffects
  import opened ReconcileOutcome

  // ---------------------------------------------------------------- everybody else

  /** What the others may do while a parent reconcile is under way. */
  predicate IsOther(a: Action) { IsEnvironmentAction(a) || IsServiceAction(a) }

  /** They neither see nor touch the parent's reconcile, the configuration, any finalizer or
      the status of the Manila. */
  lemma OtherStep(s: State, p: Parent, a: Action)
    requires s.parent.Idle? && IsOther(a) && Enabled(s, a)
    ensures Enabled(s.(parent := p), a) && Step(s.(parent := p), a) == Step(s, a).(parent := p)
    ensures !a.Crash? && Step(s, a).parent.Idle? && Step(s, a).cfg == s.cfg && s.svcs.Keys <= Step(s, a).svcs.Keys
    ensures forall x, f :: Holds(s.secrets, x, f) <==> Holds(Step(s, a).secrets, x, f)
    ensures SameStatus(s.cr, Step(s, a).cr)
  {
    if IsServiceAction(a) { ServiceKeepsRest(s, a); ServiceStepPuts(s, a); }
  }

  predicate SameStatus(cr: ManilaCR, cr': ManilaCR) {
    && cr'.finalizer == cr.finalizer && (cr'.deleting == cr.deleting || (cr'.deleting && cr.finalizer))
    && cr'.tracked == cr.tracked && cr'.trackedN == cr.trackedN && cr'.trackedAC == cr.trackedAC && cr'.hash == cr.hash
  }

  lemma LeadsSound(s: State, s': State)
    requires Inv(s) && Ledger(s) && Leads(s, s')
    ensures Inv(s') && Ledger(s')
  {
    var ss, acts :| IsPath(ss, acts) && ss[0] == s && ss[|acts|] == s';
    PathSound(ss, acts, |acts|);
  }

  lemma {:induction false} PathSound(ss: seq<State>, acts: seq<Action>, i: nat)
    requires IsPath(ss, acts) && Inv(ss[0]) && Ledger(ss[0]) && i < |ss|
    ensures Inv(ss[i]) && Ledger(ss[i])
  {
    if i > 0 {
      PathSound(ss, acts, i - 1);
      assert Stepped(ss, acts, i - 1);
      StepInv(ss[i - 1], acts[i - 1]);
      StepKeepsLedger(ss[i - 1], acts[i - 1]);
    }
  }

  /** Some steps lead from s to s', and none of them is a crash of the reconcile. */
  ghost predicate Goes(s: State, s': State) { LeadsWithout(Crash, s, s') }

  lemma GoesRefl(s: State)
    ensures Goes(s, s)
  {
    WithoutRefl(Crash, s);
  }

  lemma GoesStep(s: State, m: State, a: Action)
    requires Goes(s, m) && Enabled(m, a) && !a.Crash?
    ensures Goes(s, Step(m, a))
  {
    WithoutStep(Crash, s, m, a);
  }

  lemma GoesLeads(s: State, s': State)
    requires Goes(s, s')
    ensures Leads(s, s')
  {
    WithoutLeads(Crash, s, s');
  }

  lemma GoesStart(s: State, m: State)
    requires Goes(s, m) && m.parent.Idle? && m.cr.finalizer
    ensures Goes(s, DoStart(m))
  {
    GoesStep(s, m, Start);
  }

  lemma GoesAdvance(s: State, m: State)
    requires Goes(s, m) && AdvanceEnabled(m)
    ensures Goes(s, DoAdvance(m))
  {
    GoesStep(s, m, Advance);
  }

  lemma GoesDeploy(s: State, m: State, c: ServiceId, snap: Snapshot)
    requires Goes(s, m) && m.parent.Running? && DeployEnabled(m, c, snap)
    ensures Goes(s, DoDeploy(m, c, snap))
  {
    GoesStep(s, m, DeployOne(c, snap));
  }

  lemma GoesCleanup(s: State, m: State, c: ServiceId)
    requires Goes(s, m) && CleanupEnabled(m, c)
    ensures Goes(s, DoCleanup(m, c))
  {
    GoesStep(s, m, CleanupOne(c));
  }

  lemma GoesPrune(s: State, m: State, x: Name)
    requires Goes(s, m) && PruneEnabled(m, x)
    ensures Goes(s, DoPrune(m, x))
  {
    GoesStep(s, m, PruneOne(x));
  }

  /** A reconcile ends with its status patched, or loses it. */
  lemma GoesOut(s: State, m: State)
    requires Goes(s, m) && m.parent.Running?
    ensures Goes(s, Leave(m)) && Leads(s, Leave(m)) && Leads(s, m.(parent := Idle))
  {
    GoesLeads(s, m);
    LeadsOut(s, m);
    GoesStep(s, m, Exit);
  }

  class ManilaReconciler {
    // the store
    var secrets: map<Name, set<Finalizer>>
    var url: Name
    var notifUrl: Option<Name>
    var issued: set<Name>
    var issuedN: set<Name>
    var extra: nat
    var cr: ManilaCR
    var cfg: Option<Config>
    var svcs: map<ServiceId, Service>
    // the reconcile: its in-memory instance
    var inst: ManilaCR
    // what will happen to it: the outcomes of its next calls, what the others do before each
    // of them, the revisions its reads of service objects find; and whether that disturbs it
    var outcomes: seq<Outcome>
    var others: seq<seq<Action>>
    var caches: seq<nat>
    var disturbed: bool
    // the outcome of its latest call
    var last: Outcome

    constructor (s: State)
      requires s.parent.Idle?
      ensures View(Idle) == s
    {
      secrets, url, notifUrl, issued, issuedN := s.secrets, s.url, s.notifUrl, s.issued, s.issuedN;
      extra, cr, cfg, svcs, inst := s.extra, s.cr, s.cfg, s.svcs, s.cr;
      outcomes, others, caches, disturbed, last := [], [], [], false, Fine;
    }

    function View(p: Parent): State
      reads `secrets, `url, `notifUrl, `issued, `issuedN, `extra, `cr, `cfg, `svcs
    {
      State(secrets, url, notifUrl, issued, issuedN, extra, cr, cfg, svcs, p)
    }

    /** The reconcile that began in s0 has come to p. */
    ghost predicate On(s0: State, p: Parent)
      reads `secrets, `url, `notifUrl, `issued, `issuedN, `extra, `cr, `cfg, `svcs, `inst
    {
      Inv(s0) && Ledger(s0) && Goes(s0, View(p)) && (p.Running? ==> p.inst == inst)
    }

    /** The reconcile that began in s0 has ended; if its last call, the deferred patch,
        succeeded, no status was lost on the way. */
    ghost predicate Left(s0: State)
      reads `secrets, `url, `notifUrl, `issued, `issuedN, `extra, `cr, `cfg, `svcs, `last
    {
      Leads(s0, View(Idle)) && (last.Fine? ==> Goes(s0, View(Idle)))
    }

    /** Nothing ahead disturbs the reconcile: every call succeeds, nobody else acts, and no
        cached read is old. */
    ghost predicate Plain()
      reads `outcomes, `others, `caches
    {
      Undisturbed(outcomes, others) && caches == []
    }

    /** The next call will not succeed. */
    ghost predicate Failing()
      reads `outcomes
    {
      outcomes != [] && !outcomes[0].Fine?
    }

    // -------------------------------------------------------------- calls

    method OneOther(ghost s0: State, ghost p: Parent, a: Action)
      requires On(s0, p)
      modifies `secrets, `url, `notifUrl, `issued, `issuedN, `extra, `cr, `svcs, `disturbed
      ensures On(s0, p) && (old(disturbed) ==> disturbed)
      ensures !disturbed ==> View(p) == old(View(p))
      ensures forall x, f :: Holds(secrets, x, f) <==> Holds(old(secrets), x, f)
      ensures SameStatus(old(cr), cr)
    {
      hide Inv, Ledger, Goes, Enabled, Step, IsOther, Holds;
      var s := View(Idle);
      if IsOther(a) && Enabled(s, a) {
        OtherStep(s, p, a);
        GoesStep(s0, View(p), a);
        s := Step(s, a);
        secrets, url, notifUrl, issued, issuedN := s.secrets, s.url, s.notifUrl, s.issued, s.issuedN;
        extra, cr, svcs, disturbed := s.extra, s.cr, s.svcs, true;
      }
    }

    method Others(ghost s0: State, ghost p: Parent)
      requires On(s0, p)
      modifies `secrets, `url, `notifUrl, `issued, `issuedN, `extra, `cr, `svcs, `others, `disturbed
      ensures old(Plain()) ==> Plain() && (disturbed ==> old(disturbed))
      ensures On(s0, p) && (old(disturbed) ==> disturbed)
      ensures !disturbed ==> View(p) == old(View(p))
      ensures forall x, f :: Holds(secrets, x, f) <==> Holds(old(secrets), x, f)
      ensures SameStatus(old(cr), cr)
      ensures others == if old(others) == [] then [] else old(others)[1..]
      ensures old(others) == [] || old(others)[0] == [] ==> View(p) == old(View(p)) && disturbed == old(disturbed)
    {
      hide Inv, Ledger, Goes, Holds;
      if others == [] { return; }
      var acts := others[0];
      others := others[1..];
      for i := 0 to |acts|
        invariant others == old(others)[1..]
        invariant old(Plain()) ==> Plain() && acts == [] && (disturbed ==> old(disturbed))
        invariant On(s0, p) && (old(disturbed) ==> disturbed)
        invariant !disturbed ==> View(p) == old(View(p))
        invariant forall x, f :: Holds(secrets, x, f) <==> Holds(old(secrets), x, f)
        invariant SameStatus(old(cr), cr)
        invariant acts == [] ==> View(p) == old(View(p)) && disturbed == old(disturbed)
      {
        OneOther(s0, p, acts[i]);
      }
    }

    /** A call: first the others act, then it succeeds or not; calls that no outcome is given
        for succeed. */
    method Call(ghost s0: State, ghost p: Parent) returns (o: Outcome)
      requires On(s0, p)
      modifies `secrets, `url, `notifUrl, `issued, `issuedN, `extra, `cr, `svcs, `others, `disturbed, `outcomes, `last
      ensures old(Plain()) ==> Plain() && (disturbed ==> old(disturbed))
      ensures On(s0, p) && (old(disturbed) ==> disturbed) && (!o.Fine? ==> disturbed)
      ensures !disturbed ==> View(p) == old(View(p))
      ensures forall x, f :: Holds(secrets, x, f) <==> Holds(old(secrets), x, f)
      ensures SameStatus(old(cr), cr)
      ensures last == o == if old(outcomes) == [] then Fine else old(outcomes)[0]
      ensures outcomes == if old(outcomes) == [] then [] else old(outcomes)[1..]
      ensures others == if old(others) == [] then [] else old(others)[1..]
      ensures old(others) == [] || old(others)[0] == [] ==>
                View(p) == old(View(p)) && (disturbed <==> old(disturbed) || !o.Fine?)
    {
      Others(s0, p);
      o := Fine;
      if outcomes != [] { o, outcomes := outcomes[0], outcomes[1..]; }
      last := o;
      disturbed := disturbed || !o.Fine?;
    }

    // -------------------------------------------------------------- library calls

    /** The call is made in state m. */
    method ManageSecretConsumerFinalizer(ghost s0: State, ghost p: Parent, x: Name, f: Finalizer)
      returns (o: Outcome, ghost m: State)
      requires On(s0, p)
      modifies `secrets, `url, `notifUrl, `issued, `issuedN, `extra, `cr, `svcs, `others, `disturbed, `outcomes, `last
      ensures old(Plain()) ==> Plain() && (disturbed ==> old(disturbed))
      ensures (old(disturbed) ==> disturbed) && Goes(s0, m) && m.parent == p && (!disturbed ==> m == old(View(p)))
      ensures View(p) == if o.Fine? then m.(secrets := AddFin(m.secrets, x, f)) else m
      ensures if o.Fine? then x in m.secrets else disturbed || (o.Refused? && x !in m.secrets)
      ensures (o.Died? ==> !last.Fine?) && (old(Failing()) ==> !o.Fine?)
      ensures o.Fine? ==> forall y, g :: Holds(secrets, y, g) <==> Holds(m.secrets, y, g) || (y == x && g == f)
    {
      o := Call(s0, p);
      m := View(p);
      if o.Fine? {
        if x in secrets { secrets := secrets[x := secrets[x] + {f}]; } else { o := Refused; }
      }
    }

    method RemoveSecretConsumerFinalizer(ghost s0: State, ghost p: Parent, x: Name, f: Finalizer)
      returns (o: Outcome, ghost m: State)
      requires On(s0, p)
      modifies `secrets, `url, `notifUrl, `issued, `issuedN, `extra, `cr, `svcs, `others, `disturbed, `outcomes, `last
      ensures old(Plain()) ==> Plain() && (disturbed ==> old(disturbed))
      ensures (old(disturbed) ==> disturbed) && Goes(s0, m) && m.parent == p && (!disturbed ==> m == old(View(p)))
      ensures View(p) == if o.Fine? then m.(secrets := DropFin(m.secrets, x, f)) else m
      ensures (!o.Fine? ==> disturbed && last == o) && (old(Failing()) ==> !o.Fine?)
      ensures o.Fine? ==> forall y, g :: Holds(secrets, y, g) <==> Holds(m.secrets, y, g) && !(y == x && g == f)
      ensures forall y, g :: Holds(m.secrets, y, g) <==> Holds(old(secrets), y, g)
    {
      o := Call(s0, p);
      m := View(p);
      if o.Fine? && x in secrets { secrets := secrets[x := secrets[x] - {f}]; }
    }

    method FinalizeSecretRotation(ghost s0: State, ghost p: Parent, was: Name, cur: Name, f: Finalizer, guard: bool)
      returns (o: Outcome, name: Name, ghost m: State)
      requires On(s0, p)
      modifies `secrets, `url, `notifUrl, `issued, `issuedN, `extra, `cr, `svcs, `others, `disturbed, `outcomes, `last
      ensures old(Plain()) ==> Plain() && (disturbed ==> old(disturbed))
      ensures (old(disturbed) ==> disturbed) && Goes(s0, m) && m.parent == p && (!disturbed ==> m == old(View(p)))
      ensures View(p) == if o.Fine? then m.(secrets := Released(m.secrets, was, cur, f, guard)) else m
      ensures if o.Fine? then name == Rotated(was, cur, guard) else disturbed && last == o
      ensures o.Fine? ==> name == if was == "" || guard then cur else was
      ensures o.Fine? ==>
                forall y, g :: Holds(secrets, y, g) <==>
                  Holds(m.secrets, y, g) && !(y == was && g == f && guard && was != "" && was != cur)
      ensures old(Failing()) && guard && was != "" && was != cur ==> !o.Fine?
    {
      o, name, m := Fine, was, View(p);
      if was == "" || was == cur { name := cur; }
      else if guard {
        o, m := RemoveSecretConsumerFinalizer(s0, p, was, f);
        if o.Fine? { name := cur; }
      }
    }

    /** The deferred PatchInstance: skipped when the process died, and a call itself. */
    method PatchInstance(ghost s0: State, ghost p: Parent, o: Outcome)
      requires On(s0, p) && p.Running? && (o.Died? ==> !last.Fine?)
      modifies `secrets, `url, `notifUrl, `issued, `issuedN, `extra, `cr, `svcs, `others, `disturbed, `outcomes, `last
      ensures old(Plain()) ==> Plain() && (disturbed ==> old(disturbed))
      ensures Left(s0) && (old(disturbed) ==> disturbed)
      ensures !disturbed && !o.Died? ==> View(Idle) == old(View(Idle)).(cr := Persist(old(cr), inst))
    {
      if o.Died? {
        GoesOut(s0, View(p));
      } else {
        var saved := Call(s0, p);
        GoesOut(s0, View(p));
        if saved.Fine? { cr := Persist(cr, inst); }
      }
    }

    // -------------------------------------------------------------- the two TransportURLs

    /** Reads the messaging TransportURL, tracks a first name, pins the current one. */
    method ReadMessaging(ghost s0: State) returns (stop: bool, cur: Name)
      requires On(s0, Running(ReadTransport, inst, "", "", true))
      modifies `secrets, `url, `notifUrl, `issued, `issuedN, `extra, `cr, `svcs, `others, `disturbed,
               `outcomes, `last, `inst
      ensures old(Plain()) ==> Plain() && (disturbed ==> old(disturbed))
      ensures (old(disturbed) ==> disturbed) && (stop ==> Left(s0))
      ensures old(Failing()) ==> stop
      ensures stop && !disturbed ==> old(url) == "" || old(url) !in old(secrets)
      ensures stop && !disturbed ==>
                View(Idle) == old(View(Idle)).(cr := Persist(old(cr),
                  old(inst).(tracked := if old(inst).tracked == "" then old(url) else old(inst).tracked)))
      ensures !stop ==> On(s0, Running(ReadNotif, inst, cur, "", true))
      ensures !stop ==> inst == old(inst).(tracked := if old(inst).tracked == "" then cur else old(inst).tracked)
      ensures !stop && !disturbed ==> cur == old(url) != "" && cur in old(secrets)
      ensures !stop && !disturbed ==>
                View(Idle) == old(View(Idle)).(secrets := AddFin(old(secrets), cur, TransportConsumer))
    {
      hide Inv, Ledger, Goes;
      stop := true;
      ghost var p := Running(ReadTransport, inst, "", "", true);
      var o := Call(s0, p);
      cur := url;
      if !o.Fine? || cur == "" {
        PatchInstance(s0, p, o);
        return;
      }
      GoesAdvance(s0, View(p));
      if inst.tracked == "" { inst := inst.(tracked := cur); }
      stop := Pin(s0, Running(PinTransport, inst, cur, "", true), cur);
    }

    /** One of the two pinning calls of the transport section. */
    method Pin(ghost s0: State, ghost p: Parent, x: Name) returns (stop: bool)
      requires On(s0, p) && p.Running? && (p.pc.PinTransport? || p.pc.PinNotif?)
      requires x == if p.pc.PinTransport? then p.cur else p.curN
      modifies `secrets, `url, `notifUrl, `issued, `issuedN, `extra, `cr, `svcs, `others, `disturbed, `outcomes, `last
      ensures old(Plain()) ==> Plain() && (disturbed ==> old(disturbed))
      ensures (old(disturbed) ==> disturbed) && (stop ==> Left(s0))
      ensures old(Failing()) ==> stop
      ensures stop && !disturbed ==>
                x !in old(secrets) && View(Idle) == old(View(Idle)).(cr := Persist(old(cr), inst))
      ensures !stop ==> On(s0, p.(pc := if p.pc.PinTransport? then ReadNotif else RenderConfig))
      ensures !stop && !disturbed ==> x in old(secrets)
      ensures !stop && !disturbed ==>
                View(Idle) == old(View(Idle)).(secrets := AddFin(old(secrets), x, TransportConsumer))
    {
      hide Inv, Ledger, Goes;
      var o;
      ghost var m;
      o, m := ManageSecretConsumerFinalizer(s0, p, x, TransportConsumer);
      stop := !o.Fine?;
      if stop { PatchInstance(s0, p, o); } else { GoesAdvance(s0, m); }
    }

    /** The same for notifications, which may be off. */
    method ReadNotifications(ghost s0: State, cur: Name) returns (stop: bool, curN: Name)
      requires On(s0, Running(ReadNotif, inst, cur, "", true))
      modifies `secrets, `url, `notifUrl, `issued, `issuedN, `extra, `cr, `svcs, `others, `disturbed,
               `outcomes, `last, `inst
      ensures old(Plain()) ==> Plain() && (disturbed ==> old(disturbed))
      ensures (old(disturbed) ==> disturbed) && (stop ==> Left(s0) && old(inst).notifOn)
      ensures old(Failing()) && old(inst).notifOn ==> stop
      ensures stop && !disturbed ==> Value(old(notifUrl)) == "" || Value(old(notifUrl)) !in old(secrets)
      ensures stop && !disturbed ==>
                View(Idle) == old(View(Idle)).(notifUrl := Some(Value(old(notifUrl))), cr := Persist(old(cr),
                  old(inst).(trackedN := if old(inst).trackedN.None? then Some("") else old(inst).trackedN)))
      ensures !stop ==> On(s0, Running(RenderConfig, inst, cur, curN, true))
      ensures !stop && !old(inst).notifOn ==> curN == "" && View(Idle) == old(View(Idle)) && inst == old(inst)
      ensures !stop && old(inst).notifOn ==>
                curN != "" &&
                inst == old(inst).(trackedN := if old(inst).trackedN.None? then Some("") else old(inst).trackedN)
      ensures !stop && !disturbed && old(inst).notifOn ==> curN == Value(old(notifUrl)) && curN in old(secrets)
      ensures !stop && !disturbed && old(inst).notifOn ==>
                View(Idle) == old(View(Idle)).(secrets := AddFin(old(secrets), curN, TransportConsumer))
    {
      hide Inv, Ledger, Goes;
      stop, curN := true, "";
      ghost var m := View(Running(ReadNotif, inst, cur, "", true));
      if !inst.notifOn {
        GoesAdvance(s0, m);
        stop := false;
        return;
      }
      if inst.trackedN.None? {
        GoesAdvance(s0, m);
        inst := inst.(trackedN := Some(""));
      }
      stop, curN := ReadNotifUrl(s0, cur);
      if !stop { stop := Pin(s0, Running(PinNotif, inst, cur, curN, true), curN); }
    }

    /** transportURLCreateOrUpdate for notifications, and the wait for its secret. */
    method ReadNotifUrl(ghost s0: State, cur: Name) returns (stop: bool, curN: Name)
      requires On(s0, Running(ReadNotif, inst, cur, "", true)) && inst.notifOn && inst.trackedN.Some?
      modifies `secrets, `url, `notifUrl, `issued, `issuedN, `extra, `cr, `svcs, `others, `disturbed, `outcomes, `last
      ensures old(Plain()) ==> Plain() && (disturbed ==> old(disturbed))
      ensures (old(disturbed) ==> disturbed) && (stop ==> Left(s0))
      ensures old(Failing()) ==> stop
      ensures stop && !disturbed ==>
                && Value(old(notifUrl)) == ""
                && View(Idle) == old(View(Idle)).(notifUrl := Some(""), cr := Persist(old(cr), inst))
      ensures !stop ==> On(s0, Running(PinNotif, inst, cur, curN, true)) && curN != ""
      ensures !stop && !disturbed ==> View(Idle) == old(View(Idle)) && curN == Value(old(notifUrl))
    {
      hide Inv, Ledger, Goes;
      ghost var p := Running(ReadNotif, inst, cur, "", true);
      var o := Call(s0, p);
      curN := Value(notifUrl);
      stop := !o.Fine? || curN == "";
      if o.Fine? && notifUrl.None? {
        GoesAdvance(s0, View(p));
        notifUrl := Some("");
      }
      if stop { PatchInstance(s0, p, o); } else { GoesAdvance(s0, View(p)); }
    }

    // -------------------------------------------------------------- configuration, hash gate, AC pin

    /** The secrets the configuration is rendered from are there. */
    predicate Renderable(cur: Name)
      reads `secrets, `inst
    {
      cur in secrets && (inst.ac == "" || inst.ac in secrets)
    }

    /** Renders the configuration and stops when its hash is not the recorded one. */
    method RenderAndGate(ghost s0: State, cur: Name, curN: Name) returns (stop: bool, hashChanged: bool)
      requires On(s0, Running(RenderConfig, inst, cur, curN, true))
      modifies `secrets, `url, `notifUrl, `issued, `issuedN, `extra, `cr, `svcs, `others, `disturbed,
               `outcomes, `last, `inst, `cfg
      ensures old(Plain()) ==> Plain() && (disturbed ==> old(disturbed))
      ensures (old(disturbed) ==> disturbed) && (stop ==> Left(s0))
      ensures old(Failing()) ==> stop && !hashChanged
      ensures stop && !hashChanged && !disturbed ==>
                !old(Renderable(cur)) && View(Idle) == old(View(Idle)).(cr := Persist(old(cr), old(inst)))
      ensures !stop ==> On(s0, Running(PinAC, inst, cur, curN, true)) && inst == old(inst) && inst.hash == cfg
      ensures (!stop || hashChanged) && !disturbed ==> old(Renderable(cur))
      ensures stop && hashChanged && !disturbed ==> old(inst).hash != Some(Config(cur, curN, old(inst).ac, old(extra)))
      ensures (!stop || hashChanged) && !disturbed ==>
                var config := Some(Config(cur, curN, old(inst).ac, old(extra)));
                View(Idle) == old(View(Idle)).(cfg := config,
                  cr := if stop then Persist(old(cr), old(inst).(hash := config)) else old(cr))
    {
      hide Inv, Ledger, Goes;
      stop, hashChanged := true, false;
      ghost var p := Running(RenderConfig, inst, cur, curN, true);
      var o := Call(s0, p);
      if !o.Fine? || !Renderable(cur) {
        PatchInstance(s0, p, o);
        return;
      }
      GoesAdvance(s0, View(p));
      cfg := Some(Config(cur, curN, inst.ac, extra));
      stop := HashGate(s0, Running(RotationState.HashGate, inst, cur, curN, true));
      hashChanged := stop;
    }

    /** createHashOfInputHashes: a new hash is recorded and ends the reconcile. */
    method HashGate(ghost s0: State, ghost p: Parent) returns (stop: bool)
      requires On(s0, p) && p.Running? && p.pc.HashGate?
      modifies `secrets, `url, `notifUrl, `issued, `issuedN, `extra, `cr, `svcs, `others, `disturbed,
               `outcomes, `last, `inst
      ensures old(Plain()) ==> Plain() && (disturbed ==> old(disturbed))
      ensures (old(disturbed) ==> disturbed) && (stop <==> old(inst).hash != cfg)
      ensures stop ==> Left(s0) && inst == old(inst).(hash := cfg)
      ensures stop && !disturbed ==>
                View(Idle) == old(View(Idle)).(cr := Persist(old(cr), old(inst).(hash := cfg)))
      ensures !stop ==> View(Idle) == old(View(Idle)) && inst == old(inst) && On(s0, p.(pc := PinAC))
    {
      hide Inv, Ledger, Goes;
      stop := inst.hash != cfg;
      if stop {
        var o := Call(s0, p);
        ghost var m := View(p);
        inst := inst.(hash := cfg);
        if o.Fine? {
          GoesAdvance(s0, m);
          cr := Persist(cr, inst);
          GoesLeads(s0, View(Idle));
        } else {
          GoesOut(s0, m);
        }
      } else {
        GoesAdvance(s0, View(p));
      }
    }

    /** The requested AC secret is pinned after the configuration was rendered from it. */
    method PinRequestedAC(ghost s0: State, ghost p: Parent) returns (stop: bool)
      requires On(s0, p) && p.Running? && p.pc.PinAC?
      modifies `secrets, `url, `notifUrl, `issued, `issuedN, `extra, `cr, `svcs, `others, `disturbed, `outcomes, `last
      ensures old(Plain()) ==> Plain() && (disturbed ==> old(disturbed))
      ensures (old(disturbed) ==> disturbed) && (stop ==> Left(s0))
      ensures stop && !disturbed ==>
                && inst.ac != "" && inst.ac !in old(secrets)
                && View(Idle) == old(View(Idle)).(cr := Persist(old(cr), inst))
      ensures old(Failing()) && inst.ac != "" ==> stop
      ensures !stop ==> On(s0, p.(pc := Deploy(inst.services.Keys), ready := true))
      ensures !stop && !disturbed ==> View(p.(pc := Deploy(inst.services.Keys), ready := true)) == DoPinAC(old(View(p)))
    {
      hide Inv, Ledger, Goes;
      var o := Fine;
      ghost var m := View(p);
      if inst.ac != "" { o, m := ManageSecretConsumerFinalizer(s0, p, inst.ac, ACConsumer); }
      stop := !o.Fine?;
      if stop { PatchInstance(s0, p, o); } else { GoesAdvance(s0, m); }
    }

    // -------------------------------------------------------------- the services

    /** CreateOrUpdate for one service: a cached revision that already has the spec is handed
        back as it is; otherwise the object is written, or created. */
    method CreateOrUpdate(ghost m: State, c: ServiceId, spec: ServiceSpec) returns (v: ServiceCR, ghost snap: Snapshot)
      requires m == View(m.parent) && m.parent.Running? && m.parent.pc.Deploy? && c in m.parent.pc.todo
      requires c in m.parent.inst.services && spec == Desired(m.parent.inst, c, m.parent.cur, m.parent.curN)
      requires c in svcs ==> svcs[c].versions != []
      modifies `svcs, `caches, `disturbed
      ensures old(Plain()) ==> Plain() && (disturbed ==> old(disturbed))
      ensures DeployEnabled(m, c, snap) && v == DeployObject(m, c, snap)
      ensures svcs == m.svcs[c := DeployService(m, c, snap)]
      ensures v.spec == spec && c in svcs && v in svcs[c].versions
      ensures snap.Cached? ==> svcs == old(svcs)
      ensures !snap.Cached? ==> svcs == old(svcs)[c := svcs[c]] && svcs[c].live && v == Last(svcs[c])
      ensures snap.Updated? ==> v == Last(old(svcs)[c]).(spec := spec, gen := Last(old(svcs)[c]).gen + 1)
      ensures (old(disturbed) ==> disturbed) && (!disturbed ==> snap == Fresh(m, c))
    {
      var k: Option<nat> := None;
      if caches != [] { k, caches := Some(caches[0]), caches[1..]; }
      if k.Some? && c in svcs && k.value < |svcs[c].versions| && svcs[c].versions[k.value].spec == spec {
        v, snap := svcs[c].versions[k.value], Cached(k.value);
        disturbed := true;
        assert svcs == svcs[c := svcs[c]];
      } else if c !in svcs {
        v, snap := ServiceCR(spec, 1, 0, None, None, 0, false), Created;
        svcs := svcs[c := Service([v], 0, true, None, None, map[], Resting)];
      } else if !svcs[c].live {
        v, snap := ServiceCR(spec, 1, 0, None, None, 0, false), Created;
        svcs := svcs[c := svcs[c].(versions := svcs[c].versions + [v], born := |svcs[c].versions|, live := true)];
      } else {
        v, snap := Last(svcs[c]), Cached(|svcs[c].versions| - 1);
        if v.spec != spec {
          v, snap := v.(spec := spec, gen := v.gen + 1), Updated;
          svcs := svcs[c := svcs[c].(versions := svcs[c].versions + [v])];
        }
      }
    }

    /** Deploys one service and takes its readiness into account. */
    method DeployOneService(ghost s0: State, ghost todo: set<ServiceId>, c: ServiceId, cur: Name, curN: Name, was: bool)
      returns (stop: bool, ready: bool)
      requires On(s0, Running(Deploy(todo), inst, cur, curN, was)) && c in todo && c in inst.services
      modifies `secrets, `url, `notifUrl, `issued, `issuedN, `extra, `cr, `svcs, `others, `disturbed,
               `outcomes, `last, `caches
      ensures old(Plain()) ==> Plain() && (disturbed ==> old(disturbed))
      ensures (old(disturbed) ==> disturbed) && (stop ==> Left(s0) && disturbed)
      ensures old(Failing()) ==> stop
      ensures !stop ==> On(s0, Running(Deploy(todo - {c}), inst, cur, curN, ready))
      ensures !stop && !disturbed ==>
                var m := old(View(Running(Deploy(todo), inst, cur, curN, was)));
                && (c in m.svcs ==> m.svcs[c].versions != []) && DeployEnabled(m, c, Fresh(m, c))
                && View(Running(Deploy(todo - {c}), inst, cur, curN, ready)) == DoDeploy(m, c, Fresh(m, c))
    {
      ghost var p := Running(Deploy(todo), inst, cur, curN, was);
      var o := Call(s0, p);
      ghost var m := View(p);
      stop, ready := !o.Fine?, was;
      if stop {
        PatchInstance(s0, p, o);
        return;
      }
      HasVersions(s0, m, c);
      hide Inv, Ledger, Goes, Fresh;
      var v;
      ghost var snap;
      v, snap := CreateOrUpdate(m, c, Desired(inst, c, cur, curN));
      GoesDeploy(s0, m, c, snap);
      ready := was && Matches(v, cur, curN);
    }

    /** The reconcile has deployed the services in `done`; undisturbed since d, to this state. */
    ghost predicate Deployed(s0: State, d: State, done: set<ServiceId>, cur: Name, curN: Name, ready: bool)
      reads this
    {
      && On(s0, Running(Deploy(inst.services.Keys - done), inst, cur, curN, ready))
      && (!disturbed ==>
            && Deploying(d) && done <= d.parent.inst.services.Keys
            && View(Running(Deploy(inst.services.Keys - done), inst, cur, curN, ready)) == DeployedTo(d, done))
    }

    method DeployNext(ghost s0: State, ghost d: State, ghost done: set<ServiceId>, c: ServiceId,
                      cur: Name, curN: Name, was: bool)
      returns (stop: bool, ready: bool)
      requires Deployed(s0, d, done, cur, curN, was) && c in inst.services && c !in done
      modifies `secrets, `url, `notifUrl, `issued, `issuedN, `extra, `cr, `svcs, `others, `disturbed,
               `outcomes, `last, `caches
      ensures old(Plain()) ==> Plain() && (disturbed ==> old(disturbed))
      ensures (old(disturbed) ==> disturbed) && (stop ==> Left(s0) && disturbed)
      ensures !stop ==> Deployed(s0, d, done + {c}, cur, curN, ready)
    {
      hide Inv, Ledger, Goes, DeployEnabled, Fresh;
      if !disturbed { DeployedNext(d, done, c); }
      stop, ready := DeployOneService(s0, inst.services.Keys - done, c, cur, curN, was);
      assert inst.services.Keys - done - {c} == inst.services.Keys - (done + {c});
    }

    /** Deploys every service of the spec, and says whether all of them were ready. */
    method DeployServices(ghost s0: State, ghost d: State, cur: Name, curN: Name) returns (stop: bool, ready: bool)
      requires Deployed(s0, d, {}, cur, curN, true)
      modifies `secrets, `url, `notifUrl, `issued, `issuedN, `extra, `cr, `svcs, `others, `disturbed,
               `outcomes, `last, `caches
      ensures old(Plain()) ==> Plain() && (disturbed ==> old(disturbed))
      ensures (old(disturbed) ==> disturbed) && (stop ==> Left(s0) && disturbed)
      ensures !stop ==> Deployed(s0, d, inst.services.Keys, cur, curN, ready)
    {
      hide *;
      stop, ready := false, true;
      var todo := inst.services.Keys;
      ghost var done: set<ServiceId> := {};
      while todo != {}
        invariant old(Plain()) ==> Plain() && (disturbed ==> old(disturbed))
        invariant todo <= inst.services.Keys && done == inst.services.Keys - todo
        invariant !stop && (old(disturbed) ==> disturbed) && Deployed(s0, d, done, cur, curN, ready)
        decreases |todo|
      {
        var c :| c in todo;
        stop, ready := DeployNext(s0, d, done, c, cur, curN, ready);
        if stop { return; }
        todo, done := todo - {c}, done + {c};
      }
      assert done == inst.services.Keys;
    }

    // -------------------------------------------------------------- share cleanup

    /** Deletes the live shares that are not in the spec.  A refused List is swallowed: nothing
        is deleted, and the reconcile goes on. */
    method ShareCleanup(ghost s0: State, ghost p: Parent) returns (stop: bool)
      requires On(s0, p) && p.Running? && p.pc.Cleanup?
      modifies `secrets, `url, `notifUrl, `issued, `issuedN, `extra, `cr, `svcs, `others, `disturbed, `outcomes, `last
      ensures old(Plain()) ==> Plain() && (disturbed ==> old(disturbed))
      ensures (old(disturbed) ==> disturbed) && (stop ==> Left(s0) && disturbed)
      ensures !stop ==> On(s0, p.(pc := FinishTransport))
      ensures old(outcomes) != [] && old(outcomes)[0].Refused? ==> !stop
      ensures old(outcomes) != [] && old(outcomes)[0].Refused? && (old(others) == [] || old(others)[0] == []) ==>
                View(p) == old(View(p))
      ensures old(outcomes) != [] && old(outcomes)[0].Died? ==> stop
      ensures !stop && !disturbed ==>
                var d := old(View(p));
                View(p.(pc := FinishTransport)) == At(MarkedTo(d, Strays(d)), FinishTransport)
    {
      var o := Call(s0, p);
      stop := o.Died?;
      if stop {
        PatchInstance(s0, p, o);
        return;
      }
      AllHaveVersions(s0, View(p));
      hide Inv, Ledger, Goes;
      if o.Fine? {
        var strays := set c | c in svcs && c.Share? && c !in inst.services && svcs[c].live && !Last(svcs[c]).deleting;
        assert strays == Strays(View(p));
        stop := DeleteShares(s0, p, strays);
      }
      if !stop { GoesAdvance(s0, View(p)); }
    }

    /** The reconcile is at p; undisturbed, it has marked the shares in `done` since d. */
    ghost predicate Marking(s0: State, p: Parent, d: State, done: set<ServiceId>)
      reads this
    {
      && On(s0, p) && p.Running? && p.pc.Cleanup?
      && (!disturbed ==> d.parent == p && done <= Strays(d) && View(p) == MarkedTo(d, done))
    }

    method MarkNext(ghost s0: State, ghost p: Parent, ghost d: State, ghost done: set<ServiceId>, c: ServiceId)
      returns (stop: bool)
      requires Marking(s0, p, d, done) && c.Share? && c !in inst.services && c !in done
      requires !disturbed ==> c in Strays(d)
      modifies `secrets, `url, `notifUrl, `issued, `issuedN, `extra, `cr, `svcs, `others, `disturbed, `outcomes, `last
      ensures old(Plain()) ==> Plain() && (disturbed ==> old(disturbed))
      ensures (old(disturbed) ==> disturbed) && (stop ==> Left(s0) && disturbed)
      ensures !stop ==> Marking(s0, p, d, done + {c})
    {
      hide Inv, Ledger, Goes;
      if !disturbed { MarkedOneMore(d, done, c); }
      stop := DeleteShare(s0, p, c);
    }

    /** Delete: an object that is gone or already deleted stays as it is. */
    method DeleteShare(ghost s0: State, ghost p: Parent, c: ServiceId) returns (stop: bool)
      requires On(s0, p) && p.Running? && p.pc.Cleanup? && c.Share? && c !in inst.services
      modifies `secrets, `url, `notifUrl, `issued, `issuedN, `extra, `cr, `svcs, `others, `disturbed, `outcomes, `last
      ensures old(Plain()) ==> Plain() && (disturbed ==> old(disturbed))
      ensures (old(disturbed) ==> disturbed) && (stop ==> Left(s0) && disturbed)
      ensures (old(Failing()) ==> stop) && (!stop ==> On(s0, p))
      ensures !stop && !disturbed ==>
                var m := old(View(p));
                View(p) == if CleanupEnabled(m, c) then DoCleanup(m, c) else m
    {
      var o := Call(s0, p);
      stop := !o.Fine?;
      if stop {
        PatchInstance(s0, p, o);
        return;
      }
      HasVersions(s0, View(p), c);
      hide Inv, Ledger, Goes;
      if c in svcs && svcs[c].live && !Last(svcs[c]).deleting {
        GoesCleanup(s0, View(p), c);
        svcs := svcs[c := svcs[c].(versions := svcs[c].versions + [Last(svcs[c]).(deleting := true)])];
      }
    }

    method DeleteShares(ghost s0: State, ghost p: Parent, strays: set<ServiceId>) returns (stop: bool)
      requires On(s0, p) && p.Running? && p.pc.Cleanup? && forall c | c in strays :: c.Share? && c !in inst.services
      requires !disturbed ==> strays <= Strays(View(p))
      modifies `secrets, `url, `notifUrl, `issued, `issuedN, `extra, `cr, `svcs, `others, `disturbed, `outcomes, `last
      ensures old(Plain()) ==> Plain() && (disturbed ==> old(disturbed))
      ensures (old(disturbed) ==> disturbed) && (stop ==> Left(s0) && disturbed)
      ensures !stop ==> On(s0, p)
      ensures !stop && !disturbed ==> View(p) == MarkedTo(old(View(p)), strays)
    {
      stop := false;
      var todo := strays;
      ghost var d, done: set<ServiceId> := View(p), {};
      assert done <= Strays(d) && MarkedTo(d, {}).svcs == d.svcs;
      assert MarkedTo(d, {}) == d;
      hide *;
      while todo != {}
        invariant old(Plain()) ==> Plain() && (disturbed ==> old(disturbed))
        invariant todo <= strays && done == strays - todo && !stop && (old(disturbed) ==> disturbed)
        invariant (!disturbed ==> strays <= Strays(d)) && Marking(s0, p, d, done)
        decreases |todo|
      {
        var c :| c in todo;
        stop := MarkNext(s0, p, d, done, c);
        if stop { return; }
        todo, done := todo - {c}, done + {c};
      }
      assert done == strays;
    }

    // -------------------------------------------------------------- the finalize stage

    method FinalizeMessaging(ghost s0: State, cur: Name, curN: Name, ready: bool) returns (stop: bool)
      requires On(s0, Running(FinishTransport, inst, cur, curN, ready))
      modifies `secrets, `url, `notifUrl, `issued, `issuedN, `extra, `cr, `svcs, `others, `disturbed,
               `outcomes, `last, `inst
      ensures old(Plain()) ==> Plain() && (disturbed ==> old(disturbed))
      ensures (old(disturbed) ==> disturbed) && (stop ==> Left(s0) && disturbed)
      ensures !stop ==> On(s0, Running(FinishNotif, inst, cur, curN, ready))
      ensures !stop && !disturbed ==>
                View(Running(FinishNotif, inst, cur, curN, ready)) ==
                  DoFinishTransport(old(View(Running(FinishTransport, inst, cur, curN, ready))))
    {
      hide Inv, Ledger, Goes;
      ghost var p := Running(FinishTransport, inst, cur, curN, ready);
      var o, name;
      ghost var m;
      o, name, m := FinalizeSecretRotation(s0, p, inst.tracked, cur, TransportConsumer, ready);
      stop := !o.Fine?;
      if stop {
        PatchInstance(s0, p, o);
      } else {
        GoesAdvance(s0, m);
        inst := inst.(tracked := name);
      }
    }

    /** Rotates the notifications secret, or tears notifications down once they are off and
        every service has rolled out without them. */
    method FinalizeNotifications(ghost s0: State, cur: Name, curN: Name, ready: bool) returns (stop: bool)
      requires On(s0, Running(FinishNotif, inst, cur, curN, ready))
      modifies `secrets, `url, `notifUrl, `issued, `issuedN, `extra, `cr, `svcs, `others, `disturbed,
               `outcomes, `last, `inst
      ensures old(Plain()) ==> Plain() && (disturbed ==> old(disturbed))
      ensures (old(disturbed) ==> disturbed) && (stop ==> Left(s0) && disturbed)
      ensures !stop ==> On(s0, Running(FinishAC, inst, cur, curN, ready))
      ensures !stop && !disturbed ==>
                View(Running(FinishAC, inst, cur, curN, ready)) ==
                  NotifFinished(old(View(Running(FinishNotif, inst, cur, curN, ready))))
    {
      hide Inv, Ledger, Goes;
      ghost var p := Running(FinishNotif, inst, cur, curN, ready);
      stop := false;
      if curN != "" {
        var o, name;
        ghost var m;
        o, name, m := FinalizeSecretRotation(s0, p, Value(inst.trackedN), curN, TransportConsumer, ready);
        stop := !o.Fine?;
        if stop {
          PatchInstance(s0, p, o);
        } else {
          GoesAdvance(s0, m);
          inst := inst.(trackedN := Some(name));
        }
      } else if Value(inst.trackedN) != "" && ready {
        stop := TearDownNotifications(s0, cur);
      } else {
        GoesAdvance(s0, View(p));
      }
    }

    method TearDownNotifications(ghost s0: State, ghost cur: Name) returns (stop: bool)
      requires On(s0, Running(FinishNotif, inst, cur, "", true)) && Value(inst.trackedN) != ""
      modifies `secrets, `url, `notifUrl, `issued, `issuedN, `extra, `cr, `svcs, `others, `disturbed,
               `outcomes, `last, `inst
      ensures old(Plain()) ==> Plain() && (disturbed ==> old(disturbed))
      ensures (old(disturbed) ==> disturbed) && (stop ==> Left(s0) && disturbed)
      ensures old(Failing()) ==> stop
      ensures !stop ==> On(s0, Running(FinishAC, inst, cur, "", true))
      ensures !stop && !disturbed ==>
                View(Running(FinishAC, inst, cur, "", true)) ==
                  DoDropNotifUrl(DoFinishNotif(old(View(Running(FinishNotif, inst, cur, "", true)))))
    {
      hide Inv, Ledger, Goes;
      ghost var p := Running(FinishNotif, inst, cur, "", true);
      var o;
      ghost var m;
      o, m := RemoveSecretConsumerFinalizer(s0, p, inst.trackedN.value, TransportConsumer);
      stop := !o.Fine?;
      if stop {
        PatchInstance(s0, p, o);
        return;
      }
      GoesAdvance(s0, m);
      stop := DeleteTransportURL(s0, Running(DropNotifUrl, inst, cur, "", true));
    }

    /** transportURLDeleted, then the status forgets the name. */
    method DeleteTransportURL(ghost s0: State, ghost p: Parent) returns (stop: bool)
      requires On(s0, p) && p.Running? && p.pc.DropNotifUrl?
      modifies `secrets, `url, `notifUrl, `issued, `issuedN, `extra, `cr, `svcs, `others, `disturbed,
               `outcomes, `last, `inst
      ensures old(Plain()) ==> Plain() && (disturbed ==> old(disturbed))
      ensures (old(disturbed) ==> disturbed) && (stop ==> Left(s0) && disturbed)
      ensures old(Failing()) ==> stop
      ensures !stop ==> On(s0, p.(pc := FinishAC, inst := inst))
      ensures !stop && !disturbed ==> View(p.(pc := FinishAC, inst := inst)) == DoDropNotifUrl(old(View(p)))
    {
      hide Inv, Ledger, Goes;
      var o := Call(s0, p);
      stop := !o.Fine?;
      if stop {
        PatchInstance(s0, p, o);
        return;
      }
      GoesAdvance(s0, View(p));
      notifUrl := None;
      inst := inst.(trackedN := None);
    }

    method FinalizeAC(ghost s0: State, cur: Name, curN: Name, ready: bool) returns (stop: bool)
      requires On(s0, Running(FinishAC, inst, cur, curN, ready))
      modifies `secrets, `url, `notifUrl, `issued, `issuedN, `extra, `cr, `svcs, `others, `disturbed,
               `outcomes, `last, `inst
      ensures old(Plain()) ==> Plain() && (disturbed ==> old(disturbed))
      ensures (old(disturbed) ==> disturbed) && (stop ==> Left(s0) && disturbed)
      ensures !stop ==> On(s0, Running(PruneTransport, inst, cur, curN, ready))
      ensures !stop && !disturbed ==>
                View(Running(PruneTransport, inst, cur, curN, ready)) ==
                  DoFinishAC(old(View(Running(FinishAC, inst, cur, curN, ready))))
    {
      hide Inv, Ledger, Goes;
      ghost var p := Running(FinishAC, inst, cur, curN, ready);
      var o, name;
      ghost var m;
      o, name, m := FinalizeSecretRotation(s0, p, inst.trackedAC, inst.ac, ACConsumer, ready);
      stop := !o.Fine?;
      if stop {
        PatchInstance(s0, p, o);
      } else {
        GoesAdvance(s0, m);
        inst := inst.(trackedAC := name);
      }
    }

    // -------------------------------------------------------------- pruning

    /** PruneSecretConsumerFinalizers: takes the finalizer off every secret outside keep. */
    method PruneSecretConsumerFinalizers(ghost s0: State, ghost p: Parent, f: Finalizer, keep: set<Name>)
      returns (stop: bool)
      requires On(s0, p) && Pruning(p) && f == PruneFin(p) && keep == Keep(p)
      modifies `secrets, `url, `notifUrl, `issued, `issuedN, `extra, `cr, `svcs, `others, `disturbed, `outcomes, `last
      ensures old(Plain()) ==> Plain() && (disturbed ==> old(disturbed))
      ensures (old(disturbed) ==> disturbed) && (stop ==> Left(s0) && disturbed)
      ensures old(Failing()) ==> stop
      ensures !stop ==> On(s0, p) && PruneDone(View(p))
      ensures !stop ==> forall x | x in secrets && f in secrets[x] :: x in keep
      ensures !stop && !disturbed ==>
                View(p) == old(View(p)).(secrets :=
                  map x | x in old(secrets) :: if x in keep then old(secrets)[x] else old(secrets)[x] - {f})
      ensures !stop && !disturbed ==> View(p) == PrunedTo(old(View(p)), f, Victims(old(View(p))))
    {
      var o := Call(s0, p);
      stop := !o.Fine?;
      if stop {
        PatchInstance(s0, p, o);
        return;
      }
      var todo := set x | x in secrets && x !in keep && f in secrets[x];
      ghost var u := View(p);
      assert todo == Victims(u);
      PrunedNone(u, f);
      hide Inv, Ledger, Goes;
      stop := PruneAll(s0, p, u, f, todo);
      if !stop {
        StrippedDone(p, f);
        StrippedKeeps(p, f, keep);
        if !disturbed { PrunedOutside(u, f, keep); }
      }
    }

    /** The reconcile is at p, and the secrets in todo are all that it still has to strip;
        undisturbed, it has stripped those in `done` since u. */
    ghost predicate Stripping(s0: State, p: Parent, u: State, f: Finalizer, done: set<Name>, todo: set<Name>)
      reads this
    {
      && On(s0, p) && Pruning(p) && f == PruneFin(p)
      && (forall x :: x in todo <==> Holds(secrets, x, f) && x !in Keep(p))
      && (!disturbed ==> u.parent == p && done + todo <= Victims(u) && done !! todo && View(p) == PrunedTo(u, f, done))
    }

    lemma StrippedKeeps(p: Parent, f: Finalizer, keep: set<Name>)
      requires Pruning(p) && f == PruneFin(p) && keep == Keep(p)
      requires forall x :: !(Holds(secrets, x, f) && x !in Keep(p))
      ensures forall x | x in secrets && f in secrets[x] :: x in keep
    {
      forall x | x in secrets && f in secrets[x] ensures x in keep { assert Holds(secrets, x, f); }
    }

    lemma StrippedDone(p: Parent, f: Finalizer)
      requires Pruning(p) && f == PruneFin(p) && forall x :: !(Holds(secrets, x, f) && x !in Keep(p))
      ensures PruneDone(View(p))
    {
      forall x | x in secrets && x !in Keep(p) ensures f !in secrets[x] { assert !Holds(secrets, x, f); }
    }

    method PruneAll(ghost s0: State, ghost p: Parent, ghost u: State, f: Finalizer, victims: set<Name>)
      returns (stop: bool)
      requires Stripping(s0, p, u, f, {}, victims)
      modifies `secrets, `url, `notifUrl, `issued, `issuedN, `extra, `cr, `svcs, `others, `disturbed, `outcomes, `last
      ensures old(Plain()) ==> Plain() && (disturbed ==> old(disturbed))
      ensures (old(disturbed) ==> disturbed) && (stop ==> Left(s0) && disturbed)
      ensures !stop ==> Stripping(s0, p, u, f, victims, {})
    {
      hide *;
      stop := false;
      var todo := victims;
      ghost var done: set<Name> := {};
      while todo != {}
        invariant old(Plain()) ==> Plain() && (disturbed ==> old(disturbed))
        invariant todo <= victims && done == victims - todo && !stop && (old(disturbed) ==> disturbed)
        invariant Stripping(s0, p, u, f, done, todo)
        decreases |todo|
      {
        var x :| x in todo;
        stop := PruneNext(s0, p, u, f, done, todo, x);
        if stop { return; }
        todo, done := todo - {x}, done + {x};
      }
      assert done == victims;
    }

    method PruneNext(ghost s0: State, ghost p: Parent, ghost u: State, f: Finalizer, ghost done: set<Name>,
                     ghost todo: set<Name>, x: Name)
      returns (stop: bool)
      requires Stripping(s0, p, u, f, done, todo) && x in todo
      modifies `secrets, `url, `notifUrl, `issued, `issuedN, `extra, `cr, `svcs, `others, `disturbed, `outcomes, `last
      ensures old(Plain()) ==> Plain() && (disturbed ==> old(disturbed))
      ensures (old(disturbed) ==> disturbed) && (stop ==> Left(s0) && disturbed)
      ensures !stop ==> Stripping(s0, p, u, f, done + {x}, todo - {x})
    {
      hide Inv, Ledger, Goes;
      if !disturbed { PrunedOneMore(u, f, done, x); }
      var o;
      ghost var m;
      o, m := RemoveSecretConsumerFinalizer(s0, p, x, f);
      stop := !o.Fine?;
      if stop {
        PatchInstance(s0, p, o);
      } else {
        GoesPrune(s0, m, x);
      }
    }

    // -------------------------------------------------------------- reconcileNormal

    /** Both TransportURLs, from the start of the reconcile. */
    method ReadUrls(ghost s0: State) returns (stop: bool, cur: Name, curN: Name)
      requires s0 == View(Idle) && Inv(s0) && Ledger(s0) && inst == cr && cr.finalizer && !cr.deleting
      modifies `secrets, `url, `notifUrl, `issued, `issuedN, `extra, `cr, `svcs, `others, `disturbed,
               `outcomes, `last, `inst
      ensures old(Plain()) ==> Plain() && (disturbed ==> old(disturbed))
      ensures (old(disturbed) ==> disturbed) && (stop ==> Left(s0))
      ensures stop && !disturbed ==> !UrlsFound(s0) && Ends(s0, View(Idle))
      ensures !stop ==> On(s0, Running(RenderConfig, inst, cur, curN, true))
      ensures !stop && !disturbed ==> View(Idle) == s0.(secrets := Pinned(s0)) && inst == EarlyInst(s0)
      ensures !stop && !disturbed ==> cur == s0.url != "" && cur in s0.secrets && curN == NotifName(s0)
      ensures !stop && !disturbed ==> UrlsFound(s0)
    {
      GoesRefl(s0);
      GoesStart(s0, s0);
      hide Inv, Ledger, Goes;
      curN := "";
      stop, cur := ReadMessaging(s0);
      if stop { return; }
      stop, curN := ReadNotifications(s0, cur);
    }

    /** From the start to the hash gate. */
    method Prepare(ghost s0: State) returns (stop: bool, cur: Name, curN: Name)
      requires s0 == View(Idle) && Inv(s0) && Ledger(s0) && inst == cr && cr.finalizer && !cr.deleting
      modifies `secrets, `url, `notifUrl, `issued, `issuedN, `extra, `cr, `svcs, `others, `disturbed,
               `outcomes, `last, `inst, `cfg
      ensures old(Plain()) ==> Plain() && (disturbed ==> old(disturbed))
      ensures (old(disturbed) ==> disturbed) && (stop ==> Left(s0))
      ensures stop && !disturbed && CanReconcile(s0) ==> View(Idle) == ParentEffect(s0)
      ensures stop && !disturbed ==> Ends(s0, View(Idle))
      ensures !stop ==> On(s0, Running(PinAC, inst, cur, curN, true))
      ensures !stop && !disturbed ==> CanReconcile(s0) && View(Running(PinAC, inst, cur, curN, true)) == Prepared(s0)
    {
      GoesRefl(s0);
      AllHaveVersions(s0, s0);
      hide Inv, Ledger, Goes;
      hide Ends;
      stop, cur, curN := ReadUrls(s0);
      if stop { return; }
      var hashChanged;
      stop, hashChanged := RenderAndGate(s0, cur, curN);
      if stop && !disturbed {
        if hashChanged { EffectEnds(s0); } else { ACMissingEnds(s0, View(Idle)); }
      }
    }

    /** From the AC pin to the end of the share cleanup. */
    method RollOut(ghost s0: State, cur: Name, curN: Name) returns (stop: bool, ready: bool)
      requires On(s0, Running(PinAC, inst, cur, curN, true))
      modifies `secrets, `url, `notifUrl, `issued, `issuedN, `extra, `cr, `svcs, `others, `disturbed,
               `outcomes, `last, `caches
      ensures old(Plain()) ==> Plain() && (disturbed ==> old(disturbed))
      ensures (old(disturbed) ==> disturbed) && (stop ==> Left(s0))
      ensures stop && !disturbed ==>
                && inst.ac != "" && inst.ac !in old(secrets)
                && View(Idle) == old(View(Idle)).(cr := Persist(old(cr), inst))
      ensures !stop ==> On(s0, Running(FinishTransport, inst, cur, curN, ready))
      ensures !stop && !disturbed ==>
                var p := old(View(Running(PinAC, inst, cur, curN, true)));
                (forall c | c in p.svcs :: p.svcs[c].versions != []) &&
                View(Running(FinishTransport, inst, cur, curN, ready)) == RolledOut(p)
    {
      ready := true;
      stop := PinRequestedAC(s0, Running(PinAC, inst, cur, curN, true));
      if stop { return; }
      ghost var d := View(Running(Deploy(inst.services.Keys), inst, cur, curN, true));
      AllHaveVersions(s0, d);
      DeployedNone(d);
      assert inst.services.Keys - {} == inst.services.Keys;
      hide Inv, Ledger, Goes, InputsReady;
      stop, ready := DeployServices(s0, d, cur, curN);
      if stop { return; }
      assert inst.services.Keys - inst.services.Keys == {};
      GoesAdvance(s0, View(Running(Deploy({}), inst, cur, curN, ready)));
      stop := ShareCleanup(s0, Running(Cleanup, inst, cur, curN, ready));
    }

    /** The finalize stage. */
    method FinishStages(ghost s0: State, cur: Name, curN: Name, ready: bool) returns (stop: bool)
      requires On(s0, Running(FinishTransport, inst, cur, curN, ready))
      modifies `secrets, `url, `notifUrl, `issued, `issuedN, `extra, `cr, `svcs, `others, `disturbed,
               `outcomes, `last, `inst
      ensures old(Plain()) ==> Plain() && (disturbed ==> old(disturbed))
      ensures (old(disturbed) ==> disturbed) && (stop ==> Left(s0) && disturbed)
      ensures !stop ==> On(s0, Running(PruneTransport, inst, cur, curN, ready))
      ensures !stop && !disturbed ==>
                View(Running(PruneTransport, inst, cur, curN, ready)) ==
                  Unpruned(old(View(Running(FinishTransport, inst, cur, curN, ready))))
    {
      hide Inv, Ledger, Goes, DoFinishTransport, DoFinishNotif, DoFinishAC, DoDropNotifUrl;
      stop := FinalizeMessaging(s0, cur, curN, ready);
      if stop { return; }
      stop := FinalizeNotifications(s0, cur, curN, ready);
      if stop { return; }
      stop := FinalizeAC(s0, cur, curN, ready);
    }

    /** The finalize stage, pruning, and the deferred patch. */
    method Finish(ghost s0: State, cur: Name, curN: Name, ready: bool)
      requires On(s0, Running(FinishTransport, inst, cur, curN, ready))
      modifies `secrets, `url, `notifUrl, `issued, `issuedN, `extra, `cr, `svcs, `others, `disturbed,
               `outcomes, `last, `inst
      ensures old(Plain()) ==> Plain() && (disturbed ==> old(disturbed))
      ensures Left(s0) && (old(disturbed) ==> disturbed)
      ensures !disturbed ==> View(Idle) == Ended(old(View(Running(FinishTransport, inst, cur, curN, ready))))
    {
      ghost var q := View(Running(FinishTransport, inst, cur, curN, ready));
      FinishNames(s0, q);
      hide Inv, Ledger, Goes, NamesOk, PrunedBoth, FinalSecrets, Unpruned;
      var stop := FinishStages(s0, cur, curN, ready);
      if stop { return; }
      UnprunedFrame(q);
      PruneStrays(s0, cur, curN, ready);
      PrunedSecrets(q);
    }

    method PruneStrays(ghost s0: State, cur: Name, curN: Name, ghost ready: bool)
      requires On(s0, Running(PruneTransport, inst, cur, curN, ready))
      modifies `secrets, `url, `notifUrl, `issued, `issuedN, `extra, `cr, `svcs, `others, `disturbed, `outcomes, `last
      ensures old(Plain()) ==> Plain() && (disturbed ==> old(disturbed))
      ensures Left(s0) && (old(disturbed) ==> disturbed)
      ensures !disturbed ==> View(Idle) == PrunedBoth(old(View(Running(PruneTransport, inst, cur, curN, ready))))
    {
      hide Inv, Ledger, Goes;
      ghost var p := Running(PruneTransport, inst, cur, curN, ready);
      var stop := PruneSecretConsumerFinalizers(s0, p, TransportConsumer,
                                                {inst.tracked, cur, Value(inst.trackedN), curN});
      if stop { return; }
      GoesAdvance(s0, View(p));
      p := p.(pc := PruneAC);
      stop := PruneSecretConsumerFinalizers(s0, p, ACConsumer, {inst.trackedAC, inst.ac});
      if stop { return; }
      GoesAdvance(s0, View(p));
      PatchInstance(s0, p.(pc := Complete), Fine);
    }

    /** When nothing disturbs it and the inputs are there, the effect is ParentEffect; in any
        case it is some path of the step system, so everything proved about runs holds of it. */
    method ReconcileNormal()
      requires Inv(View(Idle)) && Ledger(View(Idle)) && inst == cr && cr.finalizer && !cr.deleting
      modifies `secrets, `url, `notifUrl, `issued, `issuedN, `extra, `cr, `svcs, `others, `disturbed,
               `outcomes, `last, `inst, `cfg, `caches
      ensures old(Plain()) ==> Plain() && (disturbed ==> old(disturbed))
      ensures Left(old(View(Idle))) && (old(disturbed) ==> disturbed)
      ensures !disturbed && CanReconcile(old(View(Idle))) ==> View(Idle) == ParentEffect(old(View(Idle)))
      ensures !disturbed ==> Ends(old(View(Idle)), View(Idle))
    {
      hide Inv, Ledger, Goes, Ends;
      ghost var s0 := View(Idle);
      var stop, cur, curN := Prepare(s0);
      if stop { return; }
      ghost var p := View(Running(PinAC, inst, cur, curN, true));
      var ready;
      stop, ready := RollOut(s0, cur, curN);
      if stop { return; }
      Finish(s0, cur, curN, ready);
      if !disturbed { EffectEnds(s0); }
    }

    // -------------------------------------------------------------- reconcileDelete

    /** The database finalizer goes first; then the listed names are released, and whatever
        is left; then the Manila's own finalizer is dropped. */
    method ReconcileDelete()
      requires Inv(View(Idle)) && Ledger(View(Idle)) && inst == cr && cr.finalizer && cr.deleting
      modifies `secrets, `url, `notifUrl, `issued, `issuedN, `extra, `cr, `svcs, `others, `disturbed,
               `outcomes, `last, `inst
      ensures old(Plain()) ==> Plain() && (disturbed ==> old(disturbed))
      ensures Left(old(View(Idle))) && (old(disturbed) ==> disturbed)
      ensures !disturbed ==>
                && View(Idle) == old(View(Idle)).(secrets := secrets, cr := old(cr).(finalizer := false))
                && secrets.Keys == old(secrets).Keys && forall x | x in secrets :: secrets[x] == {}
    {
      ghost var s0 := View(Idle);
      GoesRefl(s0);
      hide Inv, Ledger, Goes;
      var o := Call(s0, Idle);
      if o.Fine? { o := Call(s0, Idle); }
      if !o.Fine? {
        PatchUnchanged(s0, o);
        return;
      }
      var stop := ReleaseListed(s0);
      if stop { return; }
      stop := PruneAllHolders(s0);
      if stop { return; }
      DropFinalizer(s0);
      if !disturbed { NothingHeld(s0, View(Idle)); }
    }

    /** The deferred patch of a reconcile that has changed nothing in its instance. */
    method PatchUnchanged(ghost s0: State, o: Outcome)
      requires On(s0, Idle) && SameStatus(inst, cr)
      modifies `secrets, `url, `notifUrl, `issued, `issuedN, `extra, `cr, `svcs, `others, `disturbed, `outcomes, `last
      ensures old(Plain()) ==> Plain() && (disturbed ==> old(disturbed))
      ensures Left(s0) && (old(disturbed) ==> disturbed)
    {
      hide Inv, Ledger, Goes;
      if !o.Died? {
        var saved := Call(s0, Idle);
        if saved.Fine? { cr := Persist(cr, inst); }
      }
      GoesLeads(s0, View(Idle));
    }

    method DropFinalizer(ghost s0: State)
      requires On(s0, Running(DelDrop, inst, "", "", true))
      modifies `secrets, `url, `notifUrl, `issued, `issuedN, `extra, `cr, `svcs, `others, `disturbed, `outcomes, `last
      ensures old(Plain()) ==> Plain() && (disturbed ==> old(disturbed))
      ensures Left(s0) && (old(disturbed) ==> disturbed)
      ensures !disturbed ==> View(Idle) == old(View(Idle)).(cr := old(cr).(finalizer := false))
    {
      hide Inv, Ledger, Goes;
      ghost var p := Running(DelDrop, inst, "", "", true);
      var o := Call(s0, p);
      GoesAdvance(s0, View(p));
      GoesOut(s0, View(p));
      if o.Fine? { cr := cr.(finalizer := false); GoesLeads(s0, View(Idle)); }
    }

    method ReleaseListed(ghost s0: State) returns (stop: bool)
      requires On(s0, Idle) && cr.finalizer && cr.deleting
      modifies `secrets, `url, `notifUrl, `issued, `issuedN, `extra, `cr, `svcs, `others, `disturbed,
               `outcomes, `last, `inst
      ensures old(Plain()) ==> Plain() && (disturbed ==> old(disturbed))
      ensures !disturbed ==> View(Idle) == old(View(Idle)).(secrets := secrets) && secrets.Keys == old(secrets).Keys
      ensures !disturbed ==>
                forall x, f :: Holds(secrets, x, f) <==>
                  Holds(old(secrets), x, f) &&
                  x !in (match f
                         case TransportConsumer =>
                           {cr.tracked, url} + (if notifUrl.Some? then {notifUrl.value} else {}) +
                           (if cr.trackedN.Some? then {cr.trackedN.value} else {})
                         case ACConsumer => {cr.trackedAC, cr.ac})
      ensures (old(disturbed) ==> disturbed) && (stop ==> Left(s0) && disturbed)
      ensures !stop ==> On(s0, Running(DelPruneTransport, inst, "", "", true))
    {
      GoesStart(s0, View(Idle));
      inst := cr;
      var work := [(cr.tracked, TransportConsumer), (url, TransportConsumer)];
      if notifUrl.Some? { work := work + [(notifUrl.value, TransportConsumer)]; }
      if cr.trackedN.Some? { work := work + [(cr.trackedN.value, TransportConsumer)]; }
      work := work + [(cr.trackedAC, ACConsumer), (cr.ac, ACConsumer)];
      assert work == DeleteWork(View(Idle));
      hide Inv, Ledger, Goes;
      ReleasedNames(View(Idle));
      hide DeleteWork;
      stop := ReleaseAll(s0, work);
    }

    method ReleaseAll(ghost s0: State, work: seq<(Name, Finalizer)>) returns (stop: bool)
      requires On(s0, Running(DelList(work), inst, "", "", true))
      modifies `secrets, `url, `notifUrl, `issued, `issuedN, `extra, `cr, `svcs, `others, `disturbed, `outcomes, `last
      ensures old(Plain()) ==> Plain() && (disturbed ==> old(disturbed))
      ensures !disturbed ==> View(Idle) == old(View(Idle)).(secrets := secrets) && secrets.Keys == old(secrets).Keys
      ensures !disturbed ==>
                forall x, f :: Holds(secrets, x, f) <==> Holds(old(secrets), x, f) && (x, f) !in work
      ensures (old(disturbed) ==> disturbed) && (stop ==> Left(s0) && disturbed)
      ensures !stop ==> On(s0, Running(DelPruneTransport, inst, "", "", true))
    {
      hide Inv, Ledger, Goes;
      stop := false;
      var i := 0;
      assert work[i..] == work;
      while i < |work|
        invariant old(Plain()) ==> Plain() && (disturbed ==> old(disturbed))
        invariant i <= |work| && !stop && (old(disturbed) ==> disturbed)
        invariant !disturbed ==> View(Idle) == old(View(Idle)).(secrets := secrets) && secrets.Keys == old(secrets).Keys
        invariant !disturbed ==>
                    forall x, f :: Holds(secrets, x, f) <==> Holds(old(secrets), x, f) && (x, f) !in work[..i]
        invariant On(s0, Running(DelList(work[i..]), inst, "", "", true))
      {
        ghost var p := Running(DelList(work[i..]), inst, "", "", true);
        var o;
        ghost var m;
        o, m := RemoveSecretConsumerFinalizer(s0, p, work[i].0, work[i].1);
        stop := !o.Fine?;
        if stop {
          PatchInstance(s0, p, o);
          return;
        }
        GoesAdvance(s0, m);
        assert work[i..][1..] == work[i + 1..] && work[..i + 1] == work[..i] + [work[i]];
        i := i + 1;
      }
      assert work[i..] == [];
      GoesAdvance(s0, View(Running(DelList([]), inst, "", "", true)));
    }

    method PruneAllHolders(ghost s0: State) returns (stop: bool)
      requires On(s0, Running(DelPruneTransport, inst, "", "", true))
      modifies `secrets, `url, `notifUrl, `issued, `issuedN, `extra, `cr, `svcs, `others, `disturbed, `outcomes, `last
      ensures old(Plain()) ==> Plain() && (disturbed ==> old(disturbed))
      ensures !disturbed ==> View(Idle) == old(View(Idle)).(secrets := secrets) && secrets.Keys == old(secrets).Keys
      ensures (old(disturbed) ==> disturbed) && (stop ==> Left(s0) && disturbed)
      ensures !stop ==> On(s0, Running(DelDrop, inst, "", "", true))
    {
      hide Inv, Ledger, Goes;
      ghost var p := Running(DelPruneTransport, inst, "", "", true);
      stop := PruneSecretConsumerFinalizers(s0, p, TransportConsumer, {});
      if stop { return; }
      GoesAdvance(s0, View(p));
      p := p.(pc := DelPruneAC);
      stop := PruneSecretConsumerFinalizers(s0, p, ACConsumer, {});
      if stop { return; }
      GoesAdvance(s0, View(p));
    }

    // -------------------------------------------------------------- Reconcile

    /** One call of the reconciler, whatever the API server answers, whatever the others do
        between its calls, however old its cached reads are: a path of the step system, so
        every theorem about runs holds of any number of such calls. */
    method Reconcile(outcomes: seq<Outcome>, others: seq<seq<Action>>, caches: seq<nat>)
      requires Inv(View(Idle)) && Ledger(View(Idle))
      modifies this
      ensures Leads(old(View(Idle)), View(Idle)) && Inv(View(Idle)) && Ledger(View(Idle))
      ensures last.Fine? ==> Goes(old(View(Idle)), View(Idle))
      ensures !disturbed && CanReconcile(old(View(Idle))) ==> View(Idle) == ParentEffect(old(View(Idle)))
      ensures !disturbed && !old(cr.deleting) && old(cr.finalizer) ==> Ends(old(View(Idle)), View(Idle))
      ensures !disturbed && !old(cr.deleting) && !old(cr.finalizer) ==>
                View(Idle) == old(View(Idle)).(cr := old(cr).(finalizer := true))
      ensures !disturbed && old(cr.deleting) && old(cr.finalizer) ==>
                && View(Idle) == old(View(Idle)).(secrets := secrets, cr := old(cr).(finalizer := false))
                && secrets.Keys == old(secrets).Keys && forall x | x in secrets :: secrets[x] == {}
      ensures old(cr.deleting) && !old(cr.finalizer) ==> View(Idle) == old(View(Idle))
      ensures Undisturbed(outcomes, others) && caches == [] ==> !disturbed
      ensures !cr.finalizer ==> NoHolder(secrets, TransportConsumer) && NoHolder(secrets, ACConsumer)
    {
      hide Ends, Goes, Leads, Inv, Ledger, ParentEffect, CanReconcile, NoHolder, Left;
      ghost var s0 := View(Idle);
      this.outcomes, this.others, this.caches, disturbed, last, inst := outcomes, others, caches, false, Fine, cr;
      Act(s0);
      LeftSound(s0);
    }

    /** Adds the finalizer, or runs a whole reconcile. */
    method Act(ghost s0: State)
      requires s0 == View(Idle) && Inv(s0) && Ledger(s0) && inst == cr && !disturbed && last.Fine?
      modifies `secrets, `url, `notifUrl, `issued, `issuedN, `extra, `cr, `svcs, `others, `disturbed,
               `outcomes, `last, `inst, `cfg, `caches
      ensures Left(s0)
      ensures !disturbed && CanReconcile(s0) ==> View(Idle) == ParentEffect(s0)
      ensures !disturbed && !s0.cr.deleting && s0.cr.finalizer ==> Ends(s0, View(Idle))
      ensures !disturbed && !s0.cr.deleting && !s0.cr.finalizer ==>
                View(Idle) == s0.(cr := s0.cr.(finalizer := true))
      ensures !disturbed && s0.cr.deleting && s0.cr.finalizer ==>
                && View(Idle) == s0.(secrets := secrets, cr := s0.cr.(finalizer := false))
                && secrets.Keys == s0.secrets.Keys && forall x | x in secrets :: secrets[x] == {}
      ensures s0.cr.deleting && !s0.cr.finalizer ==> View(Idle) == s0
      ensures old(Plain()) ==> !disturbed
    {
      GoesRefl(s0);
      GoesLeads(s0, s0);
      hide Ends, Goes, Leads, Inv, Ledger, ParentEffect;
      if cr.deleting {
        if cr.finalizer { ReconcileDelete(); }
      } else if cr.finalizer {
        ReconcileNormal();
      } else {
        Adopt(s0);
      }
    }

    lemma LeftSound(s0: State)
      requires Inv(s0) && Ledger(s0) && Left(s0)
      ensures Leads(s0, View(Idle)) && (last.Fine? ==> Goes(s0, View(Idle)))
      ensures Inv(View(Idle)) && Ledger(View(Idle))
      ensures !cr.finalizer ==> NoHolder(secrets, TransportConsumer) && NoHolder(secrets, ACConsumer)
    {
      LeadsSound(s0, View(Idle));
    }

    /** A reconcile that only adds the finalizer. */
    method Adopt(ghost s0: State)
      requires On(s0, Idle) && !cr.deleting && !cr.finalizer
      modifies `secrets, `url, `notifUrl, `issued, `issuedN, `extra, `cr, `svcs, `others, `disturbed, `outcomes, `last
      ensures old(Plain()) ==> Plain() && (disturbed ==> old(disturbed))
      ensures Left(s0) && (old(disturbed) ==> disturbed)
      ensures !disturbed ==> View(Idle) == old(View(Idle)).(cr := old(cr).(finalizer := true))
    {
      hide Inv, Ledger, Goes;
      var o := Call(s0, Idle);
      if o.Fine? {
        GoesStep(s0, View(Idle), Action.Adopt);
        cr := cr.(finalizer := true);
      }
      GoesLeads(s0, View(Idle));
    }
  }

  /** A Manila without its finalizer holds no secret. */
  lemma NothingHeld(s0: State, e: State)
    requires Inv(s0) && Ledger(s0) && Leads(s0, e) && !e.cr.finalizer
    ensures forall x | x in e.secrets :: e.secrets[x] == {}
  {
    LeadsSound(s0, e);
    forall x | x in e.secrets ensures e.secrets[x] == {} {
      assert !Holds(e.secrets, x, TransportConsumer) && !Holds(e.secrets, x, ACConsumer);
      forall f ensures f !in e.secrets[x] {
        match f {
          case TransportConsumer =>
          case ACConsumer =>
        }
      }
    }
  }

  lemma FinishNames(s0: State, q: State)
    requires Inv(s0) && Ledger(s0) && Goes(s0, q) && q.parent.Running? && q.parent.pc.FinishTransport?
    ensures NamesOk(q) && q.parent.cur != ""
  {
    GoesLeads(s0, q);
    LeadsSound(s0, q);
  }

  /** Notifications after their part of the finalize stage. */
  function NotifFinished(q: State): State
    requires q.parent.Running?
  {
    var q2 := DoFinishNotif(q);
    if q2.parent.pc.DropNotifUrl? then DoDropNotifUrl(q2) else q2
  }

  lemma PrunedOutside(u: State, f: Finalizer, keep: set<Name>)
    requires Pruning(u.parent) && f == PruneFin(u.parent) && keep == Keep(u.parent)
    ensures PrunedTo(u, f, Victims(u)).secrets ==
              map x | x in u.secrets :: if x in keep then u.secrets[x] else u.secrets[x] - {f}
  {
    forall x | x in u.secrets && x !in Victims(u) && x !in keep ensures u.secrets[x] - {f} == u.secrets[x] {
      assert f !in u.secrets[x];
    }
  }

  lemma ReleasedNames(s: State)
    ensures forall x, f :: (x, f) in DeleteWork(s) <==>
              x in (match f
                    case TransportConsumer =>
                      {s.cr.tracked, s.url} + (if s.notifUrl.Some? then {s.notifUrl.value} else {}) +
                      (if s.cr.trackedN.Some? then {s.cr.trackedN.value} else {})
                    case ACConsumer => {s.cr.trackedAC, s.cr.ac})
  {
  }

  lemma HasVersions(s0: State, s: State, c: ServiceId)
    requires Inv(s0) && Ledger(s0) && Goes(s0, s)
    ensures c in s.svcs ==> s.svcs[c].versions != []
  {
    GoesLeads(s0, s);
    LeadsSound(s0, s);
    if c in s.svcs { assert ServiceOk(s.svcs[c]); }
  }

  lemma AllHaveVersions(s0: State, s: State)
    requires Inv(s0) && Ledger(s0) && Goes(s0, s)
    ensures forall c | c in s.svcs :: s.svcs[c].versions != []
  {
    forall c | c in s.svcs ensures s.svcs[c].versions != [] { HasVersions(s0, s, c); }
  }

  lemma DeployedNext(d: State, done: set<ServiceId>, c: ServiceId)
    requires Deploying(d) && done <= d.parent.inst.services.Keys && c in d.parent.inst.services && c !in done
    ensures var m := DeployedTo(d, done);
            && m.parent == d.parent.(pc := Deploy(d.parent.inst.services.Keys - done), ready := m.parent.ready)
            && (c in m.svcs ==> m.svcs[c].versions != [])
            && DeployEnabled(m, c, Fresh(m, c)) && DoDeploy(m, c, Fresh(m, c)) == DeployedTo(d, done + {c})
  {
    var m := DeployedTo(d, done);
    if c in d.svcs { assert m.svcs[c] == d.svcs[c]; }
    assert Fresh(m, c) == Fresh(d, c);
    DeployedOneMore(d, done, c);
  }
}
