/** From any reachable state: crash whatever is in flight, then let rounds of undisturbed
    reconciles converge.  The whole is one run of the step system. */
module RotationRuns {
  import opened Options
  import opened RotationState
  import opened RotationSteps
  import opened RotationSafety
  import opened RotationEffects
  import opened RotationActors
  import opened Convergence

  // ---------------------------------------------------------------- interrupting everything

  /** Every reconcile in flight crashes. */
  ghost function Interrupted(s: State): State {
    s.(parent := Idle, svcs := map c | c in s.svcs :: Crashed(s.svcs[c]))
  }

  ghost function InterruptedTo(s: State, done: set<ServiceId>): State {
    s.(svcs := map c | c in s.svcs :: if c in done then Crashed(s.svcs[c]) else s.svcs[c])
  }

  lemma {:induction false} ServicesInterrupted(s: State, done: set<ServiceId>)
    requires done <= s.svcs.Keys && forall c | c in s.svcs :: s.svcs[c].versions != []
    ensures Leads(s, InterruptedTo(s, done))
    decreases |done|
  {
    if done == {} {
      assert InterruptedTo(s, {}).svcs == s.svcs;
      LeadsRefl(s);
    } else {
      var c :| c in done;
      var m := InterruptedTo(s, done - {c});
      ServicesInterrupted(s, done - {c});
      assert m.svcs[c] == s.svcs[c];
      assert InterruptedTo(s, done).svcs == m.svcs[c := Crashed(s.svcs[c])];
      if s.svcs[c].run.Reconciling? {
        LeadsStep(s, m, ServiceCrash(c));
      } else {
        assert InterruptedTo(s, done).svcs == m.svcs;
      }
    }
  }

  lemma InterruptedLeads(s: State)
    requires forall c | c in s.svcs :: s.svcs[c].versions != []
    ensures Leads(s, Interrupted(s))
  {
    var m := InterruptedTo(s, s.svcs.Keys);
    ServicesInterrupted(s, s.svcs.Keys);
    assert m.svcs == Interrupted(s).svcs;
    if s.parent.Running? { LeadsStep(s, m, Crash); }
  }

  lemma InterruptedInv(s: State)
    requires Inv(s)
    ensures Leads(s, Interrupted(s)) && Inv(Interrupted(s))
    ensures forall c | c in s.svcs :: s.svcs[c].versions != []
  {
    forall c | c in s.svcs ensures s.svcs[c].versions != [] { assert ServiceOk(s.svcs[c]); }
    InterruptedLeads(s);
    LeadsInv(s, Interrupted(s));
  }

  lemma InterruptedSteady(s: State)
    requires Inv(s) && InputsReady(s)
    ensures Leads(s, Interrupted(s)) && Steady(Interrupted(s))
  {
    InterruptedInv(s);
  }

  // ---------------------------------------------------------------- the theorem

  /** Whatever happened before, in any interleaving: once the inputs are there and stop
      changing, and every reconcile in flight has crashed, any schedule of as many rounds
      as the measure says extends the run to a converged state that nothing changes.  Wanted
      services whose objects are still being deleted are among what the rounds settle. */
  lemma RunsConverge(ss: seq<State>, acts: seq<Action>, rounds: seq<seq<Actor>>)
    requires IsRun(ss, acts) && InputsReady(ss[|acts|])
    requires forall i | 0 <= i < |rounds| :: IsRound(ss[|acts|], rounds[i])
    requires |rounds| >= Measure(Interrupted(ss[|acts|]))
    ensures Steady(Interrupted(ss[|acts|]))
    ensures var e := AfterRounds(Interrupted(ss[|acts|]), rounds);
            && Steady(e) && Quiescent(e) && Converged(e) && SameInputs(ss[|acts|], e)
            && exists ss', acts' :: IsRun(ss', acts') && ss <= ss' && acts <= acts' && ss'[|acts'|] == e
  {
    var s := ss[|acts|];
    var c := Interrupted(s);
    RunInv(ss, acts, |acts|);
    InterruptedSteady(s);
    forall i | 0 <= i < |rounds| ensures IsRound(c, rounds[i]) { assert IsRound(s, rounds[i]); }
    RoundsConverge(c, rounds);
    var e := AfterRounds(c, rounds);
    LeadsTrans(s, c, e);
    LeadsExtendsRun(ss, acts, e);
  }

  // ---------------------------------------------------------------- one rotation after another

  /** Every pod of the spec runs and has read name x. */
  ghost predicate PodsOn(s: State, x: Name) {
    forall c, i | c in s.cr.services && c in s.svcs && i in s.svcs[c].pods ::
      s.svcs[c].pods[i].tmpl.t == x && s.svcs[c].pods[i].cred.t == x
  }

  lemma ConvergedPods(s: State)
    requires Steady(s) && Converged(s)
    ensures PodsOn(s, s.url)
  {
    forall c, i | c in s.cr.services && c in s.svcs && i in s.svcs[c].pods
      ensures s.svcs[c].pods[i].tmpl.t == s.url && s.svcs[c].pods[i].cred.t == s.url
    {
      assert RunsCurrent(s, c);
      assert Clear(s, s.url) && !Untouched(s, s.url);
      assert Truthful(s.svcs[c], s.url, true);
    }
  }

  lemma RotatedSteady(s: State, x: Name)
    requires Steady(s) && Enabled(s, RotateTransport(x))
    ensures Steady(Step(s, RotateTransport(x)))
  {
    StepInv(s, RotateTransport(x));
  }

  /** A rotation from one converged state to the next: the new secret is tracked, pinned and
      in every pod, the old one is free. */
  lemma RotationCompletes(s: State, x: Name, rounds: seq<seq<Actor>>)
    requires Steady(s) && Converged(s) && Enabled(s, RotateTransport(x))
    requires forall i | 0 <= i < |rounds| :: IsRound(s, rounds[i])
    requires |rounds| >= Measure(Step(s, RotateTransport(x)))
    ensures Steady(Step(s, RotateTransport(x)))
    ensures var e := AfterRounds(Step(s, RotateTransport(x)), rounds);
            && Leads(s, e) && Steady(e) && Converged(e) && e.cr.tracked == x && PodsOn(e, x)
            && Holds(e.secrets, x, TransportConsumer) && !Holds(e.secrets, s.url, TransportConsumer)
  {
    var r := Step(s, RotateTransport(x));
    RotatedSteady(s, x);
    LeadsRefl(s);
    LeadsStep(s, s, RotateTransport(x));
    forall i | 0 <= i < |rounds| ensures IsRound(r, rounds[i]) { assert IsRound(s, rounds[i]); }
    RoundsConverge(r, rounds);
    var e := AfterRounds(r, rounds);
    LeadsTrans(s, r, e);
    ConvergedPods(e);
    assert s.url in r.issued && NotifName(r) !in r.issued && s.url != x;
  }

  ghost predicate InService(s: State, c: ServiceId) {
    c in s.cr.services && c in s.svcs && s.svcs[c].pods != map[]
  }

  /** An empty namespace, and a Manila that wants one replica of the API and of a share. */
  function Empty(): State {
    State(map[], "", None, {}, {}, 0,
          ManilaCR(map[Api := Template(1, 0), Share("nfs") := Template(1, 0)],
                   false, "", "", None, "", None, false, false), None, map[], Idle)
  }

  lemma FirstSecret() returns (ss: seq<State>, acts: seq<Action>)
    ensures IsRun(ss, acts) && InputsReady(ss[|acts|]) && ss[|acts|].cr.services == Empty().cr.services
    ensures !ss[|acts|].cr.notifOn && ss[|acts|].cr.ac == ""
  {
    var s1 := Step(Empty(), Adopt);
    ss, acts := [Empty(), s1, Step(s1, RotateTransport("a"))], [Adopt, RotateTransport("a")];
    assert Stepped(ss, acts, 0) && Stepped(ss, acts, 1);
  }

  function FullRound(): seq<Actor> {
    [TheParent, TheService(Api), ThePods(Api), TheService(Share("nfs")), ThePods(Share("nfs"))]
  }

  lemma FullRoundIsRound(s: State)
    requires s.cr.services.Keys <= Empty().cr.services.Keys
    ensures IsRound(s, FullRound())
  {
    var r := FullRound();
    assert r[0] == TheParent && r[1] == TheService(Api) && r[2] == ThePods(Api);
    assert r[3] == TheService(Share("nfs")) && r[4] == ThePods(Share("nfs"));
  }

  lemma ConvergeFrom(first: seq<State>, did: seq<Action>) returns (ss: seq<State>, acts: seq<Action>)
    requires IsRun(first, did) && InputsReady(first[|did|])
    requires first[|did|].cr.services.Keys <= Empty().cr.services.Keys
    ensures IsRun(ss, acts) && Steady(ss[|acts|]) && Quiescent(ss[|acts|]) && Converged(ss[|acts|])
    ensures SameInputs(first[|did|], ss[|acts|])
  {
    var s := first[|did|];
    FullRoundIsRound(s);
    var rounds := seq(Measure(Interrupted(s)), _ => FullRound());
    RunsConverge(first, did, rounds);
    ss, acts :| IsRun(ss, acts) && first <= ss && did <= acts && ss[|acts|] == AfterRounds(Interrupted(s), rounds);
  }

  /** The model is not empty: some run ends converged with the share's pod in service. */
  lemma SomeRunConverges() returns (ss: seq<State>, acts: seq<Action>)
    ensures IsRun(ss, acts) && Steady(ss[|acts|]) && Quiescent(ss[|acts|]) && Converged(ss[|acts|])
    ensures InService(ss[|acts|], Share("nfs"))
    ensures ss[|acts|].cr.services == Empty().cr.services && !ss[|acts|].cr.notifOn && ss[|acts|].cr.ac == ""
  {
    hide Steady, Quiescent, IsRun;
    ss, acts := FirstSecret();
    ss, acts := ConvergeFrom(ss, acts);
    assert RunsCurrent(ss[|acts|], Share("nfs"));
  }
}
