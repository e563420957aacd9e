/** Fair behaviours exist: from a converged state with one service, the parent and the
    service's controller can go on reconciling for ever. */
module FairBehaviour {
  import opened Options
  import opened RotationState
  import opened RotationSteps
  import opened RotationLedger
  import opened RotationEffects
  import opened RotationActors
  import opened RotationFixpoint
  import opened Convergence
  import opened RotationRuns
  import opened RotationFairness

  /** Service c is all that the spec asks for, it is in service, and nothing is in flight. */
  ghost predicate AtHome(s: State, c: ServiceId) {
    && s.parent.Idle? && InputsReady(s) && !s.cr.notifOn && s.cr.ac == "" && s.cr.services.Keys == {c}
    && s.cr.tracked == s.url && Value(s.cr.trackedN) == "" && s.cr.trackedAC == ""
    && AtGate(s) && ServesAlone(s, c)
    && AddFin(s.secrets, s.url, TransportConsumer) == s.secrets
    && HoldersWithin(s.secrets, TransportConsumer, {s.url, ""}) && HoldersWithin(s.secrets, ACConsumer, {""})
  }

  ghost predicate ServesAlone(s: State, c: ServiceId) {
    && Pushed(s, c) && s.svcs[c].born < |s.svcs[c].versions| && s.svcs[c].run.Resting?
    && !Last(s.svcs[c]).deleting && Matches(Last(s.svcs[c]), s.url, "") && Last(s.svcs[c]).hash == s.svcs[c].sts
    && Rolled(s.svcs[c]) && s.svcs[c].cfg == s.cfg && s.svcs[c].sts == Some(InputOf(Last(s.svcs[c]), WantedConfig(s)))
  }

  /** The parent's reconcile, call by call. */
  function PcOf(c: ServiceId, i: nat): ParentPc {
    match i
    case 1 => ReadTransport
    case 2 => PinTransport
    case 3 => ReadNotif
    case 4 => RenderConfig
    case 5 => HashGate
    case 6 => PinAC
    case 7 => Deploy({c})
    case 8 => Deploy({})
    case 9 => Cleanup
    case 10 => FinishTransport
    case 11 => FinishNotif
    case 12 => FinishAC
    case 13 => PruneTransport
    case 14 => PruneAC
    case _ => Complete
  }

  /** The service's reconcile. */
  function ServicePcOf(w: Config, input: Input, i: nat): ServicePc {
    match i
    case 17 => Verify
    case 18 => Render(w)
    case 19 => Gate(w, w)
    case 20 => Patch(input)
    case 21 => Check(input)
    case _ => Finished
  }

  /** The states of one round trip. */
  ghost function Stop(s: State, c: ServiceId, i: nat): State
    requires AtHome(s, c)
  {
    if i == 0 || i == 16 then s
    else if i < 16 then s.(parent := Running(PcOf(c, i), s.cr, if i == 1 then "" else s.url, "", true))
    else
      var k := s.svcs[c];
      Put(s, c, k.(run := Reconciling(ServicePcOf(WantedConfig(s), k.sts.value, i), Last(k), Last(k))))
  }

  ghost function Move(s: State, c: ServiceId, i: nat): Action
    requires AtHome(s, c)
  {
    match i
    case 0 => Start
    case 7 => DeployOne(c, Cached(|s.svcs[c].versions| - 1))
    case 15 => Exit
    case 16 => ServiceStart(c, |s.svcs[c].versions| - 1)
    case 21 => ServiceCheck(c, |s.svcs[c].pods|, true)
    case 22 => ServiceExit(c)
    case _ => if i < 16 then Advance else ServiceAdvance(c)
  }

  const TOUR: nat := 23

  ghost predicate Fits(s: State, c: ServiceId, i: nat)
    requires AtHome(s, c)
  {
    Calm(Stop(s, c, i), Move(s, c, i)) && Step(Stop(s, c, i), Move(s, c, i)) == Stop(s, c, (i + 1) % TOUR)
  }

  lemma ReadingFits(s: State, c: ServiceId, i: nat)
    requires AtHome(s, c) && i < 2
    ensures Fits(s, c, i)
  {
    hide ServesAlone, HoldersWithin;
  }

  lemma PinningFits(s: State, c: ServiceId, i: nat)
    requires AtHome(s, c) && 2 <= i < 4
    ensures Fits(s, c, i)
  {
    hide ServesAlone, HoldersWithin;
  }

  lemma GatingFits(s: State, c: ServiceId, i: nat)
    requires AtHome(s, c) && 4 <= i < 7
    ensures Fits(s, c, i)
  {
    hide ServesAlone, HoldersWithin;
  }

  lemma DeployFits(s: State, c: ServiceId)
    requires AtHome(s, c)
    ensures Fits(s, c, 7)
  {
    assert {c} - {c} == {};
    assert s.svcs[c := s.svcs[c]] == s.svcs;
  }

  lemma FinishingFits(s: State, c: ServiceId, i: nat)
    requires AtHome(s, c) && 8 <= i < 11
    ensures Fits(s, c, i)
  {
    hide HoldersWithin, ServesAlone;
  }

  lemma LastFinishFits(s: State, c: ServiceId, i: nat)
    requires AtHome(s, c) && 11 <= i < 13
    ensures Fits(s, c, i)
  {
    hide HoldersWithin, ServesAlone;
  }

  lemma PruningFits(s: State, c: ServiceId, i: nat)
    requires AtHome(s, c) && 13 <= i < 15
    ensures Fits(s, c, i)
  {
    hide ServesAlone;
    var m := Stop(s, c, i);
    forall x | x in m.secrets && x !in Keep(m.parent) ensures PruneFin(m.parent) !in m.secrets[x] {
      assert !Holds(m.secrets, x, PruneFin(m.parent));
    }
  }

  lemma ExitFits(s: State, c: ServiceId)
    requires AtHome(s, c)
    ensures Fits(s, c, 15)
  {
    hide HoldersWithin, ServesAlone;
  }

  lemma ServiceStartFits(s: State, c: ServiceId)
    requires AtHome(s, c)
    ensures Fits(s, c, 16)
  {
    hide HoldersWithin;
  }

  lemma VerifyingFits(s: State, c: ServiceId, i: nat)
    requires AtHome(s, c) && 17 <= i < 19
    ensures Fits(s, c, i)
  {
    hide HoldersWithin;
  }

  lemma GateFits(s: State, c: ServiceId)
    requires AtHome(s, c)
    ensures Fits(s, c, 19)
  {
    hide HoldersWithin;
  }

  lemma PatchFits(s: State, c: ServiceId)
    requires AtHome(s, c)
    ensures Fits(s, c, 20)
  {
    hide HoldersWithin;
  }

  lemma CheckingFits(s: State, c: ServiceId)
    requires AtHome(s, c)
    ensures Fits(s, c, 21)
  {
    hide HoldersWithin;
  }

  lemma ServiceExitFits(s: State, c: ServiceId)
    requires AtHome(s, c)
    ensures Fits(s, c, 22)
  {
    hide HoldersWithin;
  }

  lemma TourFits(s: State, c: ServiceId, i: nat)
    requires AtHome(s, c) && i < TOUR
    ensures Fits(s, c, i)
  {
    hide AtHome, Fits;
    if i < 2 { ReadingFits(s, c, i); }
    else if i < 4 { PinningFits(s, c, i); }
    else if i < 7 { GatingFits(s, c, i); }
    else if i == 7 { DeployFits(s, c); }
    else if i < 11 { FinishingFits(s, c, i); }
    else if i < 13 { LastFinishFits(s, c, i); }
    else if i < 15 { PruningFits(s, c, i); }
    else if i == 15 { ExitFits(s, c); }
    else if i == 16 { ServiceStartFits(s, c); }
    else if i < 19 { VerifyingFits(s, c, i); }
    else if i == 19 { GateFits(s, c); }
    else if i == 20 { PatchFits(s, c); }
    else if i == 21 { CheckingFits(s, c); }
    else { ServiceExitFits(s, c); }
  }

  /** Round after round. */
  ghost function States(s: State, c: ServiceId): nat -> State
    requires AtHome(s, c)
  {
    i => Stop(s, c, i % TOUR)
  }

  ghost function Moves(s: State, c: ServiceId): nat -> Action
    requires AtHome(s, c)
  {
    i => Move(s, c, i % TOUR)
  }

  lemma TourFollows(s: State, c: ServiceId, i: nat)
    requires AtHome(s, c)
    ensures Follows(States(s, c), Moves(s, c), i)
  {
    hide Stop, Move, Calm, AtHome;
    TourFits(s, c, i % TOUR);
    assert (i + 1) % TOUR == (i % TOUR + 1) % TOUR;
  }

  lemma TourBehaves(s: State, c: ServiceId)
    requires AtHome(s, c)
    ensures Behaves(States(s, c), Moves(s, c))
  {
    hide AtHome;
    forall i: nat ensures Follows(States(s, c), Moves(s, c), i) { TourFollows(s, c, i); }
  }

  lemma TourServes(s: State, c: ServiceId, n: nat)
    requires AtHome(s, c)
    ensures ServedAfter(States(s, c), Moves(s, c), c, n)
    ensures FreedAfter(States(s, c), c, n) && RolledAfter(States(s, c), c, n)
  {
    assert (TOUR * n + 22) % TOUR == 22 && (TOUR * n) % TOUR == 0;
    assert ServedAt(States(s, c), Moves(s, c), c, TOUR * n + 22);
    assert FreedAt(States(s, c), c, TOUR * n) && RolledAt(States(s, c), c, TOUR * n);
  }

  lemma TourFair(s: State, c: ServiceId)
    requires AtHome(s, c)
    ensures Fair(States(s, c), Moves(s, c))
  {
    var f, a := States(s, c), Moves(s, c);
    forall n: nat ensures ParentEndsAfter(f, a, n) {
      assert (TOUR * n + 15) % TOUR == 15;
      assert ParentEndsAt(f, a, TOUR * n + 15);
    }
    forall d, n: nat | d in f(0).cr.services
      ensures ServedAfter(f, a, d, n) && FreedAfter(f, d, n) && RolledAfter(f, d, n)
    {
      TourServes(s, c, n);
    }
  }

  /** A quiet state with one service is such a state. */
  lemma QuietHome(s: State, c: ServiceId)
    requires Steady(s) && Quiescent(s) && !s.cr.notifOn && s.cr.ac == "" && s.cr.services.Keys == {c}
    ensures AtHome(s, c)
  {
    QuiescentConverged(s);
    assert Effect(s, TheParent) == s && Effect(s, TheService(c)) == s && Effect(s, ThePods(c)) == s;
    ParentStaysIffSettled(s);
    assert c in s.cr.services;
    QuietService(s, c);
    AddHeld(s.secrets, s.url, TransportConsumer);
  }

  /** The run that has converged, with the share taken out of the spec. */
  lemma OneServiceLeft() returns (ss: seq<State>, acts: seq<Action>)
    ensures IsRun(ss, acts) && InputsReady(ss[|acts|]) && ss[|acts|].cr.services.Keys == {Api}
    ensures !ss[|acts|].cr.notifOn && ss[|acts|].cr.ac == ""
  {
    ss, acts := SomeRunConverges();
    var s := ss[|acts|];
    LeadsRefl(s);
    LeadsStep(s, s, EditServices(map[Api := Template(1, 0)]));
    LeadsExtendsRun(ss, acts, Step(s, EditServices(map[Api := Template(1, 0)])));
    ss, acts :| IsRun(ss, acts) && ss[|acts|] == Step(s, EditServices(map[Api := Template(1, 0)]));
  }

  lemma QuietWithApi() returns (ss: seq<State>, acts: seq<Action>)
    ensures IsRun(ss, acts) && Steady(ss[|acts|]) && Quiescent(ss[|acts|]) && ss[|acts|].cr.services.Keys == {Api}
    ensures !ss[|acts|].cr.notifOn && ss[|acts|].cr.ac == ""
  {
    var first, did := OneServiceLeft();
    var s := first[|did|];
    FullRoundIsRound(s);
    var rounds := seq(Measure(Interrupted(s)), _ => FullRound());
    RunsConverge(first, did, rounds);
    ss, acts :| IsRun(ss, acts) && first <= ss && did <= acts && ss[|acts|] == AfterRounds(Interrupted(s), rounds);
  }

  /** So some run goes on as a fair behaviour. */
  lemma SomeFairBehaviour() returns (ss: seq<State>, acts: seq<Action>, f: nat -> State, a: nat -> Action)
    ensures IsRun(ss, acts) && f(0) == ss[|acts|] && Sound(f(0)) && Behaves(f, a) && Fair(f, a)
    ensures Api in f(0).cr.services
  {
    ss, acts := QuietWithApi();
    var s := ss[|acts|];
    RunLedger(ss, acts, |acts|);
    QuietHome(s, Api);
    f, a := States(s, Api), Moves(s, Api);
    TourBehaves(s, Api);
    TourFair(s, Api);
  }
}
