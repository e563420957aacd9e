/** Convergence: with the inputs fixed and the pods becoming ready, undisturbed reconciles
    drive every reachable state, in a number of rounds bounded by a measure, to one where
    the tracked names are the current ones, every service runs on them, the finalizers are
    on exactly these names, and no further reconcile changes anything. */
module Convergence {
  import opened Options
  import opened RotationState
  import opened RotationSteps
  import opened RotationSafety
  import opened RotationEffects
  import opened RotationActors
  import opened RotationFixpoint

  // ---------------------------------------------------------------- the measure

  const UNPUSHED: nat := TOP + 1

  const DOOMED: nat := UNPUSHED + TOP + 1

  /** The service is wanted, and its object is being deleted. */
  predicate Doomed(s: State, c: ServiceId) {
    Present(s, c) && s.svcs[c].versions != [] && Last(s.svcs[c]).deleting
  }

  /** What is left to do for one service of the spec. */
  ghost function Load(s: State, c: ServiceId): (r: nat)
    ensures r <= 47
  {
    (if Doomed(s, c) then DOOMED else 0) +
    (if Pushed(s, c) then 0 else UNPUSHED) +
    (if Present(s, c) && s.svcs[c].versions != [] then Rank(s.svcs[c], s.cfg) else TOP)
  }

  ghost function Work(s: State, cs: set<ServiceId>): nat
    decreases |cs|
  {
    if cs == {} then 0 else var c :| c in cs; Load(s, c) + Work(s, cs - {c})
  }

  lemma {:induction false} WorkAt(s: State, cs: set<ServiceId>, c: ServiceId)
    requires c in cs
    ensures Work(s, cs) == Load(s, c) + Work(s, cs - {c})
    decreases |cs|
  {
    var d :| d in cs && Work(s, cs) == Load(s, d) + Work(s, cs - {d});
    if d != c {
      WorkAt(s, cs - {d}, c);
      WorkAt(s, cs - {c}, d);
      assert cs - {d} - {c} == cs - {c} - {d};
    }
  }

  lemma {:induction false} WorkBound(s: State, cs: set<ServiceId>)
    ensures Work(s, cs) <= 47 * |cs|
    decreases |cs|
  {
    if cs != {} {
      var c :| c in cs;
      WorkAt(s, cs, c);
      WorkBound(s, cs - {c});
    }
  }

  lemma {:induction false} WorkFalls(s: State, s': State, cs: set<ServiceId>)
    requires forall c | c in cs :: Load(s', c) <= Load(s, c)
    ensures Work(s', cs) <= Work(s, cs)
    ensures (exists c :: c in cs && Load(s', c) < Load(s, c)) ==> Work(s', cs) < Work(s, cs)
    decreases |cs|
  {
    if cs != {} {
      var c :| c in cs && ((exists d :: d in cs && Load(s', d) < Load(s, d)) ==> Load(s', c) < Load(s, c));
      WorkAt(s, cs, c);
      WorkAt(s', cs, c);
      WorkFalls(s, s', cs - {c});
    }
  }

  lemma {:induction false} WorkZero(s: State, cs: set<ServiceId>)
    ensures Work(s, cs) == 0 <==> forall c | c in cs :: Load(s, c) == 0
    decreases |cs|
  {
    if cs != {} {
      var c :| c in cs && ((exists d :: d in cs && Load(s, d) > 0) ==> Load(s, c) > 0);
      WorkAt(s, cs, c);
      WorkZero(s, cs - {c});
    }
  }

  /** What a closed gate may cost: every service pushed and rolled out again. */
  function Reopening(n: nat): nat { 94 * n + 2 }

  ghost function Measure(s: State): nat {
    (if AtGate(s) then 0 else Reopening(|s.cr.services.Keys|)) +
    2 * Work(s, s.cr.services.Keys) + Not(ParentSettled(s))
  }

  // ---------------------------------------------------------------- every effect descends

  /** s' is s, or nearer to convergence. */
  ghost predicate Descends(s: State, s': State) {
    Steady(s') && SameInputs(s, s') && (s' == s || Measure(s') < Measure(s))
  }

  lemma PutLoad(s: State, c: ServiceId, k': Service, d: ServiceId)
    requires Present(s, c) && Nearer(s.svcs[c], k', s.cfg)
    ensures d != c ==> Load(Put(s, c, k'), d) == Load(s, d)
    ensures Load(Put(s, c, k'), c) <= Load(s, c)
    ensures k' != s.svcs[c] ==> Load(Put(s, c, k'), c) < Load(s, c)
  {
  }

  lemma GoneLoad(s: State, c: ServiceId, d: ServiceId)
    requires Doomed(s, c)
    ensures d != c ==> Load(Put(s, c, Gone(s.svcs[c])), d) == Load(s, d)
    ensures Load(Put(s, c, Gone(s.svcs[c])), c) < Load(s, c)
  {
  }

  /** A wanted object that goes makes room for a new one. */
  lemma GoneDescends(s: State, c: ServiceId)
    requires Steady(s) && Doomed(s, c) && Inv(Put(s, c, Gone(s.svcs[c])))
    ensures Descends(s, Put(s, c, Gone(s.svcs[c])))
  {
    hide Inv, Rank;
    var s' := Put(s, c, Gone(s.svcs[c]));
    forall d | d in s.cr.services.Keys ensures Load(s', d) <= Load(s, d) { GoneLoad(s, c, d); }
    GoneLoad(s, c, c);
    assert c in s.cr.services.Keys;
    WorkFalls(s, s', s.cr.services.Keys);
  }

  lemma PutSteady(s: State, c: ServiceId, k': Service)
    requires Steady(s) && Present(s, c) && Nearer(s.svcs[c], k', s.cfg) && Inv(Put(s, c, k'))
    ensures Steady(Put(s, c, k')) && SameInputs(s, Put(s, c, k'))
  {
  }

  lemma PutDescends(s: State, c: ServiceId, k': Service)
    requires Steady(s) && Present(s, c) && Nearer(s.svcs[c], k', s.cfg) && Inv(Put(s, c, k'))
    ensures Descends(s, Put(s, c, k'))
  {
    var s' := Put(s, c, k');
    PutSteady(s, c, k');
    if k' == s.svcs[c] {
      assert s'.svcs == s.svcs;
    } else {
      forall d | d in s.cr.services.Keys ensures Load(s', d) <= Load(s, d) { PutLoad(s, c, k', d); }
      PutLoad(s, c, k', c);
      assert c in s.cr.services.Keys;
      WorkFalls(s, s', s.cr.services.Keys);
    }
  }

  lemma ParentKeepsSteady(s: State)
    requires Steady(s) && Inv(ParentEffect(s))
    ensures Steady(ParentEffect(s)) && SameInputs(s, ParentEffect(s)) && AtGate(ParentEffect(s))
  {
    ParentFrame(s);
    var e := ParentEffect(s);
    forall c | c in e.cr.services && c in e.svcs && e.svcs[c].live
      ensures e.svcs[c].run.Resting?
    {
      if s.cr.hash == Some(WantedConfig(s)) { ParentPushes(s, c); } else { ParentWaits(s); }
      assert c in s.svcs ==> ServiceOk(s.svcs[c]);
    }
  }

  lemma GateOpens(s: State)
    requires Steady(s) && Inv(ParentEffect(s)) && !AtGate(s)
    ensures Measure(ParentEffect(s)) < Measure(s)
  {
    ParentKeepsSteady(s);
    WorkBound(ParentEffect(s), s.cr.services.Keys);
  }

  lemma PushLoad(s: State, c: ServiceId)
    requires Steady(s) && AtGate(s) && c in s.cr.services
    ensures Load(ParentEffect(s), c) <= Load(s, c)
    ensures !Pushed(s, c) ==> Load(ParentEffect(s), c) < Load(s, c)
  {
    ParentFrame(s);
    ParentPushes(s, c);
  }

  lemma PushWork(s: State)
    requires Steady(s) && AtGate(s)
    ensures Work(ParentEffect(s), s.cr.services.Keys) <= Work(s, s.cr.services.Keys)
    ensures !AllPushed(s) ==> Work(ParentEffect(s), s.cr.services.Keys) < Work(s, s.cr.services.Keys)
  {
    forall c | c in s.cr.services.Keys ensures Load(ParentEffect(s), c) <= Load(s, c) { PushLoad(s, c); }
    if !AllPushed(s) {
      var c :| c in s.cr.services && !Pushed(s, c);
      PushLoad(s, c);
      assert c in s.cr.services.Keys;
    }
    WorkFalls(s, ParentEffect(s), s.cr.services.Keys);
  }

  lemma ParentDescends(s: State)
    requires Steady(s) && Inv(ParentEffect(s))
    ensures Descends(s, ParentEffect(s))
  {
    ParentKeepsSteady(s);
    if !AtGate(s) {
      GateOpens(s);
    } else {
      PushWork(s);
      if AllPushed(s) {
        ParentStaysIffSettled(s);
        PassSettlesParent(s);
      }
    }
  }

  lemma ServiceDescends(s: State, c: ServiceId)
    requires Steady(s) && Present(s, c) && Inv(Put(s, c, ServiceTurn(s.svcs[c], s.cfg, s.secrets)))
    ensures Descends(s, Put(s, c, ServiceTurn(s.svcs[c], s.cfg, s.secrets)))
  {
    if Last(s.svcs[c]).deleting {
      GoneDescends(s, c);
      return;
    }
    ServiceEffectDescends(s.svcs[c], s.cfg, s.secrets);
    PutDescends(s, c, ServiceEffect(s.svcs[c], s.cfg, s.secrets));
  }

  lemma PodsDescend(s: State, c: ServiceId)
    requires Steady(s) && Present(s, c) && Inv(Put(s, c, PodsEffect(s.svcs[c])))
    ensures Descends(s, Put(s, c, PodsEffect(s.svcs[c])))
  {
    PodsEffectDescends(s.svcs[c], s.cfg);
    PutDescends(s, c, PodsEffect(s.svcs[c]));
  }

  /** The termination argument: whatever an actor does, undisturbed, changes nothing or
      strictly lowers the measure. */
  lemma EffectDescends(s: State, actor: Actor)
    requires Steady(s)
    ensures Descends(s, Effect(s, actor))
  {
    EffectLeads(s, actor);
    match actor {
      case TheParent => ParentDescends(s);
      case TheService(c) => if Present(s, c) { ServiceDescends(s, c); }
      case ThePods(c) => if Present(s, c) { PodsDescend(s, c); }
    }
  }

  // ---------------------------------------------------------------- convergence

  ghost predicate Quiescent(s: State)
    requires Steady(s)
  {
    forall actor :: Effect(s, actor) == s
  }

  /** A service of the spec runs what the spec and the current secrets ask for. */
  ghost predicate RunsCurrent(s: State, c: ServiceId) {
    && Pushed(s, c) && !Last(s.svcs[c]).deleting
    && Matches(Last(s.svcs[c]), s.url, NotifName(s)) && Rolled(s.svcs[c])
    && s.svcs[c].sts == Some(InputOf(Last(s.svcs[c]), WantedConfig(s)))
  }

  /** The end of a rotation. */
  ghost predicate Converged(s: State) {
    && s.cr.tracked == s.url && Value(s.cr.trackedN) == NotifName(s) && s.cr.trackedAC == s.cr.ac
    && (forall c | c in s.cr.services :: RunsCurrent(s, c))
    && (forall x | x != "" :: Holds(s.secrets, x, TransportConsumer) <==> x == s.url || x == NotifName(s))
    && (forall x | x != "" :: Holds(s.secrets, x, ACConsumer) <==> x == s.cr.ac)
  }

  lemma QuietService(s: State, c: ServiceId)
    requires Steady(s) && AtGate(s) && Pushed(s, c)
    ensures (Effect(s, TheService(c)) == s && Effect(s, ThePods(c)) == s) <==>
            !Doomed(s, c) && Rank(s.svcs[c], s.cfg) == 0
    ensures !Doomed(s, c) && Rank(s.svcs[c], s.cfg) == 0 ==> RunsCurrent(s, c)
  {
    var k := s.svcs[c];
    if Effect(s, TheService(c)) == s && Effect(s, ThePods(c)) == s {
      assert ServiceTurn(k, s.cfg, s.secrets) == Effect(s, TheService(c)).svcs[c];
      assert PodsEffect(k) == Effect(s, ThePods(c)).svcs[c];
      SettledService(k, s.cfg, s.secrets);
    }
    if !Doomed(s, c) && Rank(k, s.cfg) == 0 {
      ZeroRankSettled(k, s.cfg, s.secrets);
      assert Put(s, c, k) == s;
    }
  }

  lemma AbsentActor(s: State, c: ServiceId)
    requires Steady(s) && c !in s.cr.services
    ensures Effect(s, TheService(c)) == s && Effect(s, ThePods(c)) == s
  {
  }

  /** The measure is zero exactly when nothing more will happen. */
  lemma QuiescentIffZero(s: State)
    requires Steady(s)
    ensures Quiescent(s) <==> Measure(s) == 0
  {
    WorkZero(s, s.cr.services.Keys);
    ParentStaysIffSettled(s);
    if Quiescent(s) {
      assert Effect(s, TheParent) == s;
      forall c | c in s.cr.services ensures Load(s, c) == 0 { QuietService(s, c); }
    }
    if Measure(s) == 0 {
      forall actor ensures Effect(s, actor) == s {
        if !actor.TheParent? {
          var c := actor.c;
          if c in s.cr.services {
            assert Load(s, c) == 0;
            QuietService(s, c);
          } else {
            AbsentActor(s, c);
          }
        }
      }
    }
  }

  lemma QuiescentConverged(s: State)
    requires Steady(s) && Quiescent(s)
    ensures Converged(s)
  {
    assert Effect(s, TheParent) == s;
    ParentStaysIffSettled(s);
    forall c | c in s.cr.services ensures RunsCurrent(s, c) {
      assert Effect(s, TheService(c)) == s && Effect(s, ThePods(c)) == s;
      QuietService(s, c);
    }
    assert Guard(s);
  }

  // ---------------------------------------------------------------- rounds

  /** The state after some actors have run, one after the other. */
  ghost function After(s: State, actors: seq<Actor>): State
    requires Steady(s)
    decreases |actors|
  {
    if actors == [] then s
    else
      EffectDescends(s, actors[0]);
      After(Effect(s, actors[0]), actors[1..])
  }

  /** Every actor runs at least once, in any order. */
  ghost predicate IsRound(s: State, actors: seq<Actor>) {
    && TheParent in actors
    && forall c | c in s.cr.services :: TheService(c) in actors && ThePods(c) in actors
  }

  lemma {:induction false} AfterDescends(s: State, actors: seq<Actor>)
    requires Steady(s)
    ensures Descends(s, After(s, actors)) && Leads(s, After(s, actors))
    ensures After(s, actors) == s ==> forall actor | actor in actors :: Effect(s, actor) == s
    decreases |actors|
  {
    if actors == [] {
      LeadsRefl(s);
    } else {
      var m := Effect(s, actors[0]);
      EffectDescends(s, actors[0]);
      EffectLeads(s, actors[0]);
      AfterDescends(m, actors[1..]);
      LeadsTrans(s, m, After(s, actors));
      if After(s, actors) == s {
        assert m == s;
        forall actor | actor in actors ensures Effect(s, actor) == s {
          assert actor == actors[0] || actor in actors[1..];
        }
      }
    }
  }

  lemma RoundDescends(s: State, actors: seq<Actor>)
    requires Steady(s) && IsRound(s, actors) && !Quiescent(s)
    ensures Steady(After(s, actors)) && Measure(After(s, actors)) < Measure(s)
  {
    AfterDescends(s, actors);
    if After(s, actors) == s {
      forall actor ensures Effect(s, actor) == s {
        if !actor.TheParent? && actor.c !in s.cr.services { AbsentActor(s, actor.c); }
      }
    }
  }

  ghost function AfterRounds(s: State, rounds: seq<seq<Actor>>): State
    requires Steady(s)
    decreases |rounds|
  {
    if rounds == [] then s
    else
      AfterDescends(s, rounds[0]);
      AfterRounds(After(s, rounds[0]), rounds[1..])
  }

  /** Rounds end in convergence: as many rounds as the measure says are enough, whatever
      each round's order; the state reached is a path of steps away, keeps the inputs, and
      no actor will change it. */
  lemma {:induction false} RoundsConverge(s: State, rounds: seq<seq<Actor>>)
    requires Steady(s) && forall i | 0 <= i < |rounds| :: IsRound(s, rounds[i])
    requires |rounds| >= Measure(s)
    ensures var e := AfterRounds(s, rounds);
            Leads(s, e) && SameInputs(s, e) && Steady(e) && Quiescent(e) && Converged(e)
    decreases |rounds|
  {
    if rounds == [] {
      LeadsRefl(s);
      QuiescentIffZero(s);
      QuiescentConverged(s);
    } else {
      var m := After(s, rounds[0]);
      AfterDescends(s, rounds[0]);
      assert IsRound(s, rounds[0]);
      if Quiescent(s) { QuiescentIffZero(s); } else { RoundDescends(s, rounds[0]); }
      forall i | 0 <= i < |rounds| - 1 ensures IsRound(m, rounds[1..][i]) { assert IsRound(s, rounds[i + 1]); }
      RoundsConverge(m, rounds[1..]);
      LeadsTrans(s, m, AfterRounds(s, rounds));
    }
  }
}
