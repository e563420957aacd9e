/** What a whole reconcile does when nothing interrupts it and every read is fresh, and that
    it is a path of the step system. */
module RotationEffects {
  import opened Options
  import opened RotationState
  import opened RotationSteps
  import opened RotationSafety

  // ---------------------------------------------------------------- paths

  ghost predicate IsPath(ss: seq<State>, acts: seq<Action>) {
    |ss| == |acts| + 1 && forall i | 0 <= i < |acts| :: Stepped(ss, acts, i)
  }

  /** Some sequence of steps leads from s to s'. */
  ghost predicate Leads(s: State, s': State) {
    exists ss, acts :: IsPath(ss, acts) && ss[0] == s && ss[|acts|] == s'
  }

  lemma PathAppend(ss: seq<State>, acts: seq<Action>, ss': seq<State>, acts': seq<Action>)
    requires IsPath(ss, acts) && IsPath(ss', acts') && ss[|acts|] == ss'[0]
    ensures IsPath(ss + ss'[1..], acts + acts') && (ss + ss'[1..])[|acts + acts'|] == ss'[|acts'|]
  {
    var tt, bb := ss + ss'[1..], acts + acts';
    forall i | 0 <= i < |bb| ensures Stepped(tt, bb, i) {
      if i < |acts| { assert Stepped(ss, acts, i); } else { assert Stepped(ss', acts', i - |acts|); }
    }
  }

  lemma LeadsRefl(s: State)
    ensures Leads(s, s)
  {
    var ss, acts: seq<Action> := [s], [];
    assert IsPath(ss, acts) && ss[0] == s && ss[|acts|] == s;
  }

  lemma LeadsTrans(s: State, m: State, s': State)
    requires Leads(s, m) && Leads(m, s')
    ensures Leads(s, s')
  {
    var ss, acts :| IsPath(ss, acts) && ss[0] == s && ss[|acts|] == m;
    var ss', acts' :| IsPath(ss', acts') && ss'[0] == m && ss'[|acts'|] == s';
    PathAppend(ss, acts, ss', acts');
    assert (ss + ss'[1..])[0] == s;
  }

  lemma LeadsStep(s: State, m: State, a: Action)
    requires Leads(s, m) && Enabled(m, a)
    ensures Leads(s, Step(m, a))
  {
    var ss, acts := [m, Step(m, a)], [a];
    assert Stepped(ss, acts, 0);
    assert IsPath(ss, acts) && ss[0] == m && ss[|acts|] == Step(m, a);
    LeadsTrans(s, m, Step(m, a));
  }

  /** The same, and no step of it is a. */
  ghost predicate LeadsWithout(a: Action, s: State, s': State) {
    exists ss, acts :: IsPath(ss, acts) && ss[0] == s && ss[|acts|] == s' && a !in acts
  }

  lemma WithoutRefl(a: Action, s: State)
    ensures LeadsWithout(a, s, s)
  {
    var ss, acts: seq<Action> := [s], [];
    assert IsPath(ss, acts) && ss[0] == s && ss[|acts|] == s && a !in acts;
  }

  lemma WithoutStep(a: Action, s: State, m: State, b: Action)
    requires LeadsWithout(a, s, m) && Enabled(m, b) && b != a
    ensures LeadsWithout(a, s, Step(m, b))
  {
    var ss, acts :| IsPath(ss, acts) && ss[0] == s && ss[|acts|] == m && a !in acts;
    var ss', acts' := [m, Step(m, b)], [b];
    assert Stepped(ss', acts', 0);
    PathAppend(ss, acts, ss', acts');
    assert a !in acts + acts' && (ss + ss'[1..])[0] == s;
  }

  lemma WithoutLeads(a: Action, s: State, s': State)
    requires LeadsWithout(a, s, s')
    ensures Leads(s, s')
  {
  }

  lemma LeadsStart(s: State, m: State)
    requires Leads(s, m) && m.parent.Idle? && m.cr.finalizer
    ensures Leads(s, DoStart(m))
  {
    LeadsStep(s, m, Start);
  }

  lemma LeadsAdvance(s: State, m: State)
    requires Leads(s, m) && AdvanceEnabled(m)
    ensures Leads(s, DoAdvance(m))
  {
    LeadsStep(s, m, Advance);
  }

  lemma LeadsDeploy(s: State, m: State, c: ServiceId, snap: Snapshot)
    requires Leads(s, m) && m.parent.Running? && DeployEnabled(m, c, snap)
    ensures Leads(s, DoDeploy(m, c, snap))
  {
    LeadsStep(s, m, DeployOne(c, snap));
  }

  lemma LeadsCleanup(s: State, m: State, c: ServiceId)
    requires Leads(s, m) && CleanupEnabled(m, c)
    ensures Leads(s, DoCleanup(m, c))
  {
    LeadsStep(s, m, CleanupOne(c));
  }

  lemma LeadsPrune(s: State, m: State, x: Name)
    requires Leads(s, m) && PruneEnabled(m, x)
    ensures Leads(s, DoPrune(m, x))
  {
    LeadsStep(s, m, PruneOne(x));
  }

  /** A reconcile ends with its status patched, or dies. */
  lemma LeadsOut(s: State, m: State)
    requires Leads(s, m) && m.parent.Running?
    ensures Leads(s, Leave(m)) && Leads(s, m.(parent := Idle))
  {
    LeadsStep(s, m, Exit);
    LeadsStep(s, m, Crash);
  }

  lemma {:induction false} PathInv(ss: seq<State>, acts: seq<Action>, i: nat)
    requires IsPath(ss, acts) && Inv(ss[0]) && i < |ss|
    ensures Inv(ss[i])
  {
    if i > 0 {
      PathInv(ss, acts, i - 1);
      assert Stepped(ss, acts, i - 1);
      StepInv(ss[i - 1], acts[i - 1]);
    }
  }

  lemma LeadsInv(s: State, s': State)
    requires Inv(s) && Leads(s, s')
    ensures Inv(s')
  {
    var ss, acts :| IsPath(ss, acts) && ss[0] == s && ss[|acts|] == s';
    PathInv(ss, acts, |acts|);
  }

  /** What the last state of a run leads to is the last state of a longer run, so every
      theorem about runs holds for it. */
  lemma LeadsExtendsRun(ss: seq<State>, acts: seq<Action>, s': State)
    requires IsRun(ss, acts) && Leads(ss[|acts|], s')
    ensures exists ss', acts' :: IsRun(ss', acts') && ss <= ss' && acts <= acts' && ss'[|acts'|] == s'
  {
    var more, acts' :| IsPath(more, acts') && more[0] == ss[|acts|] && more[|acts'|] == s';
    assert IsPath(ss, acts);
    PathAppend(ss, acts, more, acts');
    var tt, bb := ss + more[1..], acts + acts';
    assert IsRun(tt, bb) && ss <= tt && acts <= bb && tt[|bb|] == s';
  }

  // ---------------------------------------------------------------- deploying every service

  /** The snapshot a fresh read gives CreateOrUpdate. */
  function Fresh(s: State, c: ServiceId): Snapshot
    requires s.parent.Running? && c in s.parent.inst.services
    requires c in s.svcs ==> s.svcs[c].versions != []
  {
    if c !in s.svcs || !s.svcs[c].live then Created
    else if Last(s.svcs[c]).spec == Desired(s.parent.inst, c, s.parent.cur, s.parent.curN)
    then Cached(|s.svcs[c].versions| - 1)
    else Updated
  }

  ghost predicate Deploying(s: State) {
    && s.parent.Running? && s.parent.pc == Deploy(s.parent.inst.services.Keys)
    && forall c | c in s.svcs :: s.svcs[c].versions != []
  }

  /** The state once the services in `done` have been deployed. */
  ghost function DeployedTo(s: State, done: set<ServiceId>): State
    requires Deploying(s) && done <= s.parent.inst.services.Keys
  {
    s.(svcs := map c | c in s.svcs.Keys + done ::
                 if c in done then DeployService(s, c, Fresh(s, c)) else s.svcs[c],
       parent := s.parent.(
         pc := Deploy(s.parent.inst.services.Keys - done),
         ready := s.parent.ready &&
                  forall c | c in done :: Matches(DeployObject(s, c, Fresh(s, c)), s.parent.cur, s.parent.curN)))
  }

  lemma DeployedNone(s: State)
    requires Deploying(s)
    ensures DeployedTo(s, {}) == s
  {
    assert s.svcs.Keys + {} == s.svcs.Keys;
    assert DeployedTo(s, {}).svcs == s.svcs;
    assert s.parent.inst.services.Keys - {} == s.parent.inst.services.Keys;
  }

  lemma DeployedOneMore(s: State, done: set<ServiceId>, c: ServiceId)
    requires Deploying(s) && done <= s.parent.inst.services.Keys
    requires c in s.parent.inst.services && c !in done
    ensures var m := DeployedTo(s, done);
            DeployEnabled(m, c, Fresh(s, c)) && DoDeploy(m, c, Fresh(s, c)) == DeployedTo(s, done + {c})
  {
    var m := DeployedTo(s, done);
    var snap := Fresh(s, c);
    assert c in m.svcs <==> c in s.svcs;
    if c in s.svcs { assert m.svcs[c] == s.svcs[c]; }
    assert DeployEnabled(m, c, snap);
    assert DeployObject(m, c, snap) == DeployObject(s, c, snap);
    var m' := DeployedTo(s, done + {c});
    assert m.svcs[c := DeployService(m, c, snap)] == m'.svcs;
    assert s.parent.inst.services.Keys - done - {c} == s.parent.inst.services.Keys - (done + {c});
  }

  lemma DeployLeadsNext(s: State, done: set<ServiceId>, c: ServiceId)
    requires Deploying(s) && done <= s.parent.inst.services.Keys && c in s.parent.inst.services && c !in done
    requires Leads(s, DeployedTo(s, done))
    ensures Leads(s, DeployedTo(s, done + {c}))
  {
    DeployedOneMore(s, done, c);
    LeadsDeploy(s, DeployedTo(s, done), c, Fresh(s, c));
  }

  lemma {:induction false} DeployLeads(s: State, done: set<ServiceId>)
    requires Deploying(s) && done <= s.parent.inst.services.Keys
    ensures Leads(s, DeployedTo(s, done))
    decreases |done|
  {
    hide *;
    if done == {} {
      DeployedNone(s);
      LeadsRefl(s);
    } else {
      var c :| c in done;
      DeployLeads(s, done - {c});
      DeployLeadsNext(s, done - {c}, c);
      assert done - {c} + {c} == done;
    }
  }

  // ---------------------------------------------------------------- deleting stray shares

  predicate Stray(s: State, c: ServiceId)
    requires s.parent.Running?
  {
    c.Share? && c !in s.parent.inst.services && c in s.svcs && s.svcs[c].live
    && s.svcs[c].versions != [] && !Last(s.svcs[c]).deleting
  }

  function Marked(k: Service): Service
    requires k.versions != []
  {
    k.(versions := k.versions + [Last(k).(deleting := true)])
  }

  ghost function Strays(s: State): set<ServiceId>
    requires s.parent.Running?
  {
    set c | c in s.svcs && Stray(s, c)
  }

  ghost function MarkedTo(s: State, done: set<ServiceId>): State
    requires s.parent.Running? && done <= Strays(s)
  {
    s.(svcs := map c | c in s.svcs :: if c in done then Marked(s.svcs[c]) else s.svcs[c])
  }

  lemma {:induction false} CleanupLeads(s: State, done: set<ServiceId>)
    requires s.parent.Running? && s.parent.pc.Cleanup? && done <= Strays(s)
    ensures Leads(s, MarkedTo(s, done))
    decreases |done|
  {
    if done == {} {
      assert MarkedTo(s, {}).svcs == s.svcs;
      LeadsRefl(s);
    } else {
      var c :| c in done;
      CleanupLeads(s, done - {c});
      MarkedOneMore(s, done - {c}, c);
      assert done - {c} + {c} == done;
      LeadsCleanup(s, MarkedTo(s, done - {c}), c);
    }
  }

  lemma MarkedOneMore(s: State, done: set<ServiceId>, c: ServiceId)
    requires s.parent.Running? && s.parent.pc.Cleanup? && done <= Strays(s) && c in Strays(s) && c !in done
    ensures var m := MarkedTo(s, done);
            CleanupEnabled(m, c) && DoCleanup(m, c) == MarkedTo(s, done + {c})
  {
    var m := MarkedTo(s, done);
    assert m.svcs[c] == s.svcs[c];
    assert m.svcs[c := Marked(s.svcs[c])] == MarkedTo(s, done + {c}).svcs;
  }

  // ---------------------------------------------------------------- pruning

  ghost function Victims(s: State): set<Name>
    requires Pruning(s.parent)
  {
    set x | x in s.secrets && PruneEnabled(s, x)
  }

  ghost function PrunedTo(s: State, f: Finalizer, done: set<Name>): State {
    s.(secrets := map x | x in s.secrets :: if x in done then s.secrets[x] - {f} else s.secrets[x])
  }

  lemma PrunedNone(s: State, f: Finalizer)
    ensures PrunedTo(s, f, {}) == s
  {
    assert PrunedTo(s, f, {}).secrets == s.secrets;
  }

  lemma PrunedOneMore(s: State, f: Finalizer, done: set<Name>, x: Name)
    requires Pruning(s.parent) && f == PruneFin(s.parent) && x in Victims(s) && x !in done
    ensures var m := PrunedTo(s, f, done);
            PruneEnabled(m, x) && DoPrune(m, x) == PrunedTo(s, f, done + {x})
  {
    var m := PrunedTo(s, f, done);
    assert m.secrets[x] == s.secrets[x];
    assert DropFin(m.secrets, x, f) == PrunedTo(s, f, done + {x}).secrets;
  }

  lemma {:induction false} PruneLeads(s: State, f: Finalizer, done: set<Name>)
    requires Pruning(s.parent) && f == PruneFin(s.parent) && done <= Victims(s)
    ensures Leads(s, PrunedTo(s, f, done))
    decreases |done|
  {
    if done == {} {
      PrunedNone(s, f);
      LeadsRefl(s);
    } else {
      var x :| x in done;
      PruneLeads(s, f, done - {x});
      PrunedOneMore(s, f, done - {x}, x);
      assert done - {x} + {x} == done;
      LeadsPrune(s, PrunedTo(s, f, done - {x}), x);
    }
  }

  lemma PrunedIsDone(s: State, f: Finalizer)
    requires Pruning(s.parent) && f == PruneFin(s.parent)
    ensures PruneDone(PrunedTo(s, f, Victims(s)))
  {
  }

  // ---------------------------------------------------------------- undisturbed reconciles

  /** What is ahead of a reconcile does not disturb it: every call succeeds, and nobody else
      acts before one. */
  ghost predicate Undisturbed(outcomes: seq<Outcome>, others: seq<seq<Action>>) {
    && (forall i | 0 <= i < |outcomes| :: outcomes[i].Fine?)
    && (forall i | 0 <= i < |others| :: others[i] == [])
  }

  // ---------------------------------------------------------------- a whole parent reconcile

  /** The inputs a parent reconcile needs in order to reach its end. */
  predicate InputsReady(s: State) {
    && s.cr.finalizer && !s.cr.deleting
    && s.url != "" && s.url in s.secrets
    && (s.cr.notifOn ==> Value(s.notifUrl) != "" && Value(s.notifUrl) in s.secrets)
    && (s.cr.ac == "" || s.cr.ac in s.secrets)
  }

  ghost predicate CanReconcile(s: State) {
    s.parent.Idle? && InputsReady(s) && forall c | c in s.svcs :: s.svcs[c].versions != []
  }

  /** The notifications secret the parent pushes. */
  function NotifName(s: State): Name {
    if s.cr.notifOn then Value(s.notifUrl) else ""
  }

  function WantedConfig(s: State): Config {
    Config(s.url, NotifName(s), s.cr.ac, s.extra)
  }

  /** The instance in memory once both TransportURLs have been read. */
  function EarlyInst(s: State): ManilaCR {
    s.cr.(tracked := if s.cr.tracked == "" then s.url else s.cr.tracked,
          trackedN := if s.cr.notifOn && s.cr.trackedN.None? then Some("") else s.cr.trackedN)
  }

  function Pinned(s: State): map<Name, set<Finalizer>> {
    var pins := AddFin(s.secrets, s.url, TransportConsumer);
    if s.cr.notifOn then AddFin(pins, Value(s.notifUrl), TransportConsumer) else pins
  }

  /** From Start to the hash gate: stopped there if the rendered input is new. */
  function Prepared(s: State): State {
    var s' := s.(secrets := Pinned(s), cfg := Some(WantedConfig(s)));
    if s.cr.hash == Some(WantedConfig(s))
    then s'.(parent := Running(PinAC, EarlyInst(s), s.url, NotifName(s), true))
    else s'.(cr := Persist(s.cr, EarlyInst(s).(hash := Some(WantedConfig(s)))))
  }

  lemma PreparedReads(s: State)
    requires CanReconcile(s)
    ensures Leads(s, s.(secrets := AddFin(s.secrets, s.url, TransportConsumer),
                        parent := Running(ReadNotif, s.cr.(tracked := EarlyInst(s).tracked), s.url, "", true)))
  {
    LeadsRefl(s);
    LeadsStart(s, s);
    var s1 := DoStart(s);
    LeadsAdvance(s, s1);
    var s2 := DoAdvance(s1);
    LeadsAdvance(s, s2);
    assert DoAdvance(s2) ==
      s.(secrets := AddFin(s.secrets, s.url, TransportConsumer),
         parent := Running(ReadNotif, s.cr.(tracked := EarlyInst(s).tracked), s.url, "", true));
  }

  lemma PreparedNotif(s: State)
    requires CanReconcile(s)
    ensures Leads(s, s.(secrets := Pinned(s), parent := Running(RenderConfig, EarlyInst(s), s.url, NotifName(s), true)))
  {
    PreparedReads(s);
    var s1 := s.(secrets := AddFin(s.secrets, s.url, TransportConsumer),
                 parent := Running(ReadNotif, s.cr.(tracked := EarlyInst(s).tracked), s.url, "", true));
    LeadsAdvance(s, s1);
    var s2 := DoAdvance(s1);
    if s.cr.notifOn {
      if s.cr.trackedN.None? {
        LeadsAdvance(s, s2);
        s2 := DoAdvance(s2);
      }
      LeadsAdvance(s, s2);
    }
  }

  lemma PreparedLeads(s: State)
    requires CanReconcile(s)
    ensures Leads(s, Prepared(s))
  {
    PreparedNotif(s);
    var s1 := s.(secrets := Pinned(s), parent := Running(RenderConfig, EarlyInst(s), s.url, NotifName(s), true));
    LeadsAdvance(s, s1);
    var s2 := DoAdvance(s1);
    LeadsAdvance(s, s2);
    assert DoAdvance(s2) == Prepared(s);
  }

  /** From the AC pin to the end of the share cleanup. */
  ghost function RolledOut(p: State): State
    requires p.parent.Running? && forall c | c in p.svcs :: p.svcs[c].versions != []
  {
    var d := At(DeployedTo(DoPinAC(p), p.parent.inst.services.Keys), Cleanup);
    At(MarkedTo(d, Strays(d)), FinishTransport)
  }

  lemma RolledOutLeads(p: State)
    requires p.parent.Running? && p.parent.pc.PinAC? && AdvanceEnabled(p)
    requires forall c | c in p.svcs :: p.svcs[c].versions != []
    ensures Leads(p, RolledOut(p))
  {
    LeadsRefl(p);
    LeadsAdvance(p, p);
    var p1 := DoPinAC(p);
    DeployLeads(p1, p.parent.inst.services.Keys);
    var p2 := DeployedTo(p1, p.parent.inst.services.Keys);
    LeadsTrans(p, p1, p2);
    LeadsAdvance(p, p2);
    var d := At(p2, Cleanup);
    CleanupLeads(d, Strays(d));
    LeadsTrans(p, d, MarkedTo(d, Strays(d)));
    LeadsAdvance(p, MarkedTo(d, Strays(d)));
  }

  /** The tracked notifications name a finished reconcile leaves. */
  function FinalNotif(p: Parent): Option<Name>
    requires p.Running?
  {
    var was := Value(p.inst.trackedN);
    if p.curN != "" then Some(Rotated(was, p.curN, p.ready))
    else if was != "" && p.ready then None else p.inst.trackedN
  }

  function FinalInst(p: Parent): ManilaCR
    requires p.Running?
  {
    p.inst.(tracked := Rotated(p.inst.tracked, p.cur, p.ready),
            trackedN := FinalNotif(p),
            trackedAC := Rotated(p.inst.trackedAC, p.inst.ac, p.ready))
  }

  /** The finalizers a finished reconcile leaves: tracked and current names keep theirs. */
  function FinalSecrets(q: State): map<Name, set<Finalizer>>
    requires q.parent.Running?
  {
    var p := q.parent;
    var inst := FinalInst(p);
    map x | x in q.secrets ::
      (if x in {inst.tracked, p.cur, Value(inst.trackedN), p.curN} then q.secrets[x] * {TransportConsumer} else {}) +
      (if x in {inst.trackedAC, inst.ac} then q.secrets[x] * {ACConsumer} else {})
  }

  /** From FinishTransport to the persisted end. */
  function Ended(q: State): State
    requires q.parent.Running?
  {
    var p := q.parent;
    q.(secrets := FinalSecrets(q),
       notifUrl := if p.curN == "" && Value(p.inst.trackedN) != "" && p.ready then None else q.notifUrl,
       cr := Persist(q.cr, FinalInst(p)), parent := Idle)
  }

  /** The state before pruning starts. */
  function Unpruned(q: State): State
    requires q.parent.Running?
  {
    var q1 := DoFinishTransport(q);
    var q2 := DoFinishNotif(q1);
    DoFinishAC(if q2.parent.pc.DropNotifUrl? then DoDropNotifUrl(q2) else q2)
  }

  lemma UnprunedLeads(q: State)
    requires q.parent.Running? && q.parent.pc.FinishTransport?
    ensures Leads(q, Unpruned(q))
  {
    LeadsRefl(q);
    LeadsAdvance(q, q);
    var q1 := DoFinishTransport(q);
    LeadsAdvance(q, q1);
    var q2 := DoFinishNotif(q1);
    if q2.parent.pc.DropNotifUrl? {
      LeadsAdvance(q, q2);
      LeadsAdvance(q, DoDropNotifUrl(q2));
    } else {
      LeadsAdvance(q, q2);
    }
  }

  lemma UnprunedFrame(q: State)
    requires q.parent.Running? && q.parent.pc.FinishTransport?
    ensures Unpruned(q) == q.(secrets := Unpruned(q).secrets, notifUrl := Ended(q).notifUrl,
                              parent := q.parent.(pc := PruneTransport, inst := FinalInst(q.parent)))
  {
  }

  /** A pruned state, on the way out. */
  ghost function PrunedBoth(u: State): State
    requires u.parent.Running? && u.parent.pc.PruneTransport?
  {
    var u1 := At(PrunedTo(u, TransportConsumer, Victims(u)), PruneAC);
    Leave(At(PrunedTo(u1, ACConsumer, Victims(u1)), Complete))
  }

  lemma PrunedBothLeads(u: State)
    requires u.parent.Running? && u.parent.pc.PruneTransport?
    ensures Leads(u, PrunedBoth(u))
  {
    PruneLeads(u, TransportConsumer, Victims(u));
    PrunedIsDone(u, TransportConsumer);
    LeadsAdvance(u, PrunedTo(u, TransportConsumer, Victims(u)));
    var u1 := At(PrunedTo(u, TransportConsumer, Victims(u)), PruneAC);
    PruneLeads(u1, ACConsumer, Victims(u1));
    PrunedIsDone(u1, ACConsumer);
    LeadsTrans(u, u1, PrunedTo(u1, ACConsumer, Victims(u1)));
    LeadsAdvance(u, PrunedTo(u1, ACConsumer, Victims(u1)));
    LeadsOut(u, At(PrunedTo(u1, ACConsumer, Victims(u1)), Complete));
  }

  lemma ReleasedAt(secrets: map<Name, set<Finalizer>>, was: Name, cur: Name, f: Finalizer, guard: bool, x: Name)
    requires x in secrets
    ensures x in Released(secrets, was, cur, f, guard)
    ensures forall g :: g in Released(secrets, was, cur, f, guard)[x] <==>
              g in secrets[x] && !(g == f && x == was && was != "" && was != cur && guard)
  {
  }

  /** The release of the notifications stage. */
  function NotifReleased(secrets: map<Name, set<Finalizer>>, was: Name, curN: Name, ready: bool)
    : map<Name, set<Finalizer>>
  {
    if curN != "" then Released(secrets, was, curN, TransportConsumer, ready)
    else if was != "" && ready then DropFin(secrets, was, TransportConsumer) else secrets
  }

  lemma NotifReleasedAt(secrets: map<Name, set<Finalizer>>, was: Name, curN: Name, ready: bool, x: Name)
    requires x in secrets
    ensures x in NotifReleased(secrets, was, curN, ready)
    ensures forall g :: g in NotifReleased(secrets, was, curN, ready)[x] <==>
              g in secrets[x] && !(g == TransportConsumer && x == was && was != "" && was != curN && ready)
  {
  }

  lemma UnprunedIs(q: State)
    requires q.parent.Running?
    ensures var p := q.parent;
            Unpruned(q).secrets ==
              Released(NotifReleased(Released(q.secrets, p.inst.tracked, p.cur, TransportConsumer, p.ready),
                                     Value(p.inst.trackedN), p.curN, p.ready),
                       p.inst.trackedAC, p.inst.ac, ACConsumer, p.ready)
  {
  }

  /** What is released is not kept, so releasing then pruning is keeping what is kept. */
  lemma UnprunedSecrets(q: State, x: Name)
    requires NamesOk(q) && q.parent.Running? && q.parent.pc.FinishTransport? && q.parent.cur != ""
    requires x in q.secrets
    ensures x in Unpruned(q).secrets
    ensures x in {FinalInst(q.parent).tracked, q.parent.cur, Value(FinalInst(q.parent).trackedN), q.parent.curN} ==>
              (TransportConsumer in Unpruned(q).secrets[x] <==> TransportConsumer in q.secrets[x])
    ensures x in {FinalInst(q.parent).trackedAC, FinalInst(q.parent).ac} ==>
              (ACConsumer in Unpruned(q).secrets[x] <==> ACConsumer in q.secrets[x])
  {
    var p := q.parent;
    var s1 := Released(q.secrets, p.inst.tracked, p.cur, TransportConsumer, p.ready);
    var s2 := NotifReleased(s1, Value(p.inst.trackedN), p.curN, p.ready);
    UnprunedIs(q);
    ReleasedAt(q.secrets, p.inst.tracked, p.cur, TransportConsumer, p.ready, x);
    NotifReleasedAt(s1, Value(p.inst.trackedN), p.curN, p.ready, x);
    ReleasedAt(s2, p.inst.trackedAC, p.inst.ac, ACConsumer, p.ready, x);
  }

  lemma FinalOne(q: State, x: Name)
    requires q.parent.Running? && x in q.secrets
    ensures var p, inst := q.parent, FinalInst(q.parent);
            && (TransportConsumer in FinalSecrets(q)[x] <==>
                  TransportConsumer in q.secrets[x] && x in {inst.tracked, p.cur, Value(inst.trackedN), p.curN})
            && (ACConsumer in FinalSecrets(q)[x] <==>
                  ACConsumer in q.secrets[x] && x in {inst.trackedAC, inst.ac})
  {
  }

  lemma PrunedSecrets(q: State)
    requires NamesOk(q) && q.parent.Running? && q.parent.pc.FinishTransport? && q.parent.cur != ""
    ensures PrunedBoth(Unpruned(q)).secrets == FinalSecrets(q)
  {
    UnprunedFrame(q);
    var u := Unpruned(q);
    forall x | x in q.secrets
      ensures x in PrunedBoth(u).secrets && PrunedBoth(u).secrets[x] == FinalSecrets(q)[x]
    {
      UnprunedSecrets(q, x);
      PrunedOne(u, x);
      FinalOne(q, x);
      forall f ensures f in PrunedBoth(u).secrets[x] <==> f in FinalSecrets(q)[x] {
        assert f == TransportConsumer || f == ACConsumer;
      }
    }
    forall x | x in PrunedBoth(u).secrets ensures x in q.secrets { UnprunedKeys(q); }
  }

  lemma UnprunedKeys(q: State)
    requires q.parent.Running?
    ensures Unpruned(q).secrets.Keys == q.secrets.Keys
  {
  }

  lemma PrunedOne(u: State, x: Name)
    requires u.parent.Running? && u.parent.pc.PruneTransport? && x in u.secrets
    ensures x in PrunedBoth(u).secrets
    ensures forall f :: f in PrunedBoth(u).secrets[x] <==>
              f in u.secrets[x] &&
              (if f == TransportConsumer
               then x in {u.parent.inst.tracked, u.parent.cur, Value(u.parent.inst.trackedN), u.parent.curN}
               else x in {u.parent.inst.trackedAC, u.parent.inst.ac})
  {
  }

  lemma EndedLeads(q: State)
    requires NamesOk(q) && q.parent.Running? && q.parent.pc.FinishTransport? && q.parent.cur != ""
    ensures Leads(q, Ended(q))
  {
    UnprunedLeads(q);
    UnprunedFrame(q);
    PrunedBothLeads(Unpruned(q));
    LeadsTrans(q, Unpruned(q), PrunedBoth(Unpruned(q)));
    PrunedSecrets(q);
    assert PrunedBoth(Unpruned(q)) == Ended(q);
  }

  /** A whole parent reconcile. */
  ghost function ParentEffect(s: State): State
    requires CanReconcile(s)
  {
    var p := Prepared(s);
    if p.parent.Idle? then p else Ended(RolledOut(p))
  }

  lemma ParentEffectLeads(s: State)
    requires CanReconcile(s) && Inv(s)
    ensures Leads(s, ParentEffect(s))
  {
    PreparedLeads(s);
    var p := Prepared(s);
    if p.parent.Running? {
      assert AdvanceEnabled(p);
      RolledOutLeads(p);
      LeadsTrans(s, p, RolledOut(p));
      LeadsInv(s, RolledOut(p));
      EndedLeads(RolledOut(p));
      LeadsTrans(s, RolledOut(p), ParentEffect(s));
    }
  }
}
