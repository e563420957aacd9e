/** Convergence when the notifications secret is still to come, or is taken once more by a late
    teardown: if the environment gives a waiting TransportURL its secret, every fair behaviour
    converges all the same. */
module RotationReissue {
  import opened Options
  import opened RotationState
  import opened RotationSteps
  import opened RotationSafety
  import opened RotationLedger
  import opened RotationEffects
  import opened RotationActors
  import opened Convergence
  import opened RotationFairness

  // ---------------------------------------------------------------- behaviours

  /** Notifications wait for the secret of their TransportURL. */
  predicate Waiting(s: State) { s.cr.notifOn && s.notifUrl == Some("") }

  /** The environment gives it one. */
  predicate Reissues(s: State, a: Action) { a.IssueNotif? && Enabled(s, a) && Waiting(s) }

  predicate Allowed(s: State, a: Action) { Regular(s, a) || Reissues(s, a) }

  predicate Goes(f: nat -> State, a: nat -> Action, i: nat) { Allowed(f(i), a(i)) && f(i + 1) == Step(f(i), a(i)) }

  ghost predicate Goings(f: nat -> State, a: nat -> Action) { forall i: nat :: Goes(f, a, i) }

  /** A parent reconcile comes to its end, or stops because the TransportURL has no secret. */
  predicate ParentTurns(s: State, a: Action) {
    ParentEnds(s, a) ||
    (a.Advance? && s.parent.Running? && s.parent.pc.ReadNotif? && s.parent.inst.notifOn &&
     s.parent.inst.trackedN.Some? && s.notifUrl == Some(""))
  }

  predicate ParentTurnsAt(f: nat -> State, a: nat -> Action, q: nat) { ParentTurns(f(q), a(q)) }

  ghost predicate ParentTurnsAfter(f: nat -> State, a: nat -> Action, n: nat) {
    exists q: nat :: q >= n && ParentTurnsAt(f, a, q)
  }

  predicate SuppliedAt(f: nat -> State, q: nat) { !Waiting(f(q)) }

  ghost predicate SuppliedAfter(f: nat -> State, n: nat) {
    exists q: nat :: q >= n && SuppliedAt(f, q)
  }

  /** As for calm behaviours; and no TransportURL waits for ever. */
  ghost predicate FairGoings(f: nat -> State, a: nat -> Action) {
    && (forall n: nat :: ParentTurnsAfter(f, a, n))
    && (forall n: nat :: SuppliedAfter(f, n))
    && (forall c, n: nat | c in f(0).cr.services :: ServedAfter(f, a, c, n))
    && (forall c, n: nat | c in f(0).cr.services :: FreedAfter(f, c, n))
    && (forall c, n: nat | c in f(0).cr.services :: RolledAfter(f, c, n))
  }

  // ---------------------------------------------------------------- what stays

  /** The inputs are there, except perhaps the notifications secret. */
  predicate NearlyReady(s: State) {
    && s.cr.finalizer && !s.cr.deleting && s.url != "" && s.url in s.secrets
    && (s.cr.ac == "" || s.cr.ac in s.secrets)
    && (Value(s.notifUrl) == "" || Value(s.notifUrl) in s.secrets)
  }

  ghost predicate Near(s: State) { Inv(s) && Ledger(s) && NearlyReady(s) }

  /** Everything but the notifications secret is as before. */
  ghost predicate SameSpec(s: State, s': State) {
    && s'.url == s.url && s'.extra == s.extra && s'.cr.services == s.cr.services
    && s'.cr.notifOn == s.cr.notifOn && s'.cr.ac == s.cr.ac
  }

  lemma AdvanceKeepsNear(s: State)
    requires NamesOk(s) && ParentOk(s) && NearlyReady(s) && AdvanceEnabled(s)
    ensures NearlyReady(DoAdvance(s)) && SameSpec(s, DoAdvance(s))
  {
  }

  lemma NearKept(s: State, a: Action)
    requires Near(s) && Allowed(s, a)
    ensures Near(Step(s, a)) && SameSpec(s, Step(s, a))
  {
    StepInv(s, a);
    StepKeepsLedger(s, a);
    if a.Advance? { AdvanceKeepsNear(s); } else if IsServiceAction(a) { ServiceKeepsRest(s, a); }
  }

  /** The reconcile in flight has read whether notifications are on, and if it has read their
      TransportURL this is there. */
  ghost predicate InformedRun(s: State) {
    s.parent.Running? ==>
      && s.parent.inst.notifOn == s.cr.notifOn
      && (s.cr.notifOn && (s.parent.pc.PinNotif? || PastNotif(s.parent.pc)) ==> s.notifUrl.Some?)
  }

  ghost predicate Informed(s: State) { Near(s) && InformedRun(s) }

  lemma NotLate(s: State, a: Action)
    requires NamesOk(s) && ParentOk(s) && InformedRun(s)
    ensures !LateTeardown(s, a)
  {
  }

  ghost predicate UrlStays(s: State, s': State) {
    s.cr.notifOn && s.notifUrl.Some? ==> s'.notifUrl == s.notifUrl
  }

  lemma TailInformed(s: State)
    requires NamesOk(s) && ParentOk(s) && InformedRun(s) && AdvanceEnabled(s) && PastPinAC(s.parent.pc)
    requires SameSpec(s, DoAdvance(s))
    ensures InformedRun(DoAdvance(s)) && UrlStays(s, DoAdvance(s))
  {
    NotLate(s, Advance);
    hide NamesOk, ParentOk;
  }

  lemma ReadInformed(s: State)
    requires InformedRun(s) && AdvanceEnabled(s) && (s.parent.pc.ReadNotif? || s.parent.pc.PinNotif?)
    ensures InformedRun(DoAdvance(s)) && UrlStays(s, DoAdvance(s))
  {
  }

  lemma EarlyInformed(s: State)
    requires InformedRun(s) && AdvanceEnabled(s) && !PastPinAC(s.parent.pc)
    requires !s.parent.pc.ReadNotif? && !s.parent.pc.PinNotif?
    ensures InformedRun(DoAdvance(s)) && UrlStays(s, DoAdvance(s))
  {
  }

  lemma AdvanceInformed(s: State)
    requires NamesOk(s) && ParentOk(s) && InformedRun(s) && AdvanceEnabled(s) && SameSpec(s, DoAdvance(s))
    ensures InformedRun(DoAdvance(s)) && UrlStays(s, DoAdvance(s))
  {
    hide NamesOk, ParentOk, InformedRun;
    if PastPinAC(s.parent.pc) { TailInformed(s); }
    else if s.parent.pc.ReadNotif? || s.parent.pc.PinNotif? { ReadInformed(s); }
    else { EarlyInformed(s); }
  }

  /** From then on the TransportURL stays. */
  lemma InformedKept(s: State, a: Action)
    requires Informed(s) && Allowed(s, a)
    ensures Informed(Step(s, a)) && SameSpec(s, Step(s, a))
    ensures s.cr.notifOn && s.notifUrl.Some? ==>
              Step(s, a).notifUrl.Some? && (Value(s.notifUrl) != "" ==> Step(s, a).notifUrl == s.notifUrl)
  {
    NearKept(s, a);
    assert NamesOk(s) && ParentOk(s);
    hide Inv, NamesOk, ParentOk;
    if a.Advance? { AdvanceInformed(s); }
    else if IsServiceAction(a) { ServiceKeepsRest(s, a); }
  }

  // ---------------------------------------------------------------- towards calm

  ghost predicate Steadfast(P: State -> bool) {
    forall s, a | P(s) && Allowed(s, a) :: P(Step(s, a))
  }

  lemma {:induction false} Persists(f: nat -> State, a: nat -> Action, n: nat, m: nat, P: State -> bool)
    requires Goings(f, a) && Steadfast(P) && P(f(n)) && n <= m
    ensures P(f(m))
    decreases m
  {
    if n < m {
      Persists(f, a, n, m - 1, P);
      assert Goes(f, a, m - 1);
    }
  }

  lemma Endures(f: nat -> State, a: nat -> Action, n: nat, P: State -> bool)
    requires Goings(f, a) && Steadfast(P) && P(f(n))
    ensures Always(f, n, P)
  {
    forall m: nat | m >= n ensures P(f(m)) { Persists(f, a, n, m, P); }
  }

  lemma AlwaysNear(f: nat -> State, a: nat -> Action)
    requires Goings(f, a) && Near(f(0))
    ensures Always(f, 0, Near) && Always(f, 0, s => SameSpec(f(0), s))
  {
    forall s, act | Near(s) && Allowed(s, act) ensures Near(Step(s, act)) { NearKept(s, act); }
    Endures(f, a, 0, Near);
    var P := (s: State) => Near(s) && SameSpec(f(0), s);
    forall s, act | P(s) && Allowed(s, act) ensures P(Step(s, act)) { NearKept(s, act); }
    Endures(f, a, 0, P);
  }

  lemma OnlyStartBegins(s: State, a: Action)
    requires Allowed(s, a) && s.parent.Idle? && Step(s, a).parent.Running?
    ensures a == Start
  {
    if IsServiceAction(a) { ServiceKeepsRest(s, a); }
  }

  lemma {:induction false} BeganBetween(f: nat -> State, a: nat -> Action, i: nat, j: nat) returns (p: nat)
    requires Goings(f, a) && i <= j && f(i).parent.Idle? && f(j).parent.Running?
    ensures i <= p < j && a(p) == Start && f(p).parent.Idle? && f(p + 1) == DoStart(f(p))
    decreases j
  {
    assert Goes(f, a, j - 1);
    if f(j - 1).parent.Idle? {
      OnlyStartBegins(f(j - 1), a(j - 1));
      p := j - 1;
    } else {
      p := BeganBetween(f, a, i, j - 1);
    }
  }

  lemma TurnsIdle(s: State, a: Action)
    requires Allowed(s, a) && ParentTurns(s, a)
    ensures s.parent.Running? && Step(s, a).parent.Idle?
  {
  }

  lemma ParentTurnsOnce(f: nat -> State, a: nat -> Action, n: nat) returns (q: nat)
    requires Goings(f, a) && FairGoings(f, a)
    ensures q >= n && ParentTurns(f(q), a(q)) && Allowed(f(q), a(q)) && f(q + 1) == Step(f(q), a(q))
    ensures f(q).parent.Running? && f(q + 1).parent.Idle?
  {
    hide Allowed;
    assert ParentTurnsAfter(f, a, n);
    q :| q >= n && ParentTurnsAt(f, a, q);
    assert Goes(f, a, q);
    TurnsIdle(f(q), a(q));
  }

  lemma ReachesInformed(f: nat -> State, a: nat -> Action) returns (n: nat)
    requires Goings(f, a) && FairGoings(f, a) && Near(f(0))
    ensures Always(f, n, Informed)
  {
    hide Near, ParentTurns;
    AlwaysNear(f, a);
    var q := ParentTurnsOnce(f, a, 0);
    var r := ParentTurnsOnce(f, a, q + 1);
    var p := BeganBetween(f, a, q + 1, r);
    BeginsInformed(f(p));
    forall s, act | Informed(s) && Allowed(s, act) ensures Informed(Step(s, act)) { InformedKept(s, act); }
    n := p + 1;
    Endures(f, a, n, Informed);
  }

  lemma BeginsInformed(s: State)
    requires Near(s) && Near(DoStart(s))
    ensures Informed(DoStart(s))
  {
  }

  /** At the end of a turn the TransportURL of notifications that are on is there. */
  lemma TurnHasUrl(s: State, a: Action)
    requires Informed(s) && ParentTurns(s, a) && s.cr.notifOn
    ensures s.notifUrl.Some?
  {
  }

  ghost predicate Supplied(s: State) { Informed(s) && (s.cr.notifOn ==> s.notifUrl.Some?) }

  lemma SuppliedKept(s: State, a: Action)
    requires Supplied(s) && Allowed(s, a)
    ensures Supplied(Step(s, a))
  {
    InformedKept(s, a);
  }

  ghost predicate Complete(s: State) { Informed(s) && InputsReady(s) }

  lemma CompleteKept(s: State, a: Action)
    requires Complete(s) && Allowed(s, a)
    ensures Complete(Step(s, a)) && Calm(s, a)
  {
    NotLate(s, a);
    InformedKept(s, a);
    if s.cr.notifOn { assert Value(Step(s, a).notifUrl) != ""; }
  }

  lemma NotWaitingIsComplete(s: State)
    requires Supplied(s) && !Waiting(s)
    ensures Complete(s)
  {
  }

  lemma ReachesComplete(f: nat -> State, a: nat -> Action) returns (n: nat)
    requires Goings(f, a) && FairGoings(f, a) && Near(f(0))
    ensures Always(f, n, Complete)
  {
    hide Informed, Near, ParentTurns, Supplied, Complete;
    var m := ReachesInformed(f, a);
    var q := ParentTurnsOnce(f, a, m);
    SuppliedThen(f(q), a(q));
    forall s, act | Supplied(s) && Allowed(s, act) ensures Supplied(Step(s, act)) { SuppliedKept(s, act); }
    Endures(f, a, q, Supplied);
    assert SuppliedAfter(f, q);
    n :| n >= q && SuppliedAt(f, n);
    NotWaitingIsComplete(f(n));
    forall s, act | Complete(s) && Allowed(s, act) ensures Complete(Step(s, act)) { CompleteKept(s, act); }
    Endures(f, a, n, Complete);
  }

  lemma SuppliedThen(s: State, a: Action)
    requires Informed(s) && ParentTurns(s, a)
    ensures Supplied(s)
  {
    if s.cr.notifOn { TurnHasUrl(s, a); }
  }

  // ---------------------------------------------------------------- from there on

  /** The behaviour from index m on. */
  lemma Tail(f: nat -> State, a: nat -> Action, m: nat, g: nat -> State, b: nat -> Action)
    requires Goings(f, a) && FairGoings(f, a) && Near(f(0)) && Always(f, m, Complete)
    requires forall i: nat :: g(i) == f(m + i) && b(i) == a(m + i)
    ensures Behaves(g, b) && Fair(g, b) && Sound(g(0))
  {
    TailBehaves(f, a, m, g, b);
    TailFair(f, a, m, g, b);
    assert Complete(f(m)) && g(0) == f(m + 0);
  }

  lemma TailBehaves(f: nat -> State, a: nat -> Action, m: nat, g: nat -> State, b: nat -> Action)
    requires Goings(f, a) && Always(f, m, Complete)
    requires forall i: nat :: g(i) == f(m + i) && b(i) == a(m + i)
    ensures Behaves(g, b)
  {
    hide Complete, Allowed, Calm;
    forall i: nat ensures Follows(g, b, i) {
      assert Goes(f, a, m + i) && Complete(f(m + i));
      CompleteKept(f(m + i), a(m + i));
      assert g(i + 1) == f(m + (i + 1));
    }
  }

  lemma TurnIsEnd(s: State, a: Action)
    requires Complete(s) && ParentTurns(s, a)
    ensures ParentEnds(s, a)
  {
  }

  lemma TailFair(f: nat -> State, a: nat -> Action, m: nat, g: nat -> State, b: nat -> Action)
    requires Goings(f, a) && FairGoings(f, a) && Near(f(0)) && Always(f, m, Complete)
    requires forall i: nat :: g(i) == f(m + i) && b(i) == a(m + i)
    ensures Fair(g, b)
  {
    AlwaysNear(f, a);
    assert ((s: State) => SameSpec(f(0), s))(f(m)) && g(0) == f(m + 0);
    forall n: nat ensures ParentEndsAfter(g, b, n) { TailEnds(f, a, m, g, b, n); }
    forall c, n: nat | c in g(0).cr.services
      ensures ServedAfter(g, b, c, n) && FreedAfter(g, c, n) && RolledAfter(g, c, n)
    {
      TailServes(f, a, m, g, b, c, n);
    }
  }

  lemma TailEnds(f: nat -> State, a: nat -> Action, m: nat, g: nat -> State, b: nat -> Action, n: nat)
    requires FairGoings(f, a) && Always(f, m, Complete)
    requires forall i: nat :: g(i) == f(m + i) && b(i) == a(m + i)
    ensures ParentEndsAfter(g, b, n)
  {
    hide Complete, ParentTurns, ParentEnds;
    assert ParentTurnsAfter(f, a, m + n);
    var q: nat :| q >= m + n && ParentTurnsAt(f, a, q);
    assert Complete(f(q));
    TurnIsEnd(f(q), a(q));
    assert ParentEndsAt(g, b, q - m);
  }

  lemma TailServes(f: nat -> State, a: nat -> Action, m: nat, g: nat -> State, b: nat -> Action, c: ServiceId, n: nat)
    requires FairGoings(f, a) && c in f(0).cr.services
    requires forall i: nat :: g(i) == f(m + i) && b(i) == a(m + i)
    ensures ServedAfter(g, b, c, n) && FreedAfter(g, c, n) && RolledAfter(g, c, n)
  {
    hide Servable, ServiceEnds, Doomed, RolledNow;
    assert ServedAfter(f, a, c, m + n) && FreedAfter(f, c, m + n) && RolledAfter(f, c, m + n);
    var q: nat :| q >= m + n && ServedAt(f, a, c, q);
    assert ServedAt(g, b, c, q - m);
    var r: nat :| r >= m + n && FreedAt(f, c, r);
    assert FreedAt(g, c, r - m);
    var p: nat :| p >= m + n && RolledAt(f, c, p);
    assert g(p - m + 1) == f(p + 1);
    assert RolledAt(g, c, p - m);
  }

  /** Every fair behaviour converges for ever, from any reachable state in which all inputs but
      the notifications secret are there: late teardowns may take the TransportURL, and the
      environment gives every one that waits a secret. */
  lemma FairGoingsConverge(f: nat -> State, a: nat -> Action) returns (n: nat)
    requires Goings(f, a) && FairGoings(f, a) && Near(f(0))
    ensures forall i: nat | i >= n :: Converged(f(i)) && SameSpec(f(0), f(i)) && InputsReady(f(i))
  {
    hide Near, Complete, Converged, SameInputs, SameSpec, Behaves, Fair, Sound, InputsReady;
    var m := ReachesComplete(f, a);
    var g := (i: nat) => f(m + i);
    var b := (i: nat) => a(m + i);
    Tail(f, a, m, g, b);
    var k := FairBehavioursConverge(g, b);
    AlwaysNear(f, a);
    n := m + k;
    forall i: nat | i >= n ensures Converged(f(i)) && SameSpec(f(0), f(i)) && InputsReady(f(i)) {
      assert g(i - m) == f(i) && Converged(g(i - m));
      assert ((s: State) => SameSpec(f(0), s))(f(i));
      assert Complete(f(i));
      CompleteReady(f(i));
    }
  }

  lemma CompleteReady(s: State)
    requires Complete(s)
    ensures InputsReady(s)
  {
  }

  /** So from the end of every run. */
  lemma FairRunsConvergeAnyway(ss: seq<State>, acts: seq<Action>, f: nat -> State, a: nat -> Action) returns (n: nat)
    requires IsRun(ss, acts) && f(0) == ss[|acts|] && NearlyReady(f(0)) && Goings(f, a) && FairGoings(f, a)
    ensures forall i: nat | i >= n :: Converged(f(i)) && SameSpec(f(0), f(i)) && InputsReady(f(i))
  {
    RunLedger(ss, acts, |acts|);
    n := FairGoingsConverge(f, a);
  }
}
