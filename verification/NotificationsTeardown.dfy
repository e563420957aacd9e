/** Turning notifications off: when a reconcile tears the notifications TransportURL down,
    that a failed teardown is retried to the same end, and what the deferral does not cover:
    a notifications secret that never became the tracked one. */
module NotificationsTeardown {
  import opened RotationState
  import opened RotationSteps
  import opened RotationSafety
  import opened RotationEffects
  import opened RotationActors
  import opened RotationFixpoint

  /** Notifications are off and every service has already applied that. */
  ghost predicate TeardownDue(s: State) {
    CanReconcile(s) && NamesOk(s) && AtGate(s) && !s.cr.notifOn && AllPushed(s) && Guard(s)
  }

  /** What the finalize stage starts from. */
  ghost function AtFinish(s: State): State
    requires CanReconcile(s) && AtGate(s)
  {
    s.(secrets := PinnedAC(s), svcs := RolledOut(Prepared(s)).svcs,
       parent := Running(FinishTransport, EarlyInst(s), s.url, NotifName(s), true))
  }

  lemma TeardownEnd(s: State)
    requires TeardownDue(s)
    ensures RolledOut(Prepared(s)) == AtFinish(s) && ParentEffect(s) == Ended(AtFinish(s))
  {
    FullPass(s);
    QuietRollout(s);
  }

  /** The TransportURL goes exactly if a notifications secret was tracked: turned off before
      the first one was tracked, notifications leave their TransportURL behind. */
  lemma TeardownDeletesUrl(s: State)
    requires TeardownDue(s)
    ensures ParentEffect(s).notifUrl.None? <==> s.notifUrl.None? || Value(s.cr.trackedN) != ""
    ensures Value(ParentEffect(s).cr.trackedN) == ""
    ensures forall x | x in s.issuedN :: !Holds(ParentEffect(s).secrets, x, TransportConsumer)
  {
    TeardownEnd(s);
    forall x | x in s.issuedN && x in s.secrets
      ensures !Holds(ParentEffect(s).secrets, x, TransportConsumer)
    {
      FinalOne(AtFinish(s), x);
    }
  }

  /** The state between releasing the finalizer and deleting the TransportURL. */
  ghost function HalfTornDown(s: State): State
    requires CanReconcile(s) && AtGate(s)
  {
    DoFinishNotif(DoFinishTransport(AtFinish(s)))
  }

  /** What an error (the status is patched) or a crash there leaves. */
  ghost function Abandoned(s: State, crash: bool): State
    requires CanReconcile(s) && AtGate(s)
  {
    HalfTornDown(s).(cr := if crash then s.cr else Persist(s.cr, EarlyInst(s).(tracked := s.url)), parent := Idle)
  }

  lemma HalfTornDownFrame(s: State)
    requires TeardownDue(s) && Value(s.cr.trackedN) != ""
    ensures HalfTornDown(s) == s.(secrets := HalfTornDown(s).secrets, svcs := RolledOut(Prepared(s)).svcs,
              parent := Running(DropNotifUrl, EarlyInst(s).(tracked := s.url), s.url, "", true))
    ensures HalfTornDown(s).secrets.Keys == s.secrets.Keys
  {
  }

  lemma BlankKept(secrets: map<Name, set<Finalizer>>, x: Name, f: Finalizer)
    requires x != ""
    ensures OnBlank(AddFin(secrets, x, f)) == OnBlank(secrets) == OnBlank(DropFin(secrets, x, f))
  {
  }

  lemma HalfTornDownSecrets(s: State)
    requires TeardownDue(s) && Value(s.cr.trackedN) != ""
    ensures HalfTornDown(s).secrets ==
              DropFin(Released(PinnedAC(s), EarlyInst(s).tracked, s.url, TransportConsumer, true),
                      Value(s.cr.trackedN), TransportConsumer)
  {
  }

  lemma HalfTornDownBlank(s: State)
    requires TeardownDue(s) && Value(s.cr.trackedN) != ""
    ensures OnBlank(HalfTornDown(s).secrets) == OnBlank(s.secrets)
  {
    HalfTornDownSecrets(s);
    BlankKept(s.secrets, s.url, TransportConsumer);
    if s.cr.ac != "" { BlankKept(Pinned(s), s.cr.ac, ACConsumer); }
    var released := Released(PinnedAC(s), EarlyInst(s).tracked, s.url, TransportConsumer, true);
    if EarlyInst(s).tracked != "" { BlankKept(PinnedAC(s), EarlyInst(s).tracked, TransportConsumer); }
    BlankKept(released, Value(s.cr.trackedN), TransportConsumer);
  }

  lemma AbandonedLeads(s: State, crash: bool)
    requires TeardownDue(s) && Inv(s) && Value(s.cr.trackedN) != ""
    ensures Leads(s, Abandoned(s, crash))
  {
    TeardownEnd(s);
    PreparedLeads(s);
    FullPass(s);
    RolledOutLeads(Prepared(s));
    LeadsTrans(s, Prepared(s), AtFinish(s));
    LeadsAdvance(s, AtFinish(s));
    LeadsAdvance(s, DoFinishTransport(AtFinish(s)));
    HalfTornDownFrame(s);
    LeadsOut(s, HalfTornDown(s));
  }

  lemma AbandonedFrame(s: State, crash: bool)
    requires TeardownDue(s) && Value(s.cr.trackedN) != ""
    ensures var a := Abandoned(s, crash);
            && SameInputs(s, a) && InputsReady(a) && NamesOk(a) && AtGate(a) && a.parent.Idle?
            && a.svcs == RolledOut(Prepared(s)).svcs && a.secrets.Keys == s.secrets.Keys
  {
    HalfTornDownFrame(s);
  }

  lemma AbandonedDue(s: State, crash: bool)
    requires TeardownDue(s) && Value(s.cr.trackedN) != ""
    ensures TeardownDue(Abandoned(s, crash)) && NoStrays(Abandoned(s, crash))
  {
    AbandonedFrame(s, crash);
    PassKeepsServices(s);
    ParentFrame(s);
    SamePushed(s, Abandoned(s, crash));
  }

  lemma SamePushed(s: State, a: State)
    requires AllPushed(s) && Guard(s) && SameInputs(s, a)
    requires forall c | c in s.cr.services :: c in s.svcs && c in a.svcs && a.svcs[c] == s.svcs[c]
    ensures AllPushed(a) && Guard(a)
  {
    forall c | c in a.cr.services ensures Pushed(a, c) { assert Pushed(s, c); }
  }

  /** What a finished teardown leaves on one secret. */
  lemma FinishedPins(s: State, x: Name)
    requires TeardownDue(s) && x in s.secrets
    ensures x in FinalSecrets(AtFinish(s))
    ensures x != "" ==> (TransportConsumer in FinalSecrets(AtFinish(s))[x] <==> x == s.url)
    ensures x != "" ==> (ACConsumer in FinalSecrets(AtFinish(s))[x] <==> x == s.cr.ac)
    ensures x == "" ==> (TransportConsumer in FinalSecrets(AtFinish(s))[x] <==> TransportConsumer in s.secrets[x])
    ensures x == "" ==> (ACConsumer in FinalSecrets(AtFinish(s))[x] <==> s.cr.ac == "" && ACConsumer in s.secrets[x])
  {
    FinalOne(AtFinish(s), x);
  }

  /** What is on the empty name, which no call ever touches. */
  function OnBlank(secrets: map<Name, set<Finalizer>>): set<Finalizer> {
    if "" in secrets then secrets[""] else {}
  }

  /** The finalizers a finished teardown leaves on the given secrets. */
  ghost predicate OnlyCurrentPinned(secrets: map<Name, set<Finalizer>>, url: Name, ac: Name, blank: set<Finalizer>) {
    forall x | x in secrets ::
      && (TransportConsumer in secrets[x] <==> if x == "" then TransportConsumer in blank else x == url)
      && (ACConsumer in secrets[x] <==> if x == "" then ac == "" && ACConsumer in blank else x == ac)
  }

  lemma FinishedSecrets(s: State)
    requires TeardownDue(s)
    ensures FinalSecrets(AtFinish(s)).Keys == s.secrets.Keys
    ensures OnlyCurrentPinned(FinalSecrets(AtFinish(s)), s.url, s.cr.ac, OnBlank(s.secrets))
  {
    var left := FinalSecrets(AtFinish(s));
    forall x | x in left
      ensures TransportConsumer in left[x] <==> if x == "" then TransportConsumer in OnBlank(s.secrets) else x == s.url
      ensures ACConsumer in left[x] <==>
                if x == "" then s.cr.ac == "" && ACConsumer in OnBlank(s.secrets) else x == s.cr.ac
    {
      FinishedPins(s, x);
    }
  }

  lemma SamePins(m: map<Name, set<Finalizer>>, m': map<Name, set<Finalizer>>, url: Name, ac: Name,
                 blank: set<Finalizer>)
    requires m.Keys == m'.Keys && OnlyCurrentPinned(m, url, ac, blank) && OnlyCurrentPinned(m', url, ac, blank)
    ensures m == m'
  {
    forall x | x in m ensures m[x] == m'[x] {
      forall f ensures f in m[x] <==> f in m'[x] { assert f == TransportConsumer || f == ACConsumer; }
    }
  }

  lemma NothingStray(a: State)
    requires TeardownDue(a) && NoStrays(a)
    ensures RolledOut(Prepared(a)).svcs == a.svcs
  {
    QuietServices(a);
  }

  /** A teardown whose TransportURL could not be deleted, or that died there, is finished by
      the next reconcile, in the very state an undisturbed one would have reached. */
  lemma TeardownRetried(s: State, crash: bool)
    requires TeardownDue(s) && Inv(s) && Value(s.cr.trackedN) != ""
    ensures Leads(s, Abandoned(s, crash)) && CanReconcile(Abandoned(s, crash))
    ensures ParentEffect(Abandoned(s, crash)) == ParentEffect(s)
  {
    var a := Abandoned(s, crash);
    AbandonedLeads(s, crash);
    AbandonedDue(s, crash);
    AbandonedFrame(s, crash);
    TeardownEnd(s);
    TeardownEnd(a);
    NothingStray(a);
    FinishedSecrets(s);
    FinishedSecrets(a);
    HalfTornDownBlank(s);
    SamePins(FinalSecrets(AtFinish(a)), FinalSecrets(AtFinish(s)), s.url, s.cr.ac, OnBlank(s.secrets));
    HalfTornDownFrame(s);
  }

  /** Deferral covers the tracked secret only: while services still have to roll out, a
      reconcile with notifications off keeps a pinned notifications secret exactly if it is
      the tracked one. */
  lemma OnlyTrackedIsDeferred(s: State, x: Name)
    requires CanReconcile(s) && NamesOk(s) && AtGate(s) && !s.cr.notifOn && s.cr.tracked != ""
    requires !RolledOut(Prepared(s)).parent.ready
    requires x in s.issuedN && Holds(s.secrets, x, TransportConsumer)
    ensures Holds(ParentEffect(s).secrets, x, TransportConsumer) <==> x == Value(s.cr.trackedN)
  {
    UnreadyPassKeeps(s, x);
  }
}
