/** When a whole parent reconcile changes nothing: a second reconcile after a first one that
    had nothing to push, and exactly the states whose names are settled as far as the
    readiness guard allows. */
module RotationFixpoint {
  import opened Options
  import opened RotationState
  import opened RotationSteps
  import opened RotationLedger
  import opened RotationEffects
  import opened RotationActors

  /** The recorded input hash and the stored configuration are the wanted ones. */
  predicate AtGate(s: State) {
    s.cr.hash == Some(WantedConfig(s)) && s.cfg == Some(WantedConfig(s))
  }

  ghost predicate AllPushed(s: State) {
    forall c | c in s.cr.services :: Pushed(s, c)
  }

  /** The readiness guard a reconcile of s computes when it writes no service. */
  ghost predicate Guard(s: State)
    requires AllPushed(s)
  {
    forall c | c in s.cr.services :: Matches(Last(s.svcs[c]), s.url, NotifName(s))
  }

  predicate StrayIn(s: State, c: ServiceId) {
    c.Share? && c !in s.cr.services && c in s.svcs && s.svcs[c].live
    && s.svcs[c].versions != [] && !Last(s.svcs[c]).deleting
  }

  ghost predicate NoStrays(s: State) {
    forall c | c in s.svcs :: !StrayIn(s, c)
  }

  /** The status is as settled as the guard allows. */
  predicate StatusSettled(s: State, guard: bool) {
    && s.cr.tracked != "" && (s.cr.notifOn ==> s.cr.trackedN.Some?)
    && Rotated(s.cr.tracked, s.url, guard) == s.cr.tracked
    && (if NotifName(s) != ""
        then s.cr.trackedN == Some(Rotated(Value(s.cr.trackedN), NotifName(s), guard))
        else Value(s.cr.trackedN) == "" || !guard)
    && Rotated(s.cr.trackedAC, s.cr.ac, guard) == s.cr.trackedAC
  }

  /** Finalizers are exactly where a reconcile would put and leave them. */
  ghost predicate PinsSettled(s: State) {
    && Holds(s.secrets, s.url, TransportConsumer)
    && (s.cr.notifOn ==> Holds(s.secrets, Value(s.notifUrl), TransportConsumer))
    && (s.cr.ac != "" ==> Holds(s.secrets, s.cr.ac, ACConsumer))
    && HoldersWithin(s.secrets, TransportConsumer, {s.cr.tracked, s.url, Value(s.cr.trackedN), NotifName(s)})
    && HoldersWithin(s.secrets, ACConsumer, {s.cr.trackedAC, s.cr.ac})
  }

  ghost predicate ParentSettled(s: State) {
    AtGate(s) && AllPushed(s) && NoStrays(s) && StatusSettled(s, Guard(s)) && PinsSettled(s)
  }

  // ---------------------------------------------------------------- a pass that pushes nothing

  lemma FullPass(s: State)
    requires CanReconcile(s) && AtGate(s)
    ensures Prepared(s) == s.(secrets := Pinned(s),
                              parent := Running(PinAC, EarlyInst(s), s.url, NotifName(s), true))
    ensures ParentEffect(s) == Ended(RolledOut(Prepared(s)))
  {
  }

  function PinnedAC(s: State): map<Name, set<Finalizer>> {
    if s.cr.ac == "" then Pinned(s) else AddFin(Pinned(s), s.cr.ac, ACConsumer)
  }

  lemma PushedKept(s: State, c: ServiceId)
    requires CanReconcile(s) && AtGate(s) && c in s.cr.services && Pushed(s, c)
    ensures DeployedService(Prepared(s), c) == s.svcs[c]
    ensures DeployObject(DoPinAC(Prepared(s)), c, Fresh(DoPinAC(Prepared(s)), c)) == Last(s.svcs[c])
  {
    FullPass(s);
  }

  /** The state in which FinishTransport is reached. */
  lemma QuietRollout(s: State)
    requires CanReconcile(s) && AtGate(s) && AllPushed(s)
    ensures RolledOut(Prepared(s)) ==
              s.(secrets := PinnedAC(s), svcs := RolledOut(Prepared(s)).svcs,
                 parent := Running(FinishTransport, EarlyInst(s), s.url, NotifName(s), Guard(s)))
  {
    var p := Prepared(s);
    FullPass(s);
    RolledOutShape(p);
    RolledOutReady(p);
    forall c | c in s.cr.services
      ensures DeployObject(DoPinAC(p), c, Fresh(DoPinAC(p), c)) == Last(s.svcs[c])
    {
      PushedKept(s, c);
    }
  }

  lemma QuietServices(s: State)
    requires CanReconcile(s) && AtGate(s) && AllPushed(s)
    ensures RolledOut(Prepared(s)).svcs.Keys == s.svcs.Keys
    ensures forall c | c in s.svcs ::
              RolledOut(Prepared(s)).svcs[c] == if StrayIn(s, c) then Marked(s.svcs[c]) else s.svcs[c]
  {
    var p := Prepared(s);
    FullPass(s);
    RolledOutShape(p);
    forall c | c in s.svcs
      ensures RolledOut(p).svcs[c] == if StrayIn(s, c) then Marked(s.svcs[c]) else s.svcs[c]
    {
      RolledOutAt(p, c);
      if c in s.cr.services { PushedKept(s, c); }
    }
    assert forall c | c in s.cr.services :: Pushed(s, c);
  }

  // ---------------------------------------------------------------- the second pass

  lemma RotatedTwice(was: Name, cur: Name, guard: bool)
    ensures Rotated(Rotated(was, cur, guard), cur, guard) == Rotated(was, cur, guard)
    ensures cur != "" ==> Rotated(was, cur, guard) != ""
    ensures guard ==> Rotated(was, cur, guard) == cur
  {
  }

  /** A pass that pushes nothing leaves the status settled. */
  lemma PassSettlesStatus(s: State, guard: bool, svcs: map<ServiceId, Service>)
    requires CanReconcile(s)
    ensures var q := s.(secrets := PinnedAC(s), svcs := svcs,
                        parent := Running(FinishTransport, EarlyInst(s), s.url, NotifName(s), guard));
            StatusSettled(Ended(q), guard) && NotifName(Ended(q)) == NotifName(s)
  {
    RotatedTwice(EarlyInst(s).tracked, s.url, guard);
    RotatedTwice(s.cr.trackedAC, s.cr.ac, guard);
    RotatedTwice(Value(EarlyInst(s).trackedN), NotifName(s), guard);
  }

  lemma PassSettlesPins(s: State, guard: bool, svcs: map<ServiceId, Service>)
    requires CanReconcile(s)
    ensures var q := s.(secrets := PinnedAC(s), svcs := svcs,
                        parent := Running(FinishTransport, EarlyInst(s), s.url, NotifName(s), guard));
            PinsSettled(Ended(q))
  {
    var q := s.(secrets := PinnedAC(s), svcs := svcs,
                parent := Running(FinishTransport, EarlyInst(s), s.url, NotifName(s), guard));
    PassSettlesStatus(s, guard, svcs);
    forall x | x in q.secrets
      ensures var p, inst := q.parent, FinalInst(q.parent);
              && (TransportConsumer in FinalSecrets(q)[x] <==>
                    TransportConsumer in q.secrets[x] && x in {inst.tracked, p.cur, Value(inst.trackedN), p.curN})
              && (ACConsumer in FinalSecrets(q)[x] <==>
                    ACConsumer in q.secrets[x] && x in {inst.trackedAC, inst.ac})
    {
      FinalOne(q, x);
    }
  }

  lemma PassKeepsServices(s: State)
    requires CanReconcile(s) && AtGate(s) && AllPushed(s)
    ensures ParentEffect(s).svcs == RolledOut(Prepared(s)).svcs
    ensures forall c | c in s.cr.services ::
              c in s.svcs && c in ParentEffect(s).svcs && ParentEffect(s).svcs[c] == s.svcs[c]
    ensures NoStrays(ParentEffect(s))
  {
    FullPass(s);
    QuietServices(s);
    EndedFrame(RolledOut(Prepared(s)));
    ParentFrame(s);
    forall c | c in s.cr.services
      ensures c in s.svcs && c in ParentEffect(s).svcs && ParentEffect(s).svcs[c] == s.svcs[c]
    {
      assert Pushed(s, c);
    }
  }

  lemma PassSettlesParent(s: State)
    requires CanReconcile(s) && AtGate(s) && AllPushed(s)
    ensures ParentSettled(ParentEffect(s)) && Guard(ParentEffect(s)) == Guard(s)
  {
    PassKeepsServices(s);
    ParentFrame(s);
    var e := ParentEffect(s);
    assert AtGate(e);
    forall c | c in e.cr.services ensures Pushed(e, c) { assert Pushed(s, c); }
    assert Guard(e) == Guard(s);
    PassStatus(s);
  }

  lemma PassStatus(s: State)
    requires CanReconcile(s) && AtGate(s) && AllPushed(s)
    ensures StatusSettled(ParentEffect(s), Guard(s)) && PinsSettled(ParentEffect(s))
  {
    FullPass(s);
    QuietRollout(s);
    PassSettlesStatus(s, Guard(s), RolledOut(Prepared(s)).svcs);
    PassSettlesPins(s, Guard(s), RolledOut(Prepared(s)).svcs);
  }

  // ---------------------------------------------------------------- a settled parent changes nothing

  lemma AddHeld(secrets: map<Name, set<Finalizer>>, x: Name, f: Finalizer)
    requires Holds(secrets, x, f)
    ensures AddFin(secrets, x, f) == secrets
  {
    assert secrets[x] + {f} == secrets[x];
  }

  lemma SettledPins(s: State)
    requires CanReconcile(s) && PinsSettled(s)
    ensures PinnedAC(s) == s.secrets
  {
    AddHeld(s.secrets, s.url, TransportConsumer);
    if s.cr.notifOn { AddHeld(s.secrets, Value(s.notifUrl), TransportConsumer); }
    if s.cr.ac != "" { AddHeld(s.secrets, s.cr.ac, ACConsumer); }
  }

  lemma SettledSecrets(q: State)
    requires q.parent.Running?
    requires HoldersWithin(q.secrets, TransportConsumer,
               {FinalInst(q.parent).tracked, q.parent.cur, Value(FinalInst(q.parent).trackedN), q.parent.curN})
    requires HoldersWithin(q.secrets, ACConsumer, {FinalInst(q.parent).trackedAC, FinalInst(q.parent).ac})
    ensures FinalSecrets(q) == q.secrets
  {
    forall x | x in q.secrets ensures FinalSecrets(q)[x] == q.secrets[x] {
      FinalOne(q, x);
      assert Holds(q.secrets, x, TransportConsumer) <==> TransportConsumer in q.secrets[x];
      assert Holds(q.secrets, x, ACConsumer) <==> ACConsumer in q.secrets[x];
      forall f ensures f in FinalSecrets(q)[x] <==> f in q.secrets[x] {
        assert f == TransportConsumer || f == ACConsumer;
      }
    }
  }

  lemma SettledInst(s: State, guard: bool)
    requires CanReconcile(s) && StatusSettled(s, guard)
    ensures EarlyInst(s) == s.cr
    ensures FinalInst(Running(FinishTransport, s.cr, s.url, NotifName(s), guard)) == s.cr
  {
  }

  lemma SettledEnd(s: State, guard: bool)
    requires CanReconcile(s) && StatusSettled(s, guard) && PinsSettled(s)
    ensures Ended(s.(parent := Running(FinishTransport, s.cr, s.url, NotifName(s), guard))) == s
  {
    SettledInst(s, guard);
    SettledSecrets(s.(parent := Running(FinishTransport, s.cr, s.url, NotifName(s), guard)));
  }

  lemma SettledRollout(s: State)
    requires CanReconcile(s) && ParentSettled(s)
    ensures RolledOut(Prepared(s)) == s.(parent := Running(FinishTransport, s.cr, s.url, NotifName(s), Guard(s)))
  {
    QuietRollout(s);
    QuietServices(s);
    SettledPins(s);
    SettledInst(s, Guard(s));
    assert RolledOut(Prepared(s)).svcs == s.svcs;
  }

  lemma SettledParentStays(s: State)
    requires CanReconcile(s) && ParentSettled(s)
    ensures ParentEffect(s) == s
  {
    FullPass(s);
    SettledRollout(s);
    SettledEnd(s, Guard(s));
  }

  /** The parent has nothing to do exactly in the settled states. */
  lemma ParentStaysIffSettled(s: State)
    requires CanReconcile(s)
    ensures ParentEffect(s) == s <==> ParentSettled(s)
  {
    if ParentSettled(s) { SettledParentStays(s); }
    if ParentEffect(s) == s {
      ParentFrame(s);
      forall c | c in s.cr.services ensures Pushed(s, c) { ParentPushes(s, c); }
      PassSettlesParent(s);
    }
  }

  /** Two reconciles in a row that push nothing are one. */
  lemma SecondPassChangesNothing(s: State)
    requires CanReconcile(s) && AtGate(s) && AllPushed(s)
    ensures ParentEffect(s).parent.Idle? && CanReconcile(ParentEffect(s))
    ensures ParentEffect(ParentEffect(s)) == ParentEffect(s)
  {
    ParentFrame(s);
    PassSettlesParent(s);
    SettledParentStays(ParentEffect(s));
  }

  // ---------------------------------------------------------------- what an unready pass keeps

  lemma UnreadyInst(p: Parent)
    requires p.Running? && !p.ready && p.inst.tracked != ""
    ensures FinalInst(p).tracked == p.inst.tracked
    ensures {Value(FinalInst(p).trackedN), p.curN, ""} == {Value(p.inst.trackedN), p.curN, ""}
  {
  }

  lemma UnreadyParent(s: State)
    requires CanReconcile(s) && AtGate(s)
    ensures RolledOut(Prepared(s)).secrets == PinnedAC(s)
    ensures RolledOut(Prepared(s)).parent ==
              Running(FinishTransport, EarlyInst(s), s.url, NotifName(s), RolledOut(Prepared(s)).parent.ready)
  {
    FullPass(s);
    RolledOutShape(Prepared(s));
  }

  /** While services still have to roll out, a full pass keeps the transport finalizer of a
      pinned secret exactly if it is tracked or current.  So the middle secret of two
      overlapping rotations loses its finalizer, whatever pods have already read it. */
  lemma UnreadyPassKeeps(s: State, x: Name)
    requires CanReconcile(s) && AtGate(s) && !RolledOut(Prepared(s)).parent.ready
    requires s.cr.tracked != "" && x != "" && Holds(s.secrets, x, TransportConsumer)
    ensures Holds(ParentEffect(s).secrets, x, TransportConsumer) <==>
              x == s.cr.tracked || x == s.url || x == Value(s.cr.trackedN) || x == NotifName(s)
  {
    FullPass(s);
    UnreadyParent(s);
    var q := RolledOut(Prepared(s));
    UnreadyInst(q.parent);
    FinalOne(q, x);
    assert x in {Value(FinalInst(q.parent).trackedN), q.parent.curN, ""} <==>
           x in {Value(EarlyInst(s).trackedN), NotifName(s), ""};
  }
}
