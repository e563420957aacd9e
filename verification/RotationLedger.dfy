/** Who holds which finalizer, and when a tracked name may change: an invariant of every
    reachable state about the finalizers, the status and the parent's in-memory copy. */
module RotationLedger {
  import opened RotationState
  import opened RotationSteps
  import opened RotationSafety

  predicate PastFinishT(pc: ParentPc) {
    pc.FinishNotif? || pc.DropNotifUrl? || PastFinishN(pc)
  }

  predicate PastFinishN(pc: ParentPc) { pc.FinishAC? || PastFinishAC(pc) }

  predicate PastFinishAC(pc: ParentPc) { pc.PruneTransport? || pc.PruneAC? || pc.Complete? }

  ghost predicate HoldersWithin(secrets: map<Name, set<Finalizer>>, f: Finalizer, keep: set<Name>) {
    forall x | Holds(secrets, x, f) :: x in keep
  }

  ghost predicate NoHolder(secrets: map<Name, set<Finalizer>>, f: Finalizer) {
    HoldersWithin(secrets, f, {})
  }

  /** A tracked name differs from its persisted value only for a first name, or after the
      guard held and the old secret was released. */
  ghost predicate StatusMoves(s: State)
    requires s.parent.Running?
  {
    var p := s.parent;
    && (p.inst.tracked == s.cr.tracked || s.cr.tracked == "" ||
        (p.ready && PastFinishT(p.pc) && !Holds(s.secrets, s.cr.tracked, TransportConsumer)))
    && (Value(p.inst.trackedN) == Value(s.cr.trackedN) || Value(s.cr.trackedN) == "" ||
        (p.ready && PastFinishN(p.pc) && !Holds(s.secrets, Value(s.cr.trackedN), TransportConsumer)))
    && (p.inst.trackedAC == s.cr.trackedAC || s.cr.trackedAC == "" || (p.ready && PastFinishAC(p.pc)))
  }

  /** What the tail of a normal reconcile has established. */
  ghost predicate TailOk(s: State)
    requires s.parent.Running?
  {
    var p := s.parent;
    && (p.pc.DropNotifUrl? ==>
          p.ready && p.curN == "" && !Holds(s.secrets, Value(p.inst.trackedN), TransportConsumer))
    && (PastFinishT(p.pc) && p.ready ==> p.inst.tracked == p.cur)
    && (PastFinishN(p.pc) && p.ready ==> Value(p.inst.trackedN) == p.curN)
    && (PastFinishAC(p.pc) && p.ready ==> p.inst.trackedAC == p.inst.ac)
    && (PastPinAC(p.pc) && p.inst.ac != "" ==> Holds(s.secrets, p.inst.ac, ACConsumer))
    && (p.pc.PruneAC? || p.pc.Complete? ==>
          HoldersWithin(s.secrets, TransportConsumer, {p.inst.tracked, p.cur, Value(p.inst.trackedN), p.curN}))
    && (p.pc.Complete? ==> HoldersWithin(s.secrets, ACConsumer, {p.inst.trackedAC, p.inst.ac}))
    && (p.pc.DelPruneAC? || p.pc.DelDrop? ==> NoHolder(s.secrets, TransportConsumer))
    && (p.pc.DelDrop? ==> NoHolder(s.secrets, ACConsumer))
  }

  ghost predicate Ledger(s: State) {
    && (!s.cr.finalizer ==>
          s.parent.Idle? && NoHolder(s.secrets, TransportConsumer) && NoHolder(s.secrets, ACConsumer))
    && (s.parent.Running? ==> StatusMoves(s) && TailOk(s))
  }

  // ---------------------------------------------------------------- preservation

  predicate IsEnvironmentAction(a: Action) {
    a.RotateTransport? || a.IssueNotif? || a.EditServices? || a.ToggleNotif? || a.RequestAC? || a.BumpInputs?
    || a.CreateSecret? || a.DeleteSecret? || a.DeleteManila?
  }

  lemma ServiceKeepsRest(s: State, a: Action)
    requires Enabled(s, a) && IsServiceAction(a)
    ensures Step(s, a) == s.(svcs := Step(s, a).svcs)
  {
  }

  /** Steps of the environment and of the services move no finalizer and no tracked name. */
  lemma OutsideKeepsLedger(s: State, a: Action)
    requires Ledger(s) && Enabled(s, a) && (IsEnvironmentAction(a) || IsServiceAction(a))
    ensures Ledger(Step(s, a))
    ensures forall x, f :: Holds(s.secrets, x, f) <==> Holds(Step(s, a).secrets, x, f)
    ensures Step(s, a).parent == s.parent
    ensures Step(s, a).cr.tracked == s.cr.tracked && Step(s, a).cr.trackedN == s.cr.trackedN
    ensures Step(s, a).cr.trackedAC == s.cr.trackedAC && Step(s, a).cr.finalizer == s.cr.finalizer
    ensures s.notifUrl.Some? ==> Step(s, a).notifUrl.Some?
  {
    if IsServiceAction(a) { ServiceKeepsRest(s, a); }
    assert forall x, f :: Holds(s.secrets, x, f) <==> Holds(Step(s, a).secrets, x, f);
  }

  /** Before the services are deployed nothing is released, so the ledger only has to
      follow the tracked names. */
  lemma PinsKeepLedger(s: State)
    requires Ledger(s) && NamesOk(s) && AdvanceEnabled(s)
    requires s.parent.pc.PinTransport? || s.parent.pc.PinNotif? || s.parent.pc.PinAC?
    ensures Ledger(DoAdvance(s))
  {
  }

  lemma ReadTransportKeepsLedger(s: State)
    requires Ledger(s) && NamesOk(s) && s.parent.Running? && s.parent.pc.ReadTransport?
    ensures Ledger(DoReadTransport(s))
  {
  }

  lemma ReadNotifKeepsLedger(s: State)
    requires Ledger(s) && NamesOk(s) && s.parent.Running? && s.parent.pc.ReadNotif?
    ensures Ledger(DoReadNotif(s))
  {
  }

  lemma ConfigKeepsLedger(s: State)
    requires Ledger(s) && NamesOk(s) && AdvanceEnabled(s)
    requires s.parent.pc.RenderConfig? || s.parent.pc.HashGate?
    ensures Ledger(DoAdvance(s))
  {
  }

  lemma ReleaseKeepsLedger(s: State)
    requires Ledger(s) && NamesOk(s) && ParentOk(s) && AdvanceEnabled(s)
    requires s.parent.pc.FinishTransport? || s.parent.pc.FinishAC?
    ensures Ledger(DoAdvance(s))
  {
  }

  lemma FinishNotifKeepsLedger(s: State)
    requires Ledger(s) && NamesOk(s) && ParentOk(s) && s.parent.Running? && s.parent.pc.FinishNotif?
    ensures Ledger(DoFinishNotif(s))
  {
  }

  lemma SettlingKeepsLedger(s: State)
    requires Ledger(s) && AdvanceEnabled(s) && Settles(s.parent.pc) && !s.parent.pc.FinishAC?
    ensures Ledger(DoAdvance(s))
  {
  }

  lemma AdvanceDeletionKeepsLedger(s: State)
    requires Ledger(s) && AdvanceEnabled(s) && !Normal(s.parent.pc)
    ensures Ledger(DoAdvance(s))
  {
  }

  lemma WritesKeepLedger(s: State, a: Action)
    requires Ledger(s) && Enabled(s, a) && (a.DeployOne? || a.CleanupOne?)
    ensures Ledger(Step(s, a))
  {
  }

  lemma EndsKeepLedger(s: State, a: Action)
    requires Ledger(s) && Base(s) && Enabled(s, a) && (a.Adopt? || a.Start? || a.Exit? || a.Crash?)
    ensures Ledger(Step(s, a))
  {
  }

  lemma PruneKeepsLedger(s: State, x: Name)
    requires Ledger(s) && PruneEnabled(s, x)
    ensures Ledger(DoPrune(s, x))
  {
  }

  lemma AdvanceKeepsLedger(s: State)
    requires Ledger(s) && Base(s) && AdvanceEnabled(s)
    ensures Ledger(DoAdvance(s))
  {
    var pc := s.parent.pc;
    if !Normal(pc) { AdvanceDeletionKeepsLedger(s); }
    else if pc.FinishTransport? || pc.FinishAC? { ReleaseKeepsLedger(s); }
    else if pc.FinishNotif? { FinishNotifKeepsLedger(s); }
    else if Settles(pc) { SettlingKeepsLedger(s); }
    else if pc.PinTransport? || pc.PinNotif? || pc.PinAC? { PinsKeepLedger(s); }
    else if pc.ReadTransport? { ReadTransportKeepsLedger(s); }
    else if pc.ReadNotif? { ReadNotifKeepsLedger(s); }
    else { ConfigKeepsLedger(s); }
  }

  lemma StepKeepsLedger(s: State, a: Action)
    requires Ledger(s) && Base(s) && Enabled(s, a)
    ensures Ledger(Step(s, a))
  {
    if IsEnvironmentAction(a) || IsServiceAction(a) { OutsideKeepsLedger(s, a); }
    else if a.Advance? { AdvanceKeepsLedger(s); }
    else if a.PruneOne? { PruneKeepsLedger(s, a.x); }
    else if a.DeployOne? || a.CleanupOne? { WritesKeepLedger(s, a); }
    else { EndsKeepLedger(s, a); }
  }

  lemma {:induction false} RunLedger(ss: seq<State>, acts: seq<Action>, i: nat)
    requires IsRun(ss, acts) && i < |ss|
    ensures Inv(ss[i]) && Ledger(ss[i])
  {
    RunInv(ss, acts, i);
    if i > 0 {
      RunLedger(ss, acts, i - 1);
      RunStep(ss, acts, i - 1);
      StepKeepsLedger(ss[i - 1], acts[i - 1]);
    }
  }
}
