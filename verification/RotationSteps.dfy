/** The protocol as a system of labelled atomic steps.  A parent or service reconcile is
    many steps, one for each API call, so every interleaving with the other controllers,
    the pods and the environment is a run; an error return or a crash may end a reconcile
    before any of its calls. */
module RotationSteps {
  import opened Options
  import opened RotationState

  /** The object CreateOrUpdate works on: a cached revision whose spec already is the
      desired one, the current object that gets updated, or a new object. */
  datatype Snapshot = Cached(k: nat) | Updated | Created

  datatype Action =
    // environment
    | RotateTransport(x: Name) | IssueNotif(x: Name) | EditServices(m: map<ServiceId, Template>)
    | ToggleNotif(on: bool) | RequestAC(x: Name) | BumpInputs | CreateSecret(x: Name)
    | DeleteSecret(x: Name) | DeleteManila
    // parent
    | Adopt | Start | Advance | DeployOne(c: ServiceId, snap: Snapshot) | CleanupOne(c: ServiceId)
    | PruneOne(x: Name) | Exit | Crash
    // services and pods
    | ServiceStart(c: ServiceId, j: nat) | ServiceAdvance(c: ServiceId)
    | ServiceCheck(c: ServiceId, ready: nat, rolled: bool) | ServiceExit(c: ServiceId)
    | ServiceCrash(c: ServiceId) | ServiceGone(c: ServiceId)
    | PodStart(c: ServiceId, i: nat) | PodRestart(c: ServiceId, i: nat) | PodStop(c: ServiceId, i: nat)

  // ---------------------------------------------------------------- parent, normal reconcile

  function Leave(s: State): State
    requires s.parent.Running?
  {
    s.(cr := Persist(s.cr, s.parent.inst), parent := Idle)
  }

  function At(s: State, pc: ParentPc): State
    requires s.parent.Running?
  {
    s.(parent := s.parent.(pc := pc))
  }

  /** The calls made when deletion starts: both tracked transport names, the names held by
      the TransportURLs that exist, then the tracked and the requested AC secret. */
  function DeleteWork(s: State): seq<(Name, Finalizer)> {
    [(s.cr.tracked, TransportConsumer), (s.url, TransportConsumer)] +
    (if s.notifUrl.Some? then [(s.notifUrl.value, TransportConsumer)] else []) +
    (if s.cr.trackedN.Some? then [(s.cr.trackedN.value, TransportConsumer)] else []) +
    [(s.cr.trackedAC, ACConsumer), (s.cr.ac, ACConsumer)]
  }

  function DoStart(s: State): State {
    s.(parent := Running(if s.cr.deleting then DelList(DeleteWork(s)) else ReadTransport, s.cr, "", "", true))
  }

  function DoReadTransport(s: State): State
    requires s.parent.Running?
  {
    if s.url == "" then Leave(s)
    else
      var p := s.parent;
      s.(parent := p.(pc := PinTransport, cur := s.url,
                      inst := p.inst.(tracked := if p.inst.tracked == "" then s.url else p.inst.tracked)))
  }

  function DoPinTransport(s: State): State
    requires s.parent.Running?
  {
    At(s.(secrets := AddFin(s.secrets, s.parent.cur, TransportConsumer)), ReadNotif)
  }

  /** The early status and a missing TransportURL are set on the way to reading its secret. */
  function DoReadNotif(s: State): State
    requires s.parent.Running?
  {
    var p := s.parent;
    if !p.inst.notifOn then At(s, RenderConfig)
    else if p.inst.trackedN.None? then s.(parent := p.(inst := p.inst.(trackedN := Some(""))))
    else if s.notifUrl.None? then s.(notifUrl := Some(""))
    else if s.notifUrl.value == "" then Leave(s)
    else s.(parent := p.(pc := PinNotif, curN := s.notifUrl.value))
  }

  function DoPinNotif(s: State): State
    requires s.parent.Running?
  {
    At(s.(secrets := AddFin(s.secrets, s.parent.curN, TransportConsumer)), RenderConfig)
  }

  function DoRenderConfig(s: State): State
    requires s.parent.Running?
  {
    At(s.(cfg := Some(Config(s.parent.cur, s.parent.curN, s.parent.inst.ac, s.extra))), HashGate)
  }

  function DoHashGate(s: State): State
    requires s.parent.Running?
  {
    if s.parent.inst.hash == s.cfg then At(s, PinAC)
    else s.(cr := Persist(s.cr, s.parent.inst.(hash := s.cfg)), parent := Idle)
  }

  function DoPinAC(s: State): State
    requires s.parent.Running?
  {
    var ac := s.parent.inst.ac;
    var s' := if ac == "" then s else s.(secrets := AddFin(s.secrets, ac, ACConsumer));
    s'.(parent := s'.parent.(pc := Deploy(s'.parent.inst.services.Keys), ready := true))
  }

  predicate DeployEnabled(s: State, c: ServiceId, snap: Snapshot)
    requires s.parent.Running?
  {
    var p := s.parent;
    && p.pc.Deploy? && c in p.pc.todo && c in p.inst.services
    && match snap
       case Cached(k) => c in s.svcs && k < |s.svcs[c].versions| &&
                         s.svcs[c].versions[k].spec == Desired(p.inst, c, p.cur, p.curN)
       case Updated => c in s.svcs && s.svcs[c].live && s.svcs[c].versions != [] &&
                       Last(s.svcs[c]).spec != Desired(p.inst, c, p.cur, p.curN)
       case Created => c !in s.svcs || !s.svcs[c].live
  }

  /** The revision CreateOrUpdate hands back. */
  function DeployObject(s: State, c: ServiceId, snap: Snapshot): ServiceCR
    requires s.parent.Running? && DeployEnabled(s, c, snap)
  {
    var d := Desired(s.parent.inst, c, s.parent.cur, s.parent.curN);
    match snap
    case Cached(k) => s.svcs[c].versions[k]
    case Updated => Last(s.svcs[c]).(spec := d, gen := Last(s.svcs[c]).gen + 1)
    case Created => ServiceCR(d, 1, 0, None, None, 0, false)
  }

  function DeployService(s: State, c: ServiceId, snap: Snapshot): Service
    requires s.parent.Running? && DeployEnabled(s, c, snap)
  {
    var v := DeployObject(s, c, snap);
    match snap
    case Cached(_) => s.svcs[c]
    case Updated => s.svcs[c].(versions := s.svcs[c].versions + [v])
    case Created =>
      if c in s.svcs then s.svcs[c].(versions := s.svcs[c].versions + [v], born := |s.svcs[c].versions|, live := true)
      else Service([v], 0, true, None, None, map[], Resting)
  }

  function DoDeploy(s: State, c: ServiceId, snap: Snapshot): State
    requires s.parent.Running? && DeployEnabled(s, c, snap)
  {
    var p := s.parent;
    var v := DeployObject(s, c, snap);
    s.(svcs := s.svcs[c := DeployService(s, c, snap)],
       parent := p.(pc := Deploy(p.pc.todo - {c}), ready := p.ready && Matches(v, p.cur, p.curN)))
  }

  predicate CleanupEnabled(s: State, c: ServiceId) {
    && s.parent.Running? && s.parent.pc.Cleanup? && c.Share? && c !in s.parent.inst.services
    && c in s.svcs && s.svcs[c].live && s.svcs[c].versions != [] && !Last(s.svcs[c]).deleting
  }

  function DoCleanup(s: State, c: ServiceId): State
    requires CleanupEnabled(s, c)
  {
    var k := s.svcs[c];
    s.(svcs := s.svcs[c := k.(versions := k.versions + [Last(k).(deleting := true)])])
  }

  function DoFinishTransport(s: State): State
    requires s.parent.Running?
  {
    var p := s.parent;
    s.(secrets := Released(s.secrets, p.inst.tracked, p.cur, TransportConsumer, p.ready),
       parent := p.(pc := FinishNotif, inst := p.inst.(tracked := Rotated(p.inst.tracked, p.cur, p.ready))))
  }

  function DoFinishNotif(s: State): State
    requires s.parent.Running?
  {
    var p := s.parent;
    var was := Value(p.inst.trackedN);
    if p.curN != "" then
      s.(secrets := Released(s.secrets, was, p.curN, TransportConsumer, p.ready),
         parent := p.(pc := FinishAC, inst := p.inst.(trackedN := Some(Rotated(was, p.curN, p.ready)))))
    else if was != "" && p.ready then
      At(s.(secrets := DropFin(s.secrets, was, TransportConsumer)), DropNotifUrl)
    else At(s, FinishAC)
  }

  function DoDropNotifUrl(s: State): State
    requires s.parent.Running?
  {
    s.(notifUrl := None, parent := s.parent.(pc := FinishAC, inst := s.parent.inst.(trackedN := None)))
  }

  function DoFinishAC(s: State): State
    requires s.parent.Running?
  {
    var p := s.parent;
    s.(secrets := Released(s.secrets, p.inst.trackedAC, p.inst.ac, ACConsumer, p.ready),
       parent := p.(pc := PruneTransport, inst := p.inst.(trackedAC := Rotated(p.inst.trackedAC, p.inst.ac, p.ready))))
  }

  /** The secrets a prune keeps: tracked and current names, nothing during deletion. */
  function Keep(p: Parent): set<Name>
    requires p.Running?
  {
    match p.pc
    case PruneTransport => {p.inst.tracked, p.cur, Value(p.inst.trackedN), p.curN}
    case PruneAC => {p.inst.trackedAC, p.inst.ac}
    case _ => {}
  }

  predicate Pruning(p: Parent) {
    p.Running? && (p.pc.PruneTransport? || p.pc.PruneAC? || p.pc.DelPruneTransport? || p.pc.DelPruneAC?)
  }

  function PruneFin(p: Parent): Finalizer
    requires Pruning(p)
  {
    if p.pc.PruneTransport? || p.pc.DelPruneTransport? then TransportConsumer else ACConsumer
  }

  predicate PruneEnabled(s: State, x: Name) {
    Pruning(s.parent) && x !in Keep(s.parent) && Holds(s.secrets, x, PruneFin(s.parent))
  }

  function DoPrune(s: State, x: Name): State
    requires PruneEnabled(s, x)
  {
    s.(secrets := DropFin(s.secrets, x, PruneFin(s.parent)))
  }

  predicate PruneDone(s: State)
    requires Pruning(s.parent)
  {
    forall x | x in s.secrets && x !in Keep(s.parent) :: PruneFin(s.parent) !in s.secrets[x]
  }

  // ---------------------------------------------------------------- parent, deletion

  function DoDelList(s: State): State
    requires s.parent.Running? && s.parent.pc.DelList?
  {
    var work := s.parent.pc.work;
    if work == [] then At(s, DelPruneTransport)
    else At(s.(secrets := DropFin(s.secrets, work[0].0, work[0].1)), DelList(work[1..]))
  }

  function DoDelDrop(s: State): State
    requires s.parent.Running?
  {
    s.(cr := s.cr.(finalizer := false), parent := Idle)
  }

  predicate AdvanceEnabled(s: State) {
    s.parent.Running? &&
    match s.parent.pc
    case PinTransport => s.parent.cur in s.secrets
    case PinNotif => s.parent.curN in s.secrets
    case RenderConfig => s.parent.cur in s.secrets && (s.parent.inst.ac == "" || s.parent.inst.ac in s.secrets)
    case PinAC => s.parent.inst.ac == "" || s.parent.inst.ac in s.secrets
    case Deploy(todo) => todo == {}
    case PruneTransport => PruneDone(s)
    case PruneAC => PruneDone(s)
    case DelPruneTransport => PruneDone(s)
    case DelPruneAC => PruneDone(s)
    case Complete => false
    case _ => true
  }

  function DoAdvance(s: State): State
    requires AdvanceEnabled(s)
  {
    match s.parent.pc
    case ReadTransport => DoReadTransport(s)
    case PinTransport => DoPinTransport(s)
    case ReadNotif => DoReadNotif(s)
    case PinNotif => DoPinNotif(s)
    case RenderConfig => DoRenderConfig(s)
    case HashGate => DoHashGate(s)
    case PinAC => DoPinAC(s)
    case Deploy(_) => At(s, Cleanup)
    case Cleanup => At(s, FinishTransport)
    case FinishTransport => DoFinishTransport(s)
    case FinishNotif => DoFinishNotif(s)
    case DropNotifUrl => DoDropNotifUrl(s)
    case FinishAC => DoFinishAC(s)
    case PruneTransport => At(s, PruneAC)
    case PruneAC => At(s, Complete)
    case Complete => s
    case DelList(_) => DoDelList(s)
    case DelPruneTransport => At(s, DelPruneAC)
    case DelPruneAC => At(s, DelDrop)
    case DelDrop => DoDelDrop(s)
  }

  // ---------------------------------------------------------------- services

  function Put(s: State, c: ServiceId, k: Service): State {
    s.(svcs := s.svcs[c := k])
  }

  predicate Active(s: State, c: ServiceId) {
    c in s.svcs && s.svcs[c].versions != [] && s.svcs[c].run.Reconciling?
  }

  /** A reconcile may begin from any revision of the present object that a cache may hold,
      unless that one says that the object is being deleted. */
  predicate StartEnabled(k: Service, j: nat) {
    k.live && k.run.Resting? && k.born <= j < |k.versions| && !k.versions[j].deleting
  }

  function Started(k: Service, j: nat): Service
    requires j < |k.versions|
  {
    k.(run := Reconciling(Verify, k.versions[j].(obs := k.versions[j].gen), k.versions[j]))
  }

  /** Verify reads the hash of the parent's configuration, Render reads it again and writes
      the service's own, Gate compares the input hash with the recorded one and stops after
      recording a new one, Patch writes CONFIG_HASH to the StatefulSet. */
  predicate AdvanceServiceEnabled(k: Service, cfg: Option<Config>, secrets: map<Name, set<Finalizer>>) {
    k.versions != [] && k.run.Reconciling? &&
    match k.run.pc
    case Verify => cfg.Some? && k.run.inst.spec.t in secrets &&
                   (k.run.inst.spec.n == "" || k.run.inst.spec.n in secrets)
    case Render(_) => cfg.Some?
    case Gate(_, _) => true
    case Patch(_) => true
    case Check(_) => false
    case Finished => false
  }

  function Advanced(k: Service, cfg: Option<Config>, secrets: map<Name, set<Finalizer>>): Service
    requires AdvanceServiceEnabled(k, cfg, secrets)
  {
    match k.run.pc
    case Verify => k.(run := k.run.(pc := Render(cfg.value)))
    case Render(seen) => k.(cfg := cfg, run := k.run.(pc := Gate(seen, cfg.value)))
    case Gate(seen, own) =>
      var input := Input(k.run.inst.spec.t, k.run.inst.spec.n, seen, own);
      if k.run.inst.hash == Some(input) then k.(run := k.run.(pc := Patch(input)))
      else Exited(k, k.run.base, k.run.inst.(hash := Some(input)))
    case Patch(input) => k.(sts := Some(input), run := k.run.(pc := Check(input)))
    case Check(_) => k
    case Finished => k
  }

  /** Every pod runs the template with this hash. */
  predicate RolledTo(k: Service, input: Input) {
    k.sts == Some(input) && forall i | i in k.pods :: k.pods[i].tmpl == input
  }

  function Checked(k: Service, ready: nat, rolled: bool): Service
    requires k.run.Reconciling?
  {
    var inst := k.run.inst.(ready := ready);
    k.(run := k.run.(pc := Finished,
         inst := if rolled then inst.(applied := Some(Pair(inst.spec.t, inst.spec.n))) else inst))
  }

  function Exited(k: Service, base: ServiceCR, inst: ServiceCR): Service
    requires k.versions != []
  {
    k.(versions := PersistService(k, base, inst), run := Resting)
  }

  function Crashed(k: Service): Service { k.(run := Resting) }

  function Gone(k: Service): Service { k.(live := false, cfg := None, sts := None, pods := map[]) }

  function PodStarted(k: Service, i: nat): Service
    requires k.sts.Some? && k.cfg.Some?
  {
    k.(pods := k.pods[i := Pod(k.sts.value, k.cfg.value)])
  }

  function PodRestarted(k: Service, i: nat): Service
    requires i in k.pods && k.cfg.Some?
  {
    k.(pods := k.pods[i := Pod(k.pods[i].tmpl, k.cfg.value)])
  }

  function PodStopped(k: Service, i: nat): Service { k.(pods := k.pods - {i}) }

  // ---------------------------------------------------------------- the step relation

  predicate Enabled(s: State, a: Action) {
    match a
    case RotateTransport(x) => x != "" && x !in s.issued && x !in s.issuedN
    case IssueNotif(x) => x != "" && x !in s.issued && x !in s.issuedN && s.notifUrl.Some?
    case EditServices(_) => true
    case ToggleNotif(_) => true
    case RequestAC(_) => true
    case BumpInputs => true
    case CreateSecret(x) => x !in s.secrets
    case DeleteSecret(x) => x in s.secrets && s.secrets[x] == {}
    case DeleteManila => s.cr.finalizer
    case Adopt => s.parent.Idle? && !s.cr.deleting && !s.cr.finalizer
    case Start => s.parent.Idle? && s.cr.finalizer
    case Advance => AdvanceEnabled(s)
    case DeployOne(c, snap) => s.parent.Running? && DeployEnabled(s, c, snap)
    case CleanupOne(c) => CleanupEnabled(s, c)
    case PruneOne(x) => PruneEnabled(s, x)
    case Exit => s.parent.Running?
    case Crash => s.parent.Running?
    case ServiceStart(c, j) => c in s.svcs && StartEnabled(s.svcs[c], j)
    case ServiceAdvance(c) => c in s.svcs && AdvanceServiceEnabled(s.svcs[c], s.cfg, s.secrets)
    case ServiceCheck(c, _, rolled) => Active(s, c) && s.svcs[c].run.pc.Check? &&
                                       (rolled ==> RolledTo(s.svcs[c], s.svcs[c].run.pc.input))
    case ServiceExit(c) => Active(s, c)
    case ServiceCrash(c) => Active(s, c)
    case ServiceGone(c) => c in s.svcs && s.svcs[c].live && s.svcs[c].versions != [] &&
                           s.svcs[c].run.Resting? && Last(s.svcs[c]).deleting
    case PodStart(c, _) => c in s.svcs && s.svcs[c].sts.Some? && s.svcs[c].cfg.Some?
    case PodRestart(c, i) => c in s.svcs && i in s.svcs[c].pods && s.svcs[c].cfg.Some?
    case PodStop(c, i) => c in s.svcs && i in s.svcs[c].pods
  }

  function WithSecret(secrets: map<Name, set<Finalizer>>, x: Name): map<Name, set<Finalizer>> {
    if x in secrets then secrets else secrets[x := {}]
  }

  function Step(s: State, a: Action): State
    requires Enabled(s, a)
  {
    match a
    case RotateTransport(x) => s.(url := x, issued := s.issued + {x}, secrets := WithSecret(s.secrets, x))
    case IssueNotif(x) => s.(notifUrl := Some(x), issuedN := s.issuedN + {x}, secrets := WithSecret(s.secrets, x))
    case EditServices(m) => s.(cr := s.cr.(services := m))
    case ToggleNotif(on) => s.(cr := s.cr.(notifOn := on))
    case RequestAC(x) => s.(cr := s.cr.(ac := x))
    case BumpInputs => s.(extra := s.extra + 1)
    case CreateSecret(x) => s.(secrets := s.secrets[x := {}])
    case DeleteSecret(x) => s.(secrets := s.secrets - {x})
    case DeleteManila => s.(cr := s.cr.(deleting := true))
    case Adopt => s.(cr := s.cr.(finalizer := true))
    case Start => DoStart(s)
    case Advance => DoAdvance(s)
    case DeployOne(c, snap) => DoDeploy(s, c, snap)
    case CleanupOne(c) => DoCleanup(s, c)
    case PruneOne(x) => DoPrune(s, x)
    case Exit => Leave(s)
    case Crash => s.(parent := Idle)
    case ServiceStart(c, j) => Put(s, c, Started(s.svcs[c], j))
    case ServiceAdvance(c) => Put(s, c, Advanced(s.svcs[c], s.cfg, s.secrets))
    case ServiceCheck(c, ready, rolled) => Put(s, c, Checked(s.svcs[c], ready, rolled))
    case ServiceExit(c) => Put(s, c, Exited(s.svcs[c], s.svcs[c].run.base, s.svcs[c].run.inst))
    case ServiceCrash(c) => Put(s, c, Crashed(s.svcs[c]))
    case ServiceGone(c) => Put(s, c, Gone(s.svcs[c]))
    case PodStart(c, i) => Put(s, c, PodStarted(s.svcs[c], i))
    case PodRestart(c, i) => Put(s, c, PodRestarted(s.svcs[c], i))
    case PodStop(c, i) => Put(s, c, PodStopped(s.svcs[c], i))
  }

  predicate Init(s: State) {
    && (forall x | x in s.secrets :: s.secrets[x] == {})
    && s.url == "" && s.notifUrl == None && s.issued == {} && s.issuedN == {}
    && s.cr.tracked == "" && s.cr.trackedN == None && s.cr.trackedAC == "" && s.cr.hash == None
    && !s.cr.deleting && !s.cr.finalizer
    && s.cfg == None && s.svcs == map[] && s.parent == Idle
  }

  ghost predicate Stepped(ss: seq<State>, acts: seq<Action>, i: nat)
    requires i < |acts| && |ss| == |acts| + 1
  {
    Enabled(ss[i], acts[i]) && ss[i + 1] == Step(ss[i], acts[i])
  }

  /** A run: its states, and the actions between them. */
  ghost predicate IsRun(ss: seq<State>, acts: seq<Action>) {
    && |ss| == |acts| + 1
    && Init(ss[0])
    && forall i | 0 <= i < |acts| :: Stepped(ss, acts, i)
  }
}
