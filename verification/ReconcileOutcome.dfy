/** Where one undisturbed reconcile of the Manila ends, field by field, for every input it can
    find: said of the objects before and after alone, and proved of the steps taken. */
module ReconcileOutcome {
  import opened Options
  import opened RotationState
  import opened RotationSteps
  import opened RotationSafety
  import opened RotationEffects

  // ---------------------------------------------------------------- the inputs found

  /** The names of the notifications secret and of the secrets to pin. */
  function NotifFound(s: State): Name { if s.cr.notifOn then Value(s.notifUrl) else "" }

  function UrlSecrets(s: State): set<Name> {
    if s.cr.notifOn then {s.url, NotifFound(s)} else {s.url}
  }

  /** The status with the first messaging name tracked, and notifications said to be tracked. */
  function FirstNames(s: State): ManilaCR {
    s.cr.(tracked := if s.cr.tracked == "" then s.url else s.cr.tracked,
          trackedN := if s.cr.notifOn && s.cr.trackedN == None then Some("") else s.cr.trackedN)
  }

  /** The finalizer put on the secrets named. */
  function Holding(secrets: map<Name, set<Finalizer>>, names: set<Name>, f: Finalizer): map<Name, set<Finalizer>> {
    map x | x in secrets :: if x in names then secrets[x] + {f} else secrets[x]
  }

  predicate UrlsFound(s: State) {
    && s.url != "" && s.url in s.secrets
    && (s.cr.notifOn ==> NotifFound(s) != "" && NotifFound(s) in s.secrets)
  }

  // ---------------------------------------------------------------- the end

  /** The end of a reconcile that finds an input missing. */
  predicate StopsEarly(s: State, e: State) {
    if s.url == "" then e == s
    else if s.url !in s.secrets then e == s.(cr := s.cr.(tracked := FirstNames(s).tracked))
    else if s.cr.notifOn && (NotifFound(s) == "" || NotifFound(s) !in s.secrets) then
      e == s.(secrets := Holding(s.secrets, {s.url}, TransportConsumer), notifUrl := Some(NotifFound(s)),
              cr := FirstNames(s))
    else
      && s.cr.ac != "" && s.cr.ac !in s.secrets
      && e == s.(secrets := Holding(s.secrets, UrlSecrets(s), TransportConsumer), cr := FirstNames(s))
  }

  /** Every service of the spec is read back as having applied these names. */
  predicate AllRolled(services: map<ServiceId, Template>, svcs: map<ServiceId, Service>, t: Name, n: Name) {
    forall c | c in services ::
      c in svcs && svcs[c].versions != [] &&
      var v := Last(svcs[c]);
      v.gen == v.obs && v.applied == Some(Pair(t, n)) && v.ready == services[c].replicas
  }

  /** What becomes of one service object: created, updated, marked for deletion or left. */
  predicate ServiceLeft(was: Option<Service>, wanted: Option<ServiceSpec>, share: bool, k: Service) {
    match wanted
    case Some(spec) =>
      var made := ServiceCR(spec, 1, 0, None, None, 0, false);
      if was.None? then k == Service([made], 0, true, None, None, map[], Resting)
      else if !was.value.live then
        k == was.value.(versions := was.value.versions + [made], born := |was.value.versions|, live := true)
      else
        && was.value.versions != []
        && var v := Last(was.value);
        k == if v.spec == spec then was.value
             else was.value.(versions := was.value.versions + [v.(spec := spec, gen := v.gen + 1)])
    case None =>
      && was.Some? && was.value.versions != []
      && var v := Last(was.value);
      k == if share && was.value.live && !v.deleting
           then was.value.(versions := was.value.versions + [v.(deleting := true)])
           else was.value
  }

  function Entry<K, V>(m: map<K, V>, k: K): Option<V> { if k in m then Some(m[k]) else None }

  function Wanted(s: State, c: ServiceId): Option<ServiceSpec> {
    if c in s.cr.services then Some(ServiceSpec(s.url, NotifFound(s), s.cr.services[c])) else None
  }

  predicate ServicesLeft(s: State, e: State) {
    && e.svcs.Keys == s.svcs.Keys + s.cr.services.Keys
    && forall c | c in e.svcs :: ServiceLeft(Entry(s.svcs, c), Wanted(s, c), c.Share?, e.svcs[c])
  }

  /** A tracked name moves on if there was none or every service has rolled out. */
  predicate Moved(was: Name, cur: Name, ready: bool, now: Name) {
    now == if was == "" || ready then cur else was
  }

  /** The names the status tracks, and whether the notifications TransportURL is still there. */
  predicate NamesLeft(s: State, e: State, ready: bool) {
    var early := FirstNames(s);
    && e.cr == s.cr.(tracked := e.cr.tracked, trackedN := e.cr.trackedN, trackedAC := e.cr.trackedAC)
    && Moved(early.tracked, s.url, ready, e.cr.tracked)
    && Moved(s.cr.trackedAC, s.cr.ac, ready, e.cr.trackedAC)
    && if s.cr.notifOn
       then e.notifUrl == s.notifUrl && e.cr.trackedN.Some? &&
            Moved(Value(early.trackedN), NotifFound(s), ready, e.cr.trackedN.value)
       else if Value(s.cr.trackedN) != "" && ready then e.notifUrl == None && e.cr.trackedN == None
       else e.notifUrl == s.notifUrl && e.cr.trackedN == s.cr.trackedN
  }

  /** The secrets of the tracked and the current names keep a finalizer or get theirs; no
      other secret has one. */
  predicate HoldersLeft(s: State, e: State) {
    && e.secrets.Keys == s.secrets.Keys
    && forall x | x in s.secrets ::
         && (TransportConsumer in e.secrets[x] <==>
               x in UrlSecrets(s) ||
               (TransportConsumer in s.secrets[x] &&
                x in {e.cr.tracked, Value(e.cr.trackedN), NotifFound(s)}))
         && (ACConsumer in e.secrets[x] <==>
               (x == s.cr.ac && x != "") ||
               (ACConsumer in s.secrets[x] && x in {e.cr.trackedAC, s.cr.ac}))
  }

  /** The end of a reconcile that finds its inputs: a new configuration is rendered, its hash
      recorded, and that is all; otherwise every service is brought to the names read. */
  predicate GoesOn(s: State, e: State) {
    var config := Config(s.url, NotifFound(s), s.cr.ac, s.extra);
    if s.cr.hash != Some(config) then
      e == s.(secrets := Holding(s.secrets, UrlSecrets(s), TransportConsumer), cfg := Some(config),
              cr := FirstNames(s).(hash := Some(config)))
    else
      && e == s.(secrets := e.secrets, notifUrl := e.notifUrl, cr := e.cr, cfg := Some(config), svcs := e.svcs)
      && ServicesLeft(s, e)
      && NamesLeft(s, e, AllRolled(s.cr.services, e.svcs, s.url, NotifFound(s)))
      && HoldersLeft(s, e)
  }

  /** The end of a reconcile of a Manila that has its finalizer and is not being deleted. */
  predicate Ends(s: State, e: State) {
    if UrlsFound(s) && (s.cr.ac == "" || s.cr.ac in s.secrets) then GoesOn(s, e) else StopsEarly(s, e)
  }

  // ---------------------------------------------------------------- the steps end there

  lemma GateClosed(s: State)
    requires CanReconcile(s) && s.cr.hash != Some(WantedConfig(s))
    ensures GoesOn(s, ParentEffect(s))
  {
    assert Pinned(s) == Holding(s.secrets, UrlSecrets(s), TransportConsumer);
  }

  lemma FirstNamesAre(s: State)
    ensures EarlyInst(s) == FirstNames(s) && NotifName(s) == NotifFound(s)
  {
  }

  lemma DeployedIs(m: State, c: ServiceId)
    requires m.parent.Running? && c in m.parent.inst.services && (c in m.svcs ==> m.svcs[c].versions != [])
    requires DeployEnabled(m, c, Fresh(m, c))
    ensures ServiceLeft(Entry(m.svcs, c), Some(ServiceSpec(m.parent.cur, m.parent.curN, m.parent.inst.services[c])),
                        c.Share?, DeployService(m, c, Fresh(m, c)))
  {
  }

  /** A service of the spec, once deployed; marking strays leaves it. */
  lemma RolledOutWanted(p: State, c: ServiceId)
    requires p.parent.Running? && forall d | d in p.svcs :: p.svcs[d].versions != []
    requires c in p.parent.inst.services
    ensures var q, m := RolledOut(p), DoPinAC(p);
            && c in q.svcs && q.svcs[c] == DeployService(m, c, Fresh(m, c)) && q.svcs[c].versions != []
            && Last(q.svcs[c]) == DeployObject(m, c, Fresh(m, c))
            && Last(q.svcs[c]).spec == ServiceSpec(p.parent.cur, p.parent.curN, p.parent.inst.services[c])
  {
  }

  lemma RolledOutUnwanted(p: State, c: ServiceId)
    requires p.parent.Running? && forall d | d in p.svcs :: p.svcs[d].versions != []
    requires c in p.svcs && c !in p.parent.inst.services
    ensures c in RolledOut(p).svcs
    ensures RolledOut(p).svcs[c] ==
              if c.Share? && p.svcs[c].live && !Last(p.svcs[c]).deleting then Marked(p.svcs[c]) else p.svcs[c]
  {
  }

  lemma RolledOutFrame(p: State)
    requires p.parent.Running? && forall c | c in p.svcs :: p.svcs[c].versions != []
    ensures var q, i := RolledOut(p), p.parent.inst;
            && q == p.(secrets := if i.ac == "" then p.secrets else AddFin(p.secrets, i.ac, ACConsumer),
                       svcs := q.svcs, parent := p.parent.(pc := FinishTransport, ready := q.parent.ready))
            && q.svcs.Keys == p.svcs.Keys + i.services.Keys
  {
  }

  lemma RolledOutGuard(p: State)
    requires p.parent.Running? && forall c | c in p.svcs :: p.svcs[c].versions != []
    ensures var m := DoPinAC(p);
            RolledOut(p).parent.ready <==>
              forall c | c in p.parent.inst.services ::
                Matches(DeployObject(m, c, Fresh(m, c)), p.parent.cur, p.parent.curN)
  {
  }

  lemma RolledOutReady(p: State)
    requires p.parent.Running? && forall c | c in p.svcs :: p.svcs[c].versions != []
    ensures RolledOut(p).parent.ready <==>
              AllRolled(p.parent.inst.services, RolledOut(p).svcs, p.parent.cur, p.parent.curN)
  {
    RolledOutGuard(p);
    var m := DoPinAC(p);
    assert forall c | c in m.svcs :: m.svcs[c].versions != [];
    hide RolledOut, DoPinAC, DeployService, DeployObject, Fresh, DeployEnabled;
    forall c | c in p.parent.inst.services
      ensures var k := RolledOut(p).svcs;
              && c in k && k[c].versions != [] && Last(k[c]) == DeployObject(m, c, Fresh(m, c))
              && Last(k[c]).spec.tmpl == p.parent.inst.services[c]
    {
      RolledOutWanted(p, c);
    }
  }

  lemma RolledOutAt(p: State, c: ServiceId)
    requires p.parent.Running? && (forall d | d in p.svcs :: p.svcs[d].versions != []) && c in RolledOut(p).svcs
    ensures var i := p.parent.inst;
            ServiceLeft(Entry(p.svcs, c),
                        if c in i.services
                        then Some(ServiceSpec(p.parent.cur, p.parent.curN, i.services[c])) else None,
                        c.Share?, RolledOut(p).svcs[c])
  {
    if c in p.parent.inst.services {
      RolledOutWanted(p, c);
      DeployedIs(DoPinAC(p), c);
      hide RolledOut, ServiceLeft, DeployService, Fresh;
    } else {
      RolledOutFrame(p);
      RolledOutUnwanted(p, c);
      hide RolledOut;
    }
  }

  lemma NamesEnd(s: State, q: State)
    requires q.parent.Running? && q.cr == s.cr && q.notifUrl == s.notifUrl && q.parent.inst == FirstNames(s)
    requires q.parent.cur == s.url && q.parent.curN == NotifFound(s)
    requires s.cr.notifOn ==> NotifFound(s) != ""
    ensures NamesLeft(s, Ended(q), q.parent.ready)
  {
  }

  lemma HoldersEnd(s: State, q: State)
    requires q.parent.Running? && q.parent.inst == FirstNames(s)
    requires q.parent.cur == s.url && q.parent.curN == NotifFound(s)
    requires var pinned := Holding(s.secrets, UrlSecrets(s), TransportConsumer);
             q.secrets == if s.cr.ac == "" then pinned else AddFin(pinned, s.cr.ac, ACConsumer)
    requires s.cr.ac == "" || s.cr.ac in s.secrets
    ensures HoldersLeft(s, Ended(q))
  {
  }

  lemma GateOpen(s: State)
    requires CanReconcile(s) && s.cr.hash == Some(WantedConfig(s))
    ensures GoesOn(s, ParentEffect(s))
  {
    FirstNamesAre(s);
    assert Pinned(s) == Holding(s.secrets, UrlSecrets(s), TransportConsumer);
    var p := Prepared(s);
    var q, e := RolledOut(p), ParentEffect(s);
    RolledOutFrame(p);
    RolledOutReady(p);
    forall c | c in q.svcs ensures ServiceLeft(Entry(s.svcs, c), Wanted(s, c), c.Share?, q.svcs[c]) {
      RolledOutAt(p, c);
    }
    hide RolledOut, ServiceLeft, FinalSecrets, AllRolled;
    NamesEnd(s, q);
    HoldersEnd(s, q);
  }

  /** A requested AC secret that is not there stops the reconcile after the two URLs. */
  lemma ACMissingEnds(s: State, e: State)
    requires UrlsFound(s) && s.cr.ac != "" && s.cr.ac !in s.secrets
    requires e == s.(secrets := Pinned(s), cr := Persist(s.cr, EarlyInst(s)))
    ensures Ends(s, e)
  {
    assert Pinned(s) == Holding(s.secrets, UrlSecrets(s), TransportConsumer);
  }

  /** A reconcile that finds its inputs ends there. */
  lemma EffectEnds(s: State)
    requires CanReconcile(s)
    ensures Ends(s, ParentEffect(s))
  {
    if s.cr.hash == Some(WantedConfig(s)) { GateOpen(s); } else { GateClosed(s); }
  }
}
