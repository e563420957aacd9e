/** The objects that the Manila controllers share through the API server, and the
    in-memory copy that each running reconcile works on.

    Hashes are injective in the model, so a hash is represented by what was hashed:
    the parent's input hash is the rendered `Config`, a service's input hash is an
    `Input`, and `AppliedInputSecretHash` is the `Pair` of secret names.  A secret
    name stands for an immutable credential; the empty name stands for "no secret". */
module RotationState {
  import opened Options

  type Name = string

  datatype Finalizer = TransportConsumer | ACConsumer

  datatype ServiceId = Api | Scheduler | Share(name: string)

  /** What the Manila spec says about one service: its replica count and all the rest. */
  datatype Template = Template(replicas: nat, rest: nat)

  /** Rendered configuration: the messaging, notifications and application-credential
      secrets it was rendered from, and a version standing for every other input. */
  datatype Config = Config(t: Name, n: Name, ac: Name, extra: nat)

  datatype Pair = Pair(t: Name, n: Name)

  /** A service's input hash: the secrets its spec names, the parent configuration whose
      hash was read, and the service's own configuration rendered from it. */
  datatype Input = Input(t: Name, n: Name, seen: Config, own: Config)

  datatype ServiceSpec = ServiceSpec(t: Name, n: Name, tmpl: Template)

  /** One revision of a ManilaAPI, ManilaScheduler or ManilaShare object. */
  datatype ServiceCR = ServiceCR(
    spec: ServiceSpec, gen: nat, obs: nat,
    hash: Option<Input>, applied: Option<Pair>, ready: nat, deleting: bool)

  /** A pod: the template it runs and the configuration it read when it started. */
  datatype Pod = Pod(tmpl: Input, cred: Config)

  datatype ServicePc =
    | Verify
    | Render(seen: Config)
    | Gate(seen: Config, own: Config)
    | Patch(input: Input)
    | Check(input: Input)
    | Finished

  /** A reconcile: its in-memory instance and the revision that it began from. */
  datatype ServiceRun = Resting | Reconciling(pc: ServicePc, inst: ServiceCR, base: ServiceCR)

  /** Everything kept about one service: every revision of its object (the last one is
      current, earlier ones may still sit in a cache, those of the present object begin at
      `born`), whether the object exists, its own configuration Secret, its StatefulSet's
      CONFIG_HASH, its pods and its reconcile. */
  datatype Service = Service(
    versions: seq<ServiceCR>, born: nat, live: bool, cfg: Option<Config>, sts: Option<Input>,
    pods: map<nat, Pod>, run: ServiceRun)

  /** The Manila object: spec (services, notifOn, ac), status (tracked names, input hash)
      and metadata (deleting, finalizer). */
  datatype ManilaCR = ManilaCR(
    services: map<ServiceId, Template>, notifOn: bool, ac: Name,
    tracked: Name, trackedN: Option<Name>, trackedAC: Name, hash: Option<Config>,
    deleting: bool, finalizer: bool)

  datatype ParentPc =
    | ReadTransport | PinTransport | ReadNotif | PinNotif | RenderConfig | HashGate | PinAC
    | Deploy(todo: set<ServiceId>)
    | Cleanup | FinishTransport | FinishNotif | DropNotifUrl | FinishAC
    | PruneTransport | PruneAC | Complete
    | DelList(work: seq<(Name, Finalizer)>) | DelPruneTransport | DelPruneAC | DelDrop

  /** The parent reconcile: its in-memory instance, the secret names it read from the two
      TransportURLs (`curN` is empty when notifications are off) and allServicesReady. */
  datatype Parent = Idle | Running(pc: ParentPc, inst: ManilaCR, cur: Name, curN: Name, ready: bool)

  datatype State = State(
    secrets: map<Name, set<Finalizer>>,
    url: Name,                       // status.secretName of the messaging TransportURL
    notifUrl: Option<Name>,          // the notifications TransportURL, if it exists
    issued: set<Name>,               // messaging secret names issued so far
    issuedN: set<Name>,              // notifications secret names issued so far
    extra: nat,                      // version of all other configuration inputs
    cr: ManilaCR,
    cfg: Option<Config>,             // the parent's config-data Secret
    svcs: map<ServiceId, Service>,
    parent: Parent)

  /** What becomes of one API call of a reconcile: it succeeds, it fails and the reconcile
      returns the error, or the process dies before it. */
  datatype Outcome = Fine | Refused | Died

  function Last(k: Service): ServiceCR
    requires k.versions != []
  {
    k.versions[|k.versions| - 1]
  }

  predicate Holds(secrets: map<Name, set<Finalizer>>, x: Name, f: Finalizer) {
    x in secrets && f in secrets[x]
  }

  /** ManageSecretConsumerFinalizer on an existing secret. */
  function AddFin(secrets: map<Name, set<Finalizer>>, x: Name, f: Finalizer): map<Name, set<Finalizer>> {
    if x in secrets then secrets[x := secrets[x] + {f}] else secrets
  }

  /** RemoveSecretConsumerFinalizer: ignores a missing secret. */
  function DropFin(secrets: map<Name, set<Finalizer>>, x: Name, f: Finalizer): map<Name, set<Finalizer>> {
    if x in secrets then secrets[x := secrets[x] - {f}] else secrets
  }

  /** The name FinalizeSecretRotation returns. */
  function Rotated(was: Name, cur: Name, guard: bool): Name {
    if was == "" || was == cur || guard then cur else was
  }

  /** The secrets FinalizeSecretRotation leaves. */
  function Released(secrets: map<Name, set<Finalizer>>, was: Name, cur: Name, f: Finalizer, guard: bool)
    : map<Name, set<Finalizer>>
  {
    if was == "" || was == cur || !guard then secrets else DropFin(secrets, was, f)
  }

  function Value(o: Option<Name>): Name {
    match o case None => "" case Some(x) => x
  }

  /** The spec the parent wants for service c. */
  function Desired(inst: ManilaCR, c: ServiceId, cur: Name, curN: Name): ServiceSpec
    requires c in inst.services
  {
    ServiceSpec(cur, curN, inst.services[c])
  }

  /** The readiness test of one service object against the expected input hash. */
  predicate Matches(v: ServiceCR, cur: Name, curN: Name) {
    v.gen == v.obs && v.applied == Some(Pair(cur, curN)) && v.ready == v.spec.tmpl.replicas
  }

  /** What PatchInstance writes back: the status fields of the in-memory instance. */
  function Persist(cr: ManilaCR, inst: ManilaCR): ManilaCR {
    cr.(tracked := inst.tracked, trackedN := inst.trackedN, trackedAC := inst.trackedAC, hash := inst.hash)
  }

  /** The status of v after a patch with what changed from base to inst. */
  function Patched(v: ServiceCR, base: ServiceCR, inst: ServiceCR): ServiceCR {
    v.(obs := if inst.obs == base.obs then v.obs else inst.obs,
       hash := if inst.hash == base.hash then v.hash else inst.hash,
       applied := if inst.applied == base.applied then v.applied else inst.applied,
       ready := if inst.ready == base.ready then v.ready else inst.ready)
  }

  /** PatchInstance for a service object: a revision is added only if something changed. */
  function PersistService(k: Service, base: ServiceCR, inst: ServiceCR): seq<ServiceCR>
    requires k.versions != []
  {
    var v := Patched(Last(k), base, inst);
    if v == Last(k) then k.versions else k.versions + [v]
  }
}
