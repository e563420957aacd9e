/** Creating and cleaning up the ManilaShare objects.  A share's object carries the share's
    key in a label, written through one label map that all iterations of the loop share. */
module ShareCleanup {
  const SHARE_NAME := "share-name"
  const MANILA := "Manila"

  datatype OwnerRef = OwnerRef(kind: string, name: string, controller: bool)

  datatype ShareCR = ShareCR(labels: map<string, string>, owners: seq<OwnerRef>, spec: nat, deleting: bool) {
    /** No other object is the controller of this one. */
    predicate Controllable(owner: string) {
      forall ref | ref in owners && ref.controller :: ref.kind == MANILA && ref.name == owner
    }

    /** SetControllerReference */
    function Adopted(owner: string): ShareCR {
      var ref := OwnerRef(MANILA, owner, true);
      if ref in owners then this else this.(owners := owners + [ref])
    }
  }

  /** The name of the first owner of kind Manila, empty if there is none. */
  function GetOwningManilaName(owners: seq<OwnerRef>): (name: string)
    ensures (forall i | 0 <= i < |owners| :: owners[i].kind != MANILA) ==> name == ""
    ensures forall i | 0 <= i < |owners| && owners[i].kind == MANILA &&
              (forall j | 0 <= j < i :: owners[j].kind != MANILA) :: name == owners[i].name
  {
    if owners == [] then ""
    else if owners[0].kind == MANILA then owners[0].name
    else GetOwningManilaName(owners[1..])
  }

  /** The empty name if the label is missing. */
  function ShareName(cr: ShareCR): string { if SHARE_NAME in cr.labels then cr.labels[SHARE_NAME] else "" }

  predicate Owned(cr: ShareCR, owner: string) { GetOwningManilaName(cr.owners) == owner }

  function CrName(owner: string, key: string): string { owner + "-share-" + key }

  lemma CrNameInjective(owner: string, x: string, y: string)
    ensures CrName(owner, x) == CrName(owner, y) <==> x == y
  {
    var n := |owner + "-share-"|;
    assert CrName(owner, x)[n..] == x && CrName(owner, y)[n..] == y;
  }

  type Store = map<string, ShareCR>

  /** The store after CreateOrUpdate for a share.  Labels are written only on creation; an
      object without a controller is adopted, one with another controller is refused. */
  function Deployed(store: Store, owner: string, base: map<string, string>, key: string, spec: nat): Store {
    var n := CrName(owner, key);
    if n !in store then store[n := ShareCR(base[SHARE_NAME := key], [OwnerRef(MANILA, owner, true)], spec, false)]
    else if store[n].Controllable(owner) then store[n := store[n].Adopted(owner).(spec := spec)]
    else store
  }

  /** No object of one of these shares has another controller. */
  predicate AllControllable(store: Store, owner: string, keys: set<string>) {
    forall key | key in keys && CrName(owner, key) in store :: store[CrName(owner, key)].Controllable(owner)
  }

  /** The first owner of kind Manila is this one, and the label names no wanted share. */
  predicate Doomed(cr: ShareCR, owner: string, wanted: set<string>) {
    && (if "share-name" in cr.labels then cr.labels["share-name"] else "") !in wanted
    && ((exists i :: 0 <= i < |cr.owners| && FirstManila(cr.owners, i) && cr.owners[i].name == owner)
        || (owner == "" && forall ref | ref in cr.owners :: ref.kind != "Manila"))
  }

  predicate FirstManila(owners: seq<OwnerRef>, i: nat)
    requires i < |owners|
  {
    owners[i].kind == "Manila" && forall j | 0 <= j < i :: owners[j].kind != "Manila"
  }

  lemma {:induction false} OwnedIs(owners: seq<OwnerRef>, owner: string)
    ensures GetOwningManilaName(owners) == owner <==>
              (exists i :: 0 <= i < |owners| && FirstManila(owners, i) && owners[i].name == owner)
              || (owner == "" && forall ref | ref in owners :: ref.kind != "Manila")
  {
    if exists i :: 0 <= i < |owners| && owners[i].kind == MANILA {
      var i := FirstOf(owners);
      assert FirstManila(owners, i) && GetOwningManilaName(owners) == owners[i].name;
      assert owners[i] in owners;
    }
  }

  lemma {:induction false} FirstOf(owners: seq<OwnerRef>) returns (i: nat)
    requires exists i :: 0 <= i < |owners| && owners[i].kind == MANILA
    ensures i < |owners| && FirstManila(owners, i)
  {
    if owners[0].kind == MANILA {
      i := 0;
    } else {
      var k :| 0 <= k < |owners| && owners[k].kind == MANILA;
      assert owners[1..][k - 1].kind == MANILA;
      i := FirstOf(owners[1..]);
      i := i + 1;
    }
  }

  lemma StrayIsDoomed(cr: ShareCR, owner: string, wanted: set<string>)
    ensures Stray(cr, owner, wanted) <==> !cr.deleting && Doomed(cr, owner, wanted)
  {
    OwnedIs(cr.owners, owner);
  }

  /** An existing object with no other controller gets the spec and, unless it has it, this
      owner; its labels stay. */
  predicate Handed(was: ShareCR, store: Store, n: string, owner: string, spec: nat) {
    && (forall ref | ref in was.owners && ref.controller :: ref.kind == "Manila" && ref.name == owner)
    && n in store && store[n].labels == was.labels && store[n].spec == spec && store[n].deleting == was.deleting
    && OwnerRef("Manila", owner, true) in store[n].owners
    && (store[n].owners == was.owners || store[n].owners == was.owners + [OwnerRef("Manila", owner, true)])
  }

  predicate Stray(cr: ShareCR, owner: string, wanted: set<string>) {
    Owned(cr, owner) && ShareName(cr) !in wanted && !cr.deleting
  }

  function Cleaned(store: Store, owner: string, wanted: set<string>): Store {
    map n | n in store :: if Stray(store[n], owner, wanted) then store[n].(deleting := true) else store[n]
  }

  /** When an object that somebody else made under the operator's name survives: deployed for
      a share and then cleaned up, it stays undeleted exactly if it still is not owned, or
      the label it came with names a wanted share. */
  lemma AdoptedSurvivesIff(store: Store, owner: string, base: map<string, string>, key: string, spec: nat,
                           wanted: set<string>)
    requires CrName(owner, key) in store && store[CrName(owner, key)].Controllable(owner)
    ensures var n := CrName(owner, key);
            var cr := store[n].Adopted(owner).(spec := spec);
            !Cleaned(Deployed(store, owner, base, key, spec), owner, wanted)[n].deleting <==>
              !store[n].deleting && (!Owned(cr, owner) || ShareName(store[n]) in wanted)
  {
  }

  /** An object that a human created without the label, adopted and then deleted though its
      share is wanted. */
  lemma AdoptedShareIsDeleted()
    ensures var store := map[CrName("m", "a") := ShareCR(map[], [], 0, false)];
            Cleaned(Deployed(store, "m", map[], "a", 1), "m", {"a"})[CrName("m", "a")].deleting
  {
    AdoptedSurvivesIff(map[CrName("m", "a") := ShareCR(map[], [], 0, false)], "m", map[], "a", 1, {"a"});
    assert "" !in {"a"};
  }

  // ---------------------------------------------------------------- runs

  /** A share is deployed through some label map, shares are cleaned up; others create any
      objects, edit any labels and owners, and objects vanish. */
  datatype Event =
    | Deploy(base: map<string, string>, key: string, spec: nat)
    | Cleanup(wanted: set<string>)
    | Foreign(name: string, cr: ShareCR)
    | Edit(name: string, labels: map<string, string>, owners: seq<OwnerRef>)
    | Vanish(name: string)

  predicate Allowed(store: Store, e: Event) {
    match e
    case Foreign(n, _) => n !in store
    case Edit(n, _, _) => n in store
    case _ => true
  }

  function After(store: Store, owner: string, e: Event): Store
    requires Allowed(store, e)
  {
    match e
    case Deploy(base, key, spec) => Deployed(store, owner, base, key, spec)
    case Cleanup(wanted) => Cleaned(store, owner, wanted)
    case Foreign(n, cr) => store[n := cr]
    case Edit(n, labels, owners) => store[n := store[n].(labels := labels, owners := owners)]
    case Vanish(n) => store - {n}
  }

  ghost predicate IsRun(stores: seq<Store>, events: seq<Event>, owner: string) {
    && |stores| == |events| + 1 && stores[0] == map[]
    && forall i | 0 <= i < |events| :: Happens(stores, events, owner, i)
  }

  ghost predicate Happens(stores: seq<Store>, events: seq<Event>, owner: string, i: nat)
    requires i < |events| && |stores| == |events| + 1
  {
    Allowed(stores[i], events[i]) && stores[i + 1] == After(stores[i], owner, events[i])
  }

  /** Event m is the last one that wrote the labels of object n: it created or edited it. */
  ghost predicate LastWrite(stores: seq<Store>, events: seq<Event>, owner: string, m: nat, i: nat, n: string)
    requires m < i < |stores| && |stores| == |events| + 1
  {
    && Writes(stores[m], events[m], owner, n)
    && forall j | m < j < i :: !Writes(stores[j], events[j], owner, n) && events[j] != Vanish(n)
  }

  predicate Writes(store: Store, e: Event, owner: string, n: string) {
    match e
    case Deploy(_, key, _) => n == CrName(owner, key) && n !in store
    case Foreign(name, _) => name == n
    case Edit(name, _, _) => name == n
    case _ => false
  }

  /** What a write leaves: the operator's own object, or what somebody else says it is. */
  predicate WrittenBy(cr: ShareCR, e: Event, owner: string) {
    match e
    case Deploy(_, key, _) => ShareName(cr) == key && cr.owners == [OwnerRef(MANILA, owner, true)]
    case Foreign(_, theirs) => cr.labels == theirs.labels && OwnersFrom(cr, theirs.owners, owner)
    case Edit(_, labels, owners) => cr.labels == labels && OwnersFrom(cr, owners, owner)
    case _ => false
  }

  /** The owners somebody else wrote, or these after adoption. */
  predicate OwnersFrom(cr: ShareCR, owners: seq<OwnerRef>, owner: string) {
    cr.owners == owners || cr.owners == owners + [OwnerRef(MANILA, owner, true)]
  }

  /** Over every run, whatever label maps the operator went through, an object carries the
      metadata of the last event that wrote it. */
  lemma {:induction false} RunMetadata(stores: seq<Store>, events: seq<Event>, owner: string, i: nat, n: string)
    returns (m: nat)
    requires IsRun(stores, events, owner) && i < |stores| && n in stores[i]
    ensures m < i && LastWrite(stores, events, owner, m, i, n) && WrittenBy(stores[i][n], events[m], owner)
  {
    assert i > 0;
    assert Happens(stores, events, owner, i - 1);
    if Writes(stores[i - 1], events[i - 1], owner, n) {
      m := i - 1;
    } else {
      m := RunMetadata(stores, events, owner, i - 1, n);
    }
  }

  /** The operator created the object, and nobody has edited it since. */
  ghost predicate Mine(stores: seq<Store>, events: seq<Event>, owner: string, i: nat, n: string)
    requires i < |stores| && |stores| == |events| + 1
  {
    exists m :: 0 <= m < i && LastWrite(stores, events, owner, m, i, n) && events[m].Deploy?
  }

  lemma OneLastWrite(stores: seq<Store>, events: seq<Event>, owner: string, i: nat, n: string, m: nat, m': nat)
    requires |stores| == |events| + 1 && m < i < |stores| && m' < i
    requires LastWrite(stores, events, owner, m, i, n) && LastWrite(stores, events, owner, m', i, n)
    ensures m == m'
  {
  }

  /** The label of an object that is the operator's own is the spec key it is named after. */
  lemma MineIsLabelled(stores: seq<Store>, events: seq<Event>, owner: string, i: nat, key: string)
    requires IsRun(stores, events, owner) && i < |stores| && CrName(owner, key) in stores[i]
    requires Mine(stores, events, owner, i, CrName(owner, key))
    ensures Owned(stores[i][CrName(owner, key)], owner) && ShareName(stores[i][CrName(owner, key)]) == key
  {
    var n := CrName(owner, key);
    var m :| 0 <= m < i && LastWrite(stores, events, owner, m, i, n) && events[m].Deploy?;
    var m' := RunMetadata(stores, events, owner, i, n);
    OneLastWrite(stores, events, owner, i, n, m, m');
    CrNameInjective(owner, key, events[m].key);
  }

  /** What a cleanup does to the object of a wanted share, in every run: it deletes it if and
      only if somebody else was the last to write its metadata, and left it owned with a label
      that names no wanted share. */
  lemma WantedDeletedIff(stores: seq<Store>, events: seq<Event>, owner: string, i: nat, key: string)
    requires IsRun(stores, events, owner) && i < |events| && events[i].Cleanup? && key in events[i].wanted
    requires CrName(owner, key) in stores[i] && !stores[i][CrName(owner, key)].deleting
    ensures CrName(owner, key) in stores[i + 1]
    ensures stores[i + 1][CrName(owner, key)].deleting <==>
              && !Mine(stores, events, owner, i, CrName(owner, key))
              && Owned(stores[i][CrName(owner, key)], owner)
              && ShareName(stores[i][CrName(owner, key)]) !in events[i].wanted
    ensures !stores[i + 1][CrName(owner, key)].deleting ==>
              stores[i + 1][CrName(owner, key)] == stores[i][CrName(owner, key)]
  {
    assert Happens(stores, events, owner, i);
    if Mine(stores, events, owner, i, CrName(owner, key)) { MineIsLabelled(stores, events, owner, i, key); }
  }

  /** An unwanted share's own object is deleted by every cleanup, and an object that is not
      owned never is touched. */
  lemma UnwantedIsDeleted(stores: seq<Store>, events: seq<Event>, owner: string, i: nat, key: string)
    requires IsRun(stores, events, owner) && i < |events| && events[i].Cleanup? && key !in events[i].wanted
    requires CrName(owner, key) in stores[i] && Mine(stores, events, owner, i, CrName(owner, key))
    ensures CrName(owner, key) in stores[i + 1] && stores[i + 1][CrName(owner, key)].deleting
  {
    assert Happens(stores, events, owner, i);
    MineIsLabelled(stores, events, owner, i, key);
  }

  lemma UnownedIsUntouched(stores: seq<Store>, events: seq<Event>, owner: string, i: nat, n: string)
    requires IsRun(stores, events, owner) && i < |events| && events[i].Cleanup?
    requires n in stores[i] && !Owned(stores[i][n], owner)
    ensures n in stores[i + 1] && stores[i + 1][n] == stores[i][n]
  {
    assert Happens(stores, events, owner, i);
  }

  // ---------------------------------------------------------------- the reconciler

  /** The label map of one reconcile: a reference, shared by all the objects it builds. */
  class Labels {
    var entries: map<string, string>

    constructor (entries: map<string, string>)
      ensures this.entries == entries
    {
      this.entries := entries;
    }
  }

  class ShareReconciler {
    const owner: string
    var store: Store
    var readyCounts: map<string, nat>
    var faults: seq<bool>    // whether each coming API call fails

    constructor (owner: string, store: Store, readyCounts: map<string, nat>, faults: seq<bool>)
      ensures this.owner == owner && this.store == store && this.readyCounts == readyCounts && this.faults == faults
    {
      this.owner, this.store, this.readyCounts, this.faults := owner, store, readyCounts, faults;
    }

    method Call() returns (ok: bool)
      modifies `faults
      ensures ok == (old(faults) == [] || !old(faults)[0])
      ensures faults == if old(faults) == [] then [] else old(faults)[1..]
    {
      ok := true;
      if faults != [] {
        ok := !faults[0];
        faults := faults[1..];
      }
    }

    /** shareDeploymentCreateOrUpdate: the shared label map is updated first, and copied into
        the store only when the object is created. */
    method CreateOrUpdate(serviceLabels: Labels, key: string, spec: nat) returns (ok: bool)
      modifies `store, `faults, serviceLabels
      ensures serviceLabels.entries == old(serviceLabels.entries)[SHARE_NAME := key]
      ensures store == if ok then Deployed(old(store), owner, old(serviceLabels.entries), key, spec) else old(store)
      ensures ok <==> (old(faults) == [] || !old(faults)[0]) &&
                      (CrName(owner, key) in old(store) ==> old(store)[CrName(owner, key)].Controllable(owner))
      ensures ok && CrName(owner, key) !in old(store) ==>
                var labels := old(serviceLabels.entries)["share-name" := key];
                store == old(store)[CrName(owner, key) :=
                                    ShareCR(labels, [OwnerRef("Manila", owner, true)], spec, false)]
      ensures ok && CrName(owner, key) in old(store) ==>
                Handed(old(store)[CrName(owner, key)], store, CrName(owner, key), owner, spec)
      ensures faults == if old(faults) == [] then [] else old(faults)[1..]
    {
      serviceLabels.entries := serviceLabels.entries[SHARE_NAME := key];
      var n := CrName(owner, key);
      ok := Call();
      if !ok { return; }
      if n in store {
        ok := store[n].Controllable(owner);
        if !ok { return; }
        store := store[n := store[n].Adopted(owner).(spec := spec)];
      } else {
        store := store[n := ShareCR(serviceLabels.entries, [OwnerRef(MANILA, owner, true)], spec, false)];
      }
    }

    /** The loop over the spec: every share is deployed, a new object with its own key in its
        label whatever the shared map held before, an existing one with the labels it has. */
    method DeployShares(serviceLabels: Labels, shares: map<string, nat>) returns (ok: bool)
      modifies `store, `faults, serviceLabels
      ensures forall n | n in old(store) && (forall key | key in shares :: n != CrName(owner, key)) ::
                n in store && store[n] == old(store)[n]
      ensures ok ==> forall key | key in shares :: IsDeployed(old(store), store, owner, key, shares[key])
      ensures ok ==> AllControllable(old(store), owner, shares.Keys)
      ensures old(faults) == [] && AllControllable(old(store), owner, shares.Keys) ==> ok
    {
      ok := true;
      var todo := shares.Keys;
      while todo != {}
        invariant ok && todo <= shares.Keys && (old(faults) == [] ==> faults == [])
        invariant AllControllable(old(store), owner, shares.Keys - todo)
        invariant forall n | n in old(store) &&
                             (forall key | key in shares && key !in todo :: n != CrName(owner, key)) ::
                    n in store && store[n] == old(store)[n]
        invariant forall key | key in todo :: CrName(owner, key) in store <==> CrName(owner, key) in old(store)
        invariant forall key | key in todo && CrName(owner, key) in old(store) ::
                    store[CrName(owner, key)] == old(store)[CrName(owner, key)]
        invariant forall key | key in shares && key !in todo ::
                    IsDeployed(old(store), store, owner, key, shares[key])
        decreases |todo|
      {
        var key :| key in todo;
        DeployedElsewhere(store, owner, serviceLabels.entries, key, shares[key]);
        ok := CreateOrUpdate(serviceLabels, key, shares[key]);
        if !ok { return; }
        todo := todo - {key};
      }
    }

    /** shareCleanup: whether a cleanup job is due.  A failed List is swallowed; an object
        that has gone meanwhile is not an error. */
    method Cleanup(shares: map<string, nat>) returns (ok: bool, listed: bool, cleanJob: bool, ghost done: set<string>)
      modifies `store, `readyCounts, `faults
      ensures old(faults) == [] ==> ok && listed
      ensures ok && listed ==> store == Cleaned(old(store), owner, shares.Keys)
      ensures ok && listed ==>
                store.Keys == old(store).Keys &&
                forall n | n in store ::
                  var was := old(store)[n];
                  store[n] == was.(deleting := was.deleting || Doomed(was, owner, shares.Keys))
      ensures ok && listed ==>
                (cleanJob <==> exists n :: n in old(store) && !old(store)[n].deleting &&
                                           Doomed(old(store)[n], owner, shares.Keys))
      ensures cleanJob <==> StraysIn(old(store), owner, shares.Keys, done) != {}
      ensures ok && !listed ==> store == old(store) && !cleanJob
      ensures done <= old(store).Keys && store == CleanedTo(old(store), owner, shares.Keys, done)
      ensures CountsKept(old(readyCounts), readyCounts, shares.Keys)
      ensures ok && listed ==>
                forall name | name in old(readyCounts) ::
                  name !in readyCounts <==>
                    exists n :: n in old(store) && !old(store)[n].deleting &&
                                Doomed(old(store)[n], owner, shares.Keys) && ShareName(old(store)[n]) == name
    {
      hide *;
      ok, cleanJob, done := true, false, {};
      listed := Call();
      CleanedNone(store, owner, shares.Keys);
      CountsSame(readyCounts, shares.Keys);
      NoneCounted(readyCounts, store, owner, shares.Keys);
      if !listed { return; }
      var items := store;
      var todo := items.Keys;
      while todo != {}
        invariant old(faults) == [] ==> faults == []
        invariant ok && todo <= items.Keys && done == items.Keys - todo
        invariant store == CleanedTo(items, owner, shares.Keys, done)
        invariant cleanJob <==> StraysIn(items, owner, shares.Keys, done) != {}
        invariant CountsKept(old(readyCounts), readyCounts, shares.Keys)
        invariant Uncounted(old(readyCounts), readyCounts, items, owner, shares.Keys, done)
        decreases |todo|
      {
        var n :| n in todo;
        var deleted;
        CleanedOneMore(items, owner, shares.Keys, done, n);
        CountsDropped(old(readyCounts), readyCounts, shares.Keys, ShareName(items[n]));
        OneUncounted(old(readyCounts), readyCounts, items, owner, shares.Keys, done, n);
        ok, deleted := CleanOne(n, items[n], shares);
        if !ok { return; }
        cleanJob := cleanJob || deleted;
        assert items.Keys - (todo - {n}) == done + {n};
        todo, done := todo - {n}, done + {n};
      }
      assert done == items.Keys;
      CleanedMeans(items, owner, shares.Keys);
      AllUncounted(old(readyCounts), readyCounts, items, owner, shares.Keys);
    }

    method CleanOne(n: string, share: ShareCR, shares: map<string, nat>) returns (ok: bool, deleted: bool)
      modifies `store, `readyCounts, `faults
      ensures old(faults) == [] ==> ok && faults == []
      ensures ok ==> deleted == Stray(share, owner, shares.Keys)
      ensures store == if ok && deleted then old(store)[n := share.(deleting := true)] else old(store)
      ensures readyCounts == if ok && deleted then old(readyCounts) - {ShareName(share)} else old(readyCounts)
      ensures ok && deleted ==> ShareName(share) !in shares
    {
      ok, deleted := true, false;
      if GetOwningManilaName(share.owners) != owner { return; }
      if ShareName(share) !in shares && !share.deleting {
        ok := Call();
        if !ok { return; }
        store := store[n := share.(deleting := true)];
        readyCounts := readyCounts - {ShareName(share)};
        deleted := true;
      }
    }
  }

  /** Ready counts may go, but not those of wanted shares. */
  predicate CountsKept(was: map<string, nat>, now: map<string, nat>, wanted: set<string>) {
    && (forall name | name in now :: name in was && now[name] == was[name])
    && (forall name | name in was && name in wanted :: name in now)
  }

  lemma CountsSame(counts: map<string, nat>, wanted: set<string>)
    ensures CountsKept(counts, counts, wanted)
  {
  }

  lemma CountsDropped(was: map<string, nat>, now: map<string, nat>, wanted: set<string>, name: string)
    requires CountsKept(was, now, wanted)
    ensures name !in wanted ==> CountsKept(was, now - {name}, wanted)
  {
  }

  ghost function StraysIn(store: Store, owner: string, wanted: set<string>, done: set<string>): set<string> {
    set n | n in done && n in store && Stray(store[n], owner, wanted)
  }

  /** The store once the objects in `done` have been looked at. */
  ghost function CleanedTo(store: Store, owner: string, wanted: set<string>, done: set<string>): Store {
    map n | n in store :: if n in done && Stray(store[n], owner, wanted) then store[n].(deleting := true) else store[n]
  }

  lemma CleanedMeans(store: Store, owner: string, wanted: set<string>)
    ensures Cleaned(store, owner, wanted).Keys == store.Keys
    ensures forall n | n in store ::
              Cleaned(store, owner, wanted)[n] ==
                store[n].(deleting := store[n].deleting || Doomed(store[n], owner, wanted))
    ensures StraysIn(store, owner, wanted, store.Keys) != {} <==>
              exists n :: n in store && !store[n].deleting && Doomed(store[n], owner, wanted)
  {
    forall n | n in store
      ensures Stray(store[n], owner, wanted) <==> !store[n].deleting && Doomed(store[n], owner, wanted)
    {
      StrayIsDoomed(store[n], owner, wanted);
    }
    hide Stray, Doomed;
    if n :| n in store && !store[n].deleting && Doomed(store[n], owner, wanted) {
      assert n in StraysIn(store, owner, wanted, store.Keys);
    }
    if StraysIn(store, owner, wanted, store.Keys) != {} {
      var n :| n in StraysIn(store, owner, wanted, store.Keys);
      assert n in store && !store[n].deleting && Doomed(store[n], owner, wanted);
    }
  }

  /** Of the ready counts those of the strays looked at have gone. */
  ghost predicate Uncounted(was: map<string, nat>, now: map<string, nat>, store: Store, owner: string,
                            wanted: set<string>, done: set<string>)
  {
    forall name | name in was ::
      name !in now <==>
        exists n :: n in done && n in store && Stray(store[n], owner, wanted) && ShareName(store[n]) == name
  }

  lemma NoneCounted(was: map<string, nat>, store: Store, owner: string, wanted: set<string>)
    ensures Uncounted(was, was, store, owner, wanted, {})
  {
  }

  lemma OneUncounted(was: map<string, nat>, now: map<string, nat>, store: Store, owner: string, wanted: set<string>,
                     done: set<string>, n: string)
    requires Uncounted(was, now, store, owner, wanted, done) && n in store
    ensures Uncounted(was, if Stray(store[n], owner, wanted) then now - {ShareName(store[n])} else now,
                      store, owner, wanted, done + {n})
  {
    hide Stray, ShareName;
  }

  lemma AllUncounted(was: map<string, nat>, now: map<string, nat>, store: Store, owner: string, wanted: set<string>)
    requires Uncounted(was, now, store, owner, wanted, store.Keys)
    ensures forall name | name in was ::
              name !in now <==>
                exists n :: n in store && !store[n].deleting && Doomed(store[n], owner, wanted) &&
                            ShareName(store[n]) == name
  {
    forall n | n in store
      ensures Stray(store[n], owner, wanted) <==> !store[n].deleting && Doomed(store[n], owner, wanted)
    {
      StrayIsDoomed(store[n], owner, wanted);
    }
    hide Stray, Doomed, ShareName;
  }

  lemma CleanedNone(store: Store, owner: string, wanted: set<string>)
    ensures CleanedTo(store, owner, wanted, {}) == store
    ensures CleanedTo(store, owner, wanted, store.Keys) == Cleaned(store, owner, wanted)
    ensures StraysIn(store, owner, wanted, {}) == {}
  {
  }

  lemma CleanedOneMore(store: Store, owner: string, wanted: set<string>, done: set<string>, n: string)
    requires n in store
    ensures CleanedTo(store, owner, wanted, done + {n}) ==
              if Stray(store[n], owner, wanted)
              then CleanedTo(store, owner, wanted, done)[n := store[n].(deleting := true)]
              else CleanedTo(store, owner, wanted, done)
    ensures StraysIn(store, owner, wanted, done + {n}) ==
              StraysIn(store, owner, wanted, done) + if Stray(store[n], owner, wanted) then {n} else {}
  {
  }

  /** The object of share `key` has this spec, is controlled by the operator, and carries its
      key if it is new and its old labels if it is not. */
  predicate IsDeployed(was: Store, now: Store, owner: string, key: string, spec: nat) {
    var n := CrName(owner, key);
    && n in now && now[n].spec == spec && OwnerRef(MANILA, owner, true) in now[n].owners
    && (if n in was then now[n].labels == was[n].labels else ShareName(now[n]) == key)
  }

  lemma DeployedElsewhere(store: Store, owner: string, base: map<string, string>, key: string, spec: nat)
    ensures forall n | n in store && n != CrName(owner, key) ::
              n in Deployed(store, owner, base, key, spec) && Deployed(store, owner, base, key, spec)[n] == store[n]
    ensures forall k: string | k != key :: CrName(owner, k) != CrName(owner, key)
    ensures forall k: string | k != key ::
              CrName(owner, k) in Deployed(store, owner, base, key, spec) <==> CrName(owner, k) in store
  {
    forall k: string | k != key ensures CrName(owner, k) != CrName(owner, key) { CrNameInjective(owner, k, key); }
  }
}
