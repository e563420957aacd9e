/** How the secrets a service reads become its input hash.  Hashes are injective in the
    model: the hash of a secret is its content, the input hash is the map of variables. */
module InputHash {
  import opened Options

  type Name = string

  /** A secret's content, standing for its hash. */
  type Hash = nat

  /** What a reconcile finds in the namespace: the contents of the secrets that exist, and
      the names whose read fails for another reason. */
  datatype Namespace = Namespace(secrets: map<Name, Hash>, broken: set<Name>)

  datatype Verdict = Verified | Waiting | ReadError

  function Key(name: Name): string { "secret-" + name }

  lemma KeyInjective(x: Name, y: Name)
    ensures Key(x) == Key(y) <==> x == y
  {
    assert Key(x)[7..] == x && Key(y)[7..] == y;
  }

  predicate Found(ns: Namespace, name: Name) { name == "" || (name in ns.secrets && name !in ns.broken) }

  predicate AllFound(names: seq<Name>, ns: Namespace) { forall i | 0 <= i < |names| :: Found(ns, names[i]) }

  /** The first name that cannot be read decides. */
  function Verify(names: seq<Name>, ns: Namespace): Verdict {
    if names == [] then Verified
    else if Found(ns, names[0]) then Verify(names[1..], ns)
    else if names[0] in ns.broken then ReadError else Waiting
  }

  /** All names before the i-th were read, and its own read fails. */
  predicate FailsAt(names: seq<Name>, ns: Namespace, i: nat)
    requires i < |names|
  {
    AllFound(names[..i], ns) && names[i] != "" && names[i] in ns.broken
  }

  /** All names before the i-th were read, and its secret is not there yet. */
  predicate WaitsAt(names: seq<Name>, ns: Namespace, i: nat)
    requires i < |names|
  {
    AllFound(names[..i], ns) && names[i] != "" && names[i] !in ns.secrets && names[i] !in ns.broken
  }

  /** There is at most one place to stop. */
  lemma OneStop(names: seq<Name>, ns: Namespace, i: nat)
    requires i < |names| && (FailsAt(names, ns, i) || WaitsAt(names, ns, i))
    ensures forall j | 0 <= j < |names| && (FailsAt(names, ns, j) || WaitsAt(names, ns, j)) :: j == i
  {
    assert !Found(ns, names[i]);
    forall j | 0 <= j < |names| && (FailsAt(names, ns, j) || WaitsAt(names, ns, j)) ensures j == i {
      assert !Found(ns, names[j]) && AllFound(names[..j], ns);
    }
  }

  /** The variables after the first names were read. */
  function Read(vars: map<string, Hash>, names: seq<Name>, ns: Namespace): map<string, Hash>
    requires AllFound(names, ns)
    decreases |names|
  {
    if names == [] then vars
    else
      var last := names[|names| - 1];
      var before := Read(vars, names[..|names| - 1], ns);
      if last == "" then before else before[Key(last) := ns.secrets[last]]
  }

  lemma {:induction false} VerifyAppend(names: seq<Name>, x: Name, ns: Namespace)
    ensures Verify(names, ns) == Verified ==> Verify(names + [x], ns) == Verify([x], ns)
    ensures Verify(names, ns) != Verified ==> Verify(names + [x], ns) == Verify(names, ns)
  {
    if names == [] {
      assert names + [x] == [x];
    } else {
      assert (names + [x])[1..] == names[1..] + [x];
      VerifyAppend(names[1..], x, ns);
    }
  }

  /** All names were read exactly if none is missing or broken. */
  lemma {:induction false} VerifiedIff(names: seq<Name>, ns: Namespace)
    ensures Verify(names, ns) == Verified <==> AllFound(names, ns)
  {
    if names != [] {
      VerifiedIff(names[1..], ns);
      assert names == [names[0]] + names[1..];
    }
  }

  lemma {:induction false} VerifyPrefix(names: seq<Name>, n: nat, ns: Namespace)
    requires n <= |names| && Verify(names[..n], ns) != Verified
    ensures Verify(names, ns) == Verify(names[..n], ns)
    decreases |names| - n
  {
    if n == |names| {
      assert names[..n] == names;
    } else {
      assert names[..n + 1] == names[..n] + [names[n]];
      VerifyAppend(names[..n], names[n], ns);
      VerifyPrefix(names, n + 1, ns);
    }
  }

  /** The variables that a reconcile collects and hashes. */
  class ConfigVars {
    var vars: map<string, Hash>

    constructor ()
      ensures vars == map[]
    {
      vars := map[];
    }

    /** verifyServiceSecret: the service secret is recorded under its bare name. */
    method VerifyServiceSecret(name: Name, ns: Namespace) returns (v: Verdict)
      modifies this
      ensures v == if name in ns.broken then ReadError else if name in ns.secrets then Verified else Waiting
      ensures vars == if v == Verified then old(vars)[name := ns.secrets[name]] else old(vars)
    {
      if name in ns.broken { return ReadError; }
      if name !in ns.secrets { return Waiting; }
      vars := vars[name := ns.secrets[name]];
      v := Verified;
    }

    /** verifyConfigSecrets: stops at the first secret that cannot be read. */
    method VerifyConfigSecrets(names: seq<Name>, ns: Namespace) returns (v: Verdict)
      modifies this
      ensures v == Verify(names, ns)
      ensures v == ReadError <==> exists i :: 0 <= i < |names| && FailsAt(names, ns, i)
      ensures v == Waiting <==> exists i :: 0 <= i < |names| && WaitsAt(names, ns, i)
      ensures forall i | 0 <= i < |names| && (FailsAt(names, ns, i) || WaitsAt(names, ns, i)) ::
                vars == Read(old(vars), names[..i], ns)
      ensures v == Verified ==> AllFound(names, ns) && vars == Read(old(vars), names, ns)
      ensures v != Verified ==>
                exists n :: 0 <= n < |names| && AllFound(names[..n], ns) && vars == Read(old(vars), names[..n], ns)
    {
      for i := 0 to |names|
        invariant Verify(names[..i], ns) == Verified && AllFound(names[..i], ns)
        invariant vars == Read(old(vars), names[..i], ns)
      {
        assert names[..i + 1] == names[..i] + [names[i]];
        VerifyAppend(names[..i], names[i], ns);
        if names[i] == "" { continue; }
        if names[i] in ns.broken || names[i] !in ns.secrets {
          VerifyPrefix(names, i + 1, ns);
          assert FailsAt(names, ns, i) || WaitsAt(names, ns, i);
          OneStop(names, ns, i);
          return if names[i] in ns.broken then ReadError else Waiting;
        }
        vars := vars[Key(names[i]) := ns.secrets[names[i]]];
      }
      assert names[..|names|] == names;
      forall i | 0 <= i < |names| ensures !FailsAt(names, ns, i) && !WaitsAt(names, ns, i) {
        assert Found(ns, names[i]);
      }
      v := Verified;
    }
  }

  // ---------------------------------------------------------------- what the hash sees

  /** The variables of a whole reconcile: the service secret, the listed secrets, and what
      later sections add (TLS bundle, rendered configuration). */
  function Vars(service: Name, names: seq<Name>, later: map<string, Hash>, ns: Namespace): map<string, Hash>
    requires service in ns.secrets && AllFound(names, ns)
  {
    Read(map[service := ns.secrets[service]], names, ns) + later
  }

  lemma {:induction false} ReadAt(vars: map<string, Hash>, names: seq<Name>, ns: Namespace, key: string)
    requires AllFound(names, ns)
    ensures (exists x :: x in names && x != "" && Key(x) == key) ==>
              key in Read(vars, names, ns) &&
              forall x | x in names && x != "" && Key(x) == key :: Read(vars, names, ns)[key] == ns.secrets[x]
    ensures !(exists x :: x in names && x != "" && Key(x) == key) ==>
              Get(Read(vars, names, ns), key) == Get(vars, key)
    decreases |names|
  {
    if names != [] {
      var n := |names| - 1;
      assert names == names[..n] + [names[n]];
      ReadAt(vars, names[..n], ns, key);
      forall x | x in names && x != "" && Key(x) == key && names[n] != "" && Key(names[n]) == key
        ensures x == names[n]
      {
        KeyInjective(x, names[n]);
      }
    }
  }

  function Get(vars: map<string, Hash>, key: string): Option<Hash> {
    if key in vars then Some(vars[key]) else None
  }

  /** The service secret's variable is overwritten by a listed secret or a later section. */
  predicate Shadowed(service: Name, names: seq<Name>, later: map<string, Hash>) {
    service in later || exists x :: x in names && x != "" && Key(x) == service
  }

  /** Two finds that agree on every secret the hash can see. */
  ghost predicate SameRead(service: Name, names: seq<Name>, later: map<string, Hash>, a: Namespace, b: Namespace)
    requires service in a.secrets && service in b.secrets
    requires AllFound(names, a) && AllFound(names, b)
  {
    && (Shadowed(service, names, later) || a.secrets[service] == b.secrets[service])
    && forall x | x in names && x != "" && Key(x) !in later :: a.secrets[x] == b.secrets[x]
  }

  lemma VarsAt(service: Name, names: seq<Name>, later: map<string, Hash>, ns: Namespace, key: string)
    requires service in ns.secrets && AllFound(names, ns)
    ensures key in later ==> Get(Vars(service, names, later, ns), key) == Some(later[key])
    ensures key !in later ==> forall x | x in names && x != "" && Key(x) == key ::
              Get(Vars(service, names, later, ns), key) == Some(ns.secrets[x])
    ensures key !in later && !(exists x :: x in names && x != "" && Key(x) == key) ==>
              Get(Vars(service, names, later, ns), key) == if key == service then Some(ns.secrets[service]) else None
  {
    ReadAt(map[service := ns.secrets[service]], names, ns, key);
  }

  /** No change is lost or invented: with the same names (duplicates and empty names
      included) and the same later variables, two input hashes are equal exactly if every
      read secret that is not shadowed is the same. */
  lemma SameHashIff(service: Name, names: seq<Name>, later: map<string, Hash>, a: Namespace, b: Namespace)
    requires service in a.secrets && service in b.secrets
    requires AllFound(names, a) && AllFound(names, b)
    ensures Vars(service, names, later, a) == Vars(service, names, later, b) <==> SameRead(service, names, later, a, b)
  {
    var va, vb := Vars(service, names, later, a), Vars(service, names, later, b);
    if SameRead(service, names, later, a, b) {
      forall key ensures Get(va, key) == Get(vb, key) {
        VarsAt(service, names, later, a, key);
        VarsAt(service, names, later, b, key);
        if x :| x in names && x != "" && Key(x) == key && key !in later {
          assert Get(va, key) == Some(a.secrets[x]) && Get(vb, key) == Some(b.secrets[x]);
        }
      }
      SameGet(va, vb);
    }
    if va == vb {
      forall x | x in names && x != "" && Key(x) !in later ensures a.secrets[x] == b.secrets[x] {
        VarsAt(service, names, later, a, Key(x));
        VarsAt(service, names, later, b, Key(x));
        assert Get(va, Key(x)) == Some(a.secrets[x]) && Get(vb, Key(x)) == Some(b.secrets[x]);
      }
      VarsAt(service, names, later, a, service);
      VarsAt(service, names, later, b, service);
    }
  }

  lemma SameGet(m: map<string, Hash>, m': map<string, Hash>)
    requires forall key :: Get(m, key) == Get(m', key)
    ensures m == m'
  {
    forall key ensures key in m <==> key in m' { assert Get(m, key) == Get(m', key); }
    forall key | key in m ensures m[key] == m'[key] { assert Get(m, key) == Get(m', key); }
  }

  /** With no collision every read secret counts. */
  lemma SameHashWithoutCollision(service: Name, names: seq<Name>, later: map<string, Hash>, a: Namespace, b: Namespace)
    requires service in a.secrets && service in b.secrets
    requires AllFound(names, a) && AllFound(names, b)
    requires !Shadowed(service, names, later) && forall x | x in names && x != "" :: Key(x) !in later
    ensures Vars(service, names, later, a) == Vars(service, names, later, b) <==>
              a.secrets[service] == b.secrets[service] &&
              forall x | x in names && x != "" :: a.secrets[x] == b.secrets[x]
  {
    SameHashIff(service, names, later, a, b);
  }

  /** A service secret called "secret-x" beside a listed secret x: its change goes unseen. */
  lemma CollisionLosesChange()
    ensures var a := Namespace(map["secret-x" := 1, "x" := 7], {});
            var b := Namespace(map["secret-x" := 2, "x" := 7], {});
            a != b && Vars("secret-x", ["x"], map[], a) == Vars("secret-x", ["x"], map[], b)
  {
    var a := Namespace(map["secret-x" := 1, "x" := 7], {});
    var b := Namespace(map["secret-x" := 2, "x" := 7], {});
    assert a.secrets["secret-x"] != b.secrets["secret-x"];
    assert "x" in ["x"] && Key("x") == "secret-x";
    SameHashIff("secret-x", ["x"], map[], a, b);
  }
}
