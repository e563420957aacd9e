/** The HAProxy timeout annotation of the API route: who set it last, the operator or a
    human, is told from a second annotation, the operator's flag. */
module RouteTimeout {
  import opened Options

  const HAPROXY := "haproxy.router.openshift.io/timeout"
  const FLAG := "api.manila.openstack.org/timeout"

  type Annotations = map<string, string>

  function Get(a: Annotations, key: string): Option<string> {
    if key in a then Some(a[key]) else None
  }

  /** Decimal digits, as fmt's %d prints them. */
  function Digits(n: nat): (s: string)
    ensures s != ""
  {
    if n < 10 then [['0', '1', '2', '3', '4', '5', '6', '7', '8', '9'][n]]
    else Digits(n / 10) + Digits(n % 10)
  }

  /** The timeout text of an APITimeout, which may be negative. */
  function Timeout(seconds: int): string {
    (if seconds < 0 then "-" + Digits(-seconds) else Digits(seconds)) + "s"
  }

  /** The number that a string of digits stands for. */
  function Read(s: string): int {
    if s == "" then 0 else 10 * Read(s[..|s| - 1]) + (s[|s| - 1] as int - '0' as int)
  }

  predicate Decimal(s: string) {
    && s != "" && (forall i | 0 <= i < |s| :: '0' <= s[i] <= '9')
    && (|s| > 1 ==> s[0] != '0')
  }

  lemma {:induction false} ReadAppend(x: string, y: string, power: nat)
    requires power == Power(|y|)
    ensures Read(x + y) == Read(x) * power + Read(y)
    decreases |y|
  {
    if y == "" {
      assert x + y == x;
    } else {
      var init := y[..|y| - 1];
      assert (x + y)[..|x + y| - 1] == x + init;
      ReadAppend(x, init, Power(|init|));
    }
  }

  function Power(n: nat): nat { if n == 0 then 1 else 10 * Power(n - 1) }

  /** The digits of n are decimal digits without a leading zero, and read as n. */
  lemma {:induction false} DigitsRead(n: nat)
    ensures Decimal(Digits(n)) && Read(Digits(n)) == n
    decreases n
  {
    if n < 10 {
      assert Digits(n) == [Digits(n)[0]];
      assert Read(Digits(n)[..0]) == 0;
    } else {
      DigitsRead(n / 10);
      DigitsRead(n % 10);
      ReadAppend(Digits(n / 10), Digits(n % 10), 10);
      LeadingDigit(n / 10);
    }
  }

  lemma {:induction false} LeadingDigit(n: nat)
    requires n > 0
    ensures Digits(n)[0] != '0'
    decreases n
  {
    if n >= 10 { LeadingDigit(n / 10); }
  }

  /** The text of a timeout: a sign exactly for a negative one, the digits of its size, and
      the unit. */
  lemma TimeoutText(seconds: int)
    ensures var s := Timeout(seconds);
            && |s| > 1 && s[|s| - 1] == 's'
            && (s[0] == '-' <==> seconds < 0)
            && var sign := if seconds < 0 then 1 else 0;
            && Decimal(s[sign..|s| - 1]) && Read(s[sign..|s| - 1]) == if seconds < 0 then -seconds else seconds
  {
    var size := if seconds < 0 then -seconds else seconds;
    DigitsRead(size);
    var s, sign := Timeout(seconds), if seconds < 0 then 1 else 0;
    assert s[sign..|s| - 1] == Digits(size);
  }

  lemma TimeoutInjective(x: int, y: int)
    ensures Timeout(x) == Timeout(y) <==> x == y
  {
    TimeoutText(x);
    TimeoutText(y);
  }

  /** As the defaulting webhook writes them. */
  lemma TimeoutExamples()
    ensures Timeout(60) == "60s" && Timeout(0) == "0s" && Timeout(1205) == "1205s" && Timeout(-7) == "-7s"
  {
    assert Digits(60) == "6" + "0";
    assert Digits(12) == "1" + "2" && Digits(120) == "12" + "0" && Digits(1205) == "120" + "5";
  }

  /** A human owns the timeout: it is set, and the flag is not there or does not match. */
  predicate HumanOwned(a: Annotations) {
    HAPROXY in a && (FLAG !in a || a[FLAG] != a[HAPROXY])
  }

  /** What one call does to the annotations. */
  function Defaulted(a: Annotations, seconds: int): Annotations {
    if HumanOwned(a) then a - {FLAG} else a[FLAG := Timeout(seconds)][HAPROXY := Timeout(seconds)]
  }

  class Route {
    var annotations: Annotations

    constructor (annotations: Annotations)
      ensures this.annotations == annotations
    {
      this.annotations := annotations;
    }

    method SetDefaultRouteAnnotations(apiTimeout: int)
      modifies this
      ensures annotations == Defaulted(old(annotations), apiTimeout)
      ensures HAPROXY !in old(annotations) || Get(old(annotations), FLAG) == Get(old(annotations), HAPROXY) ==>
                Get(annotations, HAPROXY) == Get(annotations, FLAG) == Some(Timeout(apiTimeout))
      ensures HAPROXY in old(annotations) && Get(old(annotations), FLAG) != Get(old(annotations), HAPROXY) ==>
                Get(annotations, HAPROXY) == Get(old(annotations), HAPROXY) && FLAG !in annotations
      ensures forall key | key != FLAG && key != HAPROXY :: Get(annotations, key) == old(Get(annotations, key))
    {
      var valManila := Get(annotations, FLAG);
      var valHAProxy := Get(annotations, HAPROXY);
      if valManila.None? && valHAProxy.Some? {
        assert annotations - {FLAG} == annotations;
        return;
      }
      if valManila.Some? && valHAProxy.Some? && valManila.value != valHAProxy.value {
        annotations := annotations - {FLAG};
        return;
      }
      var timeout := Timeout(apiTimeout);
      annotations := annotations[FLAG := timeout];
      annotations := annotations[HAPROXY := timeout];
    }
  }

  // ---------------------------------------------------------------- runs

  /** An operator call with some APITimeout, or a human edit of any annotation. */
  datatype Event = Operator(apiTimeout: int) | Set(key: string, value: string) | Unset(key: string)

  function After(a: Annotations, e: Event): Annotations {
    match e
    case Operator(t) => Defaulted(a, t)
    case Set(key, value) => a[key := value]
    case Unset(key) => a - {key}
  }

  function AfterAll(a: Annotations, events: seq<Event>): Annotations
    decreases |events|
  {
    if events == [] then a else AfterAll(After(a, events[0]), events[1..])
  }

  /** The event is a human edit of one of the two annotations. */
  predicate Touches(e: Event) {
    (e.Set? || e.Unset?) && (e.key == HAPROXY || e.key == FLAG)
  }

  predicate Untouched(events: seq<Event>) { forall i | 0 <= i < |events| :: !Touches(events[i]) }

  predicate SomeOperator(events: seq<Event>) { exists i :: 0 <= i < |events| && events[i].Operator? }

  /** The APITimeout of the last operator call. */
  function Latest(events: seq<Event>): (t: int)
    requires SomeOperator(events)
  {
    if events[|events| - 1].Operator? then events[|events| - 1].apiTimeout
    else
      assert exists i :: 0 <= i < |events| - 1 && events[i].Operator? && events[..|events| - 1][i].Operator?;
      Latest(events[..|events| - 1])
  }

  /** A timeout that a human owns survives every later call, whatever the APITimeouts and
      whatever else is edited. */
  lemma {:induction false} HumanTimeoutSurvives(a: Annotations, events: seq<Event>)
    requires HumanOwned(a) && Untouched(events)
    ensures HumanOwned(AfterAll(a, events)) && AfterAll(a, events)[HAPROXY] == a[HAPROXY]
    ensures SomeOperator(events) ==> FLAG !in AfterAll(a, events)
    decreases |events|
  {
    if events != [] {
      assert !Touches(events[0]);
      HumanTimeoutSurvives(After(a, events[0]), events[1..]);
      if SomeOperator(events) && !SomeOperator(events[1..]) {
        assert events[0].Operator?;
        FlagStaysAway(After(a, events[0]), events[1..]);
      }
    }
  }

  lemma {:induction false} FlagStaysAway(a: Annotations, events: seq<Event>)
    requires FLAG !in a && HumanOwned(a) && Untouched(events)
    ensures FLAG !in AfterAll(a, events)
    decreases |events|
  {
    if events != [] {
      assert !Touches(events[0]);
      FlagStaysAway(After(a, events[0]), events[1..]);
    }
  }

  lemma {:induction false} AfterAllAppend(a: Annotations, events: seq<Event>, e: Event)
    ensures AfterAll(a, events + [e]) == After(AfterAll(a, events), e)
    decreases |events|
  {
    if events == [] {
      assert events + [e] == [e];
      assert [e][1..] == [];
    } else {
      assert (events + [e])[1..] == events[1..] + [e];
      AfterAllAppend(After(a, events[0]), events[1..], e);
    }
  }

  /** A human sets the timeout to v.  After any later sequence of calls and unrelated edits,
      at least one call among them, it is v if and only if v was not the flag's value at that
      moment or happens to be the latest APITimeout: a value equal to the flag looks like the
      operator's own and is overwritten. */
  lemma HumanEditSurvivesIff(a: Annotations, v: string, events: seq<Event>)
    requires Untouched(events) && SomeOperator(events)
    ensures Get(AfterAll(After(a, Set(HAPROXY, v)), events), HAPROXY) == Some(v) <==>
            Get(a, FLAG) != Some(v) || v == Timeout(Latest(events))
    ensures Get(a, FLAG) == Some(v) ==>
              Get(AfterAll(After(a, Set(HAPROXY, v)), events), HAPROXY) == Some(Timeout(Latest(events)))
  {
    var b := After(a, Set(HAPROXY, v));
    if Get(a, FLAG) != Some(v) {
      HumanTimeoutSurvives(b, events);
    } else {
      OperatorTimeoutFollows(b, events);
    }
  }

  /** Both annotations are there and agree, or the timeout is not set: the operator may write. */
  predicate OperatorOwned(a: Annotations) { !HumanOwned(a) }

  lemma {:induction false} OperatorTimeoutFollows(a: Annotations, events: seq<Event>)
    requires OperatorOwned(a) && Untouched(events)
    ensures OperatorOwned(AfterAll(a, events))
    ensures SomeOperator(events) ==>
              && Get(AfterAll(a, events), HAPROXY) == Some(Timeout(Latest(events)))
              && Get(AfterAll(a, events), FLAG) == Some(Timeout(Latest(events)))
    decreases |events|
  {
    if events != [] {
      var n := |events| - 1;
      assert events == events[..n] + [events[n]];
      OperatorTimeoutFollows(a, events[..n]);
      AfterAllAppend(a, events[..n], events[n]);
      assert !Touches(events[n]);
      if SomeOperator(events) && !events[n].Operator? {
        assert exists i :: 0 <= i < n && events[i].Operator? && events[..n][i].Operator?;
      }
    }
  }

  /** With no human edits of the two annotations, on a new route both always are the latest
      APITimeout. */
  lemma NoHumanMeansLatest(a: Annotations, events: seq<Event>)
    requires HAPROXY !in a && Untouched(events) && SomeOperator(events)
    ensures Get(AfterAll(a, events), HAPROXY) == Some(Timeout(Latest(events)))
    ensures Get(AfterAll(a, events), FLAG) == Some(Timeout(Latest(events)))
  {
    OperatorTimeoutFollows(a, events);
  }

  /** To hand the timeout back to the operator a human removes it: the next call sets it. */
  lemma RemovalHandsBack(a: Annotations, events: seq<Event>)
    requires Untouched(events) && SomeOperator(events)
    ensures Get(AfterAll(After(a, Unset(HAPROXY)), events), HAPROXY) == Some(Timeout(Latest(events)))
  {
    OperatorTimeoutFollows(After(a, Unset(HAPROXY)), events);
  }
}
