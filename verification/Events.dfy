/** Events, their strata, and bookkeeping over event lists. */
module Events {

  datatype Trig = NegEdge | PosEdge | Change | InactiveEvent | NonBlocking | MonitorEvent | Strobe

  /** Events made for the same statement share a container. */
  datatype Event = Event(trig: Trig, container: nat)

  /** The list an event is queued on: active, inactive, nonblocking assignment,
      monitor or strobe. */
  function Stratum(e: Event): (k: nat)
    ensures k < 5
  {
    match e.trig
    case Strobe => 4
    case MonitorEvent => 3
    case NonBlocking => 2
    case InactiveEvent => 1
    case _ => 0
  }

  /** The containers of the events of a list, with multiplicity. */
  ghost function Tally(l: seq<Event>): multiset<nat> {
    if l == [] then multiset{} else multiset{l[0].container} + Tally(l[1..])
  }

  lemma {:induction false} TallyAppend(l: seq<Event>, e: Event)
    ensures Tally(l + [e]) == Tally(l) + multiset{e.container}
  {
    if l != [] {
      assert (l + [e])[1..] == l[1..] + [e];
      TallyAppend(l[1..], e);
    }
  }

  type Lists = l: seq<seq<Event>> | |l| == 5 witness [[], [], [], [], []]

  ghost function TallyAll(l: Lists): multiset<nat> {
    Tally(l[0]) + Tally(l[1]) + Tally(l[2]) + Tally(l[3]) + Tally(l[4])
  }

  /** A container is flagged exactly when one event of it sits in the lists. */
  ghost predicate Flagged(l: Lists, queued: set<nat>) {
    TallyAll(l) == multiset(queued) && forall k | 0 <= k < 5 :: OfStratum(l[k], k)
  }

  ghost predicate OfStratum(l: seq<Event>, k: nat) { forall e | e in l :: Stratum(e) == k }

  lemma TallyUpdate(l: Lists, k: nat, x: seq<Event>)
    requires k < 5
    ensures TallyAll(l[k := x]) + Tally(l[k]) == TallyAll(l) + Tally(x)
  {
    hide Tally;
    if k == 0 {} else if k == 1 {} else if k == 2 {} else if k == 3 {} else {}
  }

  lemma FlaggedAdd(l: Lists, queued: set<nat>, e: Event)
    requires Flagged(l, queued) && e.container !in queued
    ensures Flagged(l[Stratum(e) := l[Stratum(e)] + [e]], queued + {e.container})
  {
    hide Tally, TallyAll;
    var k := Stratum(e);
    TallyAppend(l[k], e);
    TallyUpdate(l, k, l[k] + [e]);
    SetPlus(queued, e.container);
    var t := Tally(l[k]);
    assert TallyAll(l[k := l[k] + [e]]) + t == TallyAll(l) + multiset{e.container} + t;
    Cancel(TallyAll(l[k := l[k] + [e]]), TallyAll(l) + multiset{e.container}, t);
  }

  lemma SetPlus(queued: set<nat>, c: nat)
    requires c !in queued
    ensures multiset(queued + {c}) == multiset(queued) + multiset{c}
  {
  }

  lemma Cancel(a: multiset<nat>, b: multiset<nat>, t: multiset<nat>)
    requires a + t == b + t
    ensures a == b
  {
    assert a == (a + t) - t && b == (b + t) - t;
  }

  lemma FlaggedPop(l: Lists, queued: set<nat>, k: nat)
    requires Flagged(l, queued) && k < 5 && l[k] != []
    ensures Flagged(l[k := l[k][1..]], queued - {l[k][0].container}) && l[k][0].container in queued
  {
    hide TallyAll;
    var c := l[k][0].container;
    var t := Tally(l[k][1..]);
    assert Tally(l[k]) == multiset{c} + t;
    hide Tally;
    TallyUpdate(l, k, l[k][1..]);
    var n := TallyAll(l[k := l[k][1..]]);
    Cancel(n + multiset{c}, TallyAll(l), t);
    assert c in multiset(queued);
    SetPlus(queued - {c}, c);
    assert queued - {c} + {c} == queued;
    Cancel(n, multiset(queued - {c}), multiset{c});
  }

  /** How many events of container `c` a list holds. */
  function Occurs(l: seq<Event>, c: nat): nat {
    if l == [] then 0 else (if l[0].container == c then 1 else 0) + Occurs(l[1..], c)
  }

  function OccursAll(l: Lists, c: nat): nat {
    Occurs(l[0], c) + Occurs(l[1], c) + Occurs(l[2], c) + Occurs(l[3], c) + Occurs(l[4], c)
  }

  lemma {:induction false} OccursTally(l: seq<Event>, c: nat)
    ensures Occurs(l, c) == Tally(l)[c]
  {
    if l != [] { OccursTally(l[1..], c); }
  }

  lemma FlaggedOnce(l: Lists, queued: set<nat>, c: nat)
    requires Flagged(l, queued)
    ensures OccursAll(l, c) == if c in queued then 1 else 0
  {
    OccursTally(l[0], c);
    OccursTally(l[1], c);
    OccursTally(l[2], c);
    OccursTally(l[3], c);
    OccursTally(l[4], c);
    hide Tally, Occurs;
    assert TallyAll(l)[c] == multiset(queued)[c];
  }

  // ----- histories -----

  /** The events of stratum `k` in a history, in order. */
  ghost function Only(k: nat, s: seq<Event>): seq<Event> {
    if s == [] then []
    else
      var e := s[|s| - 1];
      Only(k, s[..|s| - 1]) + if Stratum(e) == k then [e] else []
  }

  lemma OnlyAppend(k: nat, s: seq<Event>, e: Event)
    ensures Only(k, s + [e]) == Only(k, s) + if Stratum(e) == k then [e] else []
  {
    assert (s + [e])[..|s|] == s;
  }

  lemma {:induction false} OnlyTotal(s: seq<Event>)
    ensures |s| == |Only(0, s)| + |Only(1, s)| + |Only(2, s)| + |Only(3, s)| + |Only(4, s)|
  {
    if s != [] { OnlyTotal(s[..|s| - 1]); }
  }

  /** Per stratum, what was added is what was handled, then the batch being
      handled (`flight`, of stratum `j`), then what is queued. */
  ghost predicate Balanced(l: Lists, added: seq<Event>, handled: seq<Event>, j: nat, flight: seq<Event>) {
    forall k | 0 <= k < 5 :: Only(k, added) == Only(k, handled) + (if k == j then flight else []) + l[k]
  }

  lemma BalancedAdd(l: Lists, added: seq<Event>, handled: seq<Event>, j: nat, flight: seq<Event>, e: Event)
    requires Balanced(l, added, handled, j, flight)
    ensures Balanced(l[Stratum(e) := l[Stratum(e)] + [e]], added + [e], handled, j, flight)
  {
    var l' := l[Stratum(e) := l[Stratum(e)] + [e]];
    forall k | 0 <= k < 5
      ensures Only(k, added + [e]) == Only(k, handled) + (if k == j then flight else []) + l'[k]
    {
      OnlyAppend(k, added, e);
    }
  }

  lemma BalancedTake(l: Lists, added: seq<Event>, handled: seq<Event>, j: nat, flight: seq<Event>)
    requires Balanced(l, added, handled, j, flight) && j < 5 && l[j] != []
    ensures Balanced(l[j := l[j][1..]], added, handled, j, flight + [l[j][0]])
  {
    hide Only;
    var l' := l[j := l[j][1..]];
    assert Only(j, handled) + flight + l[j] == Only(j, handled) + (flight + [l[j][0]]) + l'[j];
  }

  lemma BalancedHandle(l: Lists, added: seq<Event>, handled: seq<Event>, j: nat, flight: seq<Event>)
    requires Balanced(l, added, handled, j, flight) && flight != [] && Stratum(flight[0]) == j
    ensures Balanced(l, added, handled + [flight[0]], j, flight[1..])
  {
    assert flight == [flight[0]] + flight[1..];
    forall k | 0 <= k < 5
      ensures Only(k, added) == Only(k, handled + [flight[0]]) + (if k == j then flight[1..] else []) + l[k]
    {
      OnlyAppend(k, handled, flight[0]);
    }
  }
}
