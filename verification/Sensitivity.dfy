/** Monitor lists of nets: which events an assignment queues. */
module Sensitivity {
  import opened Wrappers
  import opened Logic
  import opened Events

  type Store = map<nat, seq<Bit>>

  /** An event in a monitor list. Edge events watch an expression. */
  datatype Watch = Watch(event: Event, expr: Option<nat>)

  /** `lists` gives the monitor list of a net, `forced` the containers that stay
      active (those of always blocks, $monitor and continuous assignments). */
  datatype Design = Design(
    watches: seq<Watch>,
    lists: nat -> seq<nat>,
    eval: (nat, Store) -> seq<Bit>,
    forced: set<nat>)

  /** `prev` is the previous value of each watch, `active` and `queued` are the
      flags of the containers, `added` the events queued so far. */
  datatype State = State(prev: seq<seq<Bit>>, active: set<nat>, queued: set<nat>, added: seq<nat>)

  ghost predicate Fits(d: Design, s: State) {
    |s.prev| == |d.watches| && forall n :: Within(d, d.lists(n))
  }

  predicate Within(d: Design, el: seq<nat>) {
    forall k | 0 <= k < |el| :: el[k] < |d.watches|
  }

  function Bit0(v: seq<Bit>): Bit { if v == [] then DC else v[0] }

  function Container(d: Design, i: nat): nat
    requires i < |d.watches|
  {
    d.watches[i].event.container
  }

  predicate Live(d: Design, s: State, c: nat) { c in d.forced || c in s.active }

  /** Does the step from bit `p` to bit `q` match the type of the event? */
  predicate Matches(t: Trig, p: Bit, q: Bit) {
    t.Change? || t.MonitorEvent? || t.Strobe? ||
    (t.NegEdge? && EdgeDetect(p, q).NegEdge?) || (t.PosEdge? && EdgeDetect(p, q).PosEdge?)
  }

  /** Would watch `i` queue its event, given its previous value? */
  predicate Fires(d: Design, i: nat, before: seq<Bit>, store: Store)
    requires i < |d.watches|
  {
    match d.watches[i].expr
    case Some(e) =>
      var p, q := Bit0(before), Bit0(d.eval(e, store));
      p != q && Matches(d.watches[i].event.trig, p, q)
    case None => Matches(d.watches[i].event.trig, DC, DC)
  }

  /** One step through the monitor list of a net that has changed. */
  function Visit(d: Design, i: nat, store: Store, s: State): (r: State)
    requires Fits(d, s) && i < |d.watches|
    ensures Fits(d, r)
  {
    var c := Container(d, i);
    var fire := Live(d, s, c) && c !in s.queued && Fires(d, i, s.prev[i], store);
    State(
      match d.watches[i].expr case Some(e) => s.prev[i := d.eval(e, store)] case None => s.prev,
      if fire then s.active - {c} else s.active,
      if fire then s.queued + {c} else s.queued,
      if fire then s.added + [i] else s.added)
  }

  function VisitAll(d: Design, el: seq<nat>, store: Store, s: State): (r: State)
    requires Fits(d, s) && Within(d, el)
    ensures Fits(d, r)
  {
    if el == [] then s else VisitAll(d, el[1..], store, Visit(d, el[0], store, s))
  }

  /** Assign to a net: nothing happens unless its value changes. */
  function Assign(d: Design, n: nat, v: seq<Bit>, store: Store, s: State): (r: (Store, State))
    requires Fits(d, s)
    ensures Fits(d, r.1)
  {
    if n in store && store[n] == v then (store, s)
    else (store[n := v], VisitAll(d, d.lists(n), store[n := v], s))
  }

  // ----- previous values -----

  /** A watch sits in the list of every net its expression depends on. */
  ghost predicate Registered(d: Design) {
    forall i, n: nat, v: seq<Bit>, st: Store {:trigger d.watches[i], st[n := v]} |
      0 <= i < |d.watches| && d.watches[i].expr.Some? && i !in d.lists(n) ::
      d.eval(d.watches[i].expr.value, st[n := v]) == d.eval(d.watches[i].expr.value, st)
  }

  ghost predicate Tracked(d: Design, store: Store, s: State) {
    Fits(d, s) && forall i | 0 <= i < |d.watches| && d.watches[i].expr.Some? ::
      s.prev[i] == d.eval(d.watches[i].expr.value, store)
  }

  lemma {:induction false} VisitAllPrev(d: Design, el: seq<nat>, store: Store, s: State, i: nat)
    requires Fits(d, s) && Within(d, el) && i < |d.watches| && d.watches[i].expr.Some?
    ensures VisitAll(d, el, store, s).prev[i] ==
      if i in el then d.eval(d.watches[i].expr.value, store) else s.prev[i]
  {
    hide Fires;
    if el != [] {
      var r := Visit(d, el[0], store, s);
      VisitAllPrev(d, el[1..], store, r, i);
      if i in el[1..] { assert i in el; }
    }
  }

  /** After any assignment, every watch remembers the current value of its
      expression. */
  lemma TrackedKept(d: Design, n: nat, v: seq<Bit>, store: Store, s: State)
    requires Registered(d) && Tracked(d, store, s)
    ensures var r := Assign(d, n, v, store, s); Tracked(d, r.0, r.1)
  {
    var r := Assign(d, n, v, store, s);
    if !(n in store && store[n] == v) {
      forall i | 0 <= i < |d.watches| && d.watches[i].expr.Some?
        ensures r.1.prev[i] == d.eval(d.watches[i].expr.value, r.0) {
        VisitAllPrev(d, d.lists(n), r.0, s, i);
      }
    }
  }

  // ----- one event per container -----

  /** The first watch of container `c` in the list that matches. */
  function First(d: Design, el: seq<nat>, c: nat, prev: seq<seq<Bit>>, store: Store): Option<nat>
    requires |prev| == |d.watches| && Within(d, el)
  {
    if el == [] then None
    else if Container(d, el[0]) == c && Fires(d, el[0], prev[el[0]], store) then Some(el[0])
    else First(d, el[1..], c, prev, store)
  }

  lemma {:induction false} FirstSame(d: Design, el: seq<nat>, c: nat, prev: seq<seq<Bit>>, next: seq<seq<Bit>>,
      store: Store)
    requires |prev| == |d.watches| == |next| && Within(d, el)
    requires forall i | 0 <= i < |d.watches| && Container(d, i) == c ::
      Fires(d, i, prev[i], store) == Fires(d, i, next[i], store)
    ensures First(d, el, c, prev, store) == First(d, el, c, next, store)
  {
    hide Fires;
    if el != [] { FirstSame(d, el[1..], c, prev, next, store); }
  }

  /** The events of container `c` among those queued. */
  function Of(d: Design, c: nat, added: seq<nat>): seq<nat>
    requires Within(d, added)
  {
    if added == [] then []
    else
      var i := added[|added| - 1];
      Of(d, c, added[..|added| - 1]) + if Container(d, i) == c then [i] else []
  }

  /** What the assignment does to container `c` as a whole. */
  ghost predicate Outcome(d: Design, c: nat, s: State, r: State, first: Option<nat>) {
    var fire := Live(d, s, c) && c !in s.queued && first.Some?;
    (c in r.queued <==> c in s.queued || fire) && (c in r.active <==> c in s.active && !fire) &&
    Within(d, s.added) && Within(d, r.added) &&
    Of(d, c, r.added) == Of(d, c, s.added) + if fire then [first.value] else []
  }

  lemma OfAppend(d: Design, c: nat, added: seq<nat>, i: nat)
    requires i < |d.watches| && Within(d, added)
    ensures Within(d, added + [i])
    ensures Of(d, c, added + [i]) == Of(d, c, added) + if Container(d, i) == c then [i] else []
  {
    assert (added + [i])[..|added|] == added;
  }

  lemma VisitOutcome(d: Design, i: nat, store: Store, s: State, c: nat)
    requires Fits(d, s) && i < |d.watches| && Within(d, s.added)
    ensures Outcome(d, c, s, Visit(d, i, store, s),
      if Container(d, i) == c && Fires(d, i, s.prev[i], store) then Some(i) else None)
  {
    hide Fires, Of;
    OfAppend(d, c, s.added, i);
  }

  /** A watch that has just been brought up to date without matching does not
      match later in the same pass. */
  lemma VisitFirst(d: Design, i: nat, store: Store, s: State, el: seq<nat>, c: nat)
    requires Fits(d, s) && i < |d.watches| && Within(d, el)
    requires !(Container(d, i) == c && Fires(d, i, s.prev[i], store))
    ensures First(d, el, c, Visit(d, i, store, s).prev, store) == First(d, el, c, s.prev, store)
  {
    FirstSame(d, el, c, Visit(d, i, store, s).prev, s.prev, store);
  }

  lemma {:induction false} VisitAllOutcome(d: Design, el: seq<nat>, store: Store, s: State, c: nat)
    requires Fits(d, s) && Within(d, el) && Within(d, s.added)
    ensures Outcome(d, c, s, VisitAll(d, el, store, s), First(d, el, c, s.prev, store))
  {
    hide Fires, Visit, Of;
    if el != [] {
      var r := Visit(d, el[0], store, s);
      VisitOutcome(d, el[0], store, s, c);
      VisitAllOutcome(d, el[1..], store, r, c);
      if !(Container(d, el[0]) == c && Fires(d, el[0], s.prev[el[0]], store)) {
        VisitFirst(d, el[0], store, s, el[1..], c);
      }
    }
  }

  // ----- which steps wake -----

  /** 0 is low, 1 is high, and an unknown bit lies between them. */
  function Level(b: Bit): int
    requires b != NVL
  {
    match b case LO => -1 case HI => 1 case _ => 0
  }

  /** An edge is a change of level; there is none from or to an unused bit. */
  lemma EdgeLevels(p: Bit, q: Bit)
    ensures p == NVL || q == NVL ==> EdgeDetect(p, q) == NoEdge
    ensures p != NVL && q != NVL ==>
      (EdgeDetect(p, q) == Edge.PosEdge <==> Level(p) < Level(q)) &&
      (EdgeDetect(p, q) == Edge.NegEdge <==> Level(q) < Level(p))
  {
  }

  /** What an event of kind `t` waits for. */
  predicate Steps(t: Trig, p: Bit, q: Bit)
    requires p != NVL && q != NVL
  {
    match t
    case PosEdge => Level(p) < Level(q)
    case NegEdge => Level(q) < Level(p)
    case InactiveEvent => false
    case NonBlocking => false
    case _ => p != q
  }

  /** The lowest bit; that of an empty value is unknown. */
  function Lowest(v: seq<Bit>): Bit { if |v| > 0 then v[0] else DC }

  lemma FiresExactly(d: Design, i: nat, e: nat, before: seq<Bit>, store: Store)
    requires i < |d.watches| && d.watches[i].expr == Some(e)
    requires Lowest(before) != NVL && Lowest(d.eval(e, store)) != NVL
    ensures Fires(d, i, before, store) <==>
      Steps(d.watches[i].event.trig, Lowest(before), Lowest(d.eval(e, store)))
  {
    EdgeLevels(Lowest(before), Lowest(d.eval(e, store)));
  }

  /** Between known bits: a positive edge is from 0 to 1, a negative one from 1 to
      0, and a change is any difference. */
  lemma FiresKnown(d: Design, i: nat, e: nat, before: seq<Bit>, store: Store)
    requires i < |d.watches| && d.watches[i].expr == Some(e)
    requires Known(Lowest(before)) && Known(Lowest(d.eval(e, store)))
    ensures var p, q := Lowest(before), Lowest(d.eval(e, store));
      match d.watches[i].event.trig
      case PosEdge => Fires(d, i, before, store) <==> p == LO && q == HI
      case NegEdge => Fires(d, i, before, store) <==> p == HI && q == LO
      case Change => Fires(d, i, before, store) <==> p != q
      case _ => true
  {
    FiresExactly(d, i, e, before, store);
  }

  /** Without an expression, only changes are noticed, and every one is. */
  lemma FiresPlain(d: Design, i: nat, before: seq<Bit>, store: Store)
    requires i < |d.watches| && d.watches[i].expr.None?
    ensures Fires(d, i, before, store) <==> d.watches[i].event.trig in {Change, MonitorEvent, Strobe}
  {
  }

  lemma {:induction false} FirstAlone(d: Design, el: seq<nat>, prev: seq<seq<Bit>>, store: Store, i: nat)
    requires |prev| == |d.watches| && Within(d, el) && i < |d.watches|
    requires forall j | 0 <= j < |d.watches| && Container(d, j) == Container(d, i) :: j == i
    ensures First(d, el, Container(d, i), prev, store).Some? <==> i in el && Fires(d, i, prev[i], store)
  {
    hide Fires;
    if el != [] { FirstAlone(d, el[1..], prev, store, i); }
  }

  /** The event of a control that watches one expression is queued by an assignment
      to any net exactly if the control is armed, or stays active all the time, and
      the lowest bit of the expression makes the step it waits for. Being queued
      uses the arming up. */
  lemma WakesExactly(d: Design, n: nat, v: seq<Bit>, store: Store, s: State, i: nat, e: nat)
    requires Registered(d) && Tracked(d, store, s) && Within(d, s.added)
    requires i < |d.watches| && d.watches[i].expr == Some(e) && Container(d, i) !in s.queued
    requires forall j | 0 <= j < |d.watches| && Container(d, j) == Container(d, i) :: j == i
    requires Lowest(d.eval(e, store)) != NVL && Lowest(d.eval(e, store[n := v])) != NVL
    ensures var r, c := Assign(d, n, v, store, s).1, d.watches[i].event.container;
      var wakes := (c in d.forced || c in s.active) &&
        Steps(d.watches[i].event.trig, Lowest(d.eval(e, store)), Lowest(d.eval(e, store[n := v])));
      (c in r.queued <==> wakes) && (c in r.active <==> c in s.active && !wakes)
  {
    hide Fires, Visit, VisitAll, First, Steps;
    var p, q := Lowest(d.eval(e, store)), Lowest(d.eval(e, store[n := v]));
    if n in store && store[n] == v {
      assert store[n := v] == store;
      StepsNot(d.watches[i].event.trig, p);
    } else {
      var c := Container(d, i);
      VisitAllOutcome(d, d.lists(n), store[n := v], s, c);
      FirstAlone(d, d.lists(n), s.prev, store[n := v], i);
      FiresExactly(d, i, e, s.prev[i], store[n := v]);
      if i !in d.lists(n) { StepsNot(d.watches[i].event.trig, p); }
    }
  }

  lemma StepsNot(t: Trig, p: Bit)
    requires p != NVL
    ensures !Steps(t, p, p)
  {
  }

  // ----- whole runs -----

  /** Assign to a net, arm the event control of container `c`, or take the
      event of `c` off its list. */
  datatype Op = Write(net: nat, v: seq<Bit>) | Arm(c: nat) | Take(c: nat)

  function Perform(d: Design, op: Op, store: Store, s: State): (r: (Store, State))
    requires Fits(d, s)
    ensures Fits(d, r.1)
  {
    match op
    case Write(n, v) => Assign(d, n, v, store, s)
    case Arm(c) => (store, s.(active := s.active + {c}))
    case Take(c) => (store, s.(queued := s.queued - {c}))
  }

  function PerformAll(d: Design, ops: seq<Op>, store: Store, s: State): (r: (Store, State))
    requires Fits(d, s)
    ensures Fits(d, r.1)
  {
    if ops == [] then (store, s)
    else
      var r := Perform(d, ops[0], store, s);
      PerformAll(d, ops[1..], r.0, r.1)
  }

  /** A process arms its control only while it runs, that is, after its event
      has been taken. */
  ghost predicate Orderly(d: Design, ops: seq<Op>, store: Store, s: State, c: nat)
    requires Fits(d, s)
  {
    ops == [] ||
    ((ops[0] == Arm(c) ==> c !in s.queued) &&
     var r := Perform(d, ops[0], store, s);
     Orderly(d, ops[1..], r.0, r.1, c))
  }

  /** The values of the watched expressions in a store. */
  function Values(d: Design, store: Store): seq<seq<Bit>> {
    seq(|d.watches|, i requires 0 <= i < |d.watches| =>
      match d.watches[i].expr case Some(e) => d.eval(e, store) case None => [])
  }

  /** The events an event control waits for, told from the stores alone: after
      each arming, the first assignment that changes a net and makes one of its
      watched bits step the right way. */
  function Expected(d: Design, ops: seq<Op>, c: nat, store: Store, armed: bool): seq<nat>
    requires forall n :: Within(d, d.lists(n))
  {
    if ops == [] then []
    else
      match ops[0]
      case Arm(x) => Expected(d, ops[1..], c, store, armed || x == c)
      case Take(_) => Expected(d, ops[1..], c, store, armed)
      case Write(n, v) =>
        if n in store && store[n] == v then Expected(d, ops[1..], c, store, armed)
        else
          var e := First(d, d.lists(n), c, Values(d, store), store[n := v]);
          if armed && e.Some? then [e.value] + Expected(d, ops[1..], c, store[n := v], false)
          else Expected(d, ops[1..], c, store[n := v], armed)
  }

  lemma TrackedFirst(d: Design, el: seq<nat>, c: nat, store: Store, s: State, next: Store)
    requires Tracked(d, store, s) && Within(d, el)
    ensures First(d, el, c, s.prev, next) == First(d, el, c, Values(d, store), next)
  {
    FirstSame(d, el, c, s.prev, Values(d, store), next);
  }

  /** An armed control is queued exactly once per arming, at the first matching
      edge after it was armed, also when several events share its container. */
  lemma {:induction false} OncePerArming(d: Design, ops: seq<Op>, store: Store, s: State, c: nat)
    requires Registered(d) && Tracked(d, store, s) && Within(d, s.added) && c !in d.forced
    requires c in s.queued ==> c !in s.active
    requires Orderly(d, ops, store, s, c)
    ensures var r := PerformAll(d, ops, store, s);
      Within(d, r.1.added) && Tracked(d, r.0, r.1) &&
      Of(d, c, r.1.added) == Of(d, c, s.added) + Expected(d, ops, c, store, c in s.active)
  {
    hide Of, First, Visit, VisitAll;
    if ops != [] {
      var r := Perform(d, ops[0], store, s);
      match ops[0] {
        case Write(n, v) =>
          TrackedKept(d, n, v, store, s);
          if !(n in store && store[n] == v) {
            VisitAllOutcome(d, d.lists(n), store[n := v], s, c);
            TrackedFirst(d, d.lists(n), c, store, s, store[n := v]);
          }
        case _ =>
      }
      OncePerArming(d, ops[1..], r.0, r.1, c);
    }
  }

  /** Once its event has been taken and it is armed again, a control that watches
      one expression is queued by the next assignment that makes its step, however
      often it was queued before. */
  lemma WakesAgain(d: Design, n: nat, v: seq<Bit>, store: Store, s: State, i: nat, e: nat)
    requires Registered(d) && Tracked(d, store, s) && Within(d, s.added)
    requires i < |d.watches| && d.watches[i].expr == Some(e)
    requires forall j | 0 <= j < |d.watches| && Container(d, j) == Container(d, i) :: j == i
    requires Lowest(d.eval(e, store)) != NVL && Lowest(d.eval(e, store[n := v])) != NVL
    ensures var c := d.watches[i].event.container;
      var r := PerformAll(d, [Take(c), Arm(c), Write(n, v)], store, s).1;
      c in r.queued <==> Steps(d.watches[i].event.trig, Lowest(d.eval(e, store)), Lowest(d.eval(e, store[n := v])))
  {
    hide Assign, Steps;
    var c := Container(d, i);
    var u := s.(queued := s.queued - {c}, active := s.active + {c});
    WakesExactly(d, n, v, store, u, i, e);
    PerformThree(d, Take(c), Arm(c), Write(n, v), store, s);
  }

  lemma PerformThree(d: Design, a: Op, b: Op, c: Op, store: Store, s: State)
    requires Fits(d, s)
    ensures PerformAll(d, [a, b, c], store, s) ==
      (var p := Perform(d, a, store, s); var q := Perform(d, b, p.0, p.1); Perform(d, c, q.0, q.1))
  {
    hide Perform;
    var p := Perform(d, a, store, s);
    var q := Perform(d, b, p.0, p.1);
    assert [a, b, c][1..] == [b, c] && [b, c][1..] == [c];
    assert PerformAll(d, [c], q.0, q.1) == Perform(d, c, q.0, q.1) by { assert [c][1..] == []; }
  }

  /** Arming and taking concern one container only. */
  lemma OthersKept(d: Design, c: nat, store: Store, s: State, x: nat)
    requires Fits(d, s)
    ensures var r := Perform(d, Take(c), store, s);
      r.0 == store && r.1.prev == s.prev && r.1.active == s.active && r.1.added == s.added &&
      (x in r.1.queued <==> x in s.queued && x != c)
    ensures var r := Perform(d, Arm(c), store, s);
      r.0 == store && r.1.prev == s.prev && r.1.queued == s.queued && r.1.added == s.added &&
      (x in r.1.active <==> x in s.active || x == c)
  {
  }

  // ----- the nets, updating in place -----

  class Nets {
    const design: Design
    var store: Store
    var prev: seq<seq<Bit>>
    var active: set<nat>
    var queued: set<nat>
    var added: seq<nat>

    constructor (d: Design, st: Store)
      requires forall n :: Within(d, d.lists(n))
      ensures design == d && store == st && Snap() == State(Values(d, st), {}, {}, []) && Tracked(d, st, Snap())
    {
      design, store := d, st;
      prev := Values(d, st);
      active, queued, added := {}, {}, [];
    }

    function Snap(): State
      reads this
    {
      State(prev, active, queued, added)
    }

    /** Walk the monitor list of a net whose value has changed. */
    method CheckMonitor(el: seq<nat>)
      requires Fits(design, Snap()) && Within(design, el)
      modifies this`prev, this`active, this`queued, this`added
      ensures Snap() == VisitAll(design, el, store, old(Snap()))
    {
      var k := 0;
      while k < |el|
        invariant k <= |el| && Fits(design, Snap())
        invariant VisitAll(design, el[k..], store, Snap()) == VisitAll(design, el, store, old(Snap()))
      {
        assert el[k..][1..] == el[k + 1..];
        CheckOne(el[k]);
        k := k + 1;
      }
    }

    method CheckOne(i: nat)
      requires Fits(design, Snap()) && i < |design.watches|
      modifies this`prev, this`active, this`queued, this`added
      ensures Snap() == Visit(design, i, store, old(Snap()))
    {
      var c := Container(design, i);
      var live := c in design.forced || c in active;
      var fire := live && c !in queued && Fires(design, i, prev[i], store);
      if design.watches[i].expr.Some? {
        prev := prev[i := design.eval(design.watches[i].expr.value, store)];
      }
      if fire {
        queued := queued + {c};
        added := added + [i];
        active := active - {c};
      }
    }

    method AssignNet(n: nat, v: seq<Bit>)
      requires Fits(design, Snap())
      modifies this
      ensures (store, Snap()) == Assign(design, n, v, old(store), old(Snap()))
    {
      if n in store && store[n] == v { return; }
      store := store[n := v];
      CheckMonitor(design.lists(n));
    }
  }
}
