/** The simulation kernel: the five event lists, the time wheel, and the handlers
    that run whatever becomes due. */
module Scheduler {
  import opened Events
  import opened Wheel

  /** What is being run: a queued event, or an entry of the wheel. */
  datatype Cause = FromQueue(e: Event) | FromWheel(time: nat, obj: nat)

  /** What running it asks for: an event (queued unless its container already
      is), or a wheel entry after some delay. */
  datatype Request = Queue(e: Event) | Later(delay: nat, obj: nat)

  /** Taken when a batch starts: its stratum, its events, and what the lists held
      just before. */
  datatype Batch = Batch(stratum: nat, events: seq<Event>, held: Lists)

  /** Taken when the front node of the wheel is done: its time, whether it had
      entries, and how many events each list still holds. */
  datatype Slot = Slot(time: nat, used: bool, left: seq<nat>)

  ghost function Lengths(l: Lists): seq<nat> { [|l[0]|, |l[1]|, |l[2]|, |l[3]|, |l[4]|] }

  /** A batch of one stratum starts only when all earlier strata are empty. */
  ghost predicate InOrder(b: Batch) {
    b.stratum < 5 && (forall j | 0 <= j < b.stratum :: b.held[j] == []) &&
    b.events == b.held[b.stratum] != [] && forall j | 0 <= j < 5 :: OfStratum(b.held[j], j)
  }

  predicate Edgy(t: Trig) { t.NegEdge? || t.PosEdge? || t.Change? }

  /** An event of kind `p` goes before one of kind `t`: edges and changes first,
      then zero delays, nonblocking updates, monitors and strobes. */
  predicate Earlier(p: Trig, t: Trig) {
    match t
    case InactiveEvent => Edgy(p)
    case NonBlocking => Edgy(p) || p.InactiveEvent?
    case MonitorEvent => Edgy(p) || p.InactiveEvent? || p.NonBlocking?
    case Strobe => Edgy(p) || p.InactiveEvent? || p.NonBlocking? || p.MonitorEvent?
    case _ => false
  }

  /** While an event of the batch waits, none of an earlier kind is queued. */
  ghost predicate Stratified(b: Batch) {
    forall x, k, q | x in b.events && 0 <= k < 5 && q in b.held[k] :: !Earlier(q.trig, x.trig)
  }

  lemma InOrderStratified(b: Batch)
    requires InOrder(b)
    ensures Stratified(b)
  {
    forall x, k, q | x in b.events && 0 <= k < 5 && q in b.held[k] ensures !Earlier(q.trig, x.trig) {
      assert Stratum(q) == k && Stratum(x) == b.stratum;
      assert b.stratum <= k;
    }
  }

  /** All batches so far, one after the other. */
  ghost function Joined(bs: seq<Batch>): seq<Event> {
    if bs == [] then [] else Joined(bs[..|bs| - 1]) + bs[|bs| - 1].events
  }

  lemma JoinedAppend(bs: seq<Batch>, b: Batch)
    ensures Joined(bs + [b]) == Joined(bs) + b.events
  {
    assert (bs + [b])[..|bs|] == bs;
  }

  /** Time moves on only when nothing is left to do at the time before. */
  ghost predicate SlotOk(s: Slot, quiet: bool) {
    s.used && quiet ==> s.left == [0, 0, 0, 0, 0]
  }

  type Behaviour = (seq<Cause>, Cause) -> seq<Request>

  /** Running a strobe event asks for nothing. */
  ghost predicate Quiet(h: Behaviour) {
    forall past, e: Event | e.trig.Strobe? :: h(past, FromQueue(e)) == []
  }

  /** The event lists and their history while batch `flight` of stratum `j` is
      handled. */
  ghost predicate QueuesOk(lists: Lists, queued: set<nat>, amounts: seq<int>, triggered: nat, start: int,
                           added: seq<Event>, handled: seq<Event>, batches: seq<Batch>, j: nat, flight: seq<Event>)
  {
    Flagged(lists, queued) && Balanced(lists, added, handled, j, flight) && OfStratum(flight, j) &&
    (forall b | b in batches :: InOrder(b)) && Joined(batches) == handled + flight &&
    triggered == |handled| && Counted(amounts, start, added)
  }

  lemma HandledOk(lists: Lists, queued: set<nat>, amounts: seq<int>, triggered: nat, start: int,
                  added: seq<Event>, handled: seq<Event>, batches: seq<Batch>, j: nat, flight: seq<Event>)
    requires flight != [] && QueuesOk(lists, queued, amounts, triggered, start, added, handled, batches, j, flight)
    ensures QueuesOk(lists, queued, amounts, triggered + 1, start, added, handled + [flight[0]], batches, j,
      flight[1..])
  {
    hide Flagged, Balanced, InOrder, Joined, Only, Counted;
    BalancedHandle(lists, added, handled, j, flight);
    assert handled + flight == handled + [flight[0]] + flight[1..];
  }

  // ----- what one statement asks for -----

  ghost function Containers(es: seq<Event>): set<nat> { set e | e in es :: e.container }

  /** The events among the requests that are queued: those whose container is
      not flagged yet, neither before nor by an earlier request. */
  ghost function Accepted(wants: seq<Request>, queued: set<nat>): seq<Event> {
    if wants == [] then []
    else
      var a := Accepted(wants[..|wants| - 1], queued);
      match wants[|wants| - 1]
      case Queue(e) => if e.container in queued + Containers(a) then a else a + [e]
      case Later(_, _) => a
  }

  /** The wheel entries among the requests, each with its own time. */
  ghost function Timeds(wants: seq<Request>, now: nat): seq<Timed> {
    if wants == [] then []
    else
      var t := Timeds(wants[..|wants| - 1], now);
      match wants[|wants| - 1]
      case Queue(_) => t
      case Later(delay, obj) => t + [Timed(now + delay, obj)]
  }

  /** The lists with these events appended, each to the list of its stratum. */
  ghost function Extended(l: Lists, es: seq<Event>): Lists {
    if es == [] then l
    else
      var m, e := Extended(l, es[..|es| - 1]), es[|es| - 1];
      m[Stratum(e) := m[Stratum(e)] + [e]]
  }

  ghost function AllAdded(nodes: seq<Node>, ts: seq<Timed>): seq<Node> {
    if ts == [] then nodes
    else Added(AllAdded(nodes, ts[..|ts| - 1]), ts[|ts| - 1].time, ts[|ts| - 1].obj)
  }

  /** All wheel entries that the statements run so far asked for, in order. */
  ghost function Asked(h: Behaviour, past: seq<Cause>, when: seq<nat>): seq<Timed>
    requires |when| == |past|
  {
    if past == [] then []
    else
      var n := |past| - 1;
      Asked(h, past[..n], when[..n]) + Timeds(h(past[..n], past[n]), when[n])
  }

  /** The wheel entries, and the events, among what has run. */
  ghost function FromWheels(past: seq<Cause>): seq<Timed> {
    if past == [] then []
    else
      var c := past[|past| - 1];
      FromWheels(past[..|past| - 1]) + if c.FromWheel? then [Timed(c.time, c.obj)] else []
  }

  ghost function FromQueues(past: seq<Cause>): seq<Event> {
    if past == [] then []
    else
      var c := past[|past| - 1];
      FromQueues(past[..|past| - 1]) + if c.FromQueue? then [c.e] else []
  }

  /** What was posted and run is what was asked for and caused. */
  ghost predicate Recorded(h: Behaviour, past: seq<Cause>, when: seq<nat>, started: seq<Timed>,
                           posted: seq<Timed>, delivered: seq<Timed>, handled: seq<Event>) {
    |when| == |past| && posted == started + Asked(h, past, when) &&
    delivered == FromWheels(past) && handled == FromQueues(past) &&
    forall i | 0 <= i < |past| && past[i].FromWheel? :: past[i].time == when[i]
  }

  lemma RecordedNext(h: Behaviour, past: seq<Cause>, when: seq<nat>, started: seq<Timed>,
                     posted: seq<Timed>, delivered: seq<Timed>, handled: seq<Event>, c: Cause, now: nat)
    requires Recorded(h, past, when, started, posted, delivered, handled) && (c.FromWheel? ==> c.time == now)
    ensures Recorded(h, past + [c], when + [now], started, posted + Timeds(h(past, c), now),
                     delivered + (if c.FromWheel? then [Timed(c.time, c.obj)] else []),
                     handled + if c.FromQueue? then [c.e] else [])
  {
    hide Timeds;
    var q, w := past + [c], when + [now];
    assert q[..|past|] == past && w[..|past|] == when;
    assert Asked(h, q, w) == Asked(h, past, when) + Timeds(h(past, c), now);
  }

  lemma AcceptedNext(wants: seq<Request>, i: nat, queued: set<nat>)
    requires i < |wants|
    ensures Accepted(wants[..i + 1], queued) ==
      match wants[i]
      case Queue(e) =>
        var a := Accepted(wants[..i], queued);
        if e.container in queued + Containers(a) then a else a + [e]
      case Later(_, _) => Accepted(wants[..i], queued)
  {
    hide Containers;
    assert wants[..i + 1][..i] == wants[..i];
  }

  lemma TimedsNext(wants: seq<Request>, i: nat, now: nat)
    requires i < |wants|
    ensures Timeds(wants[..i + 1], now) ==
      match wants[i]
      case Queue(_) => Timeds(wants[..i], now)
      case Later(delay, obj) => Timeds(wants[..i], now) + [Timed(now + delay, obj)]
  {
    assert wants[..i + 1][..i] == wants[..i];
  }

  lemma ExtendedNext(l: Lists, es: seq<Event>, e: Event)
    ensures Extended(l, es + [e]) == (var m := Extended(l, es); m[Stratum(e) := m[Stratum(e)] + [e]])
    ensures Containers(es + [e]) == Containers(es) + {e.container}
  {
    assert (es + [e])[..|es|] == es;
    var s := es + [e];
    assert forall x | x in es :: x in s;
    assert s[|es|] == e;
  }

  lemma ExtendedNone(l: Lists)
    ensures Extended(l, []) == l && Containers([]) == {}
  {
  }

  lemma NothingAsked(l: Lists, q: set<nat>, nodes: seq<Node>, wants: seq<Request>, now: nat)
    ensures Accepted(wants[..0], q) == [] && Timeds(wants[..0], now) == []
    ensures Extended(l, []) == l && Containers([]) == {} && AllAdded(nodes, []) == nodes
  {
  }

  lemma AllAddedNext(nodes: seq<Node>, ts: seq<Timed>, t: Timed)
    ensures AllAdded(nodes, ts + [t]) == Added(AllAdded(nodes, ts), t.time, t.obj)
  {
    hide Added;
    assert (ts + [t])[..|ts|] == ts;
  }

  class Engine {
    /** What each statement does may depend on everything that ran before. */
    const behave: Behaviour

    var lists: Lists
    var queued: set<nat>
    var amounts: seq<int>
    var triggered: nat
    var nodes: seq<Node>
    var latest: nat
    var past: seq<Cause>
    var budget: nat

    ghost var added: seq<Event>
    ghost var handled: seq<Event>
    ghost var batches: seq<Batch>
    ghost var posted: seq<Timed>
    ghost var delivered: seq<Timed>
    ghost var slots: seq<Slot>
    /** The times at which the elements of `past` ran, and the entries the wheel
        held from the beginning. */
    ghost var when: seq<nat>
    ghost var started: seq<Timed>
    ghost const uncounted: int

    /** Invariant of the lists while batch `flight` of stratum `j` is handled. */
    ghost predicate Queues(j: nat, flight: seq<Event>)
      reads `lists, `queued, `amounts, `triggered, `added, `handled, `batches
    {
      QueuesOk(lists, queued, amounts, triggered, uncounted, added, handled, batches, j, flight)
    }

    ghost predicate Clock()
      reads `nodes, `latest, `posted, `delivered
    {
      Ascending(nodes) && Settled(nodes, posted, delivered) && (nodes != [] ==> latest <= nodes[0].time) &&
      (forall e | e in delivered :: e.time <= latest) && InTime(delivered)
    }

    ghost predicate Slots()
      reads `nodes, `latest, `slots
    {
      (forall s | s in slots :: SlotOk(s, Quiet(behave)) && s.time <= latest) &&
      (nodes != [] ==> forall s | s in slots :: s.time < nodes[0].time)
    }

    ghost predicate History()
      reads `past, `when, `started, `posted, `delivered, `handled
    {
      Recorded(behave, past, when, started, posted, delivered, handled)
    }

    /** The front node of the wheel is that of the current time. */
    ghost predicate AtFront()
      reads `nodes, `latest
    {
      nodes != [] && nodes[0].time == latest
    }

    /** All five queues are empty. */
    ghost predicate Drained()
      reads `lists
    {
      lists == [[], [], [], [], []]
    }

    ghost predicate SlotsBefore(t: nat)
      reads `slots
    {
      forall s | s in slots :: SlotOk(s, Quiet(behave)) && s.time < t
    }

    /** `nb` is what the counter of nonblocking events happens to start with:
        the simulator does not initialise it. */
    constructor (h: Behaviour, steps: nat, nb: int)
      ensures behave == h && Queues(0, []) && Clock() && Slots() && History() && started == []
      ensures lists == [[], [], [], [], []] && nodes == [Node(0, [])] && latest == 0 && budget == steps
    {
      behave := h;
      budget := steps;
      lists := [[], [], [], [], []];
      queued, triggered, latest := {}, 0, 0;
      amounts := [0, 0, nb, 0, 0];
      uncounted := nb;
      nodes := [Node(0, [])];
      past := [];
      SettledStart();
      added, handled, batches, posted, delivered, slots := [], [], [], [], [], [];
      when, started := [], [];
    }

    method AddEvent(e: Event, ghost j: nat, ghost flight: seq<Event>)
      requires Queues(j, flight) && e.container !in queued
      modifies this`lists, this`queued, this`amounts, this`added
      ensures Queues(j, flight)
      ensures lists == old(lists)[Stratum(e) := old(lists)[Stratum(e)] + [e]]
      ensures queued == old(queued) + {e.container} && added == old(added) + [e]
    {
      hide Flagged, Balanced, OfStratum, InOrder, Joined, Only;
      FlaggedAdd(lists, queued, e);
      BalancedAdd(lists, added, handled, j, flight, e);
      CountedAdd(amounts, uncounted, added, e);
      queued := queued + {e.container};
      var k := Stratum(e);
      lists := lists[k := lists[k] + [e]];
      amounts := amounts[k := amounts[k] + 1];
      added := added + [e];
    }

    /** Add an entry to the wheel; times before its front are refused. */
    method AddTimed(t: nat, obj: nat)
      requires Clock()
      modifies this`nodes, this`posted
      ensures Clock() && nodes == Added(old(nodes), t, obj)
      ensures old(nodes) != [] ==> nodes != [] && nodes[0].time == old(nodes)[0].time
      ensures posted == if Keeps(old(nodes), t) then old(posted) + [Timed(t, obj)] else old(posted)
    {
      SettledAdd(nodes, posted, delivered, t, obj);
      if Keeps(nodes, t) { posted := posted + [Timed(t, obj)]; }
      nodes := Place(nodes, t, obj);
    }

    /** The setup of a process puts its root into the wheel before the run. */
    method Start(t: nat, obj: nat)
      requires Queues(0, []) && Clock() && Slots() && History() && past == [] && nodes != []
      modifies this`nodes, this`posted, this`started
      ensures Queues(0, []) && Clock() && Slots() && History()
      ensures nodes == Added(old(nodes), t, obj)
      ensures started == if Keeps(old(nodes), t) then old(started) + [Timed(t, obj)] else old(started)
    {
      hide Queues, Clock, Added;
      ghost var front := nodes[0].time;
      if Keeps(nodes, t) { started := started + [Timed(t, obj)]; }
      AddTimed(t, obj);
      assert nodes[0].time == front;
    }

    /** Callers test the container before they add an event: afterwards one of its
        events is queued, the given one if there was none before. */
    method Offer(e: Event, ghost j: nat, ghost flight: seq<Event>)
      requires Queues(j, flight)
      modifies this`lists, this`queued, this`amounts, this`added
      ensures Queues(j, flight) && queued == old(queued) + {e.container}
      ensures lists == if e.container in old(queued) then old(lists) else Extended(old(lists), [e])
      ensures added == if e.container in old(queued) then old(added) else old(added) + [e]
    {
      hide Queues;
      ExtendedNext(lists, [], e);
      assert [] + [e] == [e];
      if e.container !in queued { AddEvent(e, j, flight); }
    }

    /** Run one statement and do what it asks for: every wheel entry is added at
        its time, every event unless its container is flagged. */
    method Perform(c: Cause, ghost j: nat, ghost flight: seq<Event>)
      requires Queues(j, flight) && Clock() && AtFront()
      modifies this`lists, this`queued, this`amounts, this`added, this`nodes, this`posted, this`past, this`when
      ensures Queues(j, flight) && Clock() && AtFront()
      ensures past == old(past) + [c] && when == old(when) + [latest]
      ensures
        var wants := behave(old(past), c);
        var a, t := Accepted(wants, old(queued)), Timeds(wants, latest);
        added == old(added) + a && lists == Extended(old(lists), a) && queued == old(queued) + Containers(a) &&
        posted == old(posted) + t && nodes == AllAdded(old(nodes), t)
      ensures Grew(old(lists), lists) && FrontGrew(old(nodes), nodes)
      ensures behave(old(past), c) == [] ==> lists == old(lists) && nodes == old(nodes)
    {
      hide Queues, Clock, Added, Accepted, Timeds, Extended, AllAdded, Containers, Grew, FrontGrew;
      var wants := behave(past, c);
      past, when := past + [c], when + [latest];
      var i := 0;
      NothingAsked(lists, queued, nodes, wants, latest);
      while i < |wants|
        invariant i <= |wants| && Queues(j, flight) && Clock() && AtFront()
        invariant past == old(past) + [c] && when == old(when) + [latest]
        invariant Served(old(lists), old(queued), old(added), old(nodes), old(posted),
          Accepted(wants[..i], old(queued)),
                         Timeds(wants[..i], latest))
      {
        Serve(wants[i], j, flight, old(lists), old(queued), old(added), old(nodes), old(posted), wants, i);
        i := i + 1;
      }
      assert wants[..|wants|] == wants;
      ExtendedGrew(old(lists), Accepted(wants, old(queued)));
      AllAddedGrew(old(nodes), Timeds(wants, latest));
      assert wants == [] ==> wants[..0] == wants;
    }

    /** The state after the events `a` and the wheel entries `t` were added. */
    ghost predicate Served(l: Lists, q: set<nat>, all: seq<Event>, ns: seq<Node>, ts: seq<Timed>, a: seq<Event>,
        t: seq<Timed>)
      reads `lists, `queued, `added, `nodes, `posted
    {
      added == all + a && lists == Extended(l, a) && queued == q + Containers(a) &&
      posted == ts + t && nodes == AllAdded(ns, t)
    }

    /** One request. */
    method Serve(r: Request, ghost j: nat, ghost flight: seq<Event>, ghost l: Lists, ghost q: set<nat>,
        ghost all: seq<Event>, ghost ns: seq<Node>, ghost ts: seq<Timed>, ghost wants: seq<Request>, ghost i: nat)
      requires Queues(j, flight) && Clock() && AtFront() && i < |wants| && r == wants[i]
      requires Served(l, q, all, ns, ts, Accepted(wants[..i], q), Timeds(wants[..i], latest))
      modifies this`lists, this`queued, this`amounts, this`added, this`nodes, this`posted
      ensures Queues(j, flight) && Clock() && AtFront()
      ensures Served(l, q, all, ns, ts, Accepted(wants[..i + 1], q), Timeds(wants[..i + 1], latest))
    {
      hide *;
      ghost var a, t := Accepted(wants[..i], q), Timeds(wants[..i], latest);
      AcceptedNext(wants, i, q);
      TimedsNext(wants, i, latest);
      match r {
        case Queue(e) => ServeEvent(e, j, flight, l, q, all, ns, ts, a, t);
        case Later(delay, obj) => ServeLater(delay, obj, j, flight, l, q, all, ns, ts, a, t);
      }
    }

    method ServeEvent(e: Event, ghost j: nat, ghost flight: seq<Event>, ghost l: Lists, ghost q: set<nat>,
        ghost all: seq<Event>, ghost ns: seq<Node>, ghost ts: seq<Timed>, ghost a: seq<Event>, ghost t: seq<Timed>)
      requires Queues(j, flight) && Served(l, q, all, ns, ts, a, t)
      modifies this`lists, this`queued, this`amounts, this`added
      ensures Queues(j, flight)
      ensures Served(l, q, all, ns, ts, if e.container in q + Containers(a) then a else a + [e], t)
    {
      hide Queues, Added, Extended, AllAdded, Containers;
      ExtendedNext(lists, [], e);
      ExtendedNext(l, a, e);
      ExtendedNone(lists);
      assert [] + [e] == [e];
      Offer(e, j, flight);
      assert e.container in q + Containers(a) ==> queued == q + Containers(a);
    }

    method ServeLater(delay: nat, obj: nat, ghost j: nat, ghost flight: seq<Event>, ghost l: Lists, ghost q: set<nat>,
        ghost all: seq<Event>, ghost ns: seq<Node>, ghost ts: seq<Timed>, ghost a: seq<Event>, ghost t: seq<Timed>)
      requires Queues(j, flight) && Clock() && AtFront() && Served(l, q, all, ns, ts, a, t)
      modifies this`nodes, this`posted
      ensures Queues(j, flight) && Clock() && AtFront()
      ensures Served(l, q, all, ns, ts, a, t + [Timed(latest + delay, obj)])
    {
      hide Queues, Clock, Added, Extended, AllAdded, Containers;
      AllAddedNext(ns, t, Timed(latest + delay, obj));
      AddTimed(latest + delay, obj);
    }

    /** Take a list as a batch, clearing the flags so that its events can be
        queued again while they are handled. */
    method MoveEvents(k: nat) returns (batch: seq<Event>)
      requires k < 5 && Queues(k, []) && (forall i | 0 <= i < k :: lists[i] == []) && lists[k] != []
      modifies this`lists, this`queued, this`batches
      ensures Queues(k, batch) && batch == old(lists)[k] && lists == old(lists)[k := []]
      ensures batches == old(batches) + [Batch(k, batch, old(lists))]
    {
      hide Flagged, Balanced, Joined, Only, Counted;
      batch := [];
      BatchStarts(batches, lists, queued, k, handled);
      batches := batches + [Batch(k, lists[k], lists)];
      ghost var bs := batches;
      while lists[k] != []
        invariant batches == bs && lists == old(lists)[k := lists[k]] && batch + lists[k] == old(lists)[k]
        invariant Flagged(lists, queued) && Balanced(lists, added, handled, k, batch)
        decreases |lists[k]|
      {
        FlaggedPop(lists, queued, k);
        BalancedTake(lists, added, handled, k, batch);
        var e := lists[k][0];
        queued := queued - {e.container};
        batch := batch + [e];
        lists := lists[k := lists[k][1..]];
      }
    }

    /** Run the events of a batch in order. */
    method HandleEvents(batch: seq<Event>, ghost k: nat)
      requires k < 5 && Queues(k, batch) && Clock() && AtFront() && History()
      modifies this`lists, this`queued, this`amounts, this`triggered, this`nodes, this`past, this`when
      modifies this`added, this`handled, this`posted
      ensures Queues(0, []) && Clock() && AtFront() && History() && handled == old(handled) + batch
      ensures Grew(old(lists), lists) && FrontGrew(old(nodes), nodes)
      ensures k == 4 && Quiet(behave) ==> lists == old(lists) && nodes == old(nodes)
    {
      hide Clock, Grew, FrontGrew, QueuesOk, Recorded, Accepted, Timeds, Extended, AllAdded, Containers, AtFront;
      GrewSelf(lists, nodes);
      var todo := batch;
      while todo != []
        invariant Queues(k, todo) && Clock() && AtFront() && History() && handled + todo == old(handled) + batch
        invariant Grew(old(lists), lists) && FrontGrew(old(nodes), nodes)
        invariant k == 4 && Quiet(behave) ==> lists == old(lists) && nodes == old(nodes)
        decreases |todo|
      {
        ghost var l, n := lists, nodes;
        StrobeQuiet(k, todo);
        RunEvent(todo, k);
        GrewOn(old(lists), l, lists, old(nodes), n, nodes);
        todo := todo[1..];
      }
      NoFlight(k);
    }

    /** Run the first event of what is left of a batch. */
    method RunEvent(todo: seq<Event>, ghost k: nat)
      requires todo != [] && Queues(k, todo) && Clock() && AtFront() && History()
      modifies this`lists, this`queued, this`amounts, this`triggered, this`nodes, this`past, this`when
      modifies this`added, this`handled, this`posted
      ensures Queues(k, todo[1..]) && Clock() && AtFront() && History() && handled == old(handled) + [todo[0]]
      ensures Grew(old(lists), lists) && FrontGrew(old(nodes), nodes)
      ensures behave(old(past), FromQueue(todo[0])) == [] ==> lists == old(lists) && nodes == old(nodes)
    {
      hide Clock, Grew, FrontGrew, QueuesOk, Recorded, Accepted, Timeds, Extended, AllAdded, Containers, AtFront;
      var c := FromQueue(todo[0]);
      RecordedNext(behave, past, when, started, posted, delivered, handled, c, latest);
      Perform(c, k, todo);
      HandledOk(lists, queued, amounts, triggered, uncounted, added, handled, batches, k, todo);
      handled := handled + [todo[0]];
      triggered := triggered + 1;
      assert delivered + [] == delivered;
    }

    lemma StrobeQuiet(k: nat, todo: seq<Event>)
      requires Queues(k, todo) && todo != []
      ensures k == 4 && Quiet(behave) ==> behave(past, FromQueue(todo[0])) == []
    {
      hide Flagged, Balanced, InOrder, Joined, Counted;
      assert todo[0] in todo;
      assert k == 4 ==> Stratum(todo[0]) == 4 && todo[0].trig.Strobe?;
    }

    lemma NoFlight(k: nat)
      requires Queues(k, [])
      ensures Queues(0, [])
    {
      hide Flagged, InOrder, Joined, Counted, Only;
      FlightGone(lists, added, handled, k);
    }

    /** One batch of stratum `k`. */
    method RunBatch(k: nat)
      requires k < 5 && Queues(0, []) && Clock() && AtFront() && History()
      requires (forall i | 0 <= i < k :: lists[i] == []) && lists[k] != []
      modifies this`lists, this`queued, this`amounts, this`triggered, this`nodes, this`past, this`when
      modifies this`added, this`handled, this`posted, this`batches
      ensures Queues(0, []) && Clock() && AtFront() && History() && FrontGrew(old(nodes), nodes)
      ensures k == 4 && Quiet(behave) ==> lists == old(lists)[4 := []] && nodes == old(nodes)
    {
      hide QueuesOk, Clock, AtFront, Recorded;
      FlightFrom(k);
      var batch := MoveEvents(k);
      HandleEvents(batch, k);
    }

    lemma FlightFrom(k: nat)
      requires Queues(0, [])
      ensures Queues(k, [])
    {
      hide Flagged, InOrder, Joined, Counted, Only;
      FlightGone(lists, added, handled, 0);
    }

    /** Run batches until only strobe events are left, then those. */
    method TriggerQueue() returns (finished: bool)
      requires Queues(0, []) && Clock() && AtFront() && History()
      modifies this`lists, this`queued, this`amounts, this`triggered, this`nodes, this`past, this`when
      modifies this`added, this`handled, this`posted, this`batches, this`budget
      ensures Queues(0, []) && Clock() && AtFront() && History() && FrontGrew(old(nodes), nodes) &&
        budget <= old(budget)
      ensures finished && Quiet(behave) ==> lists == [[], [], [], [], []]
      ensures !finished ==> budget == 0
      ensures forall b | b in batches :: Stratified(b)
    {
      hide QueuesOk, Clock, FrontGrew, AtFront, Recorded, Stratified;
      GrewSelf(lists, nodes);
      while lists[0] != [] || lists[1] != [] || lists[2] != [] || lists[3] != []
        invariant Queues(0, []) && Clock() && AtFront() && History() && FrontGrew(old(nodes), nodes) &&
          budget <= old(budget)
        decreases budget
      {
        if budget == 0 {
          AllStratified();
          return false;
        }
        budget := budget - 1;
        ghost var n := nodes;
        if lists[0] != [] {
          RunBatch(0);
        } else if lists[1] != [] {
          RunBatch(1);
        } else if lists[2] != [] {
          RunBatch(2);
        } else {
          RunBatch(3);
        }
        GrewOn(lists, lists, lists, old(nodes), n, nodes);
      }
      if lists[4] != [] {
        ghost var n := nodes;
        RunBatch(4);
        GrewOn(lists, lists, lists, old(nodes), n, nodes);
      }
      AllStratified();
      finished := true;
    }

    lemma AllStratified()
      requires Queues(0, [])
      ensures forall b | b in batches :: Stratified(b)
    {
      hide Flagged, Balanced, InOrder, Joined, Counted, Stratified;
      forall b | b in batches ensures Stratified(b) { InOrderStratified(b); }
    }

    /** Everything at the time of the front node, which is the current time. */
    method HandleTime() returns (finished: bool)
      requires Queues(0, []) && Clock() && AtFront() && History()
      modifies this`lists, this`queued, this`amounts, this`triggered, this`nodes, this`past, this`when
      modifies this`added, this`handled, this`posted, this`batches, this`budget, this`delivered
      ensures Queues(0, []) && Clock() && AtFront() && History() && budget <= old(budget)
      ensures finished ==> nodes[0].objs == []
      ensures !finished ==> budget == 0
      ensures finished && Quiet(behave) && old(nodes)[0].objs != [] ==> Drained()
      ensures old(nodes)[0].objs == [] ==>
        finished && lists == old(lists) && nodes == old(nodes) && handled == old(handled)
    {
      hide QueuesOk, Clock, Recorded;
      finished := true;
      while nodes[0].objs != []
        invariant Queues(0, []) && Clock() && AtFront() && History() && budget <= old(budget)
        invariant old(nodes)[0].objs == [] ==> lists == old(lists) && nodes == old(nodes) && handled == old(handled)
        invariant nodes[0].objs == [] && Quiet(behave) && old(nodes)[0].objs != [] ==> Drained()
        decreases budget
      {
        if budget == 0 { return false; }
        budget := budget - 1;
        RunTimed();
        if nodes[0].objs == [] {
          var ok := TriggerQueue();
          if !ok { return false; }
        }
      }
    }

    /** Run the first entry of the front node. */
    method RunTimed()
      requires Queues(0, []) && Clock() && AtFront() && History() && nodes[0].objs != []
      modifies this`lists, this`queued, this`amounts, this`nodes, this`past, this`when
      modifies this`added, this`posted, this`delivered
      ensures Queues(0, []) && Clock() && AtFront() && History()
      ensures delivered == old(delivered) + [Timed(latest, old(nodes)[0].objs[0])]
    {
      hide QueuesOk, Settled, Ascending, InTime, Recorded, Accepted, Timeds, Extended, AllAdded, Containers;
      var st := nodes[0].objs[0];
      var c := FromWheel(nodes[0].time, st);
      RecordedNext(behave, past, when, started, posted, delivered, handled, c, latest);
      Perform(c, 0, []);
      SettledTake(nodes, posted, delivered);
      InTimeAppend(delivered, Timed(nodes[0].time, nodes[0].objs[0]));
      delivered := delivered + [Timed(nodes[0].time, nodes[0].objs[0])];
      nodes := nodes[0 := nodes[0].(objs := nodes[0].objs[1..])];
      assert handled + [] == handled;
    }

    /** The front node gives the current time. */
    method Advance()
      requires Clock() && Slots() && nodes != []
      modifies this`latest
      ensures Clock() && AtFront() && latest == nodes[0].time >= old(latest) && SlotsBefore(latest)
    {
      hide Settled, Ascending, InTime, SlotOk;
      if nodes[0].time > latest { latest := nodes[0].time; }
    }

    /** Advance to the front node, run it, and drop it. */
    method TriggerOnce() returns (step: bool, finished: bool)
      requires Queues(0, []) && Clock() && Slots() && History()
      modifies this
      ensures Queues(0, []) && Clock() && History() && latest >= old(latest) && budget <= old(budget)
      ensures started == old(started)
      ensures step == (old(nodes) != []) && (!step ==> finished)
      ensures finished ==> Slots()
      ensures !finished ==> budget == 0
      ensures finished && step ==> latest == old(nodes)[0].time && |slots| == |old(slots)| + 1
    {
      hide *;
      if nodes == [] { return false, true; }
      Advance();
      ghost var used := nodes[0].objs != [];
      finished := HandleTime();
      step := true;
      if finished { DropFront(used); }
    }

    /** The front node is done. */
    method DropFront(ghost used: bool)
      requires Clock() && AtFront() && nodes[0].objs == [] && SlotsBefore(latest)
      requires used && Quiet(behave) ==> Drained()
      modifies this`nodes, this`slots
      ensures Clock() && Slots() && nodes == old(nodes)[1..] && |slots| == |old(slots)| + 1
    {
      hide Settled, Ascending, InTime, SlotOk;
      SettledDrop(nodes, posted, delivered);
      AscendingFront(nodes);
      ghost var s := Slot(latest, used, Lengths(lists));
      SlotFrom(s, lists, Quiet(behave));
      slots := slots + [s];
      nodes := nodes[1..];
    }

    /** Run until nothing is left: then, for every time, what was in the wheel
        for it at the beginning and what statements asked for while they ran has
        been run at that time, in this order and once. */
    method Run() returns (finished: bool)
      requires Queues(0, []) && Clock() && Slots() && History()
      modifies this
      ensures Queues(0, []) && Clock() && History() && latest >= old(latest) && started == old(started)
      ensures finished ==> Slots() && nodes == []
      ensures !finished ==> budget == 0
      ensures |when| == |past| && forall i | 0 <= i < |past| && past[i].FromWheel? :: past[i].time == when[i]
      ensures finished ==>
        forall t: nat :: OnlyAt(t, started + Asked(behave, past, when)) == OnlyAt(t, FromWheels(past))
    {
      hide QueuesOk, Recorded;
      while nodes != []
        invariant Queues(0, []) && Clock() && Slots() && History() && latest >= old(latest) && started == old(started)
        decreases budget
      {
        if budget == 0 {
          RecordedIs();
          return false;
        }
        budget := budget - 1;
        var step, ok := TriggerOnce();
        if !ok {
          RecordedIs();
          return false;
        }
      }
      RecordedIs();
      finished := true;
    }

    lemma RecordedIs()
      requires History()
      ensures |when| == |past| && posted == started + Asked(behave, past, when)
      ensures delivered == FromWheels(past) && handled == FromQueues(past)
      ensures forall i | 0 <= i < |past| && past[i].FromWheel? :: past[i].time == when[i]
    {
    }
  }

  lemma InTimeAppend(s: seq<Timed>, e: Timed)
    requires InTime(s) && forall x | x in s :: x.time <= e.time
    ensures InTime(s + [e])
  {
  }

  lemma AscendingFront(nodes: seq<Node>)
    requires Ascending(nodes) && nodes != []
    ensures nodes[1..] != [] ==> nodes[0].time < nodes[1..][0].time
  {
  }

  lemma SlotFrom(s: Slot, lists: Lists, quiet: bool)
    requires s.left == Lengths(lists) && (s.used && quiet ==> lists == [[], [], [], [], []])
    ensures SlotOk(s, quiet)
  {
  }

  // ----- what the invariant of the lists means -----

  /** A container is flagged exactly when one event of it is queued, and events
      added are events handled, in flight or queued, at any moment of a run. */
  lemma EveryEventOnce(lists: Lists, queued: set<nat>, amounts: seq<int>, triggered: nat, start: int,
                       added: seq<Event>, handled: seq<Event>, batches: seq<Batch>, j: nat, flight: seq<Event>, c: nat)
    requires QueuesOk(lists, queued, amounts, triggered, start, added, handled, batches, j, flight) && j < 5
    ensures OccursAll(lists, c) == if c in queued then 1 else 0
    ensures |added| == triggered + |flight| + |lists[0]| + |lists[1]| + |lists[2]| + |lists[3]| + |lists[4]|
  {
    hide InOrder, Joined, Only, Tally, TallyAll;
    FlaggedOnce(lists, queued, c);
    OnlyTotal(added);
    OnlyTotal(handled);
    forall k | 0 <= k < 5
      ensures |Only(k, added)| == |Only(k, handled)| + (if k == j then |flight| else 0) + |lists[k]| {
      assert Only(k, added) == Only(k, handled) + (if k == j then flight else []) + lists[k];
    }
  }

  /** The statistics of the simulator leave out nonblocking events. */
  lemma QueuedEvents(amounts: seq<int>, start: int, added: seq<Event>)
    requires Counted(amounts, start, added)
    ensures amounts[0] + amounts[1] + amounts[3] + amounts[4] == |added| - |Only(2, added)|
  {
    OnlyTotal(added);
    hide Only;
  }

  // ----- growth while statements run -----

  ghost predicate Grew(l: Lists, m: Lists) { forall k | 0 <= k < 5 :: l[k] <= m[k] }

  /** Entries were at most appended to the front node. */
  ghost predicate FrontGrew(n: seq<Node>, m: seq<Node>) {
    n != [] ==> m != [] && m[0].time == n[0].time && n[0].objs <= m[0].objs
  }

  lemma GrewSelf(l: Lists, n: seq<Node>)
    ensures Grew(l, l) && FrontGrew(n, n)
  {
  }

  lemma GrewOn(l: Lists, m: Lists, r: Lists, ln: seq<Node>, mn: seq<Node>, rn: seq<Node>)
    requires Grew(l, m) && Grew(m, r) && FrontGrew(ln, mn) && FrontGrew(mn, rn)
    ensures Grew(l, r) && FrontGrew(ln, rn)
  {
  }

  lemma {:induction false} ExtendedGrew(l: Lists, es: seq<Event>)
    ensures Grew(l, Extended(l, es))
  {
    if es != [] { ExtendedGrew(l, es[..|es| - 1]); }
  }

  lemma {:induction false} AllAddedGrew(nodes: seq<Node>, ts: seq<Timed>)
    ensures FrontGrew(nodes, AllAdded(nodes, ts))
  {
    hide Added;
    if ts != [] {
      var n, t := AllAdded(nodes, ts[..|ts| - 1]), ts[|ts| - 1];
      AllAddedGrew(nodes, ts[..|ts| - 1]);
      FrontKept(n, t.time, t.obj);
    }
  }

  lemma BatchStarts(bs: seq<Batch>, l: Lists, queued: set<nat>, k: nat, handled: seq<Event>)
    requires k < 5 && Flagged(l, queued) && (forall i | 0 <= i < k :: l[i] == []) && l[k] != []
    requires Joined(bs) == handled + []
    ensures InOrder(Batch(k, l[k], l)) && OfStratum(l[k], k)
    ensures Joined(bs + [Batch(k, l[k], l)]) == handled + l[k]
  {
    hide Joined, TallyAll;
    JoinedAppend(bs, Batch(k, l[k], l));
    assert handled + [] == handled;
  }

  lemma FlightGone(l: Lists, added: seq<Event>, handled: seq<Event>, k: nat)
    requires Balanced(l, added, handled, k, [])
    ensures forall j :: Balanced(l, added, handled, j, [])
  {
  }

  /** Adding an entry never takes anything from the front node. */
  lemma FrontKept(nodes: seq<Node>, t: nat, obj: nat)
    ensures var n := Added(nodes, t, obj);
      nodes != [] ==> n != [] && n[0].time == nodes[0].time && nodes[0].objs <= n[0].objs
  {
  }

  lemma SettledStart()
    ensures Settled([Node(0, [])], [], []) && Ascending([Node(0, [])])
  {
    forall t: nat ensures At([Node(0, [])], t) == [] {
      assert [Node(0, [])][1..] == [];
    }
  }

  // ----- counters -----

  /** Each counter has counted the events added to its list, from its start. */
  ghost predicate Counted(amounts: seq<int>, start: int, added: seq<Event>) {
    |amounts| == 5 && forall k | 0 <= k < 5 :: amounts[k] == (if k == 2 then start else 0) + |Only(k, added)|
  }

  lemma CountedAdd(amounts: seq<int>, start: int, added: seq<Event>, e: Event)
    requires Counted(amounts, start, added)
    ensures Counted(amounts[Stratum(e) := amounts[Stratum(e)] + 1], start, added + [e])
  {
    forall k | 0 <= k < 5
      ensures |Only(k, added + [e])| == |Only(k, added)| + if k == Stratum(e) then 1 else 0
    {
      OnlyAppend(k, added, e);
    }
  }

  /** Entries were handed over in order of time. */
  ghost predicate InTime(s: seq<Timed>) {
    forall i, j | 0 <= i < j < |s| :: s[i].time <= s[j].time
  }
}
