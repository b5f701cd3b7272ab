/** The time wheel: a list of nodes in order of time, each with its events. */
module Wheel {

  datatype Node = Node(time: nat, objs: seq<nat>)

  datatype Timed = Timed(time: nat, obj: nat)

  ghost predicate Ascending(nodes: seq<Node>) {
    forall i, j | 0 <= i < j < |nodes| :: nodes[i].time < nodes[j].time
  }

  /** The wheel as a map from time to the events waiting for it. */
  ghost function At(nodes: seq<Node>, t: nat): seq<nat> {
    if nodes == [] then [] else if nodes[0].time == t then nodes[0].objs else At(nodes[1..], t)
  }

  /** The wheel with one more event, whatever its time. */
  function Insert(nodes: seq<Node>, t: nat, obj: nat): seq<Node> {
    if nodes == [] || t < nodes[0].time then [Node(t, [obj])] + nodes
    else if t == nodes[0].time then [Node(t, nodes[0].objs + [obj])] + nodes[1..]
    else [nodes[0]] + Insert(nodes[1..], t, obj)
  }

  /** Events are kept exactly when the wheel is not empty and their time is not
      before its front. */
  predicate Keeps(nodes: seq<Node>, t: nat) { nodes != [] && nodes[0].time <= t }

  function Added(nodes: seq<Node>, t: nat, obj: nat): seq<Node> {
    if Keeps(nodes, t) then Insert(nodes, t, obj) else nodes
  }

  lemma {:induction false} AtBefore(nodes: seq<Node>, t: nat)
    requires Ascending(nodes) && (nodes != [] ==> t < nodes[0].time)
    ensures At(nodes, t) == []
  {
    if nodes != [] {
      assert nodes[1..] != [] ==> nodes[1..][0] == nodes[1];
      AtBefore(nodes[1..], t);
    }
  }

  lemma {:induction false} InsertAt(nodes: seq<Node>, t: nat, obj: nat, x: nat)
    requires Ascending(nodes)
    ensures At(Insert(nodes, t, obj), x) == if x == t then At(nodes, t) + [obj] else At(nodes, x)
  {
    var n := Insert(nodes, t, obj);
    if nodes == [] || t < nodes[0].time {
      assert n[1..] == nodes;
      AtBefore(nodes, t);
    } else if t == nodes[0].time {
      assert n[1..] == nodes[1..];
    } else {
      assert n[1..] == Insert(nodes[1..], t, obj);
      InsertAt(nodes[1..], t, obj, x);
    }
  }

  lemma {:induction false} InsertAscending(nodes: seq<Node>, t: nat, obj: nat)
    requires Ascending(nodes)
    ensures var n := Insert(nodes, t, obj);
      Ascending(n) && n != [] && n[0].time == if nodes == [] || t < nodes[0].time then t else nodes[0].time
  {
    if nodes != [] && t > nodes[0].time {
      InsertAscending(nodes[1..], t, obj);
      InFront(nodes[0], Insert(nodes[1..], t, obj));
    } else if nodes != [] && t < nodes[0].time {
      InFront(Node(t, [obj]), nodes);
    }
  }

  lemma InFront(n: Node, rest: seq<Node>)
    requires Ascending(rest) && (rest != [] ==> n.time < rest[0].time)
    ensures Ascending([n] + rest)
  {
  }

  /** Adding an event appends it to the list of its time and changes nothing
      else; an event that cannot be kept leaves the wheel alone. */
  lemma AddedAt(nodes: seq<Node>, t: nat, obj: nat, x: nat)
    requires Ascending(nodes)
    ensures var n := Added(nodes, t, obj);
      Ascending(n) && (nodes != [] ==> n != [] && n[0].time == nodes[0].time) &&
      At(n, x) == if Keeps(nodes, t) && x == t then At(nodes, x) + [obj] else At(nodes, x)
  {
    InsertAt(nodes, t, obj, x);
    InsertAscending(nodes, t, obj);
  }

  lemma InsertStep(nodes: seq<Node>, t: nat, obj: nat)
    requires nodes != [] && nodes[0].time < t
    ensures Insert(nodes, t, obj) == [nodes[0]] + Insert(nodes[1..], t, obj)
  {
  }

  lemma {:induction false} InsertSplit(nodes: seq<Node>, i: nat, t: nat, obj: nat)
    requires i <= |nodes| && forall j | 0 <= j < i :: nodes[j].time < t
    ensures Insert(nodes, t, obj) == nodes[..i] + Insert(nodes[i..], t, obj)
    decreases i
  {
    hide Insert;
    if i == 0 {
      assert nodes[0..] == nodes && nodes[..0] + Insert(nodes, t, obj) == Insert(nodes, t, obj);
    } else {
      InsertStep(nodes, t, obj);
      InsertSplit(nodes[1..], i - 1, t, obj);
      var rest := Insert(nodes[i..], t, obj);
      assert nodes[1..][i - 1..] == nodes[i..];
      assert nodes[..i] + rest == [nodes[0]] + (nodes[1..][..i - 1] + rest);
    }
  }

  /** The place of an event: at a node of its time. */
  lemma InsertAtNode(nodes: seq<Node>, i: nat, t: nat, obj: nat)
    requires i < |nodes| && (forall j | 0 <= j < i :: nodes[j].time < t) && nodes[i].time == t
    ensures Insert(nodes, t, obj) == nodes[..i] + [Node(t, nodes[i].objs + [obj])] + nodes[i + 1..]
  {
    InsertSplit(nodes, i, t, obj);
    InsertFound(nodes[i..], t, obj);
    hide Insert;
    var n := Node(t, nodes[i].objs + [obj]);
    assert nodes[i..][1..] == nodes[i + 1..];
    assert nodes[..i] + ([n] + nodes[i + 1..]) == nodes[..i] + [n] + nodes[i + 1..];
  }

  lemma InsertFound(nodes: seq<Node>, t: nat, obj: nat)
    requires nodes != []
    ensures nodes[0].time == t ==> Insert(nodes, t, obj) == [Node(t, nodes[0].objs + [obj])] + nodes[1..]
    ensures t < nodes[0].time ==> Insert(nodes, t, obj) == [Node(t, [obj])] + nodes
  {
  }

  /** Before node `i`, or behind the last node. */
  lemma InsertBefore(nodes: seq<Node>, i: nat, t: nat, obj: nat)
    requires i <= |nodes| && (forall j | 0 <= j < i :: nodes[j].time < t) && (i < |nodes| ==> t < nodes[i].time)
    ensures Insert(nodes, t, obj) == nodes[..i] + [Node(t, [obj])] + nodes[i..]
  {
    InsertSplit(nodes, i, t, obj);
    if i < |nodes| { InsertFound(nodes[i..], t, obj); } else { InsertNone(t, obj); }
    hide Insert;
    var n := Node(t, [obj]);
    assert nodes[..i] + ([n] + nodes[i..]) == nodes[..i] + [n] + nodes[i..];
  }

  lemma InsertNone(t: nat, obj: nat)
    ensures Insert([], t, obj) == [Node(t, [obj])] + []
  {
  }

  /** The search for the place of an event, node by node. */
  method Place(nodes: seq<Node>, t: nat, obj: nat) returns (n: seq<Node>)
    ensures n == Added(nodes, t, obj)
  {
    hide Insert;
    var i := 0;
    while i < |nodes|
      invariant i <= |nodes| && (i > 0 ==> i < |nodes| && nodes[i].time <= t)
      invariant forall j | 0 <= j < i :: nodes[j].time < t
    {
      if t == nodes[i].time {
        InsertAtNode(nodes, i, t, obj);
        return nodes[..i] + [Node(t, nodes[i].objs + [obj])] + nodes[i + 1..];
      } else if t > nodes[i].time {
        if i + 1 < |nodes| {
          if t < nodes[i + 1].time {
            InsertBefore(nodes, i + 1, t, obj);
            return nodes[..i + 1] + [Node(t, [obj])] + nodes[i + 1..];
          }
        } else {
          InsertBefore(nodes, i + 1, t, obj);
          assert nodes[..i + 1] == nodes && nodes[i + 1..] == [];
          return nodes + [Node(t, [obj])];
        }
      } else {
        return nodes; // before the front of the wheel
      }
      i := i + 1;
    }
    n := nodes; // an empty wheel
  }

  // ----- histories -----

  ghost function OnlyAt(t: nat, s: seq<Timed>): seq<nat> {
    if s == [] then []
    else
      var e := s[|s| - 1];
      OnlyAt(t, s[..|s| - 1]) + if e.time == t then [e.obj] else []
  }

  lemma OnlyAtAppend(t: nat, s: seq<Timed>, e: Timed)
    ensures OnlyAt(t, s + [e]) == OnlyAt(t, s) + if e.time == t then [e.obj] else []
  {
    assert (s + [e])[..|s|] == s;
  }

  /** For every time, what was added for it is what was handed over at it, then
      what still waits, in order. */
  ghost predicate Settled(nodes: seq<Node>, posted: seq<Timed>, delivered: seq<Timed>) {
    forall t: nat :: OnlyAt(t, posted) == OnlyAt(t, delivered) + At(nodes, t)
  }

  lemma SettledAdd(nodes: seq<Node>, posted: seq<Timed>, delivered: seq<Timed>, t: nat, obj: nat)
    requires Ascending(nodes) && Settled(nodes, posted, delivered)
    ensures Settled(Added(nodes, t, obj), if Keeps(nodes, t) then posted + [Timed(t, obj)] else posted, delivered)
    ensures Ascending(Added(nodes, t, obj))
    ensures nodes != [] ==> Added(nodes, t, obj) != [] && Added(nodes, t, obj)[0].time == nodes[0].time
  {
    AddedAt(nodes, t, obj, 0);
    if Keeps(nodes, t) {
      var n := Added(nodes, t, obj);
      forall x: nat ensures OnlyAt(x, posted + [Timed(t, obj)]) == OnlyAt(x, delivered) + At(n, x) {
        OnlyAtAppend(x, posted, Timed(t, obj));
        AddedAt(nodes, t, obj, x);
        assert OnlyAt(x, posted) == OnlyAt(x, delivered) + At(nodes, x);
      }
    }
  }

  lemma AtTaken(nodes: seq<Node>, x: nat)
    requires nodes != [] && nodes[0].objs != []
    ensures var n := nodes[0 := nodes[0].(objs := nodes[0].objs[1..])];
      At(nodes, x) == (if x == nodes[0].time then [nodes[0].objs[0]] else []) + At(n, x)
  {
    var n := nodes[0 := nodes[0].(objs := nodes[0].objs[1..])];
    assert n[1..] == nodes[1..];
    if x == nodes[0].time { assert nodes[0].objs == [nodes[0].objs[0]] + n[0].objs; }
  }

  /** Handing over the first event of the front node. */
  lemma SettledTake(nodes: seq<Node>, posted: seq<Timed>, delivered: seq<Timed>)
    requires nodes != [] && nodes[0].objs != [] && Ascending(nodes) && Settled(nodes, posted, delivered)
    ensures var n := nodes[0 := nodes[0].(objs := nodes[0].objs[1..])];
      Ascending(n) && Settled(n, posted, delivered + [Timed(nodes[0].time, nodes[0].objs[0])])
  {
    hide OnlyAt, At;
    var n := nodes[0 := nodes[0].(objs := nodes[0].objs[1..])];
    var e := Timed(nodes[0].time, nodes[0].objs[0]);
    forall x: nat ensures OnlyAt(x, posted) == OnlyAt(x, delivered + [e]) + At(n, x) {
      OnlyAtAppend(x, delivered, e);
      AtTaken(nodes, x);
      assert OnlyAt(x, posted) == OnlyAt(x, delivered) + At(nodes, x);
    }
  }

  /** Dropping a front node that has nothing left. */
  lemma SettledDrop(nodes: seq<Node>, posted: seq<Timed>, delivered: seq<Timed>)
    requires nodes != [] && nodes[0].objs == [] && Ascending(nodes) && Settled(nodes, posted, delivered)
    ensures Ascending(nodes[1..]) && Settled(nodes[1..], posted, delivered)
  {
    forall x: nat ensures OnlyAt(x, posted) == OnlyAt(x, delivered) + At(nodes[1..], x) {
      assert OnlyAt(x, posted) == OnlyAt(x, delivered) + At(nodes, x);
      if x == nodes[0].time {
        assert nodes[1..] != [] ==> nodes[1..][0] == nodes[1];
        AtBefore(nodes[1..], x);
      }
    }
  }
}
