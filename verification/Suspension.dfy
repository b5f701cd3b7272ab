/** The exact shape of a suspended process, in every state a run reaches. */
module Suspension {
  import opened Wrappers
  import opened Program
  import opened Machine
  import opened Shape
  import opened Refinement
  import opened Restarts

  /** The statement block `b` is at. */
  function Current(m: State, b: Stmt): Option<Stmt> {
    if b.Block? && Of(m, b.id).cur < |b.items| then Some(b.items[Of(m, b.id).cur]) else None
  }

  ghost predicate IsPushed(stk: seq<Stmt>, x: nat) {
    exists i | 0 <= i < |stk| :: stk[i].id == x
  }

  /** `x` is where the top block is, behind its ifs and cases, or a loop further
      down that waits to continue. */
  ghost predicate OnPath(d: Design, m: State, stk: seq<Stmt>, x: nat) {
    exists i | 0 <= i < |stk| :: Current(m, stk[i]).Some? && Marks(d, m, Current(m, stk[i]).value, i, x)
  }

  ghost predicate Marks(d: Design, m: State, s: Stmt, i: nat, x: nat) {
    if i == 0 then Leaf(d, s, m.world.store).id == x else s.id == x && s.Loop? && Of(m, x).looped
  }

  lemma {:induction false} EnclosesIdle(m: State, s: Stmt, inner: Stmt, x: nat)
    requires Encloses(m, s, inner) && x in Ids(s) - Ids(inner)
    ensures Idle(Of(m, x)) || (x == s.id && s.Loop? && Of(m, x).looped && !Of(m, x).pushed)
    decreases s
  {
    if s != inner && x != s.id {
      var cs := Children(s);
      var i :| 0 <= i < |cs| && !cs[i].Loop? && Encloses(m, cs[i], inner) && Others(m, cs, i);
      var j :| 0 <= j < |cs| && x in Ids(cs[j]);
      if i == j { EnclosesIdle(m, cs[i], inner, x); }
    }
  }

  /** Outside the inner block, only the block itself is pushed, and only a loop
      it is at may carry flags. */
  lemma FrameIdle(m: State, b: Stmt, inner: Stmt, x: nat)
    requires Frame(m, b, inner) && x in Ids(b) - Ids(inner)
    ensures Of(m, x).pushed ==> x == b.id
    ensures !Idle(Of(m, x)) && x != b.id ==>
      Current(m, b).Some? && Current(m, b).value.id == x && Current(m, b).value.Loop? && Of(m, x).looped
    ensures x == b.id ==> Of(m, x).pushed && Idle(Of(m, x).(pushed := false))
  {
    hide Encloses;
    var c := Of(m, b.id).cur;
    if x != b.id {
      var j :| 0 <= j < |Children(b)| && x in Ids(Children(b)[j]);
      if j == c { EnclosesIdle(m, b.items[c], inner, x); }
    }
  }

  /** The fields of statement `x` are what the stack says they must be. */
  ghost predicate Explained(d: Design, m: State, stk: seq<Stmt>, x: nat) {
    (Of(m, x).pushed <==> IsPushed(stk, x)) &&
    (!Idle(Of(m, x).(pushed := false)) ==> OnPath(d, m, stk, x))
  }

  lemma TopExplained(d: Design, m: State, b: Stmt, x: nat)
    requires Top(d, m, b) && Unique(b) && x in Ids(b)
    ensures Explained(d, m, [b], x)
  {
    hide Waits, Loops, Unique, Clean;
    assert [b][0] == b;
    ChildNotSelf(b);
    if x != b.id {
      var j :| 0 <= j < |Children(b)| && x in Ids(Children(b)[j]);
      BelowTop(d, m, b, j, x);
      if !Idle(Of(m, x)) { assert Marks(d, m, Current(m, [b][0]).value, 0, x); }
    }
  }

  /** Only the current statement of the top block may be in the middle of
      something. */
  lemma BelowTop(d: Design, m: State, b: Stmt, j: nat, x: nat)
    requires Top(d, m, b) && j < |Children(b)| && x in Ids(Children(b)[j])
    ensures !Of(m, x).pushed
    ensures Idle(Of(m, x)) || (Current(m, b).Some? && Leaf(d, Current(m, b).value, m.world.store).id == x)
  {
    hide Ids, Waits, Loops;
    var c := Of(m, b.id).cur;
    if j == c { ReadyIdle(d, m, b.items[c], x); }
  }

  lemma ReadyIdle(d: Design, m: State, s: Stmt, x: nat)
    requires Ready(d, m, s) && x in Ids(s)
    ensures !Of(m, x).pushed && (Idle(Of(m, x)) || x == Leaf(d, s, m.world.store).id)
  {
    if !Clean(m, Ids(s)) && WaitsIn(d, m, s) { WaitsIdle(d, m, s, x); }
  }

  lemma {:induction false} WaitsIdle(d: Design, m: State, s: Stmt, x: nat)
    requires WaitsIn(d, m, s) && x in Ids(s)
    ensures !Of(m, x).pushed && (Idle(Of(m, x)) || x == Leaf(d, s, m.world.store).id)
    decreases s
  {
    hide Picked;
    if Branching(s) && x != s.id {
      var i := Picked(d, s, m.world.store);
      var j :| 0 <= j < |Children(s)| && x in Ids(Children(s)[j]);
      if i == j { WaitsIdle(d, m, Children(s)[i], x); }
    }
  }

  lemma {:induction false} WaitsLeaf(d: Design, m: State, s: Stmt)
    requires WaitsIn(d, m, s)
    ensures var l := Leaf(d, s, m.world.store); Waits(l, Of(m, l.id))
    decreases s
  {
    hide Picked, Ids;
    if Branching(s) { WaitsLeaf(d, m, Children(s)[Picked(d, s, m.world.store)]); }
  }

  lemma WiderStack(d: Design, m: State, stk: seq<Stmt>, b: Stmt, x: nat)
    requires Explained(d, m, stk, x) && x != b.id && stk != []
    ensures Explained(d, m, stk + [b], x)
  {
    var t := stk + [b];
    hide Marks;
    if i :| 0 <= i < |stk| && stk[i].id == x { assert t[i].id == x; }
    if OnPath(d, m, stk, x) {
      var i :| 0 <= i < |stk| && Current(m, stk[i]).Some? && Marks(d, m, Current(m, stk[i]).value, i, x);
      assert t[i] == stk[i];
    }
  }

  lemma NewFrame(d: Design, m: State, stk: seq<Stmt>, b: Stmt, inner: Stmt, x: nat)
    requires Frame(m, b, inner) && x in Ids(b) - Ids(inner) && stk != []
    requires forall i | 0 <= i < |stk| :: stk[i].id in Ids(inner)
    ensures Explained(d, m, stk + [b], x)
  {
    hide Ids, Frame;
    FrameIdle(m, b, inner, x);
    var t := stk + [b];
    assert t[|stk|] == b;
    assert Of(m, x).pushed <==> x == b.id;
    if IsPushed(t, x) {
      var i :| 0 <= i < |t| && t[i].id == x;
      assert i == |stk|;
    }
  }

  lemma PushFrame(d: Design, m: State, stk: seq<Stmt>, b: Stmt, inner: Stmt)
    requires stk != [] && Frame(m, b, inner) && Item(d, b) && Unique(b)
    requires forall y | y in Ids(inner) :: Explained(d, m, stk, y)
    requires forall i | 0 <= i < |stk| :: stk[i].id in Ids(inner)
    ensures forall y | y in Ids(b) :: Explained(d, m, stk + [b], y)
    ensures forall i | 0 <= i < |stk + [b]| :: (stk + [b])[i].id in Ids(b)
  {
    hide Ids, Item, Unique, Frame, Explained;
    FrameSub(d, m, b, inner);
    forall y | y in Ids(b) ensures Explained(d, m, stk + [b], y) {
      if y in Ids(inner) { WiderStack(d, m, stk, b, y); } else { NewFrame(d, m, stk, b, inner, y); }
    }
  }

  /** The stack explains the fields of everything in `s`, and is made of blocks
      in `s`. */
  ghost predicate Covers(d: Design, m: State, stk: seq<Stmt>, s: Stmt) {
    (forall y | y in Ids(s) :: Explained(d, m, stk, y)) && (forall i | 0 <= i < |stk| :: stk[i].id in Ids(s))
  }

  lemma PushCovers(d: Design, m: State, stk: seq<Stmt>, b: Stmt, inner: Stmt)
    requires stk != [] && Frame(m, b, inner) && Item(d, b) && Unique(b) && Covers(d, m, stk, inner)
    ensures Covers(d, m, stk + [b], b)
  {
    hide Ids, Item, Unique, Frame, Explained;
    PushFrame(d, m, stk, b, inner);
  }

  lemma {:induction false} StackCovers(d: Design, m: State, stk: seq<Stmt>, frames: seq<Stmt>, inner: Stmt)
    requires stk != [] && inner.Block? && Chain(m, frames, inner)
    requires Item(d, Last(frames, inner)) && Unique(Last(frames, inner))
    requires Covers(d, m, stk, inner)
    ensures Covers(d, m, stk + frames, Last(frames, inner))
    decreases |frames|
  {
    hide *;
    if frames == [] {
      assert stk + frames == stk;
      LastNone(inner);
    } else {
      var b := frames[0];
      ChainStep(m, frames, inner);
      FrameBlock(m, b, inner);
      ChainSub(d, m, frames[1..], b);
      PushCovers(d, m, stk, b, inner);
      StackCovers(d, m, stk + [b], frames[1..], b);
      assert stk + [b] + frames[1..] == stk + frames;
    }
  }

  lemma LastNone(inner: Stmt)
    ensures Last([], inner) == inner
  {
  }

  lemma {:induction false} ChainAt(m: State, frames: seq<Stmt>, inner: Stmt, i: nat)
    requires Chain(m, frames, inner) && i < |frames|
    ensures Frame(m, frames[i], if i == 0 then inner else frames[i - 1])
    decreases i
  {
    hide Frame;
    if i > 0 { ChainAt(m, frames[1..], frames[0], i - 1); }
  }

  lemma FrameNests(d: Design, m: State, b: Stmt, inner: Stmt)
    requires Frame(m, b, inner)
    ensures Current(m, b).Some? && Ids(inner) <= Ids(Current(m, b).value)
  {
    EnclosesSub(d, m, b.items[Of(m, b.id).cur], inner);
    hide Ids;
  }

  /** The statement on top of the stack: if a wait is pending, what its ifs and
      cases lead to waits; otherwise it is
      absent, not started, or a loop about to continue. */
  ghost predicate TopState(d: Design, m: State, b: Stmt, requeued: bool) {
    var c := Current(m, b);
    if requeued then c.Some? ==> Idle(Of(m, c.value.id)) || Loops(c.value, Of(m, c.value.id))
    else c.Some? && var l := Leaf(d, c.value, m.world.store); Waits(l, Of(m, l.id))
  }

  /** What a stacked block below the top is at: a loop among them is suspended. */
  ghost predicate Suspends(m: State, b: Stmt) {
    var c := Current(m, b);
    c.Some? && (c.value.Loop? ==> Loops(c.value, Of(m, c.value.id)))
  }

  lemma FrameSuspends(m: State, b: Stmt, inner: Stmt)
    requires Frame(m, b, inner) && inner.Block?
    ensures Suspends(m, b)
  {
    hide Ids, Others;
  }

  ghost predicate Shaped(d: Design, root: Stmt, m: State) {
    m.stk != [] && m.stk[|m.stk| - 1] == root && |m.wake| == 1 &&
    (forall x | x in Ids(root) :: Explained(d, m, m.stk, x)) &&
    TopState(d, m, m.stk[0], m.wake[0].Requeue?) && (forall i | 0 < i < |m.stk| :: Suspends(m, m.stk[i])) &&
    (forall i | 0 < i < |m.stk| ::
       Current(m, m.stk[i]).Some? && Ids(m.stk[i - 1]) <= Ids(Current(m, m.stk[i]).value))
  }

  lemma TopCovers(d: Design, m: State, b: Stmt)
    requires Top(d, m, b) && Item(d, b) && Unique(b)
    ensures Covers(d, m, [b], b)
  {
    hide Item, Unique, Top, Explained;
    SelfId(b);
    forall y | y in Ids(b) ensures Explained(d, m, [b], y) { TopExplained(d, m, b, y); }
  }

  lemma CoversAll(d: Design, m: State, stk: seq<Stmt>, s: Stmt)
    requires Covers(d, m, stk, s)
    ensures forall x | x in Ids(s) :: Explained(d, m, stk, x)
  {
    hide Explained, Ids;
  }

  lemma ChainNests(d: Design, m: State, rest: seq<Stmt>, b: Stmt, i: nat)
    requires Chain(m, rest, b) && 0 < i <= |rest|
    requires b.Block?
    ensures var t := [b] + rest;
      Current(m, t[i]).Some? && Ids(t[i - 1]) <= Ids(Current(m, t[i]).value) && Suspends(m, t[i])
  {
    hide Ids, Chain, Current, Frame;
    ChainAt(m, rest, b, i - 1);
    var inner := if i == 1 then b else rest[i - 2];
    if i > 1 { ChainAt(m, rest, b, i - 2); FrameBlock(m, inner, if i == 2 then b else rest[i - 3]); }
    FrameNests(d, m, rest[i - 1], inner);
    FrameSuspends(m, rest[i - 1], inner);
  }

  lemma RestingCovers(d: Design, root: Stmt, m: State)
    requires Fragment(d, root) && Resting(d, root, m) && m.stk != []
    ensures Covers(d, m, m.stk, root)
  {
    hide Ids, Fragment, Chain, Top, Covers, Item, Unique;
    FragmentIs(d, root);
    var b := m.stk[0];
    var rest := m.stk[1..];
    assert m.stk == [b] + rest && Last(rest, b) == root;
    TopBlock(d, m, b);
    ChainSub(d, m, rest, b);
    TopCovers(d, m, b);
    StackCovers(d, m, [b], rest, b);
  }

  lemma TopStands(d: Design, m: State, b: Stmt, requeued: bool)
    requires if requeued then Poised(m, b) else TopWaits(d, m, b)
    ensures TopState(d, m, b, requeued)
  {
    hide Waits, Loops, Ids, Others, WaitsIn;
    if !requeued { WaitsLeaf(d, m, b.items[Of(m, b.id).cur]); }
  }

  lemma RestingShaped(d: Design, root: Stmt, m: State)
    requires Fragment(d, root) && Resting(d, root, m) && m.stk != []
    ensures Shaped(d, root, m)
  {
    hide Ids, Fragment, Chain, Top, Explained, Current, Covers, Waits, Loops, Suspends, TopState, Poised, TopWaits;
    RestingCovers(d, root, m);
    CoversAll(d, m, m.stk, root);
    TopBlock(d, m, m.stk[0]);
    TopStands(d, m, m.stk[0], m.wake[0].Requeue?);
    assert m.stk == [m.stk[0]] + m.stk[1..];
    forall i | 0 < i < |m.stk|
      ensures Current(m, m.stk[i]).Some? && Ids(m.stk[i - 1]) <= Ids(Current(m, m.stk[i]).value) &&
        Suspends(m, m.stk[i]) {
      ChainNests(d, m, m.stk[1..], m.stk[0], i);
    }
  }

  lemma TopBlock(d: Design, m: State, b: Stmt)
    requires Top(d, m, b)
    ensures b.Block?
  {
    hide Others;
  }

  /** The state after at most `n` restarts. */
  function Iterate(d: Design, root: Stmt, m: State, n: nat): State
    decreases n
  {
    if n == 0 || m.wake == [] then m
    else
      var r := Step(d, root, m);
      if r.status.Bound? then m else Iterate(d, root, r.m, n - 1)
  }

  /** In every state a run reaches, either the process has ended with all its
      statements idle, or it is suspended with exactly one restart pending,
      exactly the stacked blocks marked as pushed, each stacked block inside the
      current statement of the one below, and flags only on the statement at
      the top of the stack and on suspended loops on the path to it. If the
      pending restart is a wait, that statement is armed or holds a captured
      value; and every loop on the path is marked to continue. */
  lemma {:induction false} ReachableShape(d: Design, root: Stmt, m: State, n: nat)
    requires Fragment(d, root) && !d.atomic && Resting(d, root, m)
    ensures var k := Iterate(d, root, m, n);
      if k.stk == [] then Clean(k, Ids(root)) && |k.wake| <= 1 else Shaped(d, root, k)
    decreases n
  {
    hide Fragment, Ids, Step, Shaped, Top, Chain;
    if n == 0 || m.wake == [] {
      if m.stk != [] { RestingShaped(d, root, m); }
    } else {
      StepOk(d, root, m);
      var r := Step(d, root, m);
      if r.status.Bound? {
        if m.stk != [] { RestingShaped(d, root, m); }
      } else {
        ReachableShape(d, root, r.m, n - 1);
      }
    }
  }
}
