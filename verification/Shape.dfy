/** The processes for which the restarting interpreter is faithful, and the
    shape of its state between two restarts. */
module Shape {
  import opened Program
  import opened Machine

  // ----- the fragment -----

  /** Nothing in `s` can suspend. */
  predicate Still(s: Stmt)
    decreases s
  {
    var cs := Children(s);
    s.dec.Free? && (s.Assign? ==> s.store.Free?) && forall i | 0 <= i < |cs| :: Still(cs[i])
  }

  /** An if or a case without a control of its own. */
  predicate Branching(s: Stmt) { s.dec.Free? && (s.If? || s.Case?) }

  /** The statement a nest of them leads to. */
  function Leaf(d: Design, t: Stmt, store: Store): (s: Stmt)
    ensures !Branching(s)
    decreases t
  {
    if Branching(t) then Leaf(d, Children(t)[Picked(d, t, store)], store) else t
  }

  /** Whatever waits in `s` waits inside a block of `s`. */
  predicate Sheltered(s: Stmt)
    decreases s
  {
    var cs := Children(s);
    Still(s) || (s.dec.Free? && s.Block?) || (Branching(s) && forall i | 0 <= i < |cs| :: Sheltered(cs[i]))
  }

  /** A process that is restarted finds the store it has left. */
  ghost predicate Calm(d: Design) { forall w: World :: d.disturb(w) == w.store }

  /** `s` may stand directly in a begin/end block: what it contains, other than
      the items of a block, waits only inside blocks, and no loop that can
      suspend waits for an event first. If the store is as it was left, the
      conditions lead to the same branch again, so that a branch of an if or a
      case may wait as well. */
  ghost predicate Item(d: Design, s: Stmt)
    decreases s
  {
    var cs := Children(s);
    (forall i | 0 <= i < |cs| :: Item(d, cs[i]) && (s.Block? || Sheltered(cs[i]) || MayWait(d, s, cs[i]))) &&
    (s.Loop? && s.dec.Event? ==> Still(s.body))
  }

  ghost predicate MayWait(d: Design, s: Stmt, c: Stmt) { Calm(d) && Branching(s) && !c.Loop? }

  /** Nothing waits directly under an if or a case: such a process is in the
      fragment whatever happens to the store. */
  predicate Firm(s: Stmt)
    decreases s
  {
    var cs := Children(s);
    forall i | 0 <= i < |cs| :: Firm(cs[i]) && (s.Block? || Sheltered(cs[i]))
  }

  /** Different statement objects have different identities. */
  predicate Unique(s: Stmt)
    decreases s
  {
    var cs := Children(s);
    (forall i | 0 <= i < |cs| :: s.id !in Ids(cs[i]) && Unique(cs[i])) &&
    (forall i, j | 0 <= i < j < |cs| :: Ids(cs[i]) !! Ids(cs[j]))
  }

  ghost predicate Fragment(d: Design, root: Stmt) {
    root.Block? && root.dec.Free? && Item(d, root) && Unique(root)
  }

  // ----- fields -----

  ghost predicate Idle(f: Fields) {
    !f.pushed && !f.armed && !f.storing && f.pending.None? && !f.looped
  }

  ghost predicate Clean(m: State, ids: set<nat>) {
    forall x | x in ids :: Idle(Of(m, x))
  }

  ghost predicate SameOn(m: State, n: State, ids: set<nat>) {
    forall x | x in ids :: Of(m, x) == Of(n, x)
  }

  ghost predicate SameOff(m: State, n: State, ids: set<nat>) {
    forall x | x !in ids :: Of(m, x) == Of(n, x)
  }

  ghost function Kids(s: Stmt): set<nat> { Ids(s) - {s.id} }

  /** Waiting for its own control, or in the middle of a delayed assignment. */
  ghost predicate Waits(s: Stmt, f: Fields) {
    !f.pushed && !f.looped &&
    if f.pending.Some? then
      s.Assign? && !s.store.Free? && f.storing && (f.armed <==> !s.dec.Free?)
    else !f.storing && f.armed && !s.dec.Free?
  }

  ghost predicate Loops(s: Stmt, f: Fields) {
    s.Loop? && f.looped && !f.pushed && f.pending.None? && !f.storing &&
    !s.dec.Event? && (f.armed <==> s.dec.Delay?) &&
    (s.kind.Repeat? ==> 1 <= f.count < TWO32)
  }

  /** Waiting, or one of the branches it leads to in the present store is. */
  ghost predicate WaitsIn(d: Design, m: State, s: Stmt)
    decreases s
  {
    if Branching(s) then
      var i := Picked(d, s, m.world.store);
      MayWait(d, s, Children(s)[i]) && Idle(Of(m, s.id)) && WaitsIn(d, m, Children(s)[i]) && Others(m, Children(s), i)
    else Clean(m, Kids(s)) && Waits(s, Of(m, s.id))
  }

  /** May be triggered: not started, waiting, or a loop about to continue. */
  ghost predicate Ready(d: Design, m: State, s: Stmt) {
    Clean(m, Ids(s)) || WaitsIn(d, m, s) || (Clean(m, Kids(s)) && Loops(s, Of(m, s.id)))
  }

  // ----- suspended states -----

  /** Suspended in block `inner` somewhere below `s`; the rest of `s` is idle. */
  ghost predicate Encloses(m: State, s: Stmt, inner: Stmt)
    decreases s
  {
    if s == inner then s.Block?
    else
      var cs := Children(s);
      (if s.Loop? then Loops(s, Of(m, s.id)) else (s.If? || s.Case?) && Idle(Of(m, s.id))) &&
      exists i | 0 <= i < |cs| :: !cs[i].Loop? && Encloses(m, cs[i], inner) && Others(m, cs, i)
  }

  ghost predicate Others(m: State, cs: seq<Stmt>, c: nat) {
    forall i | 0 <= i < |cs| && i != c :: Clean(m, Ids(cs[i]))
  }

  ghost predicate OnStack(m: State, b: Stmt) {
    var f := Of(m, b.id);
    b.Block? && f.pushed && Idle(f.(pushed := false)) && Others(m, b.items, f.cur)
  }

  /** The block on top of the stack when the root is restarted. */
  ghost predicate Top(d: Design, m: State, b: Stmt) {
    var c := Of(m, b.id).cur;
    OnStack(m, b) && c <= |b.items| && (c < |b.items| ==> Ready(d, m, b.items[c]))
  }

  /** The block on top of the stack when a delay has just been armed. */
  ghost predicate TopWaits(d: Design, m: State, b: Stmt) {
    var c := Of(m, b.id).cur;
    OnStack(m, b) && c < |b.items| && WaitsIn(d, m, b.items[c])
  }

  ghost predicate Frame(m: State, b: Stmt, inner: Stmt) {
    var c := Of(m, b.id).cur;
    OnStack(m, b) && c < |b.items| && Encloses(m, b.items[c], inner)
  }

  /** Each stacked block lies inside the current statement of the one below. */
  ghost predicate Chain(m: State, frames: seq<Stmt>, inner: Stmt) {
    frames == [] || (Frame(m, frames[0], inner) && Chain(m, frames[1..], frames[0]))
  }

  ghost function Last(frames: seq<Stmt>, inner: Stmt): Stmt {
    if frames == [] then inner else frames[|frames| - 1]
  }

  // ----- the work that is left, in terms of the plain semantics -----

  function Norm(o: Outcome): Outcome { if o.Cut? then o else Fin(o.w, true) }

  /** The iteration count a loop resumes with. */
  function N(s: Stmt, f: Fields): nat
    requires s.Loop?
  {
    if s.kind.Repeat? then f.count else 0
  }

  /** What triggering `s` amounts to: the statement that the ifs and cases lead
      to goes on. */
  function Resumed(d: Design, m: State, s: Stmt, w: World): Outcome
    decreases s
  {
    if Branching(s) then Resumed(d, m, Children(s)[Picked(d, s, w.store)], w) else ResumedOne(d, Of(m, s.id), s, w)
  }

  function ResumedOne(d: Design, f: Fields, s: Stmt, w: World): Outcome {
    if s.Loop? && f.looped then LoopNext(d, s, N(s, f), w)
    else if f.pending.Some? then Fin(Commit(d, f.pending.value, w), false)
    else if f.armed then Body(d, s, w)
    else Run(d, s, w)
  }

  /** The rest of the block on top of the stack. */
  function TopRun(d: Design, m: State, b: Stmt, w: World): Outcome
    requires b.Block?
  {
    var c := Of(m, b.id).cur;
    if c >= |b.items| then Fin(w, false)
    else
      var o := Resumed(d, m, b.items[c], w);
      if o.Cut? then o else Join(o.paused, RunFrom(d, b, c + 1, o.w))
  }

  /** Statement `s` after the block it was suspended in has ended with `o`. */
  function AfterBlock(d: Design, f: Fields, s: Stmt, o: Outcome): Outcome {
    var y := Yield(d, o);
    if s.Loop? && f.looped && y.Fin? then LoopNext(d, s, N(s, f), y.w) else y
  }

  function AfterInner(d: Design, m: State, b: Stmt, o: Outcome): Outcome {
    var c := Of(m, b.id).cur;
    if !b.Block? || c >= |b.items| then o
    else
      var y := AfterBlock(d, Of(m, b.items[c].id), b.items[c], o);
      if y.Cut? then y else Norm(RunFrom(d, b, c + 1, y.w))
  }

  /** The blocks below, innermost first, after the top one has ended with `o`. */
  function Outer(d: Design, m: State, frames: seq<Stmt>, o: Outcome): Outcome {
    if frames == [] then o else Outer(d, m, frames[1..], AfterInner(d, m, frames[0], o))
  }

  function Unwind(d: Design, m: State, stk: seq<Stmt>, w: World): Outcome {
    if stk == [] || !stk[0].Block? then Fin(w, true)
    else Outer(d, m, stk[1..], Norm(TopRun(d, m, stk[0], w)))
  }

  /** The world in which a restart asked for by `k` begins. */
  function Wake(d: Design, k: Wakeup, w: World): Outcome {
    if k.Requeue? then Fin(Woken(d, w), true)
    else if w.ticks == 0 then Cut(w)
    else Fin(Woken(d, w.(now := k.at, ticks := w.ticks - 1)), true)
  }

  /** All that is still to be done by statement `s`, suspended with the blocks
      `seg` of its own on the stack. */
  function Later(d: Design, m: State, s: Stmt, seg: seq<Stmt>, k: Wakeup): Outcome {
    var v := Wake(d, k, m.world);
    if v.Cut? then v
    else if seg == [] then Norm(Resumed(d, m, s, v.w))
    else Norm(AfterBlock(d, Of(m, s.id), s, Unwind(d, m, seg, v.w)))
  }

  /** The same for the whole stack. */
  function LaterStack(d: Design, m: State, stk: seq<Stmt>, k: Wakeup): Outcome {
    var v := Wake(d, k, m.world);
    if v.Cut? then v else Unwind(d, m, stk, v.w)
  }
}
