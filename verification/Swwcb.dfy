/** Radix partitioning through software write-combining buffers.

    Writers scatter their chunks of a relation into one shared array.  A writer collects the tuples
    of a cluster in a buffer of `t` tuples and stores whole aligned blocks only, so its first block
    of a cluster also stores stale buffer content below the writer's own range.  What is left in the
    buffers is drained at the end.  The state machine interleaves the writers store by store. */
module Swwcb {
  import opened Bits
  import opened Blocks
  import opened Relations

  datatype Config = Config(
    t: nat,                      // TUPLE_PER_SWWCB; `slot & (t - 1)` is Off(slot, t)
    radix: Radix,
    inputs: seq<seq<Tuple>>,     // the chunk of each writer
    start: seq<seq<nat>>,        // start[w][p]: first slot of writer w in cluster p
    size: nat,                   // slots in the shared array
    barrier: bool)               // do all writers wait for each other before draining?

  ghost predicate Cell(c: Config, w: nat, p: nat) {
    w < |c.inputs| && p < c.radix.fanout
  }

  ghost predicate Shape(c: Config) {
    && 0 < c.t
    && |c.start| == |c.inputs|
    && (forall w :: 0 <= w < |c.inputs| ==> |c.start[w]| == c.radix.fanout)
  }

  function Mine(c: Config, w: nat, p: nat): seq<Tuple>
    requires w < |c.inputs|
  {
    Sel(c.inputs[w], c.radix, p)
  }

  ghost function End(c: Config, w: nat, p: nat): nat
    requires Shape(c) && Cell(c, w, p)
  {
    c.start[w][p] + |Mine(c, w, p)|
  }

  /** The ranges of two cells do not meet. */
  ghost predicate Apart(c: Config, w: nat, p: nat, w': nat, p': nat)
    requires Shape(c) && Cell(c, w, p) && Cell(c, w', p')
  {
    End(c, w, p) <= c.start[w'][p'] || End(c, w', p') <= c.start[w][p]
  }

  /** Nor does the range of the first meet the blocks that the second stores to. */
  ghost predicate Clear(c: Config, w: nat, p: nat, w': nat, p': nat)
    requires Shape(c) && Cell(c, w, p) && Cell(c, w', p')
  {
    End(c, w, p) <= Base(c.start[w'][p'], c.t) || End(c, w', p') <= c.start[w][p]
  }

  /** What a configuration must satisfy: disjoint ranges inside the array, and either a barrier
      before the draining phase or enough padding between the ranges. */
  ghost predicate Valid(c: Config) {
    && Shape(c)
    && (forall w: nat, p: nat :: Cell(c, w, p) ==> End(c, w, p) <= c.size)
    && (forall w: nat, p: nat, w': nat, p': nat ::
          Cell(c, w, p) && Cell(c, w', p') && (w != w' || p != p') ==> Apart(c, w, p, w', p'))
    && (!c.barrier ==>
          forall w: nat, p: nat, w': nat, p': nat ::
            Cell(c, w, p) && Cell(c, w', p') && (w != w' || p != p') ==> Clear(c, w, p, w', p'))
  }

  // ----- the machine -----

  datatype Pc =
    | Scatter(i: nat)                     // about to place tuple i of the chunk, or waiting at the end
    | Flush(i: nat, slot: nat, k: nat)    // tuple i completed the block ending at slot; k tuples are stored
    | Drain(p: nat, j: nat)               // about to store remainder tuple j of cluster p
    | Done

  datatype Writer = Writer(pc: Pc, bufs: seq<seq<Tuple>>)

  datatype State = State(mem: seq<Tuple>, ws: seq<Writer>)

  datatype Store = NoStore | Put(at: int, value: Tuple)

  /** The slot counter of a buffer overlays the first word of its last tuple. */
  function SlotOf(buf: seq<Tuple>): nat
    requires buf != []
  {
    buf[|buf| - 1].key
  }

  function SetSlot(buf: seq<Tuple>, slot: nat): (b: seq<Tuple>)
    requires buf != []
    ensures |b| == |buf| && SlotOf(b) == slot && b[..|b| - 1] == buf[..|buf| - 1]
  {
    buf[|buf| - 1 := buf[|buf| - 1].(key := slot)]
  }

  function Target(c: Config, w: nat, i: nat): (p: nat)
    requires w < |c.inputs| && i < |c.inputs[w]|
    ensures p < c.radix.fanout
  {
    Hash(c.radix, c.inputs[w][i].key)
  }

  ghost predicate StateShape(c: Config, s: State) {
    && |s.mem| == c.size
    && |s.ws| == |c.inputs|
    && (forall w: nat :: w < |s.ws| ==> WriterShape(c, w, s.ws[w]))
  }

  ghost predicate WriterShape(c: Config, w: nat, wr: Writer)
    requires w < |c.inputs|
  {
    && |wr.bufs| == c.radix.fanout
    && (forall p: nat :: p < |wr.bufs| ==> |wr.bufs[p]| == c.t)
    && match wr.pc
       case Scatter(i) => i <= |c.inputs[w]|
       case Flush(i, slot, k) => i < |c.inputs[w]| && k <= c.t
       case Drain(p, j) => p < c.radix.fanout && j < c.t
       case Done => true
  }

  predicate Arrived(c: Config, w: nat, pc: Pc)
    requires w < |c.inputs|
  {
    match pc
    case Scatter(i) => i == |c.inputs[w]|
    case Flush(_, _, _) => false
    case Drain(_, _) => true
    case Done => true
  }

  ghost predicate Enabled(c: Config, s: State, w: nat)
    requires StateShape(c, s)
  {
    && w < |s.ws|
    && s.ws[w].pc != Done
    && (s.ws[w].pc == Scatter(|c.inputs[w]|) && c.barrier ==>
          forall w': nat :: w' < |s.ws| ==> Arrived(c, w', s.ws[w'].pc))
  }

  /** Draining starts at the block base, or at the writer's own first slot when that is higher. */
  function RemainderStart(c: Config, slot: nat, first: nat): nat
    requires 0 < c.t
  {
    var base := slot - Off(slot, c.t);
    if base < first then first - base else 0
  }

  function DrainFrom(c: Config, w: nat, bufs: seq<seq<Tuple>>, p: nat): Pc
    requires Shape(c) && w < |c.inputs| && |bufs| == c.radix.fanout
    requires forall q: nat :: q < |bufs| ==> |bufs[q]| == c.t
  {
    if p < c.radix.fanout then Drain(p, RemainderStart(c, SlotOf(bufs[p]), c.start[w][p])) else Done
  }

  /** One step of a writer: its new local state, and the store it makes to the shared array. */
  function Act(c: Config, w: nat, wr: Writer): (Writer, Store)
    requires Shape(c) && w < |c.inputs| && WriterShape(c, w, wr)
  {
    match wr.pc
    case Scatter(i) =>
      if i == |c.inputs[w]| then (Writer(DrainFrom(c, w, wr.bufs, 0), wr.bufs), NoStore)
      else
        var p := Target(c, w, i);
        var slot := SlotOf(wr.bufs[p]);
        var slotMod := Off(slot, c.t);
        var buf := wr.bufs[p][slotMod := c.inputs[w][i]];
        if slotMod == c.t - 1 then (Writer(Flush(i, slot, 0), wr.bufs[p := buf]), NoStore)
        else (Writer(Scatter(i + 1), wr.bufs[p := SetSlot(buf, slot + 1)]), NoStore)
    case Flush(i, slot, k) =>
      var p := Target(c, w, i);
      if k < c.t then
        (Writer(Flush(i, slot, k + 1), wr.bufs), Put(slot - (c.t - 1) + k, wr.bufs[p][k]))
      else
        (Writer(Scatter(i + 1), wr.bufs[p := SetSlot(wr.bufs[p], slot + 1)]), NoStore)
    case Drain(p, j) =>
      var slot := SlotOf(wr.bufs[p]);
      var slotMod := Off(slot, c.t);
      if j < slotMod then
        (Writer(Drain(p, j + 1), wr.bufs), Put(slot - slotMod + j, wr.bufs[p][j]))
      else (Writer(DrainFrom(c, w, wr.bufs, p + 1), wr.bufs), NoStore)
    case Done => (wr, NoStore)
  }

  /** The store of a step stays inside the array. */
  ghost predicate Safe(c: Config, s: State, w: nat)
    requires Shape(c) && StateShape(c, s) && w < |s.ws|
  {
    var st := Act(c, w, s.ws[w]).1;
    st.Put? ==> 0 <= st.at < c.size
  }

  ghost function Step(c: Config, s: State, w: nat): State
    requires Shape(c) && StateShape(c, s) && w < |s.ws| && Safe(c, s, w)
  {
    var (wr, st) := Act(c, w, s.ws[w]);
    State(if st.Put? then s.mem[st.at := st.value] else s.mem, s.ws[w := wr])
  }

  /** Whatever the buffers and the array hold at first, only the slot counters are set. */
  ghost predicate Init(c: Config, s: State) {
    && Shape(c) && StateShape(c, s)
    && forall w: nat, p: nat :: Cell(c, w, p) ==>
         s.ws[w].pc == Scatter(0) && SlotOf(s.ws[w].bufs[p]) == c.start[w][p]
  }

  ghost predicate Next(c: Config, s: State, s': State)
    requires Shape(c)
  {
    StateShape(c, s) && exists w: nat :: Enabled(c, s, w) && Safe(c, s, w) && s' == Step(c, s, w)
  }
}
