/** Every interleaving of the buffered writers ends with every tuple in its own slot. */
module SwwcbProofs {
  import opened Bits
  import opened Blocks
  import opened Relations
  import opened Runs
  import opened Swwcb

  /** How many tuples of the chunk have been counted by the slot counters. */
  function Taken(c: Config, w: nat, pc: Pc): nat
    requires w < |c.inputs|
  {
    match pc
    case Scatter(i) => i
    case Flush(i, _, _) => i
    case Drain(_, _) => |c.inputs[w]|
    case Done => |c.inputs[w]|
  }

  /** What the slot counter of cluster `p` must hold. */
  function Level(c: Config, w: nat, pc: Pc, p: nat): nat
    requires Shape(c) && Cell(c, w, p) && Taken(c, w, pc) <= |c.inputs[w]|
  {
    c.start[w][p] + |Sel(c.inputs[w][..Taken(c, w, pc)], c.radix, p)|
  }

  predicate Flushing(c: Config, w: nat, pc: Pc, p: nat)
    requires w < |c.inputs|
  {
    pc.Flush? && pc.i < |c.inputs[w]| && Target(c, w, pc.i) == p
  }

  /** Below this slot the writer's own range in the array is final. */
  ghost function High(c: Config, w: nat, pc: Pc, p: nat): int
    requires Shape(c) && Cell(c, w, p) && Taken(c, w, pc) <= |c.inputs[w]|
  {
    var level := Level(c, w, pc, p);
    match pc
    case Scatter(_) => Base(level, c.t)
    case Flush(_, slot, k) => if Flushing(c, w, pc, p) then slot - (c.t - 1) + k else Base(level, c.t)
    case Drain(q, j) => if p < q then level else if p == q then Base(level, c.t) + j else Base(level, c.t)
    case Done => level
  }

  /** Tuple `q` of the array should be this one, for `q` in the range of the cell. */
  ghost predicate Right(c: Config, w: nat, p: nat, q: nat, x: Tuple)
    requires Shape(c) && Cell(c, w, p)
  {
    c.start[w][p] <= q < End(c, w, p) && x == Mine(c, w, p)[q - c.start[w][p]]
  }

  /** Slots `base .. base + n` of the block are in the buffer, as far as they are the writer's own. */
  ghost predicate Buffered(c: Config, w: nat, p: nat, buf: seq<Tuple>, base: nat, n: nat)
    requires Shape(c) && Cell(c, w, p)
  {
    n <= |buf| && forall j: nat :: j < n && c.start[w][p] <= base + j ==> Right(c, w, p, base + j, buf[j])
  }

  ghost predicate BufferOk(c: Config, w: nat, wr: Writer, p: nat)
    requires Shape(c) && WriterShape'(c, w, wr) && p < c.radix.fanout
  {
    var level := Level(c, w, wr.pc, p);
    if Flushing(c, w, wr.pc, p) then
      && wr.pc.slot == level
      && Off(level, c.t) == c.t - 1
      && Buffered(c, w, p, wr.bufs[p], Base(level, c.t), c.t)
    else
      && SlotOf(wr.bufs[p]) == level
      && Buffered(c, w, p, wr.bufs[p], Base(level, c.t), Off(level, c.t))
  }

  ghost predicate WriterShape'(c: Config, w: nat, wr: Writer) {
    w < |c.inputs| && WriterShape(c, w, wr)
  }

  ghost predicate WriterOk(c: Config, w: nat, wr: Writer)
    requires Shape(c)
  {
    && WriterShape'(c, w, wr)
    && (forall p: nat :: p < c.radix.fanout ==> BufferOk(c, w, wr, p))
    && (wr.pc.Drain? ==>
          var level := Level(c, w, wr.pc, wr.pc.p);
          wr.pc.j <= Off(level, c.t) && c.start[w][wr.pc.p] <= Base(level, c.t) + wr.pc.j)
  }

  ghost predicate Final(c: Config, mem: seq<Tuple>, w: nat, p: nat, limit: int)
    requires Shape(c) && Cell(c, w, p)
  {
    forall q: nat :: q < |mem| && c.start[w][p] <= q < limit ==> Right(c, w, p, q, mem[q])
  }

  ghost predicate Ready(c: Config, s: State) {
    && Shape(c) && |s.mem| == c.size && |s.ws| == |c.inputs|
    && forall w: nat :: w < |s.ws| ==> WriterOk(c, w, s.ws[w])
  }

  /** With a barrier, nobody drains while somebody still scatters. */
  ghost predicate Phased(c: Config, s: State)
    requires Ready(c, s)
  {
    c.barrier ==>
      forall w: nat, w': nat :: w < |s.ws| && w' < |s.ws| && (s.ws[w].pc.Drain? || s.ws[w].pc.Done?) ==>
        Arrived(c, w', s.ws[w'].pc)
  }

  ghost predicate Inv(c: Config, s: State) {
    && Valid(c)
    && Ready(c, s)
    && Phased(c, s)
    && forall w: nat, p: nat :: Cell(c, w, p) ==> Final(c, s.mem, w, p, High(c, w, s.ws[w].pc, p))
  }

  // ----- the slots of a writer -----

  lemma {:induction false} SelPrefix(rel: seq<Tuple>, i: nat, r: Radix, p: nat)
    requires i <= |rel|
    ensures Sel(rel[..i], r, p) <= Sel(rel, r, p)
  {
    assert rel == rel[..i] + rel[i..];
    SelConcat(rel[..i], rel[i..], r, p);
  }

  /** Tuple `i` of a chunk goes to the slot that the counter of its cluster shows. */
  lemma NextTuple(c: Config, w: nat, i: nat, p: nat)
    requires Shape(c) && Cell(c, w, p) && i < |c.inputs[w]|
    ensures var n := |Sel(c.inputs[w][..i], c.radix, p)|;
      if Target(c, w, i) == p then
        && |Sel(c.inputs[w][..i + 1], c.radix, p)| == n + 1
        && n < |Mine(c, w, p)|
        && Right(c, w, p, c.start[w][p] + n, c.inputs[w][i])
      else |Sel(c.inputs[w][..i + 1], c.radix, p)| == n
  {
    var rel := c.inputs[w];
    Snoc(rel, i);
    SelSnoc(rel[..i], rel[i], c.radix, p);
    SelPrefix(rel, i + 1, c.radix, p);
  }

  lemma LevelInRange(c: Config, w: nat, pc: Pc, p: nat)
    requires Shape(c) && Cell(c, w, p) && Taken(c, w, pc) <= |c.inputs[w]|
    ensures c.start[w][p] <= Level(c, w, pc, p) <= End(c, w, p)
    ensures pc.Drain? || pc.Done? ==> Level(c, w, pc, p) == End(c, w, p)
  {
    SelPrefix(c.inputs[w], Taken(c, w, pc), c.radix, p);
    assert c.inputs[w][..|c.inputs[w]|] == c.inputs[w];
  }

  // ----- the local part of a step -----

  /** Entering the remainder of cluster `p`: nothing new is claimed to be final. */
  lemma DrainStart(c: Config, w: nat, bufs: seq<seq<Tuple>>, p: nat)
    requires Shape(c) && w < |c.inputs| && WriterOk(c, w, Writer(Done, bufs))
    ensures DrainFrom(c, w, bufs, p) == Done ==> p >= c.radix.fanout
    ensures p < c.radix.fanout ==> WriterOk(c, w, Writer(DrainFrom(c, w, bufs, p), bufs))
  {
    if p < c.radix.fanout {
      LevelInRange(c, w, Done, p);
      var wr := Writer(DrainFrom(c, w, bufs, p), bufs);
      assert BufferOk(c, w, Writer(Done, bufs), p);
      forall q: nat | q < c.radix.fanout
        ensures BufferOk(c, w, wr, q)
      {
        assert BufferOk(c, w, Writer(Done, bufs), q);
      }
    }
  }

  /** The buffers do not change when only the program counter moves between counting phases. */
  lemma SameBuffers(c: Config, w: nat, wr: Writer, pc: Pc)
    requires Shape(c) && w < |c.inputs| && WriterOk(c, w, wr) && Arrived(c, w, wr.pc)
    requires Arrived(c, w, pc) && WriterShape(c, w, Writer(pc, wr.bufs)) && !pc.Drain?
    ensures WriterOk(c, w, Writer(pc, wr.bufs))
  {
    forall q: nat | q < c.radix.fanout
      ensures BufferOk(c, w, Writer(pc, wr.bufs), q)
    {
      assert BufferOk(c, w, wr, q);
    }
  }

  lemma ScatterKeeps(c: Config, w: nat, wr: Writer)
    requires Shape(c) && w < |c.inputs| && WriterOk(c, w, wr)
    requires wr.pc.Scatter? && wr.pc.i < |c.inputs[w]|
    ensures WriterOk(c, w, Act(c, w, wr).0)
  {
    var wr' := Act(c, w, wr).0;
    forall q: nat | q < c.radix.fanout
      ensures BufferOk(c, w, wr', q)
    {
      assert BufferOk(c, w, wr, q);
      if q == Target(c, w, wr.pc.i) {
        ScatterKeepsTarget(c, w, wr);
      } else {
        ScatterKeepsOther(c, w, wr, q);
      }
    }
  }

  lemma ScatterKeepsOther(c: Config, w: nat, wr: Writer, q: nat)
    requires Shape(c) && Cell(c, w, q) && WriterShape(c, w, wr) && BufferOk(c, w, wr, q)
    requires wr.pc.Scatter? && wr.pc.i < |c.inputs[w]| && q != Target(c, w, wr.pc.i)
    ensures BufferOk(c, w, Act(c, w, wr).0, q)
  {
    var wr' := Act(c, w, wr).0;
    NextTuple(c, w, wr.pc.i, q);
    assert wr'.bufs[q] == wr.bufs[q];
    assert Level(c, w, wr'.pc, q) == Level(c, w, wr.pc, q);
  }

  lemma ScatterKeepsTarget(c: Config, w: nat, wr: Writer)
    requires Shape(c) && w < |c.inputs| && WriterShape(c, w, wr)
    requires wr.pc.Scatter? && wr.pc.i < |c.inputs[w]| && BufferOk(c, w, wr, Target(c, w, wr.pc.i))
    ensures BufferOk(c, w, Act(c, w, wr).0, Target(c, w, wr.pc.i))
  {
    var i := wr.pc.i;
    var p := Target(c, w, i);
    var level := Level(c, w, wr.pc, p);
    NextTuple(c, w, i, p);
    ScatterBuffer(c, w, p, wr.bufs[p], level, i);
    var m := Off(level, c.t);
    var buf := wr.bufs[p][m := c.inputs[w][i]];
    if m == c.t - 1 {
      BlockComplete(c, w, i, p, level, wr.bufs[p := buf]);
    } else {
      BlockGrows(c, w, i, p, level, wr.bufs[p := SetSlot(buf, level + 1)]);
    }
  }

  lemma BlockComplete(c: Config, w: nat, i: nat, p: nat, level: nat, bufs: seq<seq<Tuple>>)
    requires Shape(c) && Cell(c, w, p) && i < |c.inputs[w]| && p == Target(c, w, i)
    requires WriterShape(c, w, Writer(Flush(i, level, 0), bufs)) && level == Level(c, w, Scatter(i), p)
    requires Off(level, c.t) == c.t - 1 && Buffered(c, w, p, bufs[p], Base(level, c.t), c.t)
    ensures BufferOk(c, w, Writer(Flush(i, level, 0), bufs), p)
  {
  }

  lemma BlockGrows(c: Config, w: nat, i: nat, p: nat, level: nat, bufs: seq<seq<Tuple>>)
    requires Shape(c) && Cell(c, w, p) && i < |c.inputs[w]| && p == Target(c, w, i)
    requires WriterShape(c, w, Writer(Scatter(i + 1), bufs)) && level == Level(c, w, Scatter(i), p)
    requires Off(level, c.t) < c.t - 1 && Buffered(c, w, p, bufs[p], Base(level, c.t), Off(level, c.t) + 1)
    requires SlotOf(bufs[p]) == level + 1
    ensures BufferOk(c, w, Writer(Scatter(i + 1), bufs), p)
  {
    NextTuple(c, w, i, p);
    NextSlot(level, c.t);
  }

  /** Placing the tuple in the buffer extends what is buffered by one slot. */
  lemma ScatterBuffer(c: Config, w: nat, p: nat, buf: seq<Tuple>, level: nat, i: nat)
    requires Shape(c) && Cell(c, w, p) && i < |c.inputs[w]| && |buf| == c.t
    requires Right(c, w, p, level, c.inputs[w][i])
    requires Buffered(c, w, p, buf, Base(level, c.t), Off(level, c.t))
    ensures var m := Off(level, c.t); var b := buf[m := c.inputs[w][i]];
      Buffered(c, w, p, b, Base(level, c.t), m + 1) && (m + 1 < c.t ==> Buffered(c, w, p, SetSlot(b, level + 1), Base(level, c.t), m + 1))
  {
    var m := Off(level, c.t);
    var b := buf[m := c.inputs[w][i]];
    var b' := SetSlot(b, level + 1);
    forall j: nat | j < m + 1 && c.start[w][p] <= Base(level, c.t) + j
      ensures Right(c, w, p, Base(level, c.t) + j, b[j])
      ensures m + 1 < c.t ==> Right(c, w, p, Base(level, c.t) + j, b'[j])
    {
      if j < m {
        assert Right(c, w, p, Base(level, c.t) + j, buf[j]);
      }
      if m + 1 < c.t {
        assert b'[j] == b'[..|b'| - 1][j] == b[..|b| - 1][j];
      }
    }
  }

  lemma FlushKeeps(c: Config, w: nat, wr: Writer)
    requires Shape(c) && w < |c.inputs| && WriterOk(c, w, wr) && wr.pc.Flush?
    ensures WriterOk(c, w, Act(c, w, wr).0)
  {
    forall q: nat | q < c.radix.fanout
      ensures BufferOk(c, w, Act(c, w, wr).0, q)
    {
      assert BufferOk(c, w, wr, q);
      FlushKeepsBuffer(c, w, wr, q);
    }
  }

  lemma FlushKeepsBuffer(c: Config, w: nat, wr: Writer, q: nat)
    requires Shape(c) && Cell(c, w, q) && WriterShape(c, w, wr) && BufferOk(c, w, wr, q) && wr.pc.Flush?
    ensures BufferOk(c, w, Act(c, w, wr).0, q)
  {
    var wr' := Act(c, w, wr).0;
    if wr.pc.k < c.t {
      assert wr'.bufs == wr.bufs && Level(c, w, wr'.pc, q) == Level(c, w, wr.pc, q);
    } else {
      NextTuple(c, w, wr.pc.i, q);
      var level := Level(c, w, wr.pc, q);
      NextSlot(level, c.t);
      if q == Target(c, w, wr.pc.i) {
        assert Level(c, w, wr'.pc, q) == level + 1;
      } else {
        assert wr'.bufs[q] == wr.bufs[q] && Level(c, w, wr'.pc, q) == level;
      }
    }
  }

  lemma DrainKeeps(c: Config, w: nat, wr: Writer)
    requires Shape(c) && w < |c.inputs| && WriterOk(c, w, wr) && wr.pc.Drain?
    ensures WriterOk(c, w, Act(c, w, wr).0)
  {
    assert BufferOk(c, w, wr, wr.pc.p);
    if Act(c, w, wr).1.Put? {
      DrainNextKeeps(c, w, wr);
    } else {
      SameBuffers(c, w, wr, Done);
      DrainStart(c, w, wr.bufs, wr.pc.p + 1);
    }
  }

  lemma DrainNextKeeps(c: Config, w: nat, wr: Writer)
    requires Shape(c) && w < |c.inputs| && WriterOk(c, w, wr) && wr.pc.Drain?
    requires wr.pc.j < Off(Level(c, w, wr.pc, wr.pc.p), c.t)
    ensures WriterOk(c, w, Writer(Drain(wr.pc.p, wr.pc.j + 1), wr.bufs))
  {
    var wr' := Writer(Drain(wr.pc.p, wr.pc.j + 1), wr.bufs);
    forall q: nat | q < c.radix.fanout
      ensures BufferOk(c, w, wr', q)
    {
      assert BufferOk(c, w, wr, q);
    }
  }

  lemma ActKeeps(c: Config, w: nat, wr: Writer)
    requires Shape(c) && w < |c.inputs| && WriterOk(c, w, wr)
    ensures WriterOk(c, w, Act(c, w, wr).0)
  {
    match wr.pc
    case Scatter(i) =>
      if i < |c.inputs[w]| {
        ScatterKeeps(c, w, wr);
      } else {
        SameBuffers(c, w, wr, Done);
        DrainStart(c, w, wr.bufs, 0);
      }
    case Flush(_, _, _) => FlushKeeps(c, w, wr);
    case Drain(_, _) => DrainKeeps(c, w, wr);
    case Done =>
  }

  // ----- the shared part of a step -----

  lemma FlushSlot(c: Config, w: nat, wr: Writer, p: nat)
    requires Shape(c) && Cell(c, w, p) && WriterOk(c, w, wr) && Flushing(c, w, wr.pc, p)
    ensures c.start[w][p] <= wr.pc.slot < End(c, w, p)
    ensures wr.pc.slot == Base(wr.pc.slot, c.t) + c.t - 1
  {
    assert BufferOk(c, w, wr, p);
    NextTuple(c, w, wr.pc.i, p);
  }

  lemma HighInRange(c: Config, w: nat, wr: Writer, p: nat)
    requires Shape(c) && Cell(c, w, p) && WriterOk(c, w, wr)
    ensures High(c, w, wr.pc, p) <= End(c, w, p)
    ensures wr.pc.Done? ==> High(c, w, wr.pc, p) == End(c, w, p)
  {
    LevelInRange(c, w, wr.pc, p);
    if Flushing(c, w, wr.pc, p) {
      FlushSlot(c, w, wr, p);
    }
  }

  /** Before draining, every block that is final for the writer ends in the writer's own range. */
  lemma BlockOwned(c: Config, w: nat, wr: Writer, p: nat, q: nat)
    requires Shape(c) && Cell(c, w, p) && WriterOk(c, w, wr) && (wr.pc.Scatter? || wr.pc.Flush?)
    requires c.start[w][p] <= q < High(c, w, wr.pc, p)
    ensures c.start[w][p] <= Base(q, c.t) + c.t - 1 < End(c, w, p)
  {
    if Flushing(c, w, wr.pc, p) {
      FlushSlot(c, w, wr, p);
      BaseMonotone(q, wr.pc.slot, c.t);
    } else {
      LevelInRange(c, w, wr.pc, p);
      BlockBelow(q, Level(c, w, wr.pc, p), c.t);
    }
  }

  /** A flush stores the next slot of a block that ends in the writer's own range. */
  lemma FlushStores(c: Config, w: nat, wr: Writer) returns (p: nat)
    requires Shape(c) && w < |c.inputs| && WriterOk(c, w, wr) && wr.pc.Flush? && wr.pc.k < c.t
    ensures p == Target(c, w, wr.pc.i)
    ensures var st := Act(c, w, wr).1;
      && st.at == High(c, w, wr.pc, p)
      && Base(wr.pc.slot, c.t) <= st.at <= wr.pc.slot
      && (c.start[w][p] <= st.at ==> Right(c, w, p, st.at, st.value))
  {
    p := Target(c, w, wr.pc.i);
    FlushSlot(c, w, wr, p);
    assert BufferOk(c, w, wr, p);
  }

  /** Draining stores the next slot of the writer's own range. */
  lemma DrainStores(c: Config, w: nat, wr: Writer)
    requires Shape(c) && w < |c.inputs| && WriterOk(c, w, wr) && wr.pc.Drain? && Act(c, w, wr).1.Put?
    ensures var st := Act(c, w, wr).1;
      && st.at == High(c, w, wr.pc, wr.pc.p)
      && st.at >= 0 && Right(c, w, wr.pc.p, st.at, st.value)
  {
    var p := wr.pc.p;
    assert BufferOk(c, w, wr, p);
  }

  /** The cell whose range a store is made for. */
  function StoreCell(c: Config, w: nat, pc: Pc): nat
    requires w < |c.inputs|
  {
    match pc
    case Flush(i, _, _) => if i < |c.inputs[w]| then Target(c, w, i) else 0
    case Drain(p, _) => p
    case _ => 0
  }

  /** A step makes no more of the array final than the slot it stores. */
  ghost predicate GrowsByStore(c: Config, w: nat, wr: Writer, wr': Writer, st: Store, p: nat)
    requires Shape(c) && Cell(c, w, p) && WriterShape(c, w, wr) && WriterShape(c, w, wr')
  {
    var high, high' := High(c, w, wr.pc, p), High(c, w, wr'.pc, p);
    || high' <= high
    || high' <= c.start[w][p]
    || (st.Put? && p == StoreCell(c, w, wr.pc) && st.at == high && high' == high + 1)
  }

  lemma HighGrows(c: Config, w: nat, wr: Writer, p: nat)
    requires Shape(c) && Cell(c, w, p) && WriterOk(c, w, wr)
    ensures WriterShape(c, w, Act(c, w, wr).0)
    ensures GrowsByStore(c, w, wr, Act(c, w, wr).0, Act(c, w, wr).1, p)
  {
    ActKeeps(c, w, wr);
    match wr.pc
    case Scatter(i) =>
      if i < |c.inputs[w]| {
        ScatterHigh(c, w, wr, p);
      } else {
        DrainHigh(c, w, wr, wr.bufs, 0, p);
      }
    case Flush(_, _, k) =>
      if k < c.t {
        FlushHigh(c, w, wr, p);
      } else {
        FlushEndHigh(c, w, wr, p);
      }
    case Drain(_, _) =>
      DrainStepHigh(c, w, wr, p);
    case Done =>
  }

  lemma ScatterHigh(c: Config, w: nat, wr: Writer, p: nat)
    requires Shape(c) && Cell(c, w, p) && WriterOk(c, w, wr) && wr.pc.Scatter? && wr.pc.i < |c.inputs[w]|
    ensures WriterShape(c, w, Act(c, w, wr).0)
    ensures High(c, w, Act(c, w, wr).0.pc, p) == High(c, w, wr.pc, p)
  {
    ActKeeps(c, w, wr);
    NextTuple(c, w, wr.pc.i, p);
    if p == Target(c, w, wr.pc.i) {
      ScatterTargetHigh(c, w, wr);
    }
  }

  lemma ScatterTargetHigh(c: Config, w: nat, wr: Writer)
    requires Shape(c) && w < |c.inputs| && WriterShape(c, w, wr) && wr.pc.Scatter? && wr.pc.i < |c.inputs[w]|
    requires WriterShape(c, w, Act(c, w, wr).0) && BufferOk(c, w, wr, Target(c, w, wr.pc.i))
    ensures var p := Target(c, w, wr.pc.i);
      High(c, w, Act(c, w, wr).0.pc, p) == High(c, w, wr.pc, p)
  {
    var i := wr.pc.i;
    var p := Target(c, w, i);
    var level := Level(c, w, wr.pc, p);
    NextTuple(c, w, i, p);
    NextSlot(level, c.t);
    if Off(level, c.t) == c.t - 1 {
      assert Act(c, w, wr).0.pc == Flush(i, level, 0);
    } else {
      assert Act(c, w, wr).0.pc == Scatter(i + 1);
    }
  }

  lemma FlushHigh(c: Config, w: nat, wr: Writer, p: nat)
    requires Shape(c) && Cell(c, w, p) && WriterOk(c, w, wr) && wr.pc.Flush? && wr.pc.k < c.t
    ensures var (wr', st) := Act(c, w, wr);
      WriterShape(c, w, wr') && GrowsByStore(c, w, wr, wr', st, p)
  {
    var p' := FlushStores(c, w, wr);
  }

  lemma FlushEndHigh(c: Config, w: nat, wr: Writer, p: nat)
    requires Shape(c) && Cell(c, w, p) && WriterOk(c, w, wr) && wr.pc.Flush? && wr.pc.k == c.t
    ensures WriterShape(c, w, Act(c, w, wr).0)
    ensures High(c, w, Act(c, w, wr).0.pc, p) == High(c, w, wr.pc, p)
  {
    ActKeeps(c, w, wr);
    NextTuple(c, w, wr.pc.i, p);
    if p == Target(c, w, wr.pc.i) {
      assert BufferOk(c, w, wr, p);
      NextSlot(Level(c, w, wr.pc, p), c.t);
    }
  }

  lemma DrainStepHigh(c: Config, w: nat, wr: Writer, p: nat)
    requires Shape(c) && Cell(c, w, p) && WriterOk(c, w, wr) && wr.pc.Drain?
    ensures WriterShape(c, w, Act(c, w, wr).0)
    ensures GrowsByStore(c, w, wr, Act(c, w, wr).0, Act(c, w, wr).1, p)
  {
    ActKeeps(c, w, wr);
    if Act(c, w, wr).1.NoStore? {
      LastDrained(c, w, wr);
      SameBuffers(c, w, wr, Done);
      DrainHigh(c, w, wr, wr.bufs, wr.pc.p + 1, p);
    } else {
      DrainPutHigh(c, w, wr, p);
    }
  }

  lemma DrainPutHigh(c: Config, w: nat, wr: Writer, p: nat)
    requires Shape(c) && Cell(c, w, p) && WriterOk(c, w, wr) && wr.pc.Drain? && Act(c, w, wr).1.Put?
    ensures WriterShape(c, w, Act(c, w, wr).0)
    ensures GrowsByStore(c, w, wr, Act(c, w, wr).0, Act(c, w, wr).1, p)
  {
    ActKeeps(c, w, wr);
    DrainStores(c, w, wr);
  }

  /** When the remainder of a cluster is drained, the whole range of the cluster is final. */
  lemma LastDrained(c: Config, w: nat, wr: Writer)
    requires Shape(c) && w < |c.inputs| && WriterOk(c, w, wr) && wr.pc.Drain? && Act(c, w, wr).1.NoStore?
    ensures High(c, w, wr.pc, wr.pc.p) == Level(c, w, wr.pc, wr.pc.p)
  {
    assert BufferOk(c, w, wr, wr.pc.p);
  }

  lemma DrainEntry(c: Config, w: nat, bufs: seq<seq<Tuple>>, d: nat)
    requires Shape(c) && Cell(c, w, d) && WriterOk(c, w, Writer(Done, bufs))
    ensures var pc, level := DrainFrom(c, w, bufs, d), Level(c, w, Done, d);
      High(c, w, pc, d) == if Base(level, c.t) < c.start[w][d] then c.start[w][d] else Base(level, c.t)
  {
    assert BufferOk(c, w, Writer(Done, bufs), d);
  }

  /** Moving on to the remainder of cluster `d` makes no slot of any cluster final. */
  lemma DrainHigh(c: Config, w: nat, wr: Writer, bufs: seq<seq<Tuple>>, d: nat, p: nat)
    requires Shape(c) && Cell(c, w, p) && WriterOk(c, w, wr) && bufs == wr.bufs && d <= c.radix.fanout
    requires Arrived(c, w, wr.pc)
    requires wr.pc.Scatter? || (wr.pc.Drain? && d == wr.pc.p + 1 && High(c, w, wr.pc, wr.pc.p) == Level(c, w, wr.pc, wr.pc.p))
    requires wr.pc.Scatter? ==> d == 0
    ensures var wr' := Writer(DrainFrom(c, w, bufs, d), bufs);
      WriterShape(c, w, wr') && GrowsByStore(c, w, wr, wr', NoStore, p)
  {
    SameBuffers(c, w, wr, Done);
    DrainStart(c, w, bufs, d);
    SameLevel(c, w, wr.pc, p);
    if p == d {
      DrainEntry(c, w, bufs, d);
    }
  }

  lemma SameLevel(c: Config, w: nat, pc: Pc, p: nat)
    requires Shape(c) && Cell(c, w, p) && Arrived(c, w, pc)
    ensures Level(c, w, pc, p) == Level(c, w, Done, p)
  {
  }

  /** No step overwrites a slot that is final for any writer. */
  lemma StoreSpares(c: Config, s: State, w: nat, w': nat, p': nat, q: nat)
    requires Inv(c, s) && w < |s.ws| && Cell(c, w', p') && Act(c, w, s.ws[w]).1.Put?
    requires c.start[w'][p'] <= q < High(c, w', s.ws[w'].pc, p')
    ensures q != Act(c, w, s.ws[w]).1.at
  {
    var wr, wr' := s.ws[w], s.ws[w'];
    var p := StoreCell(c, w, wr.pc);
    var at := Act(c, w, wr).1.at;
    if wr.pc.Drain? {
      DrainStores(c, w, wr);
    } else {
      var _ := FlushStores(c, w, wr);
    }
    if w != w' || p != p' {
      assert Apart(c, w, p, w', p');
      HighInRange(c, w', wr', p');
      if wr.pc.Flush? && q == at {
        FlushSlot(c, w, wr, p);
        BaseMonotone(at, wr.pc.slot, c.t);
        BaseMonotone(Base(wr.pc.slot, c.t), at, c.t);
        BaseAligned(wr.pc.slot, c.t);
        BaseUnique(Base(wr.pc.slot, c.t), at, c.t);
        if wr'.pc.Drain? || wr'.pc.Done? {
          assert !c.barrier;
          assert Clear(c, w', p', w, p);
          BaseMonotone(c.start[w][p], wr.pc.slot, c.t);
        } else {
          BlockOwned(c, w', wr', p', q);
        }
      }
    }
  }

  lemma StoreSafe(c: Config, s: State, w: nat)
    requires Inv(c, s) && w < |s.ws|
    ensures StateShape(c, s) && Safe(c, s, w)
  {
    var wr := s.ws[w];
    if Act(c, w, wr).1.Put? {
      if wr.pc.Drain? {
        DrainStores(c, w, wr);
      } else {
        var p := FlushStores(c, w, wr);
        FlushSlot(c, w, wr, p);
      }
    }
  }

  lemma StoreIsRight(c: Config, w: nat, wr: Writer)
    requires Shape(c) && w < |c.inputs| && WriterOk(c, w, wr) && Act(c, w, wr).1.Put?
    ensures var st := Act(c, w, wr).1;
      && st.at == High(c, w, wr.pc, StoreCell(c, w, wr.pc))
      && (c.start[w][StoreCell(c, w, wr.pc)] <= st.at ==> Right(c, w, StoreCell(c, w, wr.pc), st.at, st.value))
  {
    if wr.pc.Drain? {
      DrainStores(c, w, wr);
    } else {
      var _ := FlushStores(c, w, wr);
    }
  }

  /** The array after a step. */
  lemma FinalKept(c: Config, s: State, w: nat, w': nat, p': nat)
    requires Inv(c, s) && Enabled'(c, s, w) && Cell(c, w', p')
    ensures StateShape(c, s) && Safe(c, s, w)
    ensures var s' := Step(c, s, w);
      WriterOk(c, w', s'.ws[w']) && Final(c, s'.mem, w', p', High(c, w', s'.ws[w'].pc, p'))
  {
    StoreSafe(c, s, w);
    var s' := Step(c, s, w);
    ActKeeps(c, w, s.ws[w]);
    HighGrows(c, w, s.ws[w], p') by { assert WriterOk(c, w, s.ws[w]); }
    assert WriterOk(c, w', s.ws[w']);
    forall q: nat | q < |s'.mem| && c.start[w'][p'] <= q < High(c, w', s'.ws[w'].pc, p')
      ensures Right(c, w', p', q, s'.mem[q])
    {
      SlotKept(c, s, w, w', p', q);
    }
  }

  lemma SlotKept(c: Config, s: State, w: nat, w': nat, p': nat, q: nat)
    requires Inv(c, s) && w < |s.ws| && Cell(c, w', p') && q < c.size && StateShape(c, s) && Safe(c, s, w)
    requires WriterOk(c, w', Step(c, s, w).ws[w'])
    requires c.start[w'][p'] <= q < High(c, w', Step(c, s, w).ws[w'].pc, p')
    ensures Right(c, w', p', q, Step(c, s, w).mem[q])
  {
    assert Final(c, s.mem, w', p', High(c, w', s.ws[w'].pc, p'));
    var st := Act(c, w, s.ws[w]).1;
    if w == w' {
      HighGrows(c, w, s.ws[w], p');
    }
    if q < High(c, w', s.ws[w'].pc, p') {
      if st.Put? {
        StoreSpares(c, s, w, w', p', q);
      }
    } else {
      StoreIsRight(c, w, s.ws[w]);
    }
  }

  ghost predicate Enabled'(c: Config, s: State, w: nat) {
    StateShape(c, s) && Enabled(c, s, w)
  }

  lemma PhaseKept(c: Config, s: State, w: nat)
    requires Inv(c, s) && Enabled'(c, s, w) && Safe(c, s, w)
    requires forall w': nat :: w' < |s.ws| ==> WriterOk(c, w', Step(c, s, w).ws[w'])
    ensures Ready(c, Step(c, s, w)) && Phased(c, Step(c, s, w))
  {
    var s' := Step(c, s, w);
    assert Arrived(c, w, s.ws[w].pc) ==> Arrived(c, w, s'.ws[w].pc);
    assert s'.ws[w].pc.Drain? || s'.ws[w].pc.Done? ==> Arrived(c, w, s.ws[w].pc);
  }

  lemma NextKeepsInv(c: Config, s: State, s': State)
    requires Inv(c, s) && Next(c, s, s')
    ensures Inv(c, s')
  {
    var w: nat :| Enabled(c, s, w) && Safe(c, s, w) && s' == Step(c, s, w);
    forall w': nat | w' < |s'.ws|
      ensures WriterOk(c, w', s'.ws[w'])
    {
      FinalKept(c, s, w, w', 0);
    }
    assert Ready(c, s');
    PhaseKept(c, s, w);
    forall w': nat, p': nat | Cell(c, w', p')
      ensures Final(c, s'.mem, w', p', High(c, w', s'.ws[w'].pc, p'))
    {
      FinalKept(c, s, w, w', p');
    }
  }

  lemma InitHasInv(c: Config, s: State)
    requires Valid(c) && Init(c, s)
    ensures Inv(c, s)
  {
    forall w: nat | w < |s.ws|
      ensures WriterOk(c, w, s.ws[w])
    {
      forall p: nat | p < c.radix.fanout
        ensures BufferOk(c, w, s.ws[w], p)
      {
        assert Cell(c, w, p);
        BaseOfStart(c, w, p);
      }
    }
    forall w: nat | w < |s.ws|
      ensures s.ws[w].pc == Scatter(0)
    {
      assert Cell(c, w, 0);
    }
    forall w: nat, p: nat | Cell(c, w, p)
      ensures Final(c, s.mem, w, p, High(c, w, s.ws[w].pc, p))
    {
      assert Level(c, w, s.ws[w].pc, p) == c.start[w][p];
    }
  }

  lemma BaseOfStart(c: Config, w: nat, p: nat)
    requires Shape(c) && Cell(c, w, p)
    ensures Level(c, w, Scatter(0), p) == c.start[w][p]
    ensures Base(c.start[w][p], c.t) + Off(c.start[w][p], c.t) == c.start[w][p]
  {
  }

  // ----- whole runs -----

  /** A run of the machine, under any schedule. */
  ghost predicate Run(c: Config, tr: seq<State>)
    requires Shape(c)
  {
    IsRun(tr, (s: State) => Init(c, s), (s: State, s': State) => Next(c, s, s'))
  }

  ghost predicate AllDone(s: State) {
    forall w: nat :: w < |s.ws| ==> s.ws[w].pc.Done?
  }

  lemma RunHasInv(c: Config, tr: seq<State>, i: nat)
    requires Valid(c) && Run(c, tr) && i < |tr|
    ensures Inv(c, tr[i])
  {
    forall s | Init(c, s)
      ensures Inv(c, s)
    {
      InitHasInv(c, s);
    }
    forall s, s' | Inv(c, s) && Next(c, s, s')
      ensures Inv(c, s')
    {
      NextKeepsInv(c, s, s');
    }
    Invariant(tr, (s: State) => Init(c, s), (s: State, s': State) => Next(c, s, s'), (s: State) => Inv(c, s), i);
  }

  /** Under every schedule, when all writers are done each range holds exactly the tuples of its
      cell, in order, whatever was clobbered in between. */
  lemma EveryTupleInItsSlot(c: Config, tr: seq<State>, w: nat, p: nat)
    requires Valid(c) && Run(c, tr) && AllDone(tr[|tr| - 1]) && Cell(c, w, p)
    ensures |tr[|tr| - 1].mem| == c.size >= End(c, w, p)
    ensures tr[|tr| - 1].mem[c.start[w][p]..End(c, w, p)] == Mine(c, w, p)
  {
    RunHasInv(c, tr, |tr| - 1);
    DoneMeansFinal(c, tr[|tr| - 1], w, p);
  }

  lemma DoneMeansFinal(c: Config, s: State, w: nat, p: nat)
    requires Inv(c, s) && AllDone(s) && Cell(c, w, p)
    ensures |s.mem| == c.size >= End(c, w, p)
    ensures s.mem[c.start[w][p]..End(c, w, p)] == Mine(c, w, p)
  {
    HighInRange(c, w, s.ws[w], p);
    assert Final(c, s.mem, w, p, End(c, w, p));
    forall q: nat | c.start[w][p] <= q < End(c, w, p)
      ensures s.mem[q] == Mine(c, w, p)[q - c.start[w][p]]
    {
      assert Right(c, w, p, q, s.mem[q]);
    }
  }

  /** No step of a run reaches outside the array. */
  lemma NoStoreOutside(c: Config, tr: seq<State>, i: nat, w: nat)
    requires Valid(c) && Run(c, tr) && i < |tr| && w < |tr[i].ws|
    ensures StateShape(c, tr[i]) && Safe(c, tr[i], w)
  {
    RunHasInv(c, tr, i);
    StoreSafe(c, tr[i], w);
  }

  /** The slots that may be stored to: the ranges of the cells that have tuples, and the slots below
      them in the same block. */
  ghost predicate Touchable(c: Config, q: int)
    requires Shape(c)
  {
    exists w: nat, p: nat :: Cell(c, w, p) && Mine(c, w, p) != [] && Base(c.start[w][p], c.t) <= q < End(c, w, p)
  }

  lemma StoreTouchable(c: Config, s: State, w: nat)
    requires Inv(c, s) && w < |s.ws| && Act(c, w, s.ws[w]).1.Put?
    ensures Touchable(c, Act(c, w, s.ws[w]).1.at)
  {
    var wr := s.ws[w];
    if wr.pc.Drain? {
      DrainStores(c, w, wr);
      assert Cell(c, w, wr.pc.p);
    } else {
      var p := FlushStores(c, w, wr);
      FlushSlot(c, w, wr, p);
      BaseMonotone(c.start[w][p], wr.pc.slot, c.t);
      assert Cell(c, w, p);
    }
  }

  ghost predicate KeepsRest(c: Config, mem: seq<Tuple>, s: State)
    requires Shape(c)
  {
    |s.mem| == |mem| == c.size && forall q: nat :: q < c.size && !Touchable(c, q) ==> s.mem[q] == mem[q]
  }

  lemma NextKeepsRest(c: Config, mem: seq<Tuple>, s: State, s': State)
    requires Inv(c, s) && Next(c, s, s') && KeepsRest(c, mem, s)
    ensures KeepsRest(c, mem, s')
  {
    var w: nat :| Enabled(c, s, w) && Safe(c, s, w) && s' == Step(c, s, w);
    if Act(c, w, s.ws[w]).1.Put? {
      StoreTouchable(c, s, w);
    }
  }

  /** Everything else in the array is left alone. */
  lemma OthersUntouched(c: Config, tr: seq<State>, i: nat)
    requires Valid(c) && Run(c, tr) && i < |tr|
    ensures KeepsRest(c, tr[0].mem, tr[i])
  {
    var mem := tr[0].mem;
    forall s | Init(c, s)
      ensures Inv(c, s)
    {
      InitHasInv(c, s);
    }
    forall s, s' | Inv(c, s) && KeepsRest(c, mem, s) && Next(c, s, s')
      ensures Inv(c, s') && KeepsRest(c, mem, s')
    {
      NextKeepsInv(c, s, s');
      NextKeepsRest(c, mem, s, s');
    }
    Invariant(tr, (s: State) => Init(c, s) && s.mem == mem, (s: State, s': State) => Next(c, s, s'),
              (s: State) => Inv(c, s) && KeepsRest(c, mem, s), i);
  }

  /** The barrier never blocks everybody: until all writers are done, one of them can step. */
  lemma NeverStuck(c: Config, s: State)
    requires Inv(c, s) && !AllDone(s)
    ensures exists s' :: Next(c, s, s')
  {
    forall w: nat | w < |s.ws|
      ensures StateShape(c, s) && Safe(c, s, w)
    {
      StoreSafe(c, s, w);
    }
    var w: nat :| w < |s.ws| && !s.ws[w].pc.Done?;
    StoreSafe(c, s, w);
    if Enabled(c, s, w) {
      assert Next(c, s, Step(c, s, w));
    } else {
      var v: nat :| v < |s.ws| && !Arrived(c, v, s.ws[v].pc);
      assert Enabled(c, s, v);
      assert Next(c, s, Step(c, s, v));
    }
  }

  // ----- every run ends -----

  /** How many steps a writer can still make, at most. */
  function Left(c: Config, w: nat, pc: Pc): nat
    requires w < |c.inputs|
  {
    var drain := Times(c.radix.fanout, c.t + 1);
    match pc
    case Scatter(i) => Times(|c.inputs[w]| - i, c.t + 2) + drain + 1
    case Flush(i, _, k) => Times(|c.inputs[w]| - i - 1, c.t + 2) + Rest(c.t + 1, k) + drain + 1
    case Drain(p, j) => Times(c.radix.fanout - p - 1, c.t + 1) + Rest(c.t, j)
    case Done => 0
  }

  function Rest(n: nat, k: nat): nat { if k < n then n - k else 0 }

  lemma ActUsesOneUp(c: Config, w: nat, wr: Writer)
    requires Shape(c) && w < |c.inputs| && WriterShape(c, w, wr) && !wr.pc.Done?
    ensures Left(c, w, Act(c, w, wr).0.pc) < Left(c, w, wr.pc)
  {
    match wr.pc
    case Scatter(i) =>
      if i < |c.inputs[w]| {
        ScatterUsesOneUp(c, w, wr);
      }
    case Flush(_, _, _) =>
      FlushUsesOneUp(c, w, wr);
    case Drain(_, _) =>
      DrainUsesOneUp(c, w, wr);
  }

  lemma ScatterUsesOneUp(c: Config, w: nat, wr: Writer)
    requires Shape(c) && w < |c.inputs| && WriterShape(c, w, wr) && wr.pc.Scatter? && wr.pc.i < |c.inputs[w]|
    ensures Left(c, w, Act(c, w, wr).0.pc) < Left(c, w, wr.pc)
  {
    var i := wr.pc.i;
    var slot := SlotOf(wr.bufs[Target(c, w, i)]);
    assert Act(c, w, wr).0.pc == if Off(slot, c.t) == c.t - 1 then Flush(i, slot, 0) else Scatter(i + 1);
  }

  lemma FlushUsesOneUp(c: Config, w: nat, wr: Writer)
    requires Shape(c) && w < |c.inputs| && WriterShape(c, w, wr) && wr.pc.Flush?
    ensures Left(c, w, Act(c, w, wr).0.pc) < Left(c, w, wr.pc)
  {
    var i, slot, k := wr.pc.i, wr.pc.slot, wr.pc.k;
    assert Act(c, w, wr).0.pc == if k < c.t then Flush(i, slot, k + 1) else Scatter(i + 1);
  }

  lemma DrainUsesOneUp(c: Config, w: nat, wr: Writer)
    requires Shape(c) && w < |c.inputs| && WriterShape(c, w, wr) && wr.pc.Drain?
    ensures Left(c, w, Act(c, w, wr).0.pc) < Left(c, w, wr.pc)
  {
    var p, j := wr.pc.p, wr.pc.j;
    var pc := Act(c, w, wr).0.pc;
    assert pc == Drain(p, j + 1) || pc == DrainFrom(c, w, wr.bufs, p + 1);
  }

  function LeftOf(c: Config, ws: seq<Writer>): nat -> nat {
    (w: nat) => if w < |ws| && w < |c.inputs| then Left(c, w, ws[w].pc) else 0
  }

  /** How many steps all writers can still make, at most. */
  function Work(c: Config, ws: seq<Writer>): nat { SumTo(LeftOf(c, ws), |c.inputs|) }

  lemma WorkDrops(c: Config, ws: seq<Writer>, w: nat, wr: Writer)
    requires w < |ws| == |c.inputs| && Left(c, w, wr.pc) < Left(c, w, ws[w].pc)
    ensures Work(c, ws[w := wr]) < Work(c, ws)
  {
    SumToDrops(LeftOf(c, ws), LeftOf(c, ws[w := wr]), w, |c.inputs|);
  }

  lemma NextUsesOneUp(c: Config, s: State, s': State)
    requires Inv(c, s) && Next(c, s, s')
    ensures Work(c, s'.ws) < Work(c, s.ws)
  {
    var w: nat :| Enabled(c, s, w) && Safe(c, s, w) && s' == Step(c, s, w);
    ActUsesOneUp(c, w, s.ws[w]);
    WorkDrops(c, s.ws, w, Act(c, w, s.ws[w]).0);
  }

  /** What a configuration allows: for every tuple of a writer the stores of a block and two steps more,
      and the draining of a block for every cluster. */
  function Budget(c: Config): nat -> nat {
    (w: nat) => if w < |c.inputs| then Times(|c.inputs[w]|, c.t + 2) + Times(c.radix.fanout, c.t + 1) + 1 else 0
  }

  lemma StartWithinBudget(c: Config, s: State)
    requires Init(c, s)
    ensures Work(c, s.ws) == SumTo(Budget(c), |c.inputs|)
  {
    forall w: nat | w < |c.inputs|
      ensures LeftOf(c, s.ws)(w) == Budget(c)(w)
    {
      assert Cell(c, w, 0);
    }
    SumToSame(LeftOf(c, s.ws), Budget(c), |c.inputs|);
  }

  /** No run is longer than that. */
  lemma RunsEnd(c: Config, tr: seq<State>)
    requires Valid(c) && Run(c, tr)
    ensures |tr| - 1 <= SumTo(Budget(c), |c.inputs|)
  {
    forall s | Init(c, s)
      ensures Inv(c, s)
    {
      InitHasInv(c, s);
    }
    forall s, s' | Inv(c, s) && Next(c, s, s')
      ensures Inv(c, s') && Work(c, s'.ws) < Work(c, s.ws)
    {
      NextKeepsInv(c, s, s');
      NextUsesOneUp(c, s, s');
    }
    Bounded(tr, (s: State) => Init(c, s), (s: State, s': State) => Next(c, s, s'), (s: State) => Inv(c, s),
            (s: State) => Work(c, s.ws), |tr| - 1);
    StartWithinBudget(c, tr[0]);
  }
}
