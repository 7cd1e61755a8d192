/** A partitioning pass, in whichever of its forms, under whichever schedule: what all of them do. */
module Passes {
  import opened Bits
  import opened Relations
  import opened Runs
  import opened Partitioning
  import Swwcb
  import SwwcbProofs
  import ConcurrentScatter
  import RegulatedPass
  import RegulatedScatter
  import SharedBuffers

  /** With or without write-combining buffers; with all threads or only some of them writing, and then
      with buffers that several passes share. */
  datatype PassRun =
    | Buffered(tr: seq<Swwcb.State>)
    | Unbuffered(back: bool, st: seq<ConcurrentScatter.State>)
    | Regulated(passes: SharedBuffers.Plan, rounds: seq<SharedBuffers.State>, rd: nat)
    | RegulatedUnbuffered(writers: nat, rt: seq<RegulatedScatter.Regulated>)

  /** A finished run of the pass `c`. */
  ghost predicate Ran(c: Swwcb.Config, pad: nat, run: PassRun) {
    match run
    case Buffered(tr) => Swwcb.Shape(c) && SwwcbProofs.Run(c, tr) && SwwcbProofs.AllDone(tr[|tr| - 1])
    case Unbuffered(back, st) =>
      var x := ConcurrentScatter.Plan(c, pad, back);
      ConcurrentScatter.Run(x, st) && ConcurrentScatter.AllDone(x, st[|st| - 1])
    case Regulated(passes, rounds, rd) =>
      && SharedBuffers.Ok(passes) && rd < |passes.cs| && passes.cs[rd] == c
      && SharedBuffers.Run(passes, rounds) && SharedBuffers.AllFinished(passes, rounds[|rounds| - 1])
    case RegulatedUnbuffered(writers, rt) =>
      var x := ConcurrentScatter.Plan(c, pad, true);
      0 < writers && RegulatedScatter.RegRun(x, writers, rt) && RegulatedScatter.AllServed(x, rt[|rt| - 1])
  }

  /** The shared array after `i` steps. */
  ghost function MemAt(run: PassRun, i: nat): seq<Tuple> {
    match run
    case Buffered(tr) => if i < |tr| then tr[i].mem else []
    case Unbuffered(_, st) => if i < |st| then st[i].mem else []
    case Regulated(_, rounds, rd) => if i < |rounds| && rd < |rounds[i].mems| then rounds[i].mems[rd] else []
    case RegulatedUnbuffered(_, rt) => if i < |rt| then rt[i].s.mem else []
  }

  function Length(run: PassRun): nat {
    match run
    case Buffered(tr) => |tr|
    case Unbuffered(_, st) => |st|
    case Regulated(_, rounds, _) => |rounds|
    case RegulatedUnbuffered(_, rt) => |rt|
  }

  ghost function Before(run: PassRun): seq<Tuple> { MemAt(run, 0) }

  ghost function After(run: PassRun): seq<Tuple> {
    if Length(run) == 0 then [] else MemAt(run, Length(run) - 1)
  }

  lemma BufferedIsRight(c: Swwcb.Config, tr: seq<Swwcb.State>)
    requires Swwcb.Valid(c) && SwwcbProofs.Run(c, tr) && SwwcbProofs.AllDone(tr[|tr| - 1])
    ensures CellsHold(c, tr[|tr| - 1].mem) && Untouched(c, tr[0].mem, tr[|tr| - 1].mem)
  {
    BufferedCellsHold(c, tr);
    SwwcbProofs.OthersUntouched(c, tr, |tr| - 1);
  }

  lemma UnbufferedIsRight(x: ConcurrentScatter.Plan, st: seq<ConcurrentScatter.State>)
    requires ConcurrentScatter.Enough(x) && ConcurrentScatter.Run(x, st) && ConcurrentScatter.AllDone(x, st[|st| - 1])
    ensures CellsHold(x.c, st[|st| - 1].mem) && Untouched(x.c, st[0].mem, st[|st| - 1].mem)
  {
    ConcurrentScatter.ScatterCellsHold(x, st);
    ConcurrentScatter.OthersUntouched(x, st, |st| - 1);
  }

  lemma RegulatedIsRight(passes: SharedBuffers.Plan, rounds: seq<SharedBuffers.State>, rd: nat)
    requires SharedBuffers.Ok(passes) && rd < |passes.cs| && SharedBuffers.Run(passes, rounds)
    requires SharedBuffers.AllFinished(passes, rounds[|rounds| - 1])
    ensures Swwcb.Valid(passes.cs[rd]) && |rounds[|rounds| - 1].mems| == |rounds[0].mems| == |passes.cs|
    ensures CellsHold(passes.cs[rd], rounds[|rounds| - 1].mems[rd])
    ensures Untouched(passes.cs[rd], rounds[0].mems[rd], rounds[|rounds| - 1].mems[rd])
  {
    SharedBuffers.EveryPassIsRight(passes, rounds, rd);
  }

  lemma RegulatedUnbufferedIsRight(x: ConcurrentScatter.Plan, writers: nat, rt: seq<RegulatedScatter.Regulated>)
    requires ConcurrentScatter.Enough(x) && 0 < writers && RegulatedScatter.RegRun(x, writers, rt) && RegulatedScatter.AllServed(x, rt[|rt| - 1])
    ensures CellsHold(x.c, rt[|rt| - 1].s.mem) && Untouched(x.c, rt[0].s.mem, rt[|rt| - 1].s.mem)
  {
    RegulatedScatter.ServedChunksHold(x, writers, rt);
  }

  /** Whatever the form of the pass: in the end every range holds its tuples, and what is not in a block
      of a range is as it was. */
  lemma PassIsRight(c: Swwcb.Config, pad: nat, run: PassRun)
    requires Swwcb.Valid(c) && ConcurrentScatter.Padded(c, pad) && Ran(c, pad, run)
    ensures CellsHold(c, After(run)) && Untouched(c, Before(run), After(run))
  {
    match run {
      case Buffered(tr) => BufferedIsRight(c, tr);
      case Unbuffered(back, st) => UnbufferedIsRight(ConcurrentScatter.Plan(c, pad, back), st);
      case Regulated(passes, rounds, rd) => RegulatedIsRight(passes, rounds, rd);
      case RegulatedUnbuffered(writers, rt) => RegulatedUnbufferedIsRight(ConcurrentScatter.Plan(c, pad, true), writers, rt);
    }
  }
}
