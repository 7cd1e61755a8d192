/** The build of a linear-probing table with a latch in every slot refines the lock-free build: what
    happens under the latch is one compare-and-swap. */
module LatchedProbing {
  import opened Bits
  import opened Relations
  import opened Runs
  import opened Probing
  import C = ConcurrentProbing

  datatype Pc =
    | Look(i: nat, d: nat)                  // about to read the slot without its latch
    | Lock(i: nat, d: nat)                  // the slot was free: spinning on `tas`
    | Check(i: nat, d: nat)                 // holds the latch, about to read the slot again
    | Set(i: nat, d: nat)                   // holds the latch, about to write the slot
    | Unlock(i: nat, d: nat, won: bool)     // about to release the latch
    | Store(i: nat, q: nat)                 // slot q is claimed: about to store the tuple

  datatype State = State(hash: seq<nat>, tup: seq<Tuple>, log: seq<Slot>, latch: seq<bool>, ts: seq<Pc>)

  ghost predicate Shape(c: C.Config, s: State) {
    && |s.hash| == |s.tup| == |s.log| == |s.latch| == c.r.fanout
    && |s.ts| == |c.inputs|
  }

  ghost predicate Busy(c: C.Config, s: State, w: nat) {
    Shape(c, s) && w < |s.ts| && s.ts[w].i < |c.inputs[w]|
  }

  /** The slot a thread is at. */
  function Here(c: C.Config, w: nat, i: nat, d: nat): (q: nat)
    requires w < |c.inputs|
    ensures q < c.r.fanout
  {
    if i < |c.inputs[w]| then At(C.Home(c, w, i), d, c.r.fanout) else 0
  }

  ghost predicate Init(c: C.Config, s: State) {
    && Shape(c, s)
    && (forall q: nat :: q < |s.hash| ==> s.hash[q] == 0 && s.log[q] == Empty && !s.latch[q])
    && (forall w: nat :: w < |s.ts| ==> s.ts[w] == Look(0, 0))
  }

  ghost predicate Read(c: C.Config, s: State, s': State, w: nat) {
    && Busy(c, s, w) && s.ts[w].Look?
    && var Look(i, d) := s.ts[w];
       s' == s.(ts := s.ts[w := if s.hash[Here(c, w, i, d)] != 0 then Look(i, d + 1) else Lock(i, d)])
  }

  /** `tas` returns 0: the latch was free and is taken now. */
  ghost predicate Take(c: C.Config, s: State, s': State, w: nat) {
    && Busy(c, s, w) && s.ts[w].Lock?
    && var Lock(i, d) := s.ts[w];
       && !s.latch[Here(c, w, i, d)]
       && s' == s.(latch := s.latch[Here(c, w, i, d) := true], ts := s.ts[w := Check(i, d)])
  }

  /** `if (hash_entry->hashkey == 0)` under the latch */
  ghost predicate ReadAgain(c: C.Config, s: State, s': State, w: nat) {
    && Busy(c, s, w) && s.ts[w].Check?
    && var Check(i, d) := s.ts[w];
       s' == s.(ts := s.ts[w := if s.hash[Here(c, w, i, d)] == 0 then Set(i, d) else Unlock(i, d, false)])
  }

  /** `hash_entry->hashkey = hashkey + 1`, a plain write */
  ghost predicate Write(c: C.Config, s: State, s': State, w: nat) {
    && Busy(c, s, w) && s.ts[w].Set?
    && var Set(i, d) := s.ts[w];
       var q := Here(c, w, i, d);
       s' == s.(hash := s.hash[q := C.Home(c, w, i) + 1], log := s.log[q := Full(c.inputs[w][i])],
                ts := s.ts[w := Unlock(i, d, true)])
  }

  ghost predicate Release(c: C.Config, s: State, s': State, w: nat) {
    && Busy(c, s, w) && s.ts[w].Unlock?
    && var Unlock(i, d, won) := s.ts[w];
       var q := Here(c, w, i, d);
       s' == s.(latch := s.latch[q := false], ts := s.ts[w := if won then Store(i, q) else Look(i, d + 1)])
  }

  ghost predicate Put(c: C.Config, s: State, s': State, w: nat) {
    && Busy(c, s, w) && s.ts[w].Store? && s.ts[w].q < |s.tup|
    && var Store(i, q) := s.ts[w];
       s' == s.(tup := s.tup[q := c.inputs[w][i]], ts := s.ts[w := Look(i + 1, 0)])
  }

  ghost predicate Step(c: C.Config, s: State, s': State, w: nat) {
    || Read(c, s, s', w) || Take(c, s, s', w) || ReadAgain(c, s, s', w)
    || Write(c, s, s', w) || Release(c, s, s', w) || Put(c, s, s', w)
  }

  ghost predicate Next(c: C.Config, s: State, s': State) {
    exists w: nat :: Step(c, s, s', w)
  }

  // ----- latches -----

  predicate Inside(pc: Pc) { pc.Check? || pc.Set? || pc.Unlock? }

  ghost predicate Holder(c: C.Config, s: State, w: nat, q: nat)
    requires w < |s.ts| == |c.inputs|
  {
    Inside(s.ts[w]) && Here(c, w, s.ts[w].i, s.ts[w].d) == q
  }

  /** Whoever is about to write a slot holds its latch, and the slot is still free. */
  ghost predicate ThreadOk(c: C.Config, s: State, w: nat)
    requires Shape(c, s) && w < |s.ts|
  {
    && (Inside(s.ts[w]) ==> s.ts[w].i < |c.inputs[w]| && s.latch[Here(c, w, s.ts[w].i, s.ts[w].d)])
    && (s.ts[w].Set? ==> s.hash[Here(c, w, s.ts[w].i, s.ts[w].d)] == 0)
  }

  /** Mutual exclusion, slot by slot. */
  ghost predicate Exclusive(c: C.Config, s: State)
    requires Shape(c, s)
  {
    forall w: nat, w': nat, q: nat {:trigger Holder(c, s, w, q), Holder(c, s, w', q)} ::
      w < w' < |s.ts| ==> !(Holder(c, s, w, q) && Holder(c, s, w', q))
  }

  ghost predicate Inv(c: C.Config, s: State) {
    Shape(c, s) && (forall w: nat :: w < |s.ts| ==> ThreadOk(c, s, w)) && Exclusive(c, s)
  }

  lemma StepKeepsThread(c: C.Config, s: State, s': State, w: nat, w': nat)
    requires Inv(c, s) && Step(c, s, s', w) && w' < |s.ts|
    ensures ThreadOk(c, s', w')
  {
    assert ThreadOk(c, s, w) && ThreadOk(c, s, w');
    var q, q' := Here(c, w, s.ts[w].i, if s.ts[w].Store? then 0 else s.ts[w].d),
                 Here(c, w', s.ts[w'].i, if s.ts[w'].Store? then 0 else s.ts[w'].d);
    if w != w' && Inside(s.ts[w]) && Inside(s.ts[w']) {
      assert !(Holder(c, s, w, q) && Holder(c, s, w', q));
    }
  }

  lemma StepKeepsExclusive(c: C.Config, s: State, s': State, w: nat)
    requires Inv(c, s) && Step(c, s, s', w)
    ensures Shape(c, s') && Exclusive(c, s')
  {
    forall v: nat, v': nat, q: nat | v < v' < |s'.ts|
      ensures !(Holder(c, s', v, q) && Holder(c, s', v', q))
    {
      assert ThreadOk(c, s, v) && ThreadOk(c, s, v');
      assert !(Holder(c, s, v, q) && Holder(c, s, v', q));
    }
  }

  lemma NextKeepsInv(c: C.Config, s: State, s': State)
    requires Inv(c, s) && Next(c, s, s')
    ensures Inv(c, s')
  {
    var w: nat :| Step(c, s, s', w);
    StepKeepsExclusive(c, s, s', w);
    forall w': nat | w' < |s'.ts|
      ensures ThreadOk(c, s', w')
    {
      StepKeepsThread(c, s, s', w, w');
    }
  }

  // ----- refinement -----

  /** From taking up a free slot to deciding about it, a thread is at its compare-and-swap. */
  function AbstractPc(c: C.Config, w: nat, pc: Pc): C.Pc
    requires w < |c.inputs|
  {
    match pc
    case Look(i, d) => C.Look(i, d)
    case Lock(i, d) => C.Cas(i, d)
    case Check(i, d) => C.Cas(i, d)
    case Set(i, d) => C.Cas(i, d)
    case Unlock(i, d, won) => if won then C.Store(i, Here(c, w, i, d)) else C.Look(i, d + 1)
    case Store(i, q) => C.Store(i, q)
  }

  function Abstract(c: C.Config, s: State): C.State
    requires |s.ts| == |c.inputs|
  {
    C.State(s.hash, s.tup, s.log, seq(|s.ts|, (w: nat) requires w < |s.ts| => AbstractPc(c, w, s.ts[w])))
  }

  lemma AbstractStep(c: C.Config, s: State, s': State, w: nat)
    requires |s.ts| == |s'.ts| == |c.inputs| && w < |s.ts| && s'.ts == s.ts[w := s'.ts[w]]
    ensures Abstract(c, s').ts == Abstract(c, s).ts[w := AbstractPc(c, w, s'.ts[w])]
  {
  }

  lemma StepRefines(c: C.Config, s: State, s': State, w: nat)
    requires Inv(c, s) && Step(c, s, s', w)
    ensures |s'.ts| == |c.inputs|
    ensures Abstract(c, s') == Abstract(c, s) || C.Step(c, Abstract(c, s), Abstract(c, s'), w)
  {
    assert ThreadOk(c, s, w);
    AbstractStep(c, s, s', w);
    var a, a' := Abstract(c, s), Abstract(c, s');
    if Take(c, s, s', w) || Release(c, s, s', w) {
      assert a'.ts == a.ts;
    } else if Read(c, s, s', w) {
      assert C.Read(c, a, a', w);
    } else if Write(c, s, s', w) {
      assert C.Claim(c, a, a', w);
    } else if Put(c, s, s', w) {
      assert C.Put(c, a, a', w);
    } else if s.hash[Here(c, w, s.ts[w].i, s.ts[w].d)] == 0 {
      assert a'.ts == a.ts;
    } else {
      assert C.Lose(c, a, a', w);
    }
  }

  ghost predicate Both(c: C.Config, s: State) {
    Inv(c, s) && C.Inv(c, Abstract(c, s))
  }

  lemma InitHasBoth(c: C.Config, s: State)
    requires Init(c, s)
    ensures Both(c, s)
  {
    assert C.Init(c, Abstract(c, s));
    C.InitHasInv(c, Abstract(c, s));
  }

  lemma NextKeepsBoth(c: C.Config, s: State, s': State)
    requires C.Enough(c) && Both(c, s) && Next(c, s, s')
    ensures Both(c, s')
  {
    NextKeepsInv(c, s, s');
    var w: nat :| Step(c, s, s', w);
    StepRefines(c, s, s', w);
    if Abstract(c, s') != Abstract(c, s) {
      C.NextKeepsInv(c, Abstract(c, s), Abstract(c, s'));
    }
  }

  ghost predicate Run(c: C.Config, tr: seq<State>) {
    IsRun(tr, (s: State) => Init(c, s), (s: State, s': State) => Next(c, s, s'))
  }

  /** Along every run, no two threads hold one latch, and what the threads have done is what
      lock-free threads could have done. */
  lemma RunHasBoth(c: C.Config, tr: seq<State>, i: nat)
    requires C.Enough(c) && Run(c, tr) && i < |tr|
    ensures Both(c, tr[i])
  {
    forall s | Init(c, s)
      ensures Both(c, s)
    {
      InitHasBoth(c, s);
    }
    forall s, s' | Both(c, s) && Next(c, s, s')
      ensures Both(c, s')
    {
      NextKeepsBoth(c, s, s');
    }
    Invariant(tr, (s: State) => Init(c, s), (s: State, s': State) => Next(c, s, s'), (s: State) => Both(c, s), i);
  }

  ghost predicate AllDone(c: C.Config, s: State) {
    Shape(c, s) && forall w: nat :: w < |s.ts| ==> !Busy(c, s, w)
  }

  lemma DoneIsDone(c: C.Config, s: State)
    requires Both(c, s) && AllDone(c, s)
    ensures C.AllDone(c, Abstract(c, s))
  {
    forall w: nat | w < |s.ts|
      ensures !C.Busy(c, Abstract(c, s), w)
    {
      assert !Busy(c, s, w);
    }
  }

  /** The finished table is as right as that of the lock-free build. */
  lemma BuildIsRight(c: C.Config, tr: seq<State>)
    requires C.Enough(c) && Run(c, tr) && AllDone(c, tr[|tr| - 1])
    ensures C.Holds(tr[|tr| - 1].hash, tr[|tr| - 1].tup, c.r, Flatten(c.inputs))
  {
    var s := tr[|tr| - 1];
    RunHasBoth(c, tr, |tr| - 1);
    DoneIsDone(c, s);
    C.DoneThreads(c, Abstract(c, s));
    C.DoneTable(c, Abstract(c, s));
  }

  /** A thread that holds a latch can always go on. */
  lemma HolderMoves(c: C.Config, s: State, w: nat)
    requires Inv(c, s) && w < |s.ts| && Inside(s.ts[w])
    ensures exists s' :: Step(c, s, s', w)
  {
    assert ThreadOk(c, s, w);
    var i, d := s.ts[w].i, s.ts[w].d;
    var q := Here(c, w, i, d);
    match s.ts[w] {
      case Check(_, _) =>
        assert Step(c, s, s.(ts := s.ts[w := if s.hash[q] == 0 then Set(i, d) else Unlock(i, d, false)]), w);
      case Set(_, _) =>
        assert Step(c, s, s.(hash := s.hash[q := C.Home(c, w, i) + 1], log := s.log[q := Full(c.inputs[w][i])],
                             ts := s.ts[w := Unlock(i, d, true)]), w);
      case Unlock(_, _, won) =>
        assert Step(c, s, s.(latch := s.latch[q := false], ts := s.ts[w := if won then Store(i, q) else Look(i, d + 1)]), w);
    }
  }

  // ----- no deadlock -----

  ghost predicate Somebody(c: C.Config, s: State, q: nat)
    requires Shape(c, s)
  {
    exists w: nat :: w < |s.ts| && Holder(c, s, w, q)
  }

  /** A latch that is taken has a thread that will release it. */
  ghost predicate Held(c: C.Config, s: State)
    requires Shape(c, s)
  {
    forall q: nat :: q < |s.latch| && s.latch[q] ==> Somebody(c, s, q)
  }

  lemma StepKeepsHeld(c: C.Config, s: State, s': State, w: nat)
    requires Inv(c, s) && Held(c, s) && Step(c, s, s', w) && Shape(c, s')
    ensures Held(c, s')
  {
    forall q: nat | q < |s'.latch| && s'.latch[q]
      ensures Somebody(c, s', q)
    {
      if s.latch[q] {
        assert Somebody(c, s, q);
        var v: nat :| v < |s.ts| && Holder(c, s, v, q);
        assert Holder(c, s', v, q);
      } else {
        assert Holder(c, s', w, q);
      }
    }
  }

  lemma RunHasHeld(c: C.Config, tr: seq<State>, i: nat)
    requires C.Enough(c) && Run(c, tr) && i < |tr|
    ensures Both(c, tr[i]) && Held(c, tr[i])
  {
    forall s | Init(c, s)
      ensures Both(c, s) && Held(c, s)
    {
      InitHasBoth(c, s);
    }
    forall s, s' | Both(c, s) && Held(c, s) && Next(c, s, s')
      ensures Both(c, s') && Held(c, s')
    {
      NextKeepsBoth(c, s, s');
      var w: nat :| Step(c, s, s', w);
      StepKeepsHeld(c, s, s', w);
    }
    Invariant(tr, (s: State) => Init(c, s), (s: State, s': State) => Next(c, s, s'), (s: State) => Both(c, s) && Held(c, s), i);
  }

  /** Until all threads are done, one of them can take a step: no latch is held for ever. */
  lemma NeverStuck(c: C.Config, tr: seq<State>, i: nat)
    requires C.Enough(c) && Run(c, tr) && i < |tr| && !AllDone(c, tr[i])
    ensures exists s' :: Next(c, tr[i], s')
  {
    var s := tr[i];
    RunHasHeld(c, tr, i);
    var w: nat :| w < |s.ts| && Busy(c, s, w);
    if s.ts[w].Lock? && s.latch[Here(c, w, s.ts[w].i, s.ts[w].d)] {
      assert Somebody(c, s, Here(c, w, s.ts[w].i, s.ts[w].d));
      var v: nat :| v < |s.ts| && Holder(c, s, v, Here(c, w, s.ts[w].i, s.ts[w].d));
      HolderMoves(c, s, v);
      var s' :| Step(c, s, s', v);
      assert Next(c, s, s');
    } else {
      BusyMoves(c, s, w);
      var s' :| Step(c, s, s', w);
      assert Next(c, s, s');
    }
  }

  lemma BusyMoves(c: C.Config, s: State, w: nat)
    requires Both(c, s) && Busy(c, s, w) && (s.ts[w].Lock? ==> !s.latch[Here(c, w, s.ts[w].i, s.ts[w].d)])
    ensures exists s' :: Step(c, s, s', w)
  {
    match s.ts[w] {
      case Look(i, d) =>
        assert Step(c, s, s.(ts := s.ts[w := if s.hash[Here(c, w, i, d)] != 0 then Look(i, d + 1) else Lock(i, d)]), w);
      case Lock(i, d) =>
        assert Step(c, s, s.(latch := s.latch[Here(c, w, i, d) := true], ts := s.ts[w := Check(i, d)]), w);
      case Store(i, q) =>
        assert C.PcOk(c, s.log, w, Abstract(c, s).ts[w]);
        assert Step(c, s, s.(tup := s.tup[q := c.inputs[w][i]], ts := s.ts[w := Look(i + 1, 0)]), w);
      case _ => HolderMoves(c, s, w);
    }
  }

  // ----- every run ends -----

  /** How far an insertion is: every slot that it comes to costs it at most a read, and a second one
      under the latch. */
  function Used(n: nat, pc: Pc): nat {
    match pc
    case Look(_, d) => 5 * d
    case Lock(_, d) => 5 * d + 1
    case Check(_, d) => 5 * d + 2
    case Set(_, d) => 5 * d + 3
    case Unlock(_, d, won) => if won && 0 < n then 5 * n - 1 else 5 * d + 4
    case Store(_, _) => 5 * n
  }

  function Left(n: nat, len: nat, pc: Pc): nat {
    if pc.i >= len then 0
    else Times(len - pc.i - 1, 5 * n + 1) + (if Used(n, pc) <= 5 * n + 1 then 5 * n + 1 - Used(n, pc) else 0)
  }

  function LeftOf(c: C.Config, ts: seq<Pc>): nat -> nat {
    (w: nat) => if w < |ts| && w < |c.inputs| then Left(c.r.fanout, |c.inputs[w]|, ts[w]) else 0
  }

  /** An insertion never comes to more slots than the table has. */
  lemma ProbesAreFew(c: C.Config, s: State, w: nat)
    requires C.Enough(c) && Both(c, s) && Busy(c, s, w) && !s.ts[w].Store? && !(s.ts[w].Unlock? && s.ts[w].won)
    ensures s.ts[w].d < c.r.fanout
  {
    C.ProbesAreFew(c, Abstract(c, s), w);
  }

  lemma StepUsesOneUp(c: C.Config, s: State, s': State, w: nat)
    requires C.Enough(c) && Both(c, s) && Step(c, s, s', w)
    ensures |s'.ts| == |s.ts| && s'.ts == s.ts[w := s'.ts[w]]
    ensures Left(c.r.fanout, |c.inputs[w]|, s'.ts[w]) < Left(c.r.fanout, |c.inputs[w]|, s.ts[w])
  {
    if !s.ts[w].Store? && !(s.ts[w].Unlock? && s.ts[w].won) {
      ProbesAreFew(c, s, w);
    }
  }

  lemma NextUsesOneUp(c: C.Config, s: State, s': State)
    requires C.Enough(c) && Both(c, s) && Next(c, s, s')
    ensures SumTo(LeftOf(c, s'.ts), |c.inputs|) < SumTo(LeftOf(c, s.ts), |c.inputs|)
  {
    var w: nat :| Step(c, s, s', w);
    StepUsesOneUp(c, s, s', w);
    SumToDrops(LeftOf(c, s.ts), LeftOf(c, s'.ts), w, |c.inputs|);
  }

  /** At most five steps for every slot of the table, and one more, for every tuple of a thread. */
  function Budget(c: C.Config): nat -> nat {
    (w: nat) => if w < |c.inputs| then Times(|c.inputs[w]|, 5 * c.r.fanout + 1) else 0
  }

  lemma StartWithinBudget(c: C.Config, s: State)
    requires Init(c, s)
    ensures SumTo(LeftOf(c, s.ts), |c.inputs|) == SumTo(Budget(c), |c.inputs|)
  {
    SumToSame(LeftOf(c, s.ts), Budget(c), |c.inputs|);
  }

  /** No run of the build is longer than the table and the relation allow.  A thread that finds a latch
      taken makes no step; `NeverStuck` says that then somebody else can. */
  lemma RunsEnd(c: C.Config, tr: seq<State>)
    requires C.Enough(c) && Run(c, tr)
    ensures |tr| - 1 <= SumTo(Budget(c), |c.inputs|)
  {
    forall s | Init(c, s)
      ensures Both(c, s)
    {
      InitHasBoth(c, s);
    }
    forall s, s' | Both(c, s) && Next(c, s, s')
      ensures Both(c, s') && SumTo(LeftOf(c, s'.ts), |c.inputs|) < SumTo(LeftOf(c, s.ts), |c.inputs|)
    {
      NextKeepsBoth(c, s, s');
      NextUsesOneUp(c, s, s');
    }
    Bounded(tr, (s: State) => Init(c, s), (s: State, s': State) => Next(c, s, s'), (s: State) => Both(c, s),
            (s: State) => SumTo(LeftOf(c, s.ts), |c.inputs|), |tr| - 1);
    StartWithinBudget(c, tr[0]);
  }
}
