/** The lock-free build of a linear-probing table, under every interleaving of its threads.  A
    thread reads a slot, claims it by compare-and-swap, and only then stores its tuple. */
module ConcurrentProbing {
  import opened Bits
  import opened Relations
  import opened Accumulators
  import opened Runs
  import opened Probing
  import opened FirstMatches

  datatype Config = Config(r: Radix, inputs: seq<seq<Tuple>>)

  datatype Pc =
    | Look(i: nat, d: nat)     // tuple i, d steps from its home slot: about to read the slot
    | Cas(i: nat, d: nat)      // the slot was free: about to compare and swap
    | Store(i: nat, q: nat)    // slot q is claimed: about to store the tuple

  /** `hash[q]` is 0 while slot q is free.  `log` is a history variable: what has been claimed, as
      if a claim stored the tuple at once. */
  datatype State = State(hash: seq<nat>, tup: seq<Tuple>, log: seq<Slot>, ts: seq<Pc>)

  ghost predicate Shape(c: Config, s: State) {
    |s.hash| == |s.tup| == |s.log| == c.r.fanout && |s.ts| == |c.inputs|
  }

  ghost predicate Busy(c: Config, s: State, w: nat) {
    Shape(c, s) && w < |s.ts| && s.ts[w].i < |c.inputs[w]|
  }

  function Home(c: Config, w: nat, i: nat): (h: nat)
    requires w < |c.inputs| && i < |c.inputs[w]|
    ensures h < c.r.fanout
  {
    Hash(c.r, c.inputs[w][i].key)
  }

  ghost predicate Init(c: Config, s: State) {
    && Shape(c, s)
    && (forall q: nat :: q < |s.hash| ==> s.hash[q] == 0 && s.log[q] == Empty)
    && (forall w: nat :: w < |s.ts| ==> s.ts[w] == Look(0, 0))
  }

  /** `hashtable[pos].hashkey` */
  ghost predicate Read(c: Config, s: State, s': State, w: nat) {
    && Busy(c, s, w) && s.ts[w].Look?
    && var Look(i, d) := s.ts[w];
       var q := At(Home(c, w, i), d, c.r.fanout);
       s' == s.(ts := s.ts[w := if s.hash[q] != 0 then Look(i, d + 1) else Cas(i, d)])
  }

  /** `__sync_bool_compare_and_swap(&hashtable[pos].hashkey, 0, hashkey + 1)` */
  ghost predicate Claim(c: Config, s: State, s': State, w: nat) {
    && Busy(c, s, w) && s.ts[w].Cas?
    && var Cas(i, d) := s.ts[w];
       var q := At(Home(c, w, i), d, c.r.fanout);
       && s.hash[q] == 0
       && s' == State(s.hash[q := Home(c, w, i) + 1], s.tup, s.log[q := Full(c.inputs[w][i])], s.ts[w := Store(i, q)])
  }

  ghost predicate Lose(c: Config, s: State, s': State, w: nat) {
    && Busy(c, s, w) && s.ts[w].Cas?
    && var Cas(i, d) := s.ts[w];
       && s.hash[At(Home(c, w, i), d, c.r.fanout)] != 0
       && s' == s.(ts := s.ts[w := Look(i, d + 1)])
  }

  ghost predicate Put(c: Config, s: State, s': State, w: nat) {
    && Busy(c, s, w) && s.ts[w].Store? && s.ts[w].q < |s.tup|
    && var Store(i, q) := s.ts[w];
       s' == s.(tup := s.tup[q := c.inputs[w][i]], ts := s.ts[w := Look(i + 1, 0)])
  }

  ghost predicate Next(c: Config, s: State, s': State) {
    exists w: nat :: Step(c, s, s', w)
  }

  ghost predicate Step(c: Config, s: State, s': State, w: nat) {
    Read(c, s, s', w) || Claim(c, s, s', w) || Lose(c, s, s', w) || Put(c, s, s', w)
  }

  // ----- the invariant -----

  function Claimed(pc: Pc): nat { if pc.Store? then pc.i + 1 else pc.i }

  function Taken(input: seq<Tuple>, pc: Pc): seq<Tuple> {
    var k := Claimed(pc);
    if k <= |input| then input[..k] else input
  }

  /** The tuples claimed so far, thread by thread. */
  ghost function Parts(c: Config, ts: seq<Pc>): seq<seq<Tuple>>
    requires |ts| == |c.inputs|
  {
    seq(|ts|, (w: nat) requires w < |ts| => Taken(c.inputs[w], ts[w]))
  }

  ghost predicate PcOk(c: Config, log: seq<Slot>, w: nat, pc: Pc)
    requires w < |c.inputs| && |log| == c.r.fanout
  {
    && pc.i <= |c.inputs[w]|
    && (pc.Look? && pc.i < |c.inputs[w]| ==> Walked(log, Home(c, w, pc.i), pc.d))
    && (pc.Cas? ==> pc.i < |c.inputs[w]| && Walked(log, Home(c, w, pc.i), pc.d))
    && (pc.Store? ==> pc.i < |c.inputs[w]| && pc.q < |log| && log[pc.q] == Full(c.inputs[w][pc.i]))
  }

  ghost predicate Pending(s: State, w: nat, q: nat)
    requires w < |s.ts|
  {
    s.ts[w].Store? && s.ts[w].q == q
  }

  /** A claimed slot holds its tuple, unless the thread that claimed it has yet to store it. */
  ghost predicate SlotOk(s: State, q: nat)
    requires q < |s.hash| == |s.tup| == |s.log|
  {
    && (s.hash[q] != 0 <==> s.log[q].Full?)
    && (s.log[q].Full? && s.tup[q] != s.log[q].tuple ==> exists w: nat :: w < |s.ts| && Pending(s, w, q))
  }

  /** No slot is claimed by two threads. */
  ghost predicate Alone(s: State) {
    forall w: nat, w': nat, q: nat {:trigger Pending(s, w, q), Pending(s, w', q)} ::
      w < w' < |s.ts| ==> !(Pending(s, w, q) && Pending(s, w', q))
  }

  ghost predicate Inv(c: Config, s: State) {
    && Shape(c, s)
    && Valid(s.log, c.r)
    && multiset(Entries(s.log)) == multiset(Flatten(Parts(c, s.ts)))
    && (forall w: nat :: w < |s.ts| ==> PcOk(c, s.log, w, s.ts[w]))
    && (forall q: nat :: q < |s.hash| ==> SlotOk(s, q))
    && Alone(s)
  }

  lemma InitHasInv(c: Config, s: State)
    requires Init(c, s)
    ensures Inv(c, s)
  {
    NoEntries(s.log);
    NoParts(c, s);
    forall q: nat | q < |s.hash|
      ensures Reached(s.log, c.r, q) && SlotOk(s, q)
    {
    }
    forall w: nat | w < |s.ts|
      ensures PcOk(c, s.log, w, s.ts[w])
    {
    }
  }

  lemma NoParts(c: Config, s: State)
    requires Init(c, s)
    ensures Flatten(Parts(c, s.ts)) == []
  {
    FlattenNothing(Parts(c, s.ts));
  }

  /** A thread that goes on without a claim takes nothing. */
  lemma PartsSame(c: Config, ts: seq<Pc>, w: nat, pc: Pc)
    requires |ts| == |c.inputs| && w < |ts| && Claimed(pc) == Claimed(ts[w])
    ensures Parts(c, ts[w := pc]) == Parts(c, ts)
  {
  }

  /** A claim takes one tuple. */
  lemma PartsGrow(c: Config, ts: seq<Pc>, w: nat, pc: Pc)
    requires |ts| == |c.inputs| && w < |ts| && Claimed(pc) == Claimed(ts[w]) + 1 <= |c.inputs[w]|
    ensures multiset(Flatten(Parts(c, ts[w := pc]))) == multiset(Flatten(Parts(c, ts))) + multiset{c.inputs[w][Claimed(ts[w])]}
  {
    var x := c.inputs[w][Claimed(ts[w])];
    var parts := Parts(c, ts);
    Snoc(c.inputs[w], Claimed(ts[w]));
    assert Parts(c, ts[w := pc]) == parts[w := parts[w] + [x]];
    FlattenGrows(parts, w, x);
  }

  /** While some tuple is unclaimed, there are fewer claims than tuples. */
  lemma FewClaims(c: Config, s: State, w: nat)
    requires Inv(c, s) && w < |s.ts| && Claimed(s.ts[w]) < |c.inputs[w]|
    ensures |Entries(s.log)| < |Flatten(c.inputs)|
  {
    assert |Entries(s.log)| == |multiset(Entries(s.log))| == |multiset(Flatten(Parts(c, s.ts)))| == |Flatten(Parts(c, s.ts))|;
    FlattenLength(Parts(c, s.ts), c.inputs, w);
  }

  ghost predicate Enough(c: Config) {
    |Flatten(c.inputs)| <= c.r.fanout
  }

  /** An insertion ends within as many probes as the table has slots. */
  lemma ProbesAreFew(c: Config, s: State, w: nat)
    requires Enough(c) && Inv(c, s) && Busy(c, s, w) && !s.ts[w].Store?
    ensures s.ts[w].d < c.r.fanout
  {
    assert PcOk(c, s.log, w, s.ts[w]);
    FewClaims(c, s, w);
    WalkIsShort(s.log, Home(c, w, s.ts[w].i), s.ts[w].d);
  }

  // ----- every step keeps it -----

  /** The thread has seen one more slot in use. */
  lemma WalkOneMore(log: seq<Slot>, home: nat, d: nat)
    requires log != [] && Walked(log, home, d) && log[At(home, d, |log|)].Full?
    ensures Walked(log, home, d + 1)
  {
  }

  lemma ReadKeepsInv(c: Config, s: State, s': State, w: nat)
    requires Inv(c, s) && (Read(c, s, s', w) || Lose(c, s, s', w))
    ensures Inv(c, s')
  {
    var i, d := s.ts[w].i, s.ts[w].d;
    var q := At(Home(c, w, i), d, c.r.fanout);
    assert PcOk(c, s.log, w, s.ts[w]) && SlotOk(s, q);
    if s.hash[q] != 0 {
      WalkOneMore(s.log, Home(c, w, i), d);
    }
    PartsSame(c, s.ts, w, s'.ts[w]);
    OtherPcsOk(c, s, s', w);
    forall q': nat | q' < |s.hash|
      ensures SlotOk(s', q')
    {
      assert SlotOk(s, q');
      PendingSame(s, s', w, q');
    }
    AloneSame(s, s', w);
  }

  lemma OtherPcsOk(c: Config, s: State, s': State, w: nat)
    requires Inv(c, s) && w < |s.ts| == |s'.ts| && s'.log == s.log && s'.ts == s.ts[w := s'.ts[w]]
    requires PcOk(c, s'.log, w, s'.ts[w])
    ensures forall w': nat :: w' < |s'.ts| ==> PcOk(c, s'.log, w', s'.ts[w'])
  {
    forall w': nat | w' < |s'.ts|
      ensures PcOk(c, s'.log, w', s'.ts[w'])
    {
      assert PcOk(c, s.log, w', s.ts[w']);
    }
  }

  lemma PendingSame(s: State, s': State, w: nat, q: nat)
    requires w < |s.ts| == |s'.ts| && s'.ts == s.ts[w := s'.ts[w]] && !s.ts[w].Store?
    ensures (exists v: nat :: v < |s.ts| && Pending(s, v, q)) ==> (exists v: nat :: v < |s'.ts| && Pending(s', v, q))
  {
    if v: nat :| v < |s.ts| && Pending(s, v, q) {
      assert Pending(s', v, q);
    }
  }

  lemma AloneSame(s: State, s': State, w: nat)
    requires Alone(s) && w < |s.ts| == |s'.ts| && s'.ts == s.ts[w := s'.ts[w]] && !s'.ts[w].Store?
    ensures Alone(s')
  {
    forall v: nat, v': nat, q: nat | v < v' < |s'.ts|
      ensures !(Pending(s', v, q) && Pending(s', v', q))
    {
      assert !(Pending(s, v, q) && Pending(s, v', q));
    }
  }

  lemma WalkKept(log: seq<Slot>, home: nat, d: nat, q: nat, x: Tuple)
    requires log != [] && Walked(log, home, d) && q < |log|
    ensures Walked(log[q := Full(x)], home, d)
  {
  }

  lemma ClaimKeepsPc(c: Config, s: State, s': State, w: nat, w': nat)
    requires Inv(c, s) && Claim(c, s, s', w) && w' < |s.ts|
    ensures PcOk(c, s'.log, w', s'.ts[w'])
  {
    var q := At(Home(c, w, s.ts[w].i), s.ts[w].d, c.r.fanout);
    assert PcOk(c, s.log, w', s.ts[w']) && SlotOk(s, q);
    var pc := s.ts[w'];
    if !pc.Store? && pc.i < |c.inputs[w']| {
      WalkKept(s.log, Home(c, w', pc.i), pc.d, q, c.inputs[w][s.ts[w].i]);
    }
  }

  lemma ClaimKeepsInv(c: Config, s: State, s': State, w: nat)
    requires Enough(c) && Inv(c, s) && Claim(c, s, s', w)
    ensures Inv(c, s')
  {
    var i, d := s.ts[w].i, s.ts[w].d;
    var x := c.inputs[w][i];
    var q := At(Home(c, w, i), d, c.r.fanout);
    assert PcOk(c, s.log, w, s.ts[w]) && SlotOk(s, q);
    ProbesAreFew(c, s, w);
    FillKeepsValid(s.log, c.r, x, d);
    EntriesFill(s.log, q, x);
    PartsGrow(c, s.ts, w, s'.ts[w]);
    forall w': nat | w' < |s'.ts|
      ensures PcOk(c, s'.log, w', s'.ts[w'])
    {
      ClaimKeepsPc(c, s, s', w, w');
    }
    ClaimKeepsSlots(c, s, s', w);
    ClaimsAlone(c, s, s', w);
  }

  lemma ClaimKeepsSlots(c: Config, s: State, s': State, w: nat)
    requires Inv(c, s) && Claim(c, s, s', w)
    ensures forall q': nat :: q' < |s'.hash| ==> SlotOk(s', q')
  {
    var q := At(Home(c, w, s.ts[w].i), s.ts[w].d, c.r.fanout);
    assert Pending(s', w, q);
    forall q': nat | q' < |s'.hash|
      ensures SlotOk(s', q')
    {
      assert SlotOk(s, q');
      PendingSame(s, s', w, q');
    }
  }

  /** Nobody else has claimed a free slot. */
  lemma ClaimsAlone(c: Config, s: State, s': State, w: nat)
    requires Inv(c, s) && Claim(c, s, s', w)
    ensures Alone(s')
  {
    var q := At(Home(c, w, s.ts[w].i), s.ts[w].d, c.r.fanout);
    assert SlotOk(s, q);
    forall v: nat, v': nat, q': nat | v < v' < |s'.ts|
      ensures !(Pending(s', v, q') && Pending(s', v', q'))
    {
      assert PcOk(c, s.log, v, s.ts[v]) && PcOk(c, s.log, v', s.ts[v']);
      assert !(Pending(s, v, q') && Pending(s, v', q'));
    }
  }

  lemma PutKeepsInv(c: Config, s: State, s': State, w: nat)
    requires Inv(c, s) && Put(c, s, s', w)
    ensures Inv(c, s')
  {
    assert PcOk(c, s.log, w, s.ts[w]);
    assert s'.ts[w] == Look(s.ts[w].i + 1, 0);
    PartsSame(c, s.ts, w, s'.ts[w]);
    OtherPcsOk(c, s, s', w);
    PutKeepsSlots(c, s, s', w);
    AloneSame(s, s', w);
  }

  lemma PutKeepsSlots(c: Config, s: State, s': State, w: nat)
    requires Inv(c, s) && Put(c, s, s', w)
    ensures forall q': nat :: q' < |s'.hash| ==> SlotOk(s', q')
  {
    assert PcOk(c, s.log, w, s.ts[w]);
    forall q': nat | q' < |s'.hash|
      ensures SlotOk(s', q')
    {
      assert SlotOk(s, q');
      if s'.log[q'].Full? && s'.tup[q'] != s'.log[q'].tuple {
        var v: nat :| v < |s.ts| && Pending(s, v, q');
        assert Pending(s', v, q');
      }
    }
  }

  lemma NextKeepsInv(c: Config, s: State, s': State)
    requires Enough(c) && Inv(c, s) && Next(c, s, s')
    ensures Inv(c, s')
  {
    var w: nat :| Step(c, s, s', w);
    if Claim(c, s, s', w) {
      ClaimKeepsInv(c, s, s', w);
    } else if Put(c, s, s', w) {
      PutKeepsInv(c, s, s', w);
    } else {
      ReadKeepsInv(c, s, s', w);
    }
  }

  // ----- runs -----

  ghost predicate Run(c: Config, tr: seq<State>) {
    IsRun(tr, (s: State) => Init(c, s), (s: State, s': State) => Next(c, s, s'))
  }

  lemma RunHasInv(c: Config, tr: seq<State>, i: nat)
    requires Enough(c) && Run(c, tr) && i < |tr|
    ensures Inv(c, tr[i])
  {
    forall s | Init(c, s)
      ensures Inv(c, s)
    {
      InitHasInv(c, s);
    }
    forall s, s' | Inv(c, s) && Next(c, s, s')
      ensures Inv(c, s')
    {
      NextKeepsInv(c, s, s');
    }
    Invariant(tr, (s: State) => Init(c, s), (s: State, s': State) => Next(c, s, s'), (s: State) => Inv(c, s), i);
  }

  lemma ClaimStays(c: Config, s: State, s': State, q: nat)
    requires Next(c, s, s') && q < |s.hash| && s.hash[q] != 0
    ensures q < |s'.hash| && s'.hash[q] == s.hash[q]
  {
    var w: nat :| Step(c, s, s', w);
  }

  /** Claims are never taken back. */
  lemma {:induction false} ClaimsStay(c: Config, tr: seq<State>, i: nat, j: nat, q: nat)
    requires Run(c, tr) && i <= j < |tr| && q < |tr[i].hash| && tr[i].hash[q] != 0
    ensures q < |tr[j].hash| && tr[j].hash[q] == tr[i].hash[q]
  {
    if i < j {
      ClaimsStay(c, tr, i, j - 1, q);
      StepOf(tr, (s: State) => Init(c, s), (s: State, s': State) => Next(c, s, s'), j);
      ClaimStays(c, tr[j - 1], tr[j], q);
    }
  }

  ghost predicate AllDone(c: Config, s: State) {
    Shape(c, s) && forall w: nat :: w < |s.ts| ==> !Busy(c, s, w)
  }

  lemma CanLook(c: Config, s: State, w: nat)
    requires Busy(c, s, w) && s.ts[w].Look?
    ensures exists s' :: Step(c, s, s', w)
  {
    var Look(i, d) := s.ts[w];
    var pc := if s.hash[At(Home(c, w, i), d, c.r.fanout)] != 0 then Look(i, d + 1) else Cas(i, d);
    assert Step(c, s, s.(ts := s.ts[w := pc]), w);
  }

  lemma CanSwap(c: Config, s: State, w: nat)
    requires Busy(c, s, w) && s.ts[w].Cas?
    ensures exists s' :: Step(c, s, s', w)
  {
    var Cas(i, d) := s.ts[w];
    var q := At(Home(c, w, i), d, c.r.fanout);
    if s.hash[q] == 0 {
      assert Step(c, s, State(s.hash[q := Home(c, w, i) + 1], s.tup, s.log[q := Full(c.inputs[w][i])], s.ts[w := Store(i, q)]), w);
    } else {
      assert Step(c, s, s.(ts := s.ts[w := Look(i, d + 1)]), w);
    }
  }

  lemma CanStore(c: Config, s: State, w: nat)
    requires Busy(c, s, w) && s.ts[w].Store? && s.ts[w].q < |s.tup|
    ensures exists s' :: Step(c, s, s', w)
  {
    var Store(i, q) := s.ts[w];
    assert Step(c, s, s.(tup := s.tup[q := c.inputs[w][i]], ts := s.ts[w := Look(i + 1, 0)]), w);
  }

  /** No thread ever waits: one with tuples left can take a step, whatever the others do, and it
      probes each slot at most once for a tuple. */
  lemma NeverStuck(c: Config, tr: seq<State>, i: nat, w: nat)
    requires Enough(c) && Run(c, tr) && i < |tr| && Busy(c, tr[i], w)
    ensures exists s' :: Step(c, tr[i], s', w)
    ensures !tr[i].ts[w].Store? ==> tr[i].ts[w].d < c.r.fanout
  {
    RunHasInv(c, tr, i);
    assert PcOk(c, tr[i].log, w, tr[i].ts[w]);
    if tr[i].ts[w].Store? {
      CanStore(c, tr[i], w);
    } else {
      ProbesAreFew(c, tr[i], w);
      if tr[i].ts[w].Look? {
        CanLook(c, tr[i], w);
      } else {
        CanSwap(c, tr[i], w);
      }
    }
  }

  /** The table as the lookups see it. */
  function TableOf(hash: seq<nat>, tup: seq<Tuple>): (table: seq<Slot>)
    requires |hash| == |tup|
    ensures |table| == |hash|
  {
    seq(|hash|, (q: nat) requires q < |hash| => if hash[q] != 0 then Full(tup[q]) else Empty)
  }

  lemma DoneThreads(c: Config, s: State)
    requires Inv(c, s) && AllDone(c, s)
    ensures forall w: nat :: w < |s.ts| ==> s.ts[w].Look? && s.ts[w].i == |c.inputs[w]|
    ensures Parts(c, s.ts) == c.inputs
  {
    forall w: nat | w < |s.ts|
      ensures s.ts[w].Look? && s.ts[w].i == |c.inputs[w]|
    {
      assert PcOk(c, s.log, w, s.ts[w]) && !Busy(c, s, w);
    }
    assert forall w: nat :: w < |s.ts| ==> Parts(c, s.ts)[w] == c.inputs[w];
  }

  lemma DoneTable(c: Config, s: State)
    requires Inv(c, s) && AllDone(c, s)
    ensures TableOf(s.hash, s.tup) == s.log
  {
    DoneThreads(c, s);
    forall q: nat | q < |s.hash|
      ensures TableOf(s.hash, s.tup)[q] == s.log[q]
    {
      assert SlotOk(s, q);
    }
  }

  /** The finished table holds exactly these tuples, each reachable from its home slot. */
  ghost predicate Holds(hash: seq<nat>, tup: seq<Tuple>, r: Radix, rel: seq<Tuple>) {
    && |hash| == |tup|
    && Valid(TableOf(hash, tup), r)
    && multiset(Entries(TableOf(hash, tup))) == multiset(rel)
  }

  /** Whatever the schedule, the finished table holds exactly the tuples of all threads. */
  lemma BuildIsRight(c: Config, tr: seq<State>)
    requires Enough(c) && Run(c, tr) && AllDone(c, tr[|tr| - 1])
    ensures Holds(tr[|tr| - 1].hash, tr[|tr| - 1].tup, c.r, Flatten(c.inputs))
  {
    var s := tr[|tr| - 1];
    RunHasInv(c, tr, |tr| - 1);
    DoneThreads(c, s);
    DoneTable(c, s);
  }

  // ----- probing the finished table -----

  /** `lp_lookup_with_pos`, the form that also stops after one round. */
  method LookupSelective(hash: array<nat>, tup: array<Tuple>, first: nat, key: nat) returns (pos: nat, found: bool)
    requires first < hash.Length == tup.Length
    ensures pos < tup.Length
    ensures (if found then Full(tup[pos]) else Empty) == Outcome(TableOf(hash[..], tup[..]), first, key)
  {
    ghost var table := TableOf(hash[..], tup[..]);
    var flag := true;
    pos := first;
    ghost var d: nat := 0;
    while hash[pos] != 0 && tup[pos].key != key && (pos != first || flag)
      invariant d <= |table| && pos == At(first, d, |table|) && flag == (d == 0)
      invariant FirstStop(table, first, key, d) == FirstStop(table, first, key, 0)
      decreases |table| - d
    {
      AtHome(first, |table|);
      AtNext(first, d, |table|);
      flag := false;
      pos := Off(pos + 1, hash.Length);
      d := d + 1;
    }
    found := hash[pos] != 0 && (pos != first || flag);
    AtHome(first, |table|);
    if d < |table| {
      AtApart(first, d, |table|);
    }
  }

  /** `lp_lookup_with_pos`, the plain form. */
  method LookupPlain(hash: array<nat>, tup: array<Tuple>, first: nat, key: nat) returns (pos: nat, found: bool)
    requires first < hash.Length == tup.Length && Stops(TableOf(hash[..], tup[..]), key)
    ensures pos < tup.Length
    ensures (if found then Full(tup[pos]) else Empty) == Outcome(TableOf(hash[..], tup[..]), first, key)
  {
    ghost var table := TableOf(hash[..], tup[..]);
    pos := first;
    ghost var d: nat := 0;
    StopsWithinRound(table, first, key);
    while hash[pos] != 0 && tup[pos].key != key
      invariant d <= |table| && pos == At(first, d, |table|)
      invariant FirstStop(table, first, key, d) == FirstStop(table, first, key, 0)
      decreases |table| - d
    {
      AtNext(first, d, |table|);
      pos := Off(pos + 1, hash.Length);
      d := d + 1;
    }
    found := hash[pos] != 0;
  }

  /** The result of a lookup is read whether or not it is null, so it must never be: that is so
      exactly when every probe key occurs on the build side. */
  lemma ReadsAreSafe(hash: seq<nat>, tup: seq<Tuple>, r: Radix, rel: seq<Tuple>, S: seq<Tuple>)
    requires Holds(hash, tup, r, rel)
    ensures (forall s :: s in S ==> Outcome(TableOf(hash, tup), Hash(r, s.key), s.key).Full?) <==> EveryKeyOccurs(rel, S)
  {
    forall s | s in S
      ensures Outcome(TableOf(hash, tup), Hash(r, s.key), s.key).Full? <==> exists x :: x in rel && x.key == s.key
    {
      LookupIsRight(TableOf(hash, tup), r, rel, s.key);
    }
  }

  method ProbeTuple(hash: array<nat>, tup: array<Tuple>, r: Radix, s: Tuple, selective: bool, acc0: Totals, ghost S: seq<Tuple>)
    returns (acc: Totals)
    requires hash.Length == tup.Length == r.fanout
    requires Outcome(TableOf(hash[..], tup[..]), Hash(r, s.key), s.key).Full? && Stops(TableOf(hash[..], tup[..]), s.key)
    requires acc0 == LookupTotals(TableOf(hash[..], tup[..]), r, S)
    ensures acc == LookupTotals(TableOf(hash[..], tup[..]), r, S + [s])
  {
    ghost var table := TableOf(hash[..], tup[..]);
    var first := Hash(r, s.key);
    var pos: nat, found: bool;
    if selective {
      pos, found := LookupSelective(hash, tup, first, s.key);
    } else {
      pos, found := LookupPlain(hash, tup, first, s.key);
    }
    OutcomeKey(table, first, s.key);
    AddOneLookup(acc0, table, r, S, s, found, tup[pos].rowId);
    acc := AddLookup(acc0, found, tup[pos].rowId, s);
  }

  ghost predicate AllFound(table: seq<Slot>, r: Radix, S: seq<Tuple>) {
    |table| == r.fanout && forall s :: s in S ==> Outcome(table, Hash(r, s.key), s.key).Full? && Stops(table, s.key)
  }

  lemma KeysAreFound(hash: seq<nat>, tup: seq<Tuple>, r: Radix, rel: seq<Tuple>, S: seq<Tuple>)
    requires Holds(hash, tup, r, rel) && EveryKeyOccurs(rel, S)
    ensures AllFound(TableOf(hash, tup), r, S)
  {
    ReadsAreSafe(hash, tup, r, rel, S);
    forall s | s in S
      ensures Stops(TableOf(hash, tup), s.key)
    {
      var x :| x in rel && x.key == s.key;
      PresentKeyStops(TableOf(hash, tup), rel, x);
    }
  }

  method ProbeAll(hash: array<nat>, tup: array<Tuple>, r: Radix, S: seq<Tuple>, selective: bool) returns (acc: Totals)
    requires hash.Length == tup.Length && AllFound(TableOf(hash[..], tup[..]), r, S)
    ensures acc == LookupTotals(TableOf(hash[..], tup[..]), r, S)
  {
    ghost var table := TableOf(hash[..], tup[..]);
    acc := ZERO;
    for idx := 0 to |S|
      invariant acc == LookupTotals(table, r, S[..idx])
    {
      Snoc(S, idx);
      assert S[idx] in S;
      acc := ProbeTuple(hash, tup, r, S[idx], selective, acc, S[..idx]);
    }
    assert S[..|S|] == S;
  }

  /** `probe_hashtable_nphj_lp` on a finished table.  In one that was filled in the order of `rel`, each
      probe tuple is joined with the first tuple that has its key. */
  method ProbeHashtable(hash: array<nat>, tup: array<Tuple>, r: Radix, S: seq<Tuple>, selective: bool, ghost rel: seq<Tuple>)
    returns (acc: Totals)
    requires hash.Length == tup.Length && Holds(hash[..], tup[..], r, rel) && EveryKeyOccurs(rel, S)
    ensures AtMostOne(rel, S) ==> IsJoin(acc, rel, S)
    ensures NestedLoop(Matched, rel, S) < WORD && IsJoin(acc, rel, S) ==> AtMostOne(rel, S)
    ensures acc.matched == Word(|S|)
    ensures InOrder(TableOf(hash[..], tup[..]), r, rel) ==> acc.checksum == Word(HitIds(rel, S))
  {
    KeysAreFound(hash[..], tup[..], r, rel, S);
    acc := ProbeAll(hash, tup, r, S, selective);
    LookupTotalsAreTheJoin(TableOf(hash[..], tup[..]), r, rel, S);
    LookupsCountHits(TableOf(hash[..], tup[..]), r, rel, S);
    AllAreHits(rel, S);
    if InOrder(TableOf(hash[..], tup[..]), r, rel) {
      LookupsAddFirst(TableOf(hash[..], tup[..]), r, rel, S);
    }
  }

  // ----- every run ends -----

  /** How far an insertion is: every slot that it comes to costs it at most a read and a swap. */
  function Used(n: nat, pc: Pc): nat {
    match pc
    case Look(_, d) => 2 * d
    case Cas(_, d) => 2 * d + 1
    case Store(_, _) => 2 * n + 1
  }

  /** The steps that a thread can still make, at most. */
  function Left(n: nat, len: nat, pc: Pc): nat {
    if pc.i >= len then 0
    else Times(len - pc.i - 1, 2 * n + 2) + (if Used(n, pc) <= 2 * n + 2 then 2 * n + 2 - Used(n, pc) else 0)
  }

  function LeftOf(c: Config, ts: seq<Pc>): nat -> nat {
    (w: nat) => if w < |ts| && w < |c.inputs| then Left(c.r.fanout, |c.inputs[w]|, ts[w]) else 0
  }

  lemma StepUsesOneUp(c: Config, s: State, s': State, w: nat)
    requires Enough(c) && Inv(c, s) && Step(c, s, s', w)
    ensures |s'.ts| == |s.ts| && s'.ts == s.ts[w := s'.ts[w]]
    ensures Left(c.r.fanout, |c.inputs[w]|, s'.ts[w]) < Left(c.r.fanout, |c.inputs[w]|, s.ts[w])
  {
    if !s.ts[w].Store? {
      ProbesAreFew(c, s, w);
    }
  }

  lemma NextUsesOneUp(c: Config, s: State, s': State)
    requires Enough(c) && Inv(c, s) && Next(c, s, s')
    ensures SumTo(LeftOf(c, s'.ts), |c.inputs|) < SumTo(LeftOf(c, s.ts), |c.inputs|)
  {
    var w: nat :| Step(c, s, s', w);
    StepUsesOneUp(c, s, s', w);
    SumToDrops(LeftOf(c, s.ts), LeftOf(c, s'.ts), w, |c.inputs|);
  }

  /** At most two steps for every slot of the table, and two more, for every tuple of a thread. */
  function Budget(c: Config): nat -> nat {
    (w: nat) => if w < |c.inputs| then Times(|c.inputs[w]|, 2 * c.r.fanout + 2) else 0
  }

  lemma StartWithinBudget(c: Config, s: State)
    requires Init(c, s)
    ensures SumTo(LeftOf(c, s.ts), |c.inputs|) == SumTo(Budget(c), |c.inputs|)
  {
    SumToSame(LeftOf(c, s.ts), Budget(c), |c.inputs|);
  }

  /** No run of the build is longer than the table and the relation allow: every insertion comes to its
      end, whatever the others do. */
  lemma RunsEnd(c: Config, tr: seq<State>)
    requires Enough(c) && Run(c, tr)
    ensures |tr| - 1 <= SumTo(Budget(c), |c.inputs|)
  {
    forall s | Init(c, s)
      ensures Inv(c, s)
    {
      InitHasInv(c, s);
    }
    forall s, s' | Inv(c, s) && Next(c, s, s')
      ensures Inv(c, s') && SumTo(LeftOf(c, s'.ts), |c.inputs|) < SumTo(LeftOf(c, s.ts), |c.inputs|)
    {
      NextKeepsInv(c, s, s');
      NextUsesOneUp(c, s, s');
    }
    Bounded(tr, (s: State) => Init(c, s), (s: State, s': State) => Next(c, s, s'), (s: State) => Inv(c, s),
            (s: State) => SumTo(LeftOf(c, s.ts), |c.inputs|), |tr| - 1);
    StartWithinBudget(c, tr[0]);
  }
}
