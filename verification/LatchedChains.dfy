/** The latched build of bucket chains, under every interleaving of its threads.  A thread reserves a
    position under the latch of the home bucket, and stores its tuple after releasing the latch. */
module LatchedChains {
  import opened Bits
  import opened Relations
  import opened Runs
  import opened Chains
  import opened SeparateChaining

  datatype Config = Config(r: Radix, cap: nat, inputs: seq<seq<Tuple>>)

  datatype Pc =
    | Lock(i: nat)                         // spinning on the latch of the home bucket of tuple i
    | Read(i: nat)                         // holds the latch, about to read the overflow pointer
    | Update(i: nat, nxt: Link)            // holds the latch, about to reserve a position
    | Unlock(i: nat, b: nat, pos: nat)     // position `pos` of bucket `b` is reserved
    | Store(i: nat, b: nat, pos: nat)      // the latch is released, the tuple not yet stored

  /** `bs` is the memory.  `log`, `chains` and `used` are history variables: the buckets as if a
      reservation stored its tuple at once, the bucket numbers of every chain, and how many buckets
      have been handed out; a new bucket is one that nobody had before. */
  datatype State = State(bs: seq<Bucket>, latch: seq<bool>, ts: seq<Pc>,
                         log: seq<Bucket>, chains: seq<seq<nat>>, used: nat)

  ghost predicate Shape(c: Config, s: State) {
    && |s.latch| == |s.chains| == c.r.fanout <= s.used <= |s.bs| == |s.log|
    && |s.ts| == |c.inputs|
  }

  ghost predicate Busy(c: Config, s: State, w: nat) {
    Shape(c, s) && w < |s.ts| && s.ts[w].i < |c.inputs[w]|
  }

  function Home(c: Config, w: nat, i: nat): (h: nat)
    requires w < |c.inputs|
    ensures h < c.r.fanout
  {
    if i < |c.inputs[w]| then Hash(c.r, c.inputs[w][i].key) else 0
  }

  // ----- a reservation -----

  /** The bucket and the position in it that a reservation takes. */
  function Position(bs: seq<Bucket>, cap: nat, h: nat, used: nat, nxt: Link): (nat, nat)
    requires h < |bs|
  {
    if bs[h].count != cap then (h, bs[h].count)
    else if nxt.To? && nxt.id < |bs| && bs[nxt.id].count != cap then (nxt.id, bs[nxt.id].count)
    else (used, 0)
  }

  /** The counters and pointers that a reservation writes, with the overflow pointer read before. */
  function Reserve(bs: seq<Bucket>, cap: nat, h: nat, used: nat, nxt: Link): (bs': seq<Bucket>)
    requires h < |bs| && used < |bs|
    ensures |bs'| == |bs|
  {
    if bs[h].count != cap then bs[h := bs[h].(count := bs[h].count + 1)]
    else if nxt.To? && nxt.id < |bs| && bs[nxt.id].count != cap then bs[nxt.id := bs[nxt.id].(count := bs[nxt.id].count + 1)]
    else bs[h := bs[h].(next := To(used))][used := Bucket(1, nxt, bs[used].tuples)]
  }

  // ----- steps -----

  ghost predicate Init(c: Config, s: State) {
    && Shape(c, s) && 0 < c.cap
    && s.used == c.r.fanout
    && (forall h: nat :: h < c.r.fanout ==> !s.latch[h] && s.chains[h] == [h] && s.bs[h].count == 0 && s.bs[h].next == Null)
    && (forall b: nat :: b < |s.bs| ==> |s.bs[b].tuples| == c.cap && s.log[b] == s.bs[b])
    && (forall w: nat :: w < |s.ts| ==> s.ts[w] == Lock(0))
  }

  /** `tas` returns 0. */
  ghost predicate Take(c: Config, s: State, s': State, w: nat) {
    && Busy(c, s, w) && s.ts[w].Lock?
    && var h := Home(c, w, s.ts[w].i);
       && !s.latch[h]
       && s' == s.(latch := s.latch[h := true], ts := s.ts[w := Read(s.ts[w].i)])
  }

  ghost predicate ReadNext(c: Config, s: State, s': State, w: nat) {
    && Busy(c, s, w) && s.ts[w].Read?
    && s' == s.(ts := s.ts[w := Update(s.ts[w].i, s.bs[Home(c, w, s.ts[w].i)].next)])
  }

  ghost predicate Claim(c: Config, s: State, s': State, w: nat) {
    && Busy(c, s, w) && s.ts[w].Update? && s.used < |s.bs|
    && var Update(i, nxt) := s.ts[w];
       var h := Home(c, w, i);
       var at := Position(s.bs, c.cap, h, s.used, nxt);
       s' == State(Reserve(s.bs, c.cap, h, s.used, nxt), s.latch, s.ts[w := Unlock(i, at.0, at.1)],
                   Insert(s.log, c.cap, h, s.used, c.inputs[w][i]),
                   GrownChains(s.log, c.cap, s.chains, s.used, h),
                   s.used + Chains.Taken(s.log, c.cap, h))
  }

  ghost predicate Release(c: Config, s: State, s': State, w: nat) {
    && Busy(c, s, w) && s.ts[w].Unlock?
    && var Unlock(i, b, pos) := s.ts[w];
       s' == s.(latch := s.latch[Home(c, w, i) := false], ts := s.ts[w := Store(i, b, pos)])
  }

  ghost predicate Put(c: Config, s: State, s': State, w: nat) {
    && Busy(c, s, w) && s.ts[w].Store?
    && var Store(i, b, pos) := s.ts[w];
       && b < |s.bs| && pos < |s.bs[b].tuples|
       && s' == s.(bs := s.bs[b := s.bs[b].(tuples := s.bs[b].tuples[pos := c.inputs[w][i]])], ts := s.ts[w := Lock(i + 1)])
  }

  ghost predicate Step(c: Config, s: State, s': State, w: nat) {
    Take(c, s, s', w) || ReadNext(c, s, s', w) || Claim(c, s, s', w) || Release(c, s, s', w) || Put(c, s, s', w)
  }

  ghost predicate Next(c: Config, s: State, s': State) {
    exists w: nat :: Step(c, s, s', w)
  }

  // ----- the invariant -----

  predicate Inside(pc: Pc) { pc.Read? || pc.Update? || pc.Unlock? }

  predicate Reserved(pc: Pc) { pc.Unlock? || pc.Store? }

  function Claimed(pc: Pc): nat { if Reserved(pc) then pc.i + 1 else pc.i }

  function TakenBy(input: seq<Tuple>, pc: Pc): seq<Tuple> {
    var k := Claimed(pc);
    if k <= |input| then input[..k] else input
  }

  ghost function Parts(c: Config, ts: seq<Pc>): seq<seq<Tuple>>
    requires |ts| == |c.inputs|
  {
    seq(|ts|, (w: nat) requires w < |ts| => TakenBy(c.inputs[w], ts[w]))
  }

  ghost predicate Holder(c: Config, s: State, w: nat, h: nat)
    requires w < |s.ts| == |c.inputs|
  {
    Inside(s.ts[w]) && Home(c, w, s.ts[w].i) == h
  }

  ghost predicate Exclusive(c: Config, s: State)
    requires Shape(c, s)
  {
    forall w: nat, w': nat, h: nat {:trigger Holder(c, s, w, h), Holder(c, s, w', h)} ::
      w < w' < |s.ts| ==> !(Holder(c, s, w, h) && Holder(c, s, w', h))
  }

  /** Thread `w` has reserved this position and not stored its tuple. */
  ghost predicate Pending(s: State, w: nat, b: nat, pos: nat)
    requires w < |s.ts|
  {
    Reserved(s.ts[w]) && s.ts[w].b == b && s.ts[w].pos == pos
  }

  /** No position is reserved by two threads. */
  ghost predicate Alone(s: State) {
    forall w: nat, w': nat, b: nat, pos: nat {:trigger Pending(s, w, b, pos), Pending(s, w', b, pos)} ::
      w < w' < |s.ts| ==> !(Pending(s, w, b, pos) && Pending(s, w', b, pos))
  }

  ghost predicate ThreadOk(c: Config, s: State, w: nat)
    requires Shape(c, s) && w < |s.ts|
  {
    var pc := s.ts[w];
    && pc.i <= |c.inputs[w]|
    && (!pc.Lock? ==> pc.i < |c.inputs[w]|)
    && (Inside(pc) ==> s.latch[Home(c, w, pc.i)])
    && (pc.Update? ==> pc.nxt == s.bs[Home(c, w, pc.i)].next)
    && (Reserved(pc) ==> Holds(s.log, s.used, pc.b, pc.pos, c.inputs[w][pc.i]))
  }

  ghost predicate Holds(log: seq<Bucket>, used: nat, b: nat, pos: nat, x: Tuple) {
    b < used <= |log| && pos < log[b].count <= |log[b].tuples| && log[b].tuples[pos] == x
  }

  ghost predicate BucketSame(c: Config, bs: seq<Bucket>, log: seq<Bucket>, used: nat, b: nat)
    requires b < |bs| == |log|
  {
    && |bs[b].tuples| == |log[b].tuples| == c.cap
    && (b < used ==> bs[b].count == log[b].count <= c.cap && bs[b].next == log[b].next)
  }

  ghost predicate AllSame(c: Config, bs: seq<Bucket>, log: seq<Bucket>, used: nat) {
    && |bs| == |log|
    && forall b: nat {:trigger BucketSame(c, bs, log, used, b)} :: b < |bs| ==> BucketSame(c, bs, log, used, b)
  }

  /** A reserved position holds its tuple, or a thread is about to store it. */
  ghost predicate SlotOk(s: State, b: nat, pos: nat)
    requires b < |s.bs| == |s.log|
  {
    pos < s.log[b].count && pos < |s.bs[b].tuples| == |s.log[b].tuples| && s.bs[b].tuples[pos] != s.log[b].tuples[pos] ==>
      exists w: nat :: w < |s.ts| && Pending(s, w, b, pos)
  }

  ghost predicate Inv(c: Config, s: State) {
    && Shape(c, s) && 0 < c.cap
    && Table(s.log, c.cap, s.chains, s.used)
    && AllHold(s.log, c.cap, s.chains, Flatten(Parts(c, s.ts)), c.r)
    && AllSame(c, s.bs, s.log, s.used)
    && (forall b: nat, pos: nat :: b < s.used ==> SlotOk(s, b, pos))
    && (forall w: nat :: w < |s.ts| ==> ThreadOk(c, s, w))
    && Exclusive(c, s)
    && Alone(s)
  }

  // ----- a reservation is an insertion whose tuple is still to be stored -----

  lemma HomeFacts(log: seq<Bucket>, cap: nat, chains: seq<seq<nat>>, used: nat, h: nat)
    requires Table(log, cap, chains, used) && h < |chains|
    ensures h < used && |log[h].tuples| == cap && log[h].count <= cap
    ensures log[h].next.To? ==>
      var id := log[h].next.id;
      id < used && id != h && |log[id].tuples| == cap && log[id].count <= cap
  {
    var chain := chains[h];
    assert ChainFits(log, cap, chain, h, used);
    assert LinkOk(log, cap, chain, 0) && chain[0] in chain;
    if |chain| > 1 {
      assert LinkOk(log, cap, chain, 1) && chain[1] in chain;
    }
  }

  ghost predicate Ready(c: Config, bs: seq<Bucket>, log: seq<Bucket>, chains: seq<seq<nat>>, used: nat, h: nat) {
    && Table(log, c.cap, chains, used) && AllSame(c, bs, log, used)
    && h < |chains| && used < |bs|
  }

  lemma ReserveChooses(c: Config, bs: seq<Bucket>, log: seq<Bucket>, chains: seq<seq<nat>>, used: nat, h: nat)
    requires Ready(c, bs, log, chains, used, h)
    ensures bs[h].next == log[h].next
    ensures var at := Position(bs, c.cap, h, used, bs[h].next);
      match Choose(log, c.cap, h)
      case InHome => at == (h, log[h].count) && log[h].count < c.cap && bs[h].count == log[h].count
      case InNext(id) => id < used && at == (id, log[id].count) && log[id].count < c.cap && bs[h].count == c.cap && bs[id].count == log[id].count
      case InFresh => at == (used, 0) && bs[h].count == c.cap && (bs[h].next.To? ==> bs[h].next.id < used && bs[bs[h].next.id].count == c.cap)
  {
    HomeFacts(log, c.cap, chains, used, h);
    assert BucketSame(c, bs, log, used, h);
    if log[h].next.To? {
      assert BucketSame(c, bs, log, used, log[h].next.id);
    }
  }

  lemma ReserveKeepsSame(c: Config, bs: seq<Bucket>, log: seq<Bucket>, chains: seq<seq<nat>>, used: nat, h: nat, x: Tuple)
    requires Ready(c, bs, log, chains, used, h)
    ensures AllSame(c, Reserve(bs, c.cap, h, used, bs[h].next), Insert(log, c.cap, h, used, x), used + Chains.Taken(log, c.cap, h))
  {
    HomeFacts(log, c.cap, chains, used, h);
    ReserveChooses(c, bs, log, chains, used, h);
    var bs', log', used' := Reserve(bs, c.cap, h, used, bs[h].next), Insert(log, c.cap, h, used, x), used + Chains.Taken(log, c.cap, h);
    assert BucketSame(c, bs, log, used, h) && BucketSame(c, bs, log, used, used);
    forall b: nat | b < |bs'|
      ensures BucketSame(c, bs', log', used', b)
    {
      assert BucketSame(c, bs, log, used, b);
    }
  }

  lemma ReserveHolds(c: Config, bs: seq<Bucket>, log: seq<Bucket>, chains: seq<seq<nat>>, used: nat, h: nat, x: Tuple)
    requires Ready(c, bs, log, chains, used, h)
    ensures var at := Position(bs, c.cap, h, used, bs[h].next);
      && Holds(Insert(log, c.cap, h, used, x), used + Chains.Taken(log, c.cap, h), at.0, at.1, x)
      && at.0 <= used && (at.0 < used ==> at.1 == log[at.0].count)
  {
    HomeFacts(log, c.cap, chains, used, h);
    ReserveChooses(c, bs, log, chains, used, h);
    assert BucketSame(c, bs, log, used, used);
  }

  /** No other position changes. */
  lemma ReserveElsewhere(c: Config, bs: seq<Bucket>, log: seq<Bucket>, chains: seq<seq<nat>>, used: nat, h: nat, x: Tuple, b: nat, pos: nat)
    requires Ready(c, bs, log, chains, used, h)
    requires var log' := Insert(log, c.cap, h, used, x);
      b < used + Chains.Taken(log, c.cap, h) && pos < log'[b].count && (b, pos) != Position(bs, c.cap, h, used, bs[h].next)
    ensures var bs', log' := Reserve(bs, c.cap, h, used, bs[h].next), Insert(log, c.cap, h, used, x);
      && b < used && pos < log[b].count && |log'[b].tuples| == |log[b].tuples| && bs'[b].tuples == bs[b].tuples
      && (pos < |log[b].tuples| ==> log'[b].tuples[pos] == log[b].tuples[pos])
  {
    HomeFacts(log, c.cap, chains, used, h);
    ReserveChooses(c, bs, log, chains, used, h);
    assert BucketSame(c, bs, log, used, used);
  }

  lemma HoldsElsewhere(c: Config, bs: seq<Bucket>, log: seq<Bucket>, chains: seq<seq<nat>>, used: nat, h: nat, x: Tuple, b: nat, pos: nat, y: Tuple)
    requires Ready(c, bs, log, chains, used, h) && Holds(log, used, b, pos, y)
    ensures Holds(Insert(log, c.cap, h, used, x), used + Chains.Taken(log, c.cap, h), b, pos, y)
    ensures (b, pos) != Position(bs, c.cap, h, used, bs[h].next)
  {
    HomeFacts(log, c.cap, chains, used, h);
    ReserveChooses(c, bs, log, chains, used, h);
  }

  /** Another home bucket keeps its overflow pointer. */
  lemma NextElsewhere(c: Config, bs: seq<Bucket>, log: seq<Bucket>, chains: seq<seq<nat>>, used: nat, h: nat, g: nat)
    requires Ready(c, bs, log, chains, used, h) && g < |chains| && g != h
    ensures Reserve(bs, c.cap, h, used, bs[h].next)[g].next == bs[g].next
  {
    ReserveChooses(c, bs, log, chains, used, h);
  }

  // ----- every step keeps the invariant -----

  lemma ClaimReady(c: Config, s: State, s': State, w: nat)
    requires Inv(c, s) && Claim(c, s, s', w)
    ensures var h := Home(c, w, s.ts[w].i);
      && Ready(c, s.bs, s.log, s.chains, s.used, h)
      && s.ts[w].nxt == s.bs[h].next
  {
    assert ThreadOk(c, s, w);
  }

  lemma StepKeepsExclusive(c: Config, s: State, s': State, w: nat)
    requires Inv(c, s) && Step(c, s, s', w)
    ensures Shape(c, s') && Exclusive(c, s')
  {
    forall v: nat, v': nat, h: nat | v < v' < |s'.ts|
      ensures !(Holder(c, s', v, h) && Holder(c, s', v', h))
    {
      assert ThreadOk(c, s, v) && ThreadOk(c, s, v');
      assert !(Holder(c, s, v, h) && Holder(c, s, v', h));
    }
  }

  lemma HoldersDiffer(c: Config, s: State, w: nat, w': nat)
    requires Inv(c, s) && w < |s.ts| && w' < |s.ts| && w != w' && Inside(s.ts[w]) && Inside(s.ts[w'])
    ensures Home(c, w, s.ts[w].i) != Home(c, w', s.ts[w'].i)
  {
    var h := Home(c, w, s.ts[w].i);
    if w < w' {
      assert !(Holder(c, s, w, h) && Holder(c, s, w', h));
    } else {
      assert !(Holder(c, s, w', h) && Holder(c, s, w, h));
    }
  }

  lemma ClaimKeepsThread(c: Config, s: State, s': State, w: nat, w': nat)
    requires Inv(c, s) && Claim(c, s, s', w) && w' < |s.ts| && Shape(c, s')
    ensures ThreadOk(c, s', w')
  {
    var h, x := Home(c, w, s.ts[w].i), c.inputs[w][s.ts[w].i];
    assert ThreadOk(c, s, w) && ThreadOk(c, s, w');
    ClaimReady(c, s, s', w);
    if w' == w {
      ReserveHolds(c, s.bs, s.log, s.chains, s.used, h, x);
    } else {
      var pc := s.ts[w'];
      if Reserved(pc) {
        HoldsElsewhere(c, s.bs, s.log, s.chains, s.used, h, x, pc.b, pc.pos, c.inputs[w'][pc.i]);
      }
      if pc.Update? {
        HoldersDiffer(c, s, w, w');
        NextElsewhere(c, s.bs, s.log, s.chains, s.used, h, Home(c, w', pc.i));
      }
    }
  }

  lemma StepKeepsThread(c: Config, s: State, s': State, w: nat, w': nat)
    requires Inv(c, s) && Step(c, s, s', w) && w' < |s.ts| && Shape(c, s')
    ensures ThreadOk(c, s', w')
  {
    if Claim(c, s, s', w) {
      ClaimKeepsThread(c, s, s', w, w');
    } else {
      assert ThreadOk(c, s, w) && ThreadOk(c, s, w');
      if w != w' && Inside(s.ts[w]) && Inside(s.ts[w']) {
        HoldersDiffer(c, s, w, w');
      }
    }
  }

  lemma StepKeepsAlone(c: Config, s: State, s': State, w: nat)
    requires Inv(c, s) && Step(c, s, s', w)
    ensures Alone(s')
  {
    forall v: nat, v': nat, b: nat, pos: nat | v < v' < |s'.ts|
      ensures !(Pending(s', v, b, pos) && Pending(s', v', b, pos))
    {
      assert !(Pending(s, v, b, pos) && Pending(s, v', b, pos));
      if Claim(c, s, s', w) {
        ClaimIsNew(c, s, s', w, if v == w then v' else v);
      }
    }
  }

  /** The position just reserved is not reserved by another thread. */
  lemma ClaimIsNew(c: Config, s: State, s': State, w: nat, v: nat)
    requires Inv(c, s) && Claim(c, s, s', w) && v < |s.ts|
    ensures v != w && Reserved(s.ts[v]) ==>
      (s.ts[v].b, s.ts[v].pos) != Position(s.bs, c.cap, Home(c, w, s.ts[w].i), s.used, s.ts[w].nxt)
  {
    if v != w && Reserved(s.ts[v]) {
      var h, x := Home(c, w, s.ts[w].i), c.inputs[w][s.ts[w].i];
      ClaimReady(c, s, s', w);
      assert ThreadOk(c, s, v);
      HoldsElsewhere(c, s.bs, s.log, s.chains, s.used, h, x, s.ts[v].b, s.ts[v].pos, c.inputs[v][s.ts[v].i]);
    }
  }

  lemma ClaimKeepsSlot(c: Config, s: State, s': State, w: nat, b: nat, pos: nat)
    requires Inv(c, s) && Claim(c, s, s', w) && b < s'.used && Shape(c, s')
    ensures SlotOk(s', b, pos)
  {
    var h, x := Home(c, w, s.ts[w].i), c.inputs[w][s.ts[w].i];
    ClaimReady(c, s, s', w);
    var at := Position(s.bs, c.cap, h, s.used, s.ts[w].nxt);
    if (b, pos) == at {
      assert Pending(s', w, b, pos);
    } else if pos < s'.log[b].count {
      ReserveElsewhere(c, s.bs, s.log, s.chains, s.used, h, x, b, pos);
      assert SlotOk(s, b, pos);
      if v: nat :| v < |s.ts| && Pending(s, v, b, pos) {
        assert Pending(s', v, b, pos);
      }
    }
  }

  lemma StepKeepsSlot(c: Config, s: State, s': State, w: nat, b: nat, pos: nat)
    requires Inv(c, s) && Step(c, s, s', w) && b < s'.used && Shape(c, s')
    ensures SlotOk(s', b, pos)
  {
    if Claim(c, s, s', w) {
      ClaimKeepsSlot(c, s, s', w, b, pos);
    } else {
      assert SlotOk(s, b, pos) && ThreadOk(c, s, w);
      if v: nat :| v < |s.ts| && Pending(s, v, b, pos) {
        if v != w || Reserved(s'.ts[w]) {
          assert Pending(s', v, b, pos);
        }
      }
    }
  }

  lemma PartsSame(c: Config, ts: seq<Pc>, w: nat, pc: Pc)
    requires |ts| == |c.inputs| && w < |ts| && Claimed(pc) == Claimed(ts[w])
    ensures Parts(c, ts[w := pc]) == Parts(c, ts)
  {
  }

  lemma PartsGrow(c: Config, ts: seq<Pc>, w: nat, pc: Pc)
    requires |ts| == |c.inputs| && w < |ts| && Claimed(pc) == Claimed(ts[w]) + 1 <= |c.inputs[w]|
    ensures multiset(Flatten(Parts(c, ts[w := pc]))) == multiset(Flatten(Parts(c, ts)) + [c.inputs[w][Claimed(ts[w])]])
  {
    var x := c.inputs[w][Claimed(ts[w])];
    var parts := Parts(c, ts);
    Snoc(c.inputs[w], Claimed(ts[w]));
    assert Parts(c, ts[w := pc]) == parts[w := parts[w] + [x]];
    FlattenGrows(parts, w, x);
  }

  /** What chains hold does not depend on the order of insertion. */
  lemma HoldPermuted(bs: seq<Bucket>, cap: nat, chains: seq<seq<nat>>, a: seq<Tuple>, b: seq<Tuple>, r: Radix)
    requires AllHold(bs, cap, chains, a, r) && multiset(a) == multiset(b)
    ensures AllHold(bs, cap, chains, b, r)
  {
    forall h: nat | h < r.fanout
      ensures ChainHolds(bs, cap, chains[h], b, r, h)
    {
      assert ChainHolds(bs, cap, chains[h], a, r, h);
      SelSame(a, b, r, h);
    }
  }

  lemma SelSame(a: seq<Tuple>, b: seq<Tuple>, r: Radix, h: nat)
    requires multiset(a) == multiset(b)
    ensures multiset(Sel(a, r, h)) == multiset(Sel(b, r, h))
  {
    forall t: Tuple
      ensures multiset(Sel(a, r, h))[t] == multiset(Sel(b, r, h))[t]
    {
      SelCount(a, r, h, t);
      SelCount(b, r, h, t);
    }
  }

  lemma ClaimBuilds(c: Config, s: State, s': State, w: nat)
    requires Inv(c, s) && Claim(c, s, s', w)
    ensures Built(s'.log, c.cap, s'.chains, s'.used, Flatten(Parts(c, s.ts)) + [c.inputs[w][s.ts[w].i]], c.r)
  {
    assert Built(s.log, c.cap, s.chains, s.used, Flatten(Parts(c, s.ts)), c.r);
    InsertBuilds(s.log, c.cap, s.chains, s.used, Flatten(Parts(c, s.ts)), c.r, c.inputs[w][s.ts[w].i]);
  }

  lemma ClaimKeepsTable(c: Config, s: State, s': State, w: nat)
    requires Inv(c, s) && Claim(c, s, s', w)
    ensures Table(s'.log, c.cap, s'.chains, s'.used)
    ensures AllHold(s'.log, c.cap, s'.chains, Flatten(Parts(c, s'.ts)), c.r)
  {
    var rel := Flatten(Parts(c, s.ts)) + [c.inputs[w][s.ts[w].i]];
    ClaimBuilds(c, s, s', w);
    PartsGrow(c, s.ts, w, s'.ts[w]);
    HoldPermuted(s'.log, c.cap, s'.chains, rel, Flatten(Parts(c, s'.ts)), c.r);
  }

  lemma ClaimKeepsSame(c: Config, s: State, s': State, w: nat)
    requires Inv(c, s) && Claim(c, s, s', w)
    ensures Shape(c, s') && AllSame(c, s'.bs, s'.log, s'.used)
  {
    ClaimReady(c, s, s', w);
    ReserveKeepsSame(c, s.bs, s.log, s.chains, s.used, Home(c, w, s.ts[w].i), c.inputs[w][s.ts[w].i]);
  }

  lemma PutKeepsTable(c: Config, s: State, s': State, w: nat)
    requires Inv(c, s) && Put(c, s, s', w)
    ensures AllSame(c, s'.bs, s'.log, s'.used)
  {
    forall b: nat | b < |s'.bs|
      ensures BucketSame(c, s'.bs, s'.log, s'.used, b)
    {
      assert BucketSame(c, s.bs, s.log, s.used, b);
    }
  }

  lemma StepKeepsTable(c: Config, s: State, s': State, w: nat)
    requires Inv(c, s) && Step(c, s, s', w)
    ensures Shape(c, s') && Table(s'.log, c.cap, s'.chains, s'.used)
    ensures AllHold(s'.log, c.cap, s'.chains, Flatten(Parts(c, s'.ts)), c.r)
    ensures AllSame(c, s'.bs, s'.log, s'.used)
  {
    if Claim(c, s, s', w) {
      ClaimKeepsTable(c, s, s', w);
      ClaimKeepsSame(c, s, s', w);
    } else {
      PartsSame(c, s.ts, w, s'.ts[w]);
      if Put(c, s, s', w) {
        PutKeepsTable(c, s, s', w);
      }
    }
  }

  lemma NextKeepsInv(c: Config, s: State, s': State)
    requires Inv(c, s) && Next(c, s, s')
    ensures Inv(c, s')
  {
    var w: nat :| Step(c, s, s', w);
    StepKeepsTable(c, s, s', w);
    StepKeepsExclusive(c, s, s', w);
    StepKeepsAlone(c, s, s', w);
    forall w': nat | w' < |s'.ts|
      ensures ThreadOk(c, s', w')
    {
      StepKeepsThread(c, s, s', w, w');
    }
    forall b: nat, pos: nat | b < s'.used
      ensures SlotOk(s', b, pos)
    {
      StepKeepsSlot(c, s, s', w, b, pos);
    }
  }

  lemma InitTable(c: Config, s: State)
    requires Init(c, s)
    ensures Table(s.log, c.cap, s.chains, s.used)
    ensures AllHold(s.log, c.cap, s.chains, Flatten(Parts(c, s.ts)), c.r)
  {
    FlattenNothing(Parts(c, s.ts));
    assert s.chains == Singles(c.r.fanout);
    forall b: nat | b < |s.log|
      ensures s.log[b] == s.bs[b] && |s.log[b].tuples| == c.cap
    {
      assert |s.bs[b].tuples| == c.cap;
    }
    NothingBuilt(s.log, c.cap, c.r);
  }

  lemma InitHasInv(c: Config, s: State)
    requires Init(c, s)
    ensures Inv(c, s)
  {
    InitTable(c, s);
    forall b: nat | b < |s.bs|
      ensures BucketSame(c, s.bs, s.log, s.used, b)
    {
      assert s.log[b] == s.bs[b];
    }
  }

  // ----- runs -----

  ghost predicate Run(c: Config, tr: seq<State>) {
    IsRun(tr, (s: State) => Init(c, s), (s: State, s': State) => Next(c, s, s'))
  }

  /** Along every run: no two threads hold one latch, no position is reserved twice, and full buckets
      precede growth in every chain. */
  lemma RunHasInv(c: Config, tr: seq<State>, i: nat)
    requires Run(c, tr) && i < |tr|
    ensures Inv(c, tr[i])
  {
    forall s | Init(c, s)
      ensures Inv(c, s)
    {
      InitHasInv(c, s);
    }
    forall s, s' | Inv(c, s) && Next(c, s, s')
      ensures Inv(c, s')
    {
      NextKeepsInv(c, s, s');
    }
    Invariant(tr, (s: State) => Init(c, s), (s: State, s': State) => Next(c, s, s'), (s: State) => Inv(c, s), i);
  }

  ghost predicate AllDone(c: Config, s: State) {
    Shape(c, s) && forall w: nat :: w < |s.ts| ==> !Busy(c, s, w)
  }

  lemma DoneThreads(c: Config, s: State)
    requires Inv(c, s) && AllDone(c, s)
    ensures forall w: nat :: w < |s.ts| ==> s.ts[w] == Lock(|c.inputs[w]|)
    ensures Parts(c, s.ts) == c.inputs
  {
    forall w: nat | w < |s.ts|
      ensures s.ts[w] == Lock(|c.inputs[w]|)
    {
      assert ThreadOk(c, s, w) && !Busy(c, s, w);
    }
    assert forall w: nat :: w < |s.ts| ==> Parts(c, s.ts)[w] == c.inputs[w];
  }

  /** Without pending stores, memory and history agree on every bucket in use. */
  lemma DoneBucket(c: Config, s: State, b: nat)
    requires Inv(c, s) && AllDone(c, s) && b < s.used
    ensures s.bs[b].count == s.log[b].count && s.bs[b].next == s.log[b].next
    ensures |s.bs[b].tuples| == |s.log[b].tuples| && Items(s.bs[b]) == Items(s.log[b])
  {
    DoneThreads(c, s);
    assert BucketSame(c, s.bs, s.log, s.used, b);
    forall pos: nat | pos < s.log[b].count
      ensures s.bs[b].tuples[pos] == s.log[b].tuples[pos]
    {
      assert SlotOk(s, b, pos);
    }
  }

  lemma SameChain(bs: seq<Bucket>, log: seq<Bucket>, cap: nat, chain: seq<nat>, h: nat)
    requires ChainOk(log, cap, chain, h) && |bs| == |log|
    requires forall id: nat :: id in chain && id < |log| ==>
      bs[id].count == log[id].count && bs[id].next == log[id].next && |bs[id].tuples| == |log[id].tuples| && Items(bs[id]) == Items(log[id])
    ensures ChainOk(bs, cap, chain, h) && Content(bs, chain) == Content(log, chain)
  {
    forall j: nat | j < |chain|
      ensures LinkOk(bs, cap, chain, j) && Items(bs[chain[j]]) == Items(log[chain[j]])
    {
      assert LinkOk(log, cap, chain, j) && chain[j] in chain;
    }
    assert Chains.Parts(bs, chain) == Chains.Parts(log, chain);
  }

  /** Whatever the schedule, the finished chain of a hash value holds exactly the tuples of all
      threads that have it, so that probing the chains computes the nested-loop join. */
  lemma BuildIsRight(c: Config, tr: seq<State>)
    requires Run(c, tr) && AllDone(c, tr[|tr| - 1])
    ensures AllHold(tr[|tr| - 1].bs, c.cap, tr[|tr| - 1].chains, Flatten(c.inputs), c.r)
  {
    var s := tr[|tr| - 1];
    RunHasInv(c, tr, |tr| - 1);
    DoneThreads(c, s);
    forall h: nat | h < c.r.fanout
      ensures ChainHolds(s.bs, c.cap, s.chains[h], Flatten(c.inputs), c.r, h)
    {
      assert ChainHolds(s.log, c.cap, s.chains[h], Flatten(c.inputs), c.r, h);
      assert ChainFits(s.log, c.cap, s.chains[h], h, s.used);
      forall id: nat | id in s.chains[h]
        ensures s.bs[id].count == s.log[id].count && s.bs[id].next == s.log[id].next
        ensures |s.bs[id].tuples| == |s.log[id].tuples| && Items(s.bs[id]) == Items(s.log[id])
      {
        DoneBucket(c, s, id);
      }
      SameChain(s.bs, s.log, c.cap, s.chains[h], h);
    }
  }

  /** A thread that holds a latch never waits for another one. */
  lemma HolderMoves(c: Config, s: State, w: nat)
    requires Inv(c, s) && w < |s.ts| && Inside(s.ts[w]) && s.used < |s.bs|
    ensures exists s' :: Step(c, s, s', w)
  {
    assert ThreadOk(c, s, w);
    var i := s.ts[w].i;
    var h := Home(c, w, i);
    match s.ts[w] {
      case Read(_) =>
        assert Step(c, s, s.(ts := s.ts[w := Update(i, s.bs[h].next)]), w);
      case Update(_, nxt) =>
        var at := Position(s.bs, c.cap, h, s.used, nxt);
        assert Step(c, s, State(Reserve(s.bs, c.cap, h, s.used, nxt), s.latch, s.ts[w := Unlock(i, at.0, at.1)],
                                Insert(s.log, c.cap, h, s.used, c.inputs[w][i]), GrownChains(s.log, c.cap, s.chains, s.used, h),
                                s.used + Chains.Taken(s.log, c.cap, h)), w);
      case Unlock(_, b, pos) =>
        assert Step(c, s, s.(latch := s.latch[h := false], ts := s.ts[w := Store(i, b, pos)]), w);
    }
  }

  // ----- no deadlock -----

  ghost predicate Somebody(c: Config, s: State, h: nat)
    requires Shape(c, s)
  {
    exists w: nat :: w < |s.ts| && Holder(c, s, w, h)
  }

  /** A latch that is taken has a thread that will release it. */
  ghost predicate Held(c: Config, s: State)
    requires Shape(c, s)
  {
    forall h: nat :: h < |s.latch| && s.latch[h] ==> Somebody(c, s, h)
  }

  lemma StepKeepsHeld(c: Config, s: State, s': State, w: nat)
    requires Inv(c, s) && Held(c, s) && Step(c, s, s', w) && Shape(c, s')
    ensures Held(c, s')
  {
    forall h: nat | h < |s'.latch| && s'.latch[h]
      ensures Somebody(c, s', h)
    {
      if s.latch[h] {
        assert Somebody(c, s, h);
        var v: nat :| v < |s.ts| && Holder(c, s, v, h);
        assert Holder(c, s', v, h);
      } else {
        assert Holder(c, s', w, h);
      }
    }
  }

  lemma RunHasHeld(c: Config, tr: seq<State>, i: nat)
    requires Run(c, tr) && i < |tr|
    ensures Inv(c, tr[i]) && Held(c, tr[i])
  {
    forall s | Init(c, s)
      ensures Inv(c, s) && Held(c, s)
    {
      InitHasInv(c, s);
    }
    forall s, s' | Inv(c, s) && Held(c, s) && Next(c, s, s')
      ensures Inv(c, s') && Held(c, s')
    {
      NextKeepsInv(c, s, s');
      var w: nat :| Step(c, s, s', w);
      StepKeepsHeld(c, s, s', w);
    }
    Invariant(tr, (s: State) => Init(c, s), (s: State, s': State) => Next(c, s, s'), (s: State) => Inv(c, s) && Held(c, s), i);
  }

  /** Until all threads are done, one of them can take a step, as long as there is memory for one more
      bucket. */
  lemma NeverStuck(c: Config, tr: seq<State>, i: nat)
    requires Run(c, tr) && i < |tr| && !AllDone(c, tr[i]) && tr[i].used < |tr[i].bs|
    ensures exists s' :: Next(c, tr[i], s')
  {
    var s := tr[i];
    RunHasHeld(c, tr, i);
    var w: nat :| w < |s.ts| && Busy(c, s, w);
    assert ThreadOk(c, s, w);
    if s.ts[w].Lock? && s.latch[Home(c, w, s.ts[w].i)] {
      assert Somebody(c, s, Home(c, w, s.ts[w].i));
      var v: nat :| v < |s.ts| && Holder(c, s, v, Home(c, w, s.ts[w].i));
      HolderMoves(c, s, v);
      var s' :| Step(c, s, s', v);
      assert Next(c, s, s');
    } else {
      BusyMoves(c, s, w);
      var s' :| Step(c, s, s', w);
      assert Next(c, s, s');
    }
  }

  lemma BusyMoves(c: Config, s: State, w: nat)
    requires Inv(c, s) && Busy(c, s, w) && s.used < |s.bs| && (s.ts[w].Lock? ==> !s.latch[Home(c, w, s.ts[w].i)])
    ensures exists s' :: Step(c, s, s', w)
  {
    assert ThreadOk(c, s, w);
    match s.ts[w] {
      case Lock(i) =>
        var h := Home(c, w, i);
        assert Step(c, s, s.(latch := s.latch[h := true], ts := s.ts[w := Read(i)]), w);
      case Store(i, b, pos) =>
        assert BucketSame(c, s.bs, s.log, s.used, b);
        assert Step(c, s, s.(bs := s.bs[b := s.bs[b].(tuples := s.bs[b].tuples[pos := c.inputs[w][i]])], ts := s.ts[w := Lock(i + 1)]), w);
      case _ => HolderMoves(c, s, w);
    }
  }

  // ----- every run ends -----

  function Used(pc: Pc): nat {
    match pc
    case Lock(_) => 0
    case Read(_) => 1
    case Update(_, _) => 2
    case Unlock(_, _, _) => 3
    case Store(_, _, _) => 4
  }

  /** The steps that a thread can still make, at most. */
  function Left(len: nat, pc: Pc): nat {
    if pc.i >= len then 0 else Times(len - pc.i - 1, 5) + (5 - Used(pc))
  }

  function LeftOf(c: Config, ts: seq<Pc>): nat -> nat {
    (w: nat) => if w < |ts| && w < |c.inputs| then Left(|c.inputs[w]|, ts[w]) else 0
  }

  lemma StepUsesOneUp(c: Config, s: State, s': State, w: nat)
    requires Step(c, s, s', w)
    ensures |s.ts| == |c.inputs| && |s'.ts| == |s.ts| && s'.ts == s.ts[w := s'.ts[w]]
    ensures Left(|c.inputs[w]|, s'.ts[w]) < Left(|c.inputs[w]|, s.ts[w])
  {
  }

  lemma NextUsesOneUp(c: Config, s: State, s': State)
    requires Next(c, s, s')
    ensures SumTo(LeftOf(c, s'.ts), |c.inputs|) < SumTo(LeftOf(c, s.ts), |c.inputs|)
  {
    var w: nat :| Step(c, s, s', w);
    StepUsesOneUp(c, s, s', w);
    SumToDrops(LeftOf(c, s.ts), LeftOf(c, s'.ts), w, |c.inputs|);
  }

  /** Five steps for every tuple of a thread. */
  function Budget(c: Config): nat -> nat {
    (w: nat) => if w < |c.inputs| then Times(|c.inputs[w]|, 5) else 0
  }

  /** No run of the build is longer than that.  A thread that finds a latch taken makes no step;
      `NeverStuck` says that then somebody else can. */
  lemma RunsEnd(c: Config, tr: seq<State>)
    requires Run(c, tr)
    ensures |tr| - 1 <= SumTo(Budget(c), |c.inputs|)
  {
    forall s, s' | Next(c, s, s')
      ensures SumTo(LeftOf(c, s'.ts), |c.inputs|) < SumTo(LeftOf(c, s.ts), |c.inputs|)
    {
      NextUsesOneUp(c, s, s');
    }
    Bounded(tr, (s: State) => Init(c, s), (s: State, s': State) => Next(c, s, s'), (s: State) => true,
            (s: State) => SumTo(LeftOf(c, s.ts), |c.inputs|), |tr| - 1);
    SumToSame(LeftOf(c, tr[0].ts), Budget(c), |c.inputs|);
  }
}
