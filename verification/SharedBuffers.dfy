/** Bandwidth-regulated passes one after the other, over the same write-combining buffers: the build
    side first, then the probe side.  Every thread counts its own chunk, sets the slot counters of its
    own buffers and, if it is one of the writers, serves its chunks; barriers of all threads separate
    counting, setting, scattering and draining, and nothing separates the end of one pass from the
    beginning of the next.  What a pass leaves in the buffers is there when the next one begins. */
module SharedBuffers {
  import opened Bits
  import opened Relations
  import opened Runs
  import opened Swwcb
  import opened SwwcbProofs
  import opened Partitioning
  import opened RegulatedPass

  /** The passes, the threads, and how many of them write. */
  datatype Plan = Plan(cs: seq<Config>, threads: nat, writers: nat, t: nat, fanout: nat)

  datatype Stage =
    | Count               // counting the own chunk
    | AtHistogram         // at the histogram barrier
    | Reset(p: nat)       // about to set the slot counter of buffer p of the own chunk
    | AtStart             // at the barrier before scattering
    | Work(job: RegulatedPass.Job)      // serving chunks; threads that do not write wait for the writers

  datatype Thread = Thread(round: nat, stage: Stage)

  /** One array per pass, where each chunk is in each pass, and the buffers of the chunks. */
  datatype State = State(mems: seq<seq<Tuple>>, pcs: seq<seq<Pc>>, bufs: seq<seq<seq<Tuple>>>, ts: seq<Thread>)

  ghost predicate PassOk(plan: Plan, c: Config) {
    Valid(c) && |c.inputs| == plan.threads && c.t == plan.t && c.radix.fanout == plan.fanout
  }

  ghost predicate Ok(plan: Plan) {
    && 0 < plan.writers <= plan.threads && 0 < plan.t
    && forall rd: nat :: rd < |plan.cs| ==> PassOk(plan, plan.cs[rd])
  }

  ghost predicate BuffersOk(plan: Plan, bufs: seq<seq<Tuple>>) {
    |bufs| == plan.fanout && forall p: nat :: p < |bufs| ==> |bufs[p]| == plan.t
  }

  ghost predicate Shaped(plan: Plan, s: State) {
    && |s.mems| == |s.pcs| == |plan.cs| && |s.bufs| == |s.ts| == plan.threads
    && (forall rd: nat :: rd < |s.pcs| ==> |s.pcs[rd]| == plan.threads)
    && (forall k: nat :: k < |s.bufs| ==> BuffersOk(plan, s.bufs[k]))
  }

  /** What the buffered machine sees of pass `rd`. */
  ghost function View(plan: Plan, s: State, rd: nat): Swwcb.State
    requires Shaped(plan, s) && rd < |plan.cs|
  {
    Swwcb.State(s.mems[rd], seq(plan.threads, (k: nat) requires k < plan.threads => Writer(s.pcs[rd][k], s.bufs[k])))
  }

  ghost predicate Init(plan: Plan, s: State) {
    && Shaped(plan, s)
    && (forall rd: nat :: rd < |plan.cs| ==> |s.mems[rd]| == plan.cs[rd].size)
    && (forall rd: nat, k: nat :: rd < |plan.cs| && k < plan.threads ==> s.pcs[rd][k] == Scatter(0))
    && (forall v: nat :: v < plan.threads ==> s.ts[v] == Thread(0, Count))
  }

  // ----- steps -----

  function Level(stage: Stage): nat {
    match stage
    case Count => 0
    case AtHistogram => 1
    case Reset(_) => 2
    case AtStart => 3
    case Work(job) => match job
      case Scattering(_) => 4
      case AtBarrier => 5
      case Draining(_) => 6
      case Finished => 7
  }

  /** How far a thread is, over all passes. */
  function Rank(th: Thread): nat { 8 * th.round + Level(th.stage) }

  /** A barrier opens when every thread has arrived at it. */
  ghost predicate Opens(s: State, v: nat)
    requires v < |s.ts|
  {
    forall u: nat :: u < |s.ts| ==> Rank(s.ts[u]) >= Rank(s.ts[v])
  }

  function Go(s: State, v: nat, stage: Stage): State
    requires v < |s.ts|
  {
    s.(ts := s.ts[v := Thread(s.ts[v].round, stage)])
  }

  /** A step of the buffered machine for chunk `k`. */
  ghost predicate Serves(plan: Plan, s: State, s': State, rd: nat, k: nat)
    requires Shaped(plan, s) && rd < |plan.cs|
  {
    var c := plan.cs[rd];
    var x := View(plan, s, rd);
    && Shape(c) && StateShape(c, x) && k < |x.ws| == |s.pcs[rd]| && Safe(c, x, k)
    && var x' := Step(c, x, k);
       s' == State.State(s.mems[rd := x'.mem], s.pcs[rd := s.pcs[rd][k := x'.ws[k].pc]], s.bufs[k := x'.ws[k].bufs], s.ts)
  }

  ghost predicate WorkStep(plan: Plan, s: State, s': State, v: nat, job: RegulatedPass.Job)
    requires Shaped(plan, s) && v < |s.ts| && s.ts[v].round < |plan.cs|
  {
    var rd := s.ts[v].round;
    && |plan.cs[rd].inputs| == plan.threads
    && match job
       case Scattering(k) =>
         if k >= plan.threads then s' == Go(s, v, Work(AtBarrier))
         else if s.pcs[rd][k] == Scatter(|plan.cs[rd].inputs[k]|) then s' == Go(s, v, Work(Scattering(k + plan.writers)))
         else Serves(plan, s, s', rd, k)
       case AtBarrier => Opens(s, v) && s' == Go(s, v, Work(if v < plan.writers then Draining(v) else Finished))
       case Draining(k) =>
         if k >= plan.threads then s' == Go(s, v, Work(Finished))
         else if s.pcs[rd][k] == Done then s' == Go(s, v, Work(Draining(k + plan.writers)))
         else Serves(plan, s, s', rd, k)
       case Finished => s' == s.(ts := s.ts[v := Thread(rd + 1, Count)])
  }

  /** `myswwcb[p].data.slot = myoutput_offset[p] + global_offset` */
  ghost predicate SetOne(plan: Plan, s: State, s': State, v: nat, p: nat)
    requires Shaped(plan, s) && v < |s.ts| && s.ts[v].round < |plan.cs| && 0 < plan.t
  {
    var c := plan.cs[s.ts[v].round];
    && v < |c.start| && p < |c.start[v]| && p < |s.bufs[v]|
    && s' == Go(s, v, Reset(p + 1)).(bufs := s.bufs[v := s.bufs[v][p := SetSlot(s.bufs[v][p], c.start[v][p])]])
  }

  ghost predicate StepOfThread(plan: Plan, s: State, s': State, v: nat) {
    && Shaped(plan, s) && v < |s.ts| && s.ts[v].round < |plan.cs| && 0 < plan.t
    && match s.ts[v].stage
       case Count => s' == Go(s, v, AtHistogram)
       case AtHistogram => Opens(s, v) && s' == Go(s, v, Reset(0))
       case Reset(p) => if p < plan.fanout then SetOne(plan, s, s', v, p) else s' == Go(s, v, AtStart)
       case AtStart => Opens(s, v) && s' == Go(s, v, Work(if v < plan.writers then Scattering(v) else AtBarrier))
       case Work(job) => WorkStep(plan, s, s', v, job)
  }

  ghost predicate Next(plan: Plan, s: State, s': State) {
    exists v: nat :: StepOfThread(plan, s, s', v)
  }

  // ----- barriers -----

  /** The last barrier that a thread has passed. */
  function Gate(th: Thread): int {
    var level := Level(th.stage);
    8 * th.round + (if level < 2 then (if th.round == 0 then 0 else -3) else if level < 4 then 1 else if level < 6 then 3 else 5)
  }

  ghost predicate Behind(a: Thread, b: Thread) { Gate(a) <= Rank(b) }

  /** Nobody is behind a barrier that somebody has passed. */
  ghost predicate Together(s: State) {
    forall u: nat, v: nat {:trigger Behind(s.ts[u], s.ts[v])} :: u < |s.ts| && v < |s.ts| ==> Behind(s.ts[u], s.ts[v])
  }

  /** A step takes one thread on, and only a step past a barrier takes it far. */
  lemma StepRaisesRank(plan: Plan, s: State, s': State, v: nat)
    requires StepOfThread(plan, s, s', v)
    ensures |s'.ts| == |s.ts| && Rank(s.ts[v]) <= Rank(s'.ts[v])
    ensures forall u: nat :: u < |s.ts| && u != v ==> s'.ts[u] == s.ts[u]
    ensures Rank(s'.ts[v]) <= Rank(s.ts[v]) + 1 || s.ts[v].stage.AtStart? || s.ts[v].stage == Work(AtBarrier)
  {
  }

  /** And only that step moves the last barrier that the thread has passed. */
  lemma StepMovesGate(plan: Plan, s: State, s': State, v: nat)
    requires StepOfThread(plan, s, s', v)
    ensures |s'.ts| == |s.ts|
    ensures Gate(s'.ts[v]) == Gate(s.ts[v]) || (Opens(s, v) && Gate(s'.ts[v]) == Rank(s.ts[v]))
  {
  }

  lemma StepKeepsTogether(plan: Plan, s: State, s': State, v: nat)
    requires Together(s) && StepOfThread(plan, s, s', v)
    ensures Together(s') && |s'.ts| == |s.ts|
  {
    StepRaisesRank(plan, s, s', v);
    StepMovesGate(plan, s, s', v);
    forall u: nat, w: nat | u < |s'.ts| && w < |s'.ts|
      ensures Behind(s'.ts[u], s'.ts[w])
    {
      BehindKept(s, s', v, u, w);
    }
  }

  lemma BehindKept(s: State, s': State, v: nat, u: nat, w: nat)
    requires Together(s) && v < |s.ts| == |s'.ts| && u < |s.ts| && w < |s.ts| && Rank(s.ts[v]) <= Rank(s'.ts[v])
    requires forall i: nat :: i < |s.ts| && i != v ==> s'.ts[i] == s.ts[i]
    requires Gate(s'.ts[v]) == Gate(s.ts[v]) || (Opens(s, v) && Gate(s'.ts[v]) == Rank(s.ts[v]))
    ensures Behind(s'.ts[u], s'.ts[w])
  {
    assert Behind(s.ts[u], s.ts[w]);
    assert Opens(s, v) ==> Rank(s.ts[w]) >= Rank(s.ts[v]);
  }

  predicate Waits(th: Thread) {
    th.stage.AtHistogram? || th.stage.AtStart? || th.stage == Work(AtBarrier)
  }

  /** Threads that work at the same time have passed the same barriers. */
  lemma WorkersAreTogether(s: State, u: nat, v: nat)
    requires Together(s) && u < |s.ts| && v < |s.ts| && !Waits(s.ts[u]) && !Waits(s.ts[v])
    ensures Gate(s.ts[u]) == Gate(s.ts[v])
  {
    assert Behind(s.ts[u], s.ts[v]) && Behind(s.ts[v], s.ts[u]);
    LastGate(s.ts[u], s.ts[v]);
    LastGate(s.ts[v], s.ts[u]);
  }

  /** No barrier lies between the last one that a working thread has passed and where it works. */
  lemma LastGate(a: Thread, b: Thread)
    requires Gate(a) <= Rank(b) && !Waits(b)
    ensures Gate(a) <= Gate(b)
  {
  }

  predicate Serving(th: Thread) { th.stage.Work? && (th.stage.job.Scattering? || th.stage.job.Draining?) }

  /** While anybody sets slot counters, nobody scatters or drains, in whichever pass. */
  lemma ResetsAlone(s: State, u: nat, v: nat)
    requires Together(s) && u < |s.ts| && v < |s.ts| && s.ts[v].stage.Reset?
    ensures !Serving(s.ts[u])
  {
    assert Behind(s.ts[u], s.ts[v]) && Behind(s.ts[v], s.ts[u]);
  }

  // ----- one pass of many -----

  /** What writer `v` is doing in pass `rd`: before, its first chunk is ahead of it; later, it has
      finished. */
  function JobIn(th: Thread, v: nat, rd: nat): RegulatedPass.Job {
    if th.round > rd then Finished
    else if th.round < rd || !th.stage.Work? then Scattering(v)
    else th.stage.job
  }

  ghost predicate Opened(s: State, rd: nat) {
    exists v: nat :: v < |s.ts| && Rank(s.ts[v]) >= 8 * rd + 4
  }

  /** Has anybody begun to set the buffers up for a later pass? */
  ghost predicate Reused(s: State, rd: nat) {
    exists v: nat :: v < |s.ts| && Rank(s.ts[v]) >= 8 * rd + 10
  }

  /** Slot counters that are set before scattering begins. */
  ghost predicate SlotsSet(plan: Plan, s: State, v: nat, rd: nat)
    requires Shaped(plan, s) && v < plan.threads && rd < |plan.cs| && Ok(plan)
  {
    var th, c := s.ts[v], plan.cs[rd];
    PassOk(plan, c) && (th.round == rd && (th.stage.Reset? || th.stage.AtStart?) ==>
      forall p: nat :: p < plan.fanout && (th.stage.Reset? ==> p < th.stage.p) ==> SlotOf(s.bufs[v][p]) == c.start[v][p])
  }

  /** Before pass `rd` begins. */
  ghost predicate NotYet(plan: Plan, s: State, rd: nat, mem: seq<Tuple>)
    requires Shaped(plan, s) && rd < |plan.cs| && Ok(plan)
  {
    && s.mems[rd] == mem && |mem| == plan.cs[rd].size
    && (forall k: nat :: k < plan.threads ==> s.pcs[rd][k] == Scatter(0))
    && (forall v: nat :: v < plan.threads ==> SlotsSet(plan, s, v, rd))
  }

  /** From its beginning on: the pass as a regulated pass of its own, with buffers of its own from the
      moment on when a later pass takes them over. */
  ghost predicate Matches(plan: Plan, s: State, rd: nat, x: Regulated)
    requires Shaped(plan, s) && rd < |plan.cs|
  {
    && |x.jobs| == plan.writers <= plan.threads
    && (forall v: nat :: v < plan.writers ==> x.jobs[v] == JobIn(s.ts[v], v, rd))
    && x.s.mem == s.mems[rd] && |x.s.ws| == plan.threads
    && (forall k: nat :: k < plan.threads ==> x.s.ws[k].pc == s.pcs[rd][k])
    && (!Reused(s, rd) ==> forall k: nat :: k < plan.threads ==> x.s.ws[k].bufs == s.bufs[k])
  }

  lemma ServesKeepsShape(plan: Plan, s: State, s': State, rd: nat, k: nat)
    requires Ok(plan) && Shaped(plan, s) && rd < |plan.cs| && k < plan.threads && Serves(plan, s, s', rd, k)
    ensures Shaped(plan, s')
  {
    assert PassOk(plan, plan.cs[rd]) && BuffersOk(plan, s.bufs[k]);
    assert BuffersOk(plan, s'.bufs[k]);
  }

  lemma WorkKeepsShape(plan: Plan, s: State, s': State, v: nat, job: RegulatedPass.Job)
    requires Ok(plan) && Shaped(plan, s) && v < |s.ts| && s.ts[v].round < |plan.cs| && WorkStep(plan, s, s', v, job)
    ensures Shaped(plan, s')
  {
    if (job.Scattering? || job.Draining?) && job.k < plan.threads && Serves(plan, s, s', s.ts[v].round, job.k) {
      ServesKeepsShape(plan, s, s', s.ts[v].round, job.k);
    }
  }

  lemma SetupKeepsShape(plan: Plan, s: State, s': State, v: nat)
    requires StepOfThread(plan, s, s', v) && !s.ts[v].stage.Work?
    ensures Shaped(plan, s')
  {
    if s.ts[v].stage.Reset? && s.ts[v].stage.p < plan.fanout {
      assert BuffersOk(plan, s.bufs[v]);
      assert BuffersOk(plan, s'.bufs[v]);
    }
  }

  lemma StepKeepsShape(plan: Plan, s: State, s': State, v: nat)
    requires Ok(plan) && StepOfThread(plan, s, s', v)
    ensures Shaped(plan, s')
  {
    if s.ts[v].stage.Work? {
      WorkKeepsShape(plan, s, s', v, s.ts[v].stage.job);
    } else {
      SetupKeepsShape(plan, s, s', v);
    }
  }

  /** Threads that do not write never serve. */
  ghost predicate RoleOk(plan: Plan, v: nat, th: Thread) {
    v >= plan.writers ==> !Serving(th)
  }

  ghost predicate Roles(plan: Plan, s: State) {
    forall v: nat :: v < |s.ts| ==> RoleOk(plan, v, s.ts[v])
  }

  ghost predicate Inv(plan: Plan, s: State) {
    Shaped(plan, s) && Together(s) && Roles(plan, s)
  }

  lemma StepKeepsInv(plan: Plan, s: State, s': State, v: nat)
    requires Ok(plan) && Inv(plan, s) && StepOfThread(plan, s, s', v)
    ensures Inv(plan, s')
  {
    StepKeepsShape(plan, s, s', v);
    StepKeepsTogether(plan, s, s', v);
    forall u: nat | u < |s'.ts|
      ensures RoleOk(plan, u, s'.ts[u])
    {
      assert RoleOk(plan, u, s.ts[u]);
    }
  }

  lemma InitHasInv(plan: Plan, s: State)
    requires Ok(plan) && Init(plan, s)
    ensures Inv(plan, s)
  {
  }

  /** A thread before pass `rd` is held up by nobody in it. */
  lemma NobodyAhead(s: State, u: nat, v: nat)
    requires Together(s) && u < |s.ts| && v < |s.ts|
    ensures Gate(s.ts[u]) <= Rank(s.ts[v])
  {
    assert Behind(s.ts[u], s.ts[v]);
  }

  /** Only its owner sets a slot counter, and nobody serves, before pass `rd` begins. */
  lemma SlotsStaySet(plan: Plan, s: State, s': State, v: nat, u: nat, rd: nat)
    requires Ok(plan) && Inv(plan, s) && StepOfThread(plan, s, s', v) && rd < |plan.cs| && Shaped(plan, s')
    requires u < plan.threads && SlotsSet(plan, s, u, rd) && Rank(s.ts[v]) < 8 * rd + 4 && Rank(s'.ts[v]) < 8 * rd + 4
    ensures SlotsSet(plan, s', u, rd)
  {
    NobodyAhead(s, u, v);
  }

  lemma StillNotYet(plan: Plan, s: State, s': State, v: nat, rd: nat, mem: seq<Tuple>)
    requires Ok(plan) && Inv(plan, s) && StepOfThread(plan, s, s', v) && rd < |plan.cs|
    requires NotYet(plan, s, rd, mem) && !Opened(s, rd) && !Opened(s', rd) && Shaped(plan, s')
    ensures NotYet(plan, s', rd, mem)
  {
    assert Rank(s.ts[v]) < 8 * rd + 4 && Rank(s'.ts[v]) < 8 * rd + 4;
    forall u: nat | u < plan.threads
      ensures SlotsSet(plan, s', u, rd)
    {
      SlotsStaySet(plan, s, s', v, u, rd);
    }
    NothingServed(plan, s, s', v, rd);
  }

  lemma NothingServed(plan: Plan, s: State, s': State, v: nat, rd: nat)
    requires StepOfThread(plan, s, s', v) && rd < |plan.cs| && Shaped(plan, s') && Rank(s.ts[v]) < 8 * rd + 4
    ensures s'.mems[rd] == s.mems[rd] && s'.pcs[rd] == s.pcs[rd]
  {
  }

  /** Pass `rd` is opened from the last barrier before scattering. */
  lemma OpenedFrom(plan: Plan, s: State, s': State, v: nat, rd: nat)
    requires StepOfThread(plan, s, s', v) && Rank(s.ts[v]) < 8 * rd + 4 <= Rank(s'.ts[v])
    ensures s.ts[v] == Thread(rd, AtStart) && Opens(s, v)
  {
    StepRaisesRank(plan, s, s', v);
  }

  /** All threads wait at the last barrier before scattering. */
  lemma AllAtStart(plan: Plan, s: State, s': State, v: nat, rd: nat)
    requires Ok(plan) && Inv(plan, s) && StepOfThread(plan, s, s', v) && rd < |plan.cs|
    requires !Opened(s, rd) && Opened(s', rd)
    ensures s.ts[v] == Thread(rd, AtStart) && Opens(s, v)
    ensures forall u: nat :: u < |s.ts| ==> s.ts[u] == Thread(rd, AtStart)
  {
    var w: nat :| w < |s'.ts| && Rank(s'.ts[w]) >= 8 * rd + 4;
    assert Rank(s.ts[w]) < 8 * rd + 4 && w == v;
    OpenedFrom(plan, s, s', v, rd);
    forall u: nat | u < |s.ts|
      ensures s.ts[u] == Thread(rd, AtStart)
    {
      OnlyAtStart(s.ts[u], rd);
    }
  }

  lemma OnlyAtStart(th: Thread, rd: nat)
    ensures 8 * rd + 3 <= Rank(th) < 8 * rd + 4 ==> th == Thread(rd, AtStart)
  {
  }

  lemma Opening(plan: Plan, s: State, s': State, v: nat, rd: nat, mem: seq<Tuple>) returns (x: Regulated)
    requires Ok(plan) && Inv(plan, s) && StepOfThread(plan, s, s', v) && rd < |plan.cs|
    requires NotYet(plan, s, rd, mem) && !Opened(s, rd) && Opened(s', rd) && Shaped(plan, s')
    ensures RegInit(plan.cs[rd], plan.writers, x) && Matches(plan, s', rd, x) && x.s.mem == mem
  {
    AllAtStart(plan, s, s', v, rd);
    var c := plan.cs[rd];
    assert PassOk(plan, c);
    x := Regulated(View(plan, s, rd), seq(plan.writers, (u: nat) => Scattering(u)));
    forall k: nat, p: nat | Cell(c, k, p)
      ensures x.s.ws[k].pc == Scatter(0) && SlotOf(x.s.ws[k].bufs[p]) == c.start[k][p]
    {
      assert SlotsSet(plan, s, k, rd);
    }
    forall k: nat | k < |x.s.ws|
      ensures WriterShape(c, k, x.s.ws[k])
    {
      assert BuffersOk(plan, s.bufs[k]);
    }
  }

  /** A thread that is not serving in pass `rd` does not touch its array, and not its buffers before
      they are taken over. */
  lemma OthersTouchNothing(plan: Plan, s: State, s': State, v: nat, rd: nat)
    requires Ok(plan) && Inv(plan, s) && StepOfThread(plan, s, s', v) && rd < |plan.cs| && Shaped(plan, s')
    requires Opened(s, rd) && (s.ts[v].round != rd || !s.ts[v].stage.Work?)
    ensures s'.mems[rd] == s.mems[rd] && s'.pcs[rd] == s.pcs[rd]
    ensures s'.bufs == s.bufs || Reused(s', rd)
    ensures s.ts[v].round >= rd && (s.ts[v].round == rd ==> s.ts[v].stage.AtStart?)
  {
    var u: nat :| u < |s.ts| && Rank(s.ts[u]) >= 8 * rd + 4;
    NobodyAhead(s, u, v);
    assert Rank(s.ts[v]) >= 8 * rd + 3;
    if s'.bufs != s.bufs {
      assert Rank(s'.ts[v]) >= 8 * rd + 10;
    }
  }

  lemma StaysReused(plan: Plan, s: State, s': State, v: nat, rd: nat)
    requires StepOfThread(plan, s, s', v) && Reused(s, rd)
    ensures Reused(s', rd)
  {
    StepRaisesRank(plan, s, s', v);
    var u: nat :| u < |s.ts| && Rank(s.ts[u]) >= 8 * rd + 10;
    assert Rank(s'.ts[u]) >= 8 * rd + 10;
  }

  lemma SameJob(plan: Plan, s: State, s': State, v: nat, rd: nat)
    requires StepOfThread(plan, s, s', v) && s.ts[v].round >= rd && (s.ts[v].round == rd ==> s.ts[v].stage.AtStart?)
    ensures v < plan.writers ==> JobIn(s'.ts[v], v, rd) == JobIn(s.ts[v], v, rd)
    ensures |s'.ts| == |s.ts| && forall u: nat :: u < |s.ts| && u != v ==> s'.ts[u] == s.ts[u]
  {
  }

  /** So the pass is as it was. */
  lemma OthersKeepMatch(plan: Plan, s: State, s': State, v: nat, rd: nat, x: Regulated)
    requires Ok(plan) && Inv(plan, s) && StepOfThread(plan, s, s', v) && rd < |plan.cs| && Shaped(plan, s')
    requires Opened(s, rd) && Matches(plan, s, rd, x) && (s.ts[v].round != rd || !s.ts[v].stage.Work?)
    ensures Matches(plan, s', rd, x)
  {
    OthersTouchNothing(plan, s, s', v, rd);
    SameJob(plan, s, s', v, rd);
    if Reused(s, rd) {
      StaysReused(plan, s, s', v, rd);
    }
  }

  /** The buffers belong to pass `rd` as long as somebody works in it. */
  lemma NotReused(plan: Plan, s: State, v: nat, rd: nat)
    requires Inv(plan, s) && v < |s.ts| && s.ts[v].round == rd
    ensures !Reused(s, rd)
  {
    forall u: nat | u < |s.ts|
      ensures Rank(s.ts[u]) < 8 * rd + 10
    {
      NobodyAhead(s, u, v);
    }
  }

  lemma MatchIsView(plan: Plan, s: State, rd: nat, x: Regulated)
    requires Shaped(plan, s) && rd < |plan.cs| && Matches(plan, s, rd, x) && !Reused(s, rd)
    ensures x.s == View(plan, s, rd)
  {
    assert forall k: nat :: k < plan.threads ==> x.s.ws[k] == Writer(s.pcs[rd][k], s.bufs[k]);
    assert x.s.ws == View(plan, s, rd).ws;
  }

  lemma ServeKeepsMatch(plan: Plan, s: State, s': State, v: nat, rd: nat, k: nat, x: Regulated) returns (x': Regulated)
    requires Ok(plan) && Inv(plan, s) && rd < |plan.cs| && v < |s.ts| && s.ts[v].round == rd && Shaped(plan, s')
    requires Serves(plan, s, s', rd, k) && Matches(plan, s, rd, x)
    ensures Serve(plan.cs[rd], x, x', k) && Matches(plan, s', rd, x')
  {
    NotReused(plan, s, v, rd);
    MatchIsView(plan, s, rd, x);
    x' := Regulated(Step(plan.cs[rd], x.s, k), x.jobs);
  }

  /** A writer that moves on in pass `rd` moves on in the pass as it is seen alone. */
  lemma MoveKeepsMatch(plan: Plan, s: State, s': State, v: nat, rd: nat, j: RegulatedPass.Job, x: Regulated)
    requires Ok(plan) && Inv(plan, s) && rd < |plan.cs| && v < |s.ts| && s.ts[v].round == rd && s.ts[v].stage.Work?
    requires s' == Go(s, v, Work(j)) && Shaped(plan, s') && Matches(plan, s, rd, x)
    ensures Matches(plan, s', rd, if v < plan.writers then x.(jobs := x.jobs[v := j]) else x)
  {
    NotReused(plan, s, v, rd);
  }

  /** Whatever a thread does in pass `rd` is a step of the regulated pass, or nothing. */
  lemma WorkKeepsMatch(plan: Plan, s: State, s': State, v: nat, rd: nat, x: Regulated) returns (x': Regulated)
    requires Ok(plan) && Inv(plan, s) && StepOfThread(plan, s, s', v) && rd < |plan.cs| && Shaped(plan, s')
    requires Matches(plan, s, rd, x) && s.ts[v].round == rd && s.ts[v].stage.Work?
    requires Shape(plan.cs[rd]) && StateShape(plan.cs[rd], x.s)
    ensures Matches(plan, s', rd, x') && (x' == x || RegNext(plan.cs[rd], plan.writers, x, x'))
  {
    var c, job := plan.cs[rd], s.ts[v].stage.job;
    assert PassOk(plan, c) && RoleOk(plan, v, s.ts[v]);
    if job.Finished? {
      NotReused(plan, s, v, rd);
      x' := x;
    } else if s'.ts == s.ts {
      x' := ServeKeepsMatch(plan, s, s', v, rd, job.k, x);
      assert RegStep(c, plan.writers, x, x', v);
    } else {
      var j := s'.ts[v].stage.job;
      MoveKeepsMatch(plan, s, s', v, rd, j, x);
      x' := if v < plan.writers then x.(jobs := x.jobs[v := j]) else x;
      if job.AtBarrier? {
        BarrierMeansPast(plan, s, v, rd, x);
      }
      assert v < plan.writers ==> RegStep(c, plan.writers, x, x', v);
    }
  }

  lemma BarrierMeansPast(plan: Plan, s: State, v: nat, rd: nat, x: Regulated)
    requires Shaped(plan, s) && rd < |plan.cs| && v < |s.ts| && s.ts[v] == Thread(rd, Work(AtBarrier)) && Opens(s, v)
    requires Matches(plan, s, rd, x)
    ensures forall u: nat :: u < |x.jobs| ==> Past(x.jobs[u])
  {
    forall u: nat | u < |x.jobs|
      ensures Past(x.jobs[u])
    {
      assert Rank(s.ts[u]) >= Rank(s.ts[v]);
    }
  }

  // ----- runs -----

  ghost predicate Run(plan: Plan, tr: seq<State>) {
    IsRun(tr, (s: State) => Init(plan, s), (s: State, s': State) => Next(plan, s, s'))
  }

  lemma RunHasInv(plan: Plan, tr: seq<State>, i: nat)
    requires Ok(plan) && Run(plan, tr) && i < |tr|
    ensures Inv(plan, tr[i])
  {
    forall s | Init(plan, s)
      ensures Inv(plan, s)
    {
      InitHasInv(plan, s);
    }
    forall s, s' | Inv(plan, s) && Next(plan, s, s')
      ensures Inv(plan, s')
    {
      var v: nat :| StepOfThread(plan, s, s', v);
      StepKeepsInv(plan, s, s', v);
    }
    Invariant(tr, (s: State) => Init(plan, s), (s: State, s': State) => Next(plan, s, s'), (s: State) => Inv(plan, s), i);
  }

  /** Where pass `rd` is after some steps: not begun, or a run of its own. */
  ghost predicate Traced(plan: Plan, s: State, rd: nat, mem: seq<Tuple>, rt: seq<Regulated>)
    requires Ok(plan) && Shaped(plan, s) && rd < |plan.cs| && Shape(plan.cs[rd])
  {
    if Opened(s, rd) then
      RegRun(plan.cs[rd], plan.writers, rt) && rt[0].s.mem == mem && Matches(plan, s, rd, rt[|rt| - 1])
    else NotYet(plan, s, rd, mem)
  }

  lemma RegRunShape(c: Config, writers: nat, rt: seq<Regulated>)
    requires Valid(c) && c.inputs != [] && 0 < writers && RegRun(c, writers, rt)
    ensures StateShape(c, rt[|rt| - 1].s) && SwwcbProofs.Inv(c, rt[|rt| - 1].s) && RegInv(c, writers, rt[|rt| - 1])
  {
    var tr := RegulatedRefines(c, writers, rt, |rt| - 1);
    NoStoreOutside(c, tr, |tr| - 1, 0);
    SwwcbProofs.RunHasInv(c, tr, |tr| - 1);
  }

  lemma OneWorkMore(plan: Plan, s: State, s': State, v: nat, rd: nat, rt: seq<Regulated>) returns (rt': seq<Regulated>)
    requires Ok(plan) && Inv(plan, s) && StepOfThread(plan, s, s', v) && rd < |plan.cs| && Shaped(plan, s')
    requires Valid(plan.cs[rd]) && plan.cs[rd].inputs != [] && s.ts[v].round == rd && s.ts[v].stage.Work?
    requires RegRun(plan.cs[rd], plan.writers, rt) && Matches(plan, s, rd, rt[|rt| - 1])
    ensures RegRun(plan.cs[rd], plan.writers, rt') && rt'[0] == rt[0] && Matches(plan, s', rd, rt'[|rt'| - 1])
  {
    var c := plan.cs[rd];
    RegRunShape(c, plan.writers, rt);
    var x' := WorkKeepsMatch(plan, s, s', v, rd, rt[|rt| - 1]);
    if x' == rt[|rt| - 1] {
      rt' := rt;
    } else {
      OneMore(rt, (x: Regulated) => RegInit(c, plan.writers, x), (x: Regulated, y: Regulated) => RegNext(c, plan.writers, x, y), x');
      rt' := rt + [x'];
    }
  }

  lemma OneTraceMore(plan: Plan, s: State, s': State, v: nat, rd: nat, mem: seq<Tuple>, rt: seq<Regulated>) returns (rt': seq<Regulated>)
    requires Ok(plan) && Inv(plan, s) && StepOfThread(plan, s, s', v) && rd < |plan.cs| && Inv(plan, s')
    requires Valid(plan.cs[rd]) && Traced(plan, s, rd, mem, rt)
    ensures Traced(plan, s', rd, mem, rt')
  {
    assert PassOk(plan, plan.cs[rd]);
    rt' := rt;
    if Opened(s, rd) {
      StaysOpen(plan, s, s', v, rd);
      if s.ts[v].round != rd || !s.ts[v].stage.Work? {
        OthersKeepMatch(plan, s, s', v, rd, rt[|rt| - 1]);
      } else {
        rt' := OneWorkMore(plan, s, s', v, rd, rt);
      }
    } else if Opened(s', rd) {
      var x := Opening(plan, s, s', v, rd, mem);
      rt' := [x];
    } else {
      StillNotYet(plan, s, s', v, rd, mem);
    }
  }

  lemma StaysOpen(plan: Plan, s: State, s': State, v: nat, rd: nat)
    requires StepOfThread(plan, s, s', v) && Opened(s, rd)
    ensures Opened(s', rd)
  {
    StepRaisesRank(plan, s, s', v);
    var u: nat :| u < |s.ts| && Rank(s.ts[u]) >= 8 * rd + 4;
    assert Rank(s'.ts[u]) >= 8 * rd + 4;
  }

  /** Each of the passes over the shared buffers is a run of the regulated pass alone. */
  lemma {:induction false} PassIsRegulated(plan: Plan, tr: seq<State>, i: nat, rd: nat) returns (rt: seq<Regulated>)
    requires Ok(plan) && Run(plan, tr) && i < |tr| && rd < |plan.cs|
    ensures Inv(plan, tr[i]) && Valid(plan.cs[rd]) && Traced(plan, tr[i], rd, tr[0].mems[rd], rt)
  {
    RunHasInv(plan, tr, i);
    assert PassOk(plan, plan.cs[rd]);
    if i == 0 {
      rt := [];
    } else {
      RunHasInv(plan, tr, i - 1);
      rt := PassIsRegulated(plan, tr, i - 1, rd);
      StepOf(tr, (s: State) => Init(plan, s), (s: State, s': State) => Next(plan, s, s'), i);
      var v: nat :| StepOfThread(plan, tr[i - 1], tr[i], v);
      rt := OneTraceMore(plan, tr[i - 1], tr[i], v, rd, tr[0].mems[rd], rt);
    }
  }

  ghost predicate AllFinished(plan: Plan, s: State) {
    forall v: nat :: v < |s.ts| ==> s.ts[v].round >= |plan.cs|
  }

  /** When all threads have finished, every pass has left its tuples in its ranges, although all of
      them used the same buffers, and has touched nothing else. */
  lemma EveryPassIsRight(plan: Plan, tr: seq<State>, rd: nat)
    requires Ok(plan) && Run(plan, tr) && AllFinished(plan, tr[|tr| - 1]) && rd < |plan.cs|
    ensures Valid(plan.cs[rd]) && |tr[|tr| - 1].mems| == |tr[0].mems| == |plan.cs|
    ensures CellsHold(plan.cs[rd], tr[|tr| - 1].mems[rd])
    ensures |tr[|tr| - 1].mems[rd]| == |tr[0].mems[rd]| == plan.cs[rd].size
    ensures forall q: nat :: q < plan.cs[rd].size && !Touchable(plan.cs[rd], q) ==> tr[|tr| - 1].mems[rd][q] == tr[0].mems[rd][q]
  {
    var s := tr[|tr| - 1];
    var rt := PassIsRegulated(plan, tr, |tr| - 1, rd);
    assert Rank(s.ts[0]) >= 8 * rd + 8;
    FinishedCellsHold(plan.cs[rd], plan.writers, rt);
  }

  /** The build side and the probe side, one after the other over the same buffers. */
  function TwoSides(t: nat, r: Radix, rChunks: seq<seq<Tuple>>, sChunks: seq<seq<Tuple>>, pad: nat, rSize: nat, sSize: nat, writers: nat): Plan {
    Plan([ParallelPass(t, r, rChunks, 0, pad, rSize), ParallelPass(t, r, sChunks, 0, pad, sSize)], |rChunks|, writers, t, r.fanout)
  }

  lemma TwoSidesOk(t: nat, r: Radix, rChunks: seq<seq<Tuple>>, sChunks: seq<seq<Tuple>>, pad: nat, rSize: nat, sSize: nat, writers: nat)
    requires 0 < t && |rChunks| == |sChunks| && 0 < writers <= |rChunks|
    requires Fits(Flatten(rChunks), r, 0, pad, rSize) && Fits(Flatten(sChunks), r, 0, pad, sSize)
    ensures Ok(TwoSides(t, r, rChunks, sChunks, pad, rSize, sSize, writers))
  {
    ParallelPassValid(t, r, rChunks, 0, pad, rSize);
    ParallelPassValid(t, r, sChunks, 0, pad, sSize);
  }

  /** Both relations end partitioned, for every number of writers and every interleaving of the two
      passes. */
  lemma BothSidesPartitioned(t: nat, r: Radix, rChunks: seq<seq<Tuple>>, sChunks: seq<seq<Tuple>>, pad: nat, rSize: nat, sSize: nat,
                             writers: nat, tr: seq<State>)
    requires 0 < t && |rChunks| == |sChunks| && 0 < writers <= |rChunks|
    requires Fits(Flatten(rChunks), r, 0, pad, rSize) && Fits(Flatten(sChunks), r, 0, pad, sSize)
    requires Run(TwoSides(t, r, rChunks, sChunks, pad, rSize, sSize, writers), tr)
    requires AllFinished(TwoSides(t, r, rChunks, sChunks, pad, rSize, sSize, writers), tr[|tr| - 1])
    ensures |tr[|tr| - 1].mems| == 2
    ensures Partitioned(tr[|tr| - 1].mems[0], Flatten(rChunks), r, 0, pad)
    ensures Partitioned(tr[|tr| - 1].mems[1], Flatten(sChunks), r, 0, pad)
  {
    var plan := TwoSides(t, r, rChunks, sChunks, pad, rSize, sSize, writers);
    TwoSidesOk(t, r, rChunks, sChunks, pad, rSize, sSize, writers);
    EveryPassIsRight(plan, tr, 0);
    EveryPassIsRight(plan, tr, 1);
    ParallelCells(t, r, rChunks, 0, pad, rSize, tr[|tr| - 1].mems[0]);
    ParallelCells(t, r, sChunks, 0, pad, sSize, tr[|tr| - 1].mems[1]);
  }

  /** Whenever a thread sets a slot counter, no buffer is in use: every chunk of an earlier pass is
      drained, and no chunk of this or a later pass has begun. */
  lemma ResetIsSafe(plan: Plan, tr: seq<State>, i: nat, v: nat, rd: nat, k: nat)
    requires Ok(plan) && Run(plan, tr) && i < |tr| && rd < |plan.cs| && k < plan.threads
    requires v < |tr[i].ts| && tr[i].ts[v].stage.Reset?
    ensures |tr[i].pcs| == |plan.cs| && |tr[i].pcs[rd]| == plan.threads
    ensures tr[i].pcs[rd][k] == if rd < tr[i].ts[v].round then Done else Scatter(0)
    ensures forall u: nat :: u < |tr[i].ts| ==> !Serving(tr[i].ts[u])
  {
    var s := tr[i];
    var rt := PassIsRegulated(plan, tr, i, rd);
    assert PassOk(plan, plan.cs[rd]);
    forall u: nat | u < |s.ts|
      ensures !Serving(s.ts[u])
    {
      ResetsAlone(s, u, v);
    }
    if rd < s.ts[v].round {
      ResetMeansDone(plan, s, v, rd, k, rt);
    } else if Opened(s, rd) {
      var u: nat :| u < |s.ts| && Rank(s.ts[u]) >= 8 * rd + 4;
      NobodyAhead(s, u, v);
    }
  }

  lemma ResetMeansDone(plan: Plan, s: State, v: nat, rd: nat, k: nat, rt: seq<Regulated>)
    requires Ok(plan) && Inv(plan, s) && rd < |plan.cs| && k < plan.threads && Valid(plan.cs[rd]) && |plan.cs[rd].inputs| == plan.threads
    requires v < |s.ts| && s.ts[v].stage.Reset? && rd < s.ts[v].round
    requires Opened(s, rd) ==> RegRun(plan.cs[rd], plan.writers, rt) && Matches(plan, s, rd, rt[|rt| - 1])
    ensures s.pcs[rd][k] == Done
  {
    assert Rank(s.ts[v]) >= 8 * rd + 4;
    var x := rt[|rt| - 1];
    RegRunShape(plan.cs[rd], plan.writers, rt);
    var u := WriterOf(k, plan.writers);
    NobodyAhead(s, v, u);
    ResetsAlone(s, u, v);
    assert ChunkOk(plan.cs[rd], x.s, x.jobs[u], k);
  }

  // ----- no deadlock -----

  lemma {:induction false} SomebodyIsLast(s: State, n: nat) returns (v: nat)
    requires 0 < n <= |s.ts|
    ensures v < n && forall u: nat :: u < n ==> Rank(s.ts[u]) >= Rank(s.ts[v])
  {
    if n == 1 {
      v := 0;
    } else {
      v := SomebodyIsLast(s, n - 1);
      if Rank(s.ts[n - 1]) < Rank(s.ts[v]) {
        v := n - 1;
      }
    }
  }

  /** The chunk that a thread serves can take its step. */
  lemma ServeGoesOn(plan: Plan, tr: seq<State>, i: nat, v: nat, k: nat)
    requires Ok(plan) && Run(plan, tr) && i < |tr| && v < |tr[i].ts| && k < plan.threads
    requires tr[i].ts[v].round < |plan.cs| && Serving(tr[i].ts[v])
    ensures Shaped(plan, tr[i]) && exists s' :: Serves(plan, tr[i], s', tr[i].ts[v].round, k)
  {
    var s := tr[i];
    var rd := s.ts[v].round;
    var c := plan.cs[rd];
    var rt := PassIsRegulated(plan, tr, i, rd);
    assert PassOk(plan, c) && Rank(s.ts[v]) >= 8 * rd + 4;
    NotReused(plan, s, v, rd);
    MatchIsView(plan, s, rd, rt[|rt| - 1]);
    var st := RegulatedRefines(c, plan.writers, rt, |rt| - 1);
    NoStoreOutside(c, st, |st| - 1, k);
    var y := Step(c, View(plan, s, rd), k);
    assert Serves(plan, s, State.State(s.mems[rd := y.mem], s.pcs[rd := s.pcs[rd][k := y.ws[k].pc]], s.bufs[k := y.ws[k].bufs], s.ts), rd, k);
  }

  /** Until all threads have finished all passes, somebody can take a step: the thread that is last
      waits at no barrier for ever. */
  lemma NeverStuck(plan: Plan, tr: seq<State>, i: nat)
    requires Ok(plan) && Run(plan, tr) && i < |tr| && !AllFinished(plan, tr[i])
    ensures exists s' :: Next(plan, tr[i], s')
  {
    var s := tr[i];
    RunHasInv(plan, tr, i);
    var v := SomebodyIsLast(s, |s.ts|);
    var u: nat :| u < |s.ts| && s.ts[u].round < |plan.cs|;
    assert Rank(s.ts[v]) <= Rank(s.ts[u]);
    var rd := s.ts[v].round;
    assert rd < |plan.cs| && PassOk(plan, plan.cs[rd]) && BuffersOk(plan, s.bufs[v]);
    LastGoesOn(plan, tr, i, v);
    var s' :| StepOfThread(plan, s, s', v);
    assert Next(plan, s, s');
  }

  lemma LastGoesOn(plan: Plan, tr: seq<State>, i: nat, v: nat)
    requires Ok(plan) && Run(plan, tr) && i < |tr| && Inv(plan, tr[i]) && v < |tr[i].ts| && Opens(tr[i], v)
    requires tr[i].ts[v].round < |plan.cs| && PassOk(plan, plan.cs[tr[i].ts[v].round]) && BuffersOk(plan, tr[i].bufs[v])
    ensures exists s' :: StepOfThread(plan, tr[i], s', v)
  {
    var s := tr[i];
    var rd := s.ts[v].round;
    match s.ts[v].stage {
      case Count => assert StepOfThread(plan, s, Go(s, v, AtHistogram), v);
      case AtHistogram => assert StepOfThread(plan, s, Go(s, v, Reset(0)), v);
      case Reset(p) =>
        if p < plan.fanout {
          assert StepOfThread(plan, s, Go(s, v, Reset(p + 1)).(bufs := s.bufs[v := s.bufs[v][p := SetSlot(s.bufs[v][p], plan.cs[rd].start[v][p])]]), v);
        } else {
          assert StepOfThread(plan, s, Go(s, v, AtStart), v);
        }
      case AtStart => assert StepOfThread(plan, s, Go(s, v, Work(if v < plan.writers then Scattering(v) else AtBarrier)), v);
      case Work(job) => WorkGoesOn(plan, tr, i, v, job);
    }
  }

  lemma WorkGoesOn(plan: Plan, tr: seq<State>, i: nat, v: nat, job: RegulatedPass.Job)
    requires Ok(plan) && Run(plan, tr) && i < |tr| && Inv(plan, tr[i]) && v < |tr[i].ts| && Opens(tr[i], v)
    requires tr[i].ts[v].round < |plan.cs| && PassOk(plan, plan.cs[tr[i].ts[v].round]) && tr[i].ts[v].stage == Work(job)
    ensures exists s' :: StepOfThread(plan, tr[i], s', v)
  {
    var s := tr[i];
    var rd := s.ts[v].round;
    match job {
      case Scattering(k) =>
        if k >= plan.threads {
          assert StepOfThread(plan, s, Go(s, v, Work(AtBarrier)), v);
        } else if s.pcs[rd][k] == Scatter(|plan.cs[rd].inputs[k]|) {
          assert StepOfThread(plan, s, Go(s, v, Work(Scattering(k + plan.writers))), v);
        } else {
          ServeGoesOn(plan, tr, i, v, k);
          var s' :| Serves(plan, s, s', rd, k);
          assert StepOfThread(plan, s, s', v);
        }
      case AtBarrier => assert StepOfThread(plan, s, Go(s, v, Work(if v < plan.writers then Draining(v) else Finished)), v);
      case Draining(k) =>
        if k >= plan.threads {
          assert StepOfThread(plan, s, Go(s, v, Work(Finished)), v);
        } else if s.pcs[rd][k] == Done {
          assert StepOfThread(plan, s, Go(s, v, Work(Draining(k + plan.writers))), v);
        } else {
          ServeGoesOn(plan, tr, i, v, k);
          var s' :| Serves(plan, s, s', rd, k);
          assert StepOfThread(plan, s, s', v);
        }
      case Finished => assert StepOfThread(plan, s, s.(ts := s.ts[v := Thread(rd + 1, Count)]), v);
    }
  }

  // ----- who writes -----

  /** The chunk that a thread serves is its own, and not drained yet. */
  lemma ServedChunk(plan: Plan, tr: seq<State>, i: nat, s': State, v: nat)
    requires Ok(plan) && Run(plan, tr) && i < |tr| && StepOfThread(plan, tr[i], s', v) && s'.ts == tr[i].ts
    ensures v < plan.writers && Serving(tr[i].ts[v])
    ensures var rd, k := tr[i].ts[v].round, tr[i].ts[v].stage.job.k;
      Serves(plan, tr[i], s', rd, k) && WriterOf(k, plan.writers) == v && !tr[i].pcs[rd][k].Done?
  {
    var s := tr[i];
    RunHasInv(plan, tr, i);
    var rd := s.ts[v].round;
    var rt := PassIsRegulated(plan, tr, i, rd);
    assert RoleOk(plan, v, s.ts[v]) && PassOk(plan, plan.cs[rd]);
    assert Rank(s.ts[v]) >= 8 * rd + 4;
    var x := rt[|rt| - 1];
    RegRunShape(plan.cs[rd], plan.writers, rt);
    assert JobOk(plan.writers, v, x.jobs[v]);
    assert ChunkOk(plan.cs[rd], x.s, x.jobs[v], s.ts[v].stage.job.k);
  }

  /** Only writing threads store to the arrays, and each chunk is served by one of them alone: the one
      whose number is the remainder of the chunk's. */
  lemma OnlyWritersStore(plan: Plan, tr: seq<State>, i: nat, v: nat)
    requires Ok(plan) && Run(plan, tr) && i + 1 < |tr| && StepOfThread(plan, tr[i], tr[i + 1], v)
    ensures tr[i + 1].mems != tr[i].mems ==> v < plan.writers
    ensures |tr[i].pcs| == |tr[i + 1].pcs| == |plan.cs|
    ensures forall rd: nat, k: nat :: rd < |plan.cs| && k < |tr[i].pcs[rd]| == |tr[i + 1].pcs[rd]| && tr[i + 1].pcs[rd][k] != tr[i].pcs[rd][k] ==>
              v < plan.writers && v == k % plan.writers
  {
    if tr[i + 1].ts == tr[i].ts {
      ServedChunk(plan, tr, i, tr[i + 1], v);
      OffIsRemainder(tr[i].ts[v].stage.job.k, plan.writers);
    }
  }

  // ----- every run ends -----

  /** What is left of a pass. */
  function PcsLeftOf(c: Config, pcs: seq<Pc>): nat -> nat {
    (k: nat) => if k < |pcs| && k < |c.inputs| then Left(c, k, pcs[k]) else 0
  }

  function PassesLeftOf(cs: seq<Config>, pcs: seq<seq<Pc>>): nat -> nat {
    (rd: nat) => if rd < |cs| && rd < |pcs| then SumTo(PcsLeftOf(cs[rd], pcs[rd]), |cs[rd].inputs|) else 0
  }

  /** What a thread can still do within a pass, besides serving. */
  function StageLeft(n: nat, fanout: nat, stage: Stage): nat {
    match stage
    case Count => fanout + 2 * n + 10
    case AtHistogram => fanout + 2 * n + 9
    case Reset(p) => Rest(fanout, p) + 2 * n + 8
    case AtStart => 2 * n + 7
    case Work(job) => match job
      case Scattering(k) => Rest(n, k) + n + 6
      case AtBarrier => n + 5
      case Draining(k) => Rest(n, k) + 3
      case Finished => 2
  }

  function ThreadLeft(rounds: nat, n: nat, fanout: nat, th: Thread): nat {
    if th.round >= rounds then 0
    else Times(rounds - th.round - 1, fanout + 2 * n + 10) + StageLeft(n, fanout, th.stage)
  }

  function ThreadsLeftOf(plan: Plan, ts: seq<Thread>): nat -> nat {
    (v: nat) => if v < |ts| then ThreadLeft(|plan.cs|, plan.threads, plan.fanout, ts[v]) else 0
  }

  function TotalLeft(plan: Plan, s: State): nat {
    SumTo(PassesLeftOf(plan.cs, s.pcs), |plan.cs|) + SumTo(ThreadsLeftOf(plan, s.ts), plan.threads)
  }

  lemma PcsDrop(c: Config, pcs: seq<Pc>, k: nat, pc: Pc)
    requires k < |pcs| == |c.inputs| && Left(c, k, pc) < Left(c, k, pcs[k])
    ensures SumTo(PcsLeftOf(c, pcs[k := pc]), |c.inputs|) < SumTo(PcsLeftOf(c, pcs), |c.inputs|)
  {
    SumToDrops(PcsLeftOf(c, pcs), PcsLeftOf(c, pcs[k := pc]), k, |c.inputs|);
  }

  lemma PassesDrop(cs: seq<Config>, pcs: seq<seq<Pc>>, rd: nat, k: nat, pc: Pc)
    requires rd < |cs| == |pcs| && k < |pcs[rd]| == |cs[rd].inputs| && Left(cs[rd], k, pc) < Left(cs[rd], k, pcs[rd][k])
    ensures SumTo(PassesLeftOf(cs, pcs[rd := pcs[rd][k := pc]]), |cs|) < SumTo(PassesLeftOf(cs, pcs), |cs|)
  {
    PcsDrop(cs[rd], pcs[rd], k, pc);
    SumToDrops(PassesLeftOf(cs, pcs), PassesLeftOf(cs, pcs[rd := pcs[rd][k := pc]]), rd, |cs|);
  }

  ghost predicate ThreadDrops(plan: Plan, s: State, s': State, v: nat) {
    && v < |s.ts| == |s'.ts| && s'.ts == s.ts[v := s'.ts[v]] && s'.pcs == s.pcs
    && ThreadLeft(|plan.cs|, plan.threads, plan.fanout, s'.ts[v]) < ThreadLeft(|plan.cs|, plan.threads, plan.fanout, s.ts[v])
  }

  lemma WorkDrops(plan: Plan, s: State, s': State, v: nat)
    requires Ok(plan) && StepOfThread(plan, s, s', v) && s'.ts != s.ts && s.ts[v].stage.Work?
    ensures ThreadDrops(plan, s, s', v)
  {
    assert WorkStep(plan, s, s', v, s.ts[v].stage.job);
  }

  lemma SetupDrops(plan: Plan, s: State, s': State, v: nat)
    requires Ok(plan) && StepOfThread(plan, s, s', v) && !s.ts[v].stage.Work?
    ensures ThreadDrops(plan, s, s', v)
  {
  }

  lemma MoveUsesOneUp(plan: Plan, s: State, s': State, v: nat)
    requires Ok(plan) && StepOfThread(plan, s, s', v) && s'.ts != s.ts
    ensures TotalLeft(plan, s') < TotalLeft(plan, s)
  {
    if s.ts[v].stage.Work? {
      WorkDrops(plan, s, s', v);
    } else {
      SetupDrops(plan, s, s', v);
    }
    SumToDrops(ThreadsLeftOf(plan, s.ts), ThreadsLeftOf(plan, s'.ts), v, plan.threads);
  }

  lemma ServeUsesOneUp(plan: Plan, s: State, s': State, rd: nat, k: nat)
    requires Ok(plan) && Shaped(plan, s) && rd < |plan.cs| && k < plan.threads && Serves(plan, s, s', rd, k) && !s.pcs[rd][k].Done?
    ensures TotalLeft(plan, s') < TotalLeft(plan, s)
  {
    assert PassOk(plan, plan.cs[rd]);
    var wr := View(plan, s, rd).ws[k];
    ActUsesOneUp(plan.cs[rd], k, wr);
    PassesDrop(plan.cs, s.pcs, rd, k, Act(plan.cs[rd], k, wr).0.pc);
  }

  lemma ServingUsesOneUp(plan: Plan, tr: seq<State>, i: nat, s': State, v: nat)
    requires Ok(plan) && Run(plan, tr) && i < |tr| && StepOfThread(plan, tr[i], s', v) && s'.ts == tr[i].ts
    ensures TotalLeft(plan, s') < TotalLeft(plan, tr[i])
  {
    var s := tr[i];
    ServedChunk(plan, tr, i, s', v);
    RunHasInv(plan, tr, i);
    ServeUsesOneUp(plan, s, s', s.ts[v].round, s.ts[v].stage.job.k);
  }

  lemma OneStepUsed(plan: Plan, tr: seq<State>, i: nat)
    requires Ok(plan) && Run(plan, tr) && i + 1 < |tr|
    ensures TotalLeft(plan, tr[i + 1]) < TotalLeft(plan, tr[i])
  {
    StepOf(tr, (s: State) => Init(plan, s), (s: State, s': State) => Next(plan, s, s'), i + 1);
    var s, s' := tr[i], tr[i + 1];
    var v: nat :| StepOfThread(plan, s, s', v);
    if s'.ts == s.ts {
      ServingUsesOneUp(plan, tr, i, s', v);
    } else {
      MoveUsesOneUp(plan, s, s', v);
    }
  }

  lemma {:induction false} LeftDrops(plan: Plan, tr: seq<State>, i: nat)
    requires Ok(plan) && Run(plan, tr) && i < |tr|
    ensures TotalLeft(plan, tr[i]) + i <= TotalLeft(plan, tr[0])
  {
    if i > 0 {
      LeftDrops(plan, tr, i - 1);
      OneStepUsed(plan, tr, i - 1);
    }
  }

  function PassBudgets(plan: Plan): nat -> nat {
    (rd: nat) => if rd < |plan.cs| then SumTo(Budget(plan.cs[rd]), |plan.cs[rd].inputs|) else 0
  }

  /** The work of all passes, and what every thread does besides: barriers, slot counters, and its way
      through the chunks. */
  function TotalBudget(plan: Plan): nat {
    SumTo(PassBudgets(plan), |plan.cs|) + Times(plan.threads, Times(|plan.cs|, plan.fanout + 2 * plan.threads + 10))
  }

  lemma PassWithinBudget(plan: Plan, s: State, rd: nat)
    requires Ok(plan) && Init(plan, s) && rd < |plan.cs|
    ensures PassesLeftOf(plan.cs, s.pcs)(rd) == PassBudgets(plan)(rd)
  {
    var c := plan.cs[rd];
    assert PassOk(plan, c);
    SumToSame(PcsLeftOf(c, s.pcs[rd]), Budget(c), |c.inputs|);
  }

  lemma PassesWithinBudget(plan: Plan, s: State)
    requires Ok(plan) && Init(plan, s)
    ensures SumTo(PassesLeftOf(plan.cs, s.pcs), |plan.cs|) == SumTo(PassBudgets(plan), |plan.cs|)
  {
    forall rd: nat | rd < |plan.cs|
      ensures PassesLeftOf(plan.cs, s.pcs)(rd) == PassBudgets(plan)(rd)
    {
      PassWithinBudget(plan, s, rd);
    }
    SumToSame(PassesLeftOf(plan.cs, s.pcs), PassBudgets(plan), |plan.cs|);
  }

  lemma FreshThread(rounds: nat, n: nat, fanout: nat)
    ensures ThreadLeft(rounds, n, fanout, Thread(0, Count)) <= Times(rounds, fanout + 2 * n + 10)
  {
  }

  lemma ThreadsWithinBudget(plan: Plan, s: State)
    requires Ok(plan) && Init(plan, s)
    ensures SumTo(ThreadsLeftOf(plan, s.ts), plan.threads) <= Times(plan.threads, Times(|plan.cs|, plan.fanout + 2 * plan.threads + 10))
  {
    FreshThread(|plan.cs|, plan.threads, plan.fanout);
    SumToAtMost(ThreadsLeftOf(plan, s.ts), Times(|plan.cs|, plan.fanout + 2 * plan.threads + 10), plan.threads);
  }

  lemma StartWithinBudget(plan: Plan, s: State)
    requires Ok(plan) && Init(plan, s)
    ensures TotalLeft(plan, s) <= TotalBudget(plan)
  {
    PassesWithinBudget(plan, s);
    ThreadsWithinBudget(plan, s);
  }

  /** No run is longer than that. */
  lemma RunsEnd(plan: Plan, tr: seq<State>)
    requires Ok(plan) && Run(plan, tr)
    ensures |tr| - 1 <= TotalBudget(plan)
  {
    LeftDrops(plan, tr, |tr| - 1);
    StartWithinBudget(plan, tr[0]);
  }
}
