/** The task queue that ties the phases together, and the block allocator behind it.  Every operation
    runs under a mutex, so what threads do to a queue is a sequence of whole operations. */
module TaskQueues {
  import opened Bits

  /** A slot of the queue's allocator, as far as the queue uses it. */
  class Node {
    var next: Node?

    constructor ()
      ensures next == null
    {
      next := null;
    }
  }

  // ----- whole histories -----

  datatype Op<T> = Add(task: T) | Get

  datatype History<T> = History(queue: seq<T>, added: seq<T>, fetched: seq<T>)

  /** What one operation, of whichever thread, does to the queue. */
  function Apply<T>(h: History<T>, op: Op<T>): History<T> {
    match op
    case Add(t) => History([t] + h.queue, h.added + [t], h.fetched)
    case Get => if h.queue == [] then h else History(h.queue[1..], h.added, h.fetched + [h.queue[0]])
  }

  function Replay<T>(ops: seq<Op<T>>): History<T> {
    if ops == [] then History([], [], []) else Apply(Replay(ops[..|ops| - 1]), ops[|ops| - 1])
  }

  lemma ApplyConserves<T>(h: History<T>, op: Op<T>)
    requires multiset(h.added) == multiset(h.fetched) + multiset(h.queue)
    ensures var h' := Apply(h, op); multiset(h'.added) == multiset(h'.fetched) + multiset(h'.queue)
  {
    if op.Get? && h.queue != [] {
      assert h.queue == [h.queue[0]] + h.queue[1..];
    }
  }

  /** Over any interleaving of adds and gets, the tasks added are those fetched and those left. */
  lemma {:induction false} TasksAreConserved<T>(ops: seq<Op<T>>)
    ensures var h := Replay(ops); multiset(h.added) == multiset(h.fetched) + multiset(h.queue)
  {
    if ops != [] {
      TasksAreConserved(ops[..|ops| - 1]);
      ApplyConserves(Replay(ops[..|ops| - 1]), ops[|ops| - 1]);
    }
  }

  /** Each added task is fetched at most as often as it was added, and exactly as often if the queue
      ends empty. */
  lemma FetchedOnce<T>(ops: seq<Op<T>>, t: T)
    ensures var h := Replay(ops);
      && multiset(h.fetched)[t] <= multiset(h.added)[t]
      && (h.queue == [] ==> multiset(h.fetched) == multiset(h.added))
  {
    TasksAreConserved(ops);
  }

  function At(list: seq<Node>, i: nat): Node? { if i < |list| then list[i] else null }

  class TaskQueue {
    var head: Node?
    var count: nat
    ghost var list: seq<Node>
    ghost var history: History<Node>

    /** `count` is the length of the list, the list has no cycle, and it is what all operations so far
        have left. */
    ghost predicate Valid()
      reads this, list
    {
      && history.queue == list && count == |list| && head == At(list, 0)
      && (forall i: nat, j: nat :: i < j < |list| ==> list[i] != list[j])
      && (forall i: nat :: i < |list| ==> list[i].next == At(list, i + 1))
    }

    /** `task_queue_init` */
    constructor ()
      ensures Valid() && list == [] && history == Replay([])
    {
      head, count, list, history := null, 0, [], History([], [], []);
    }

    /** `task_queue_get_atomic` */
    method Get() returns (ret: Node?)
      requires Valid()
      modifies this
      ensures Valid()
      ensures history == Apply(old(history), Op.Get)
      ensures old(list) == [] ==> ret == null && list == []
      ensures old(list) != [] ==> ret == old(list)[0] && list == old(list)[1..] && ret !in list
    {
      ret := null;
      history := Apply(history, Op.Get);
      if count > 0 {
        ret := head;
        head := head.next;
        count := count - 1;
        list := list[1..];
      }
    }

    /** `task_queue_add_atomic` */
    method Add(t: Node)
      requires Valid() && t !in list
      modifies this, t
      ensures Valid() && list == [t] + old(list) && history == Apply(old(history), Op.Add(t))
    {
      t.next := head;
      head := t;
      count := count + 1;
      list := [t] + list;
      history := Apply(history, Op.Add(t));
    }
  }

  // ----- slots -----

  /** A block of slots; `curr` of them have been handed out. */
  class Block {
    const next: Block?
    var curr: nat

    constructor (curr0: nat, next0: Block?)
      ensures curr == curr0 && next == next0
    {
      curr, next := curr0, next0;
    }
  }

  /** The address of a slot: `&block->tasks[index]`. */
  datatype Slot = Slot(block: Block, index: nat)

  function BlockAt(chain: seq<Block>, i: nat): Block? { if i < |chain| then chain[i] else null }

  /** `task_queue_get_slot`, and `get_new_bucket` for overflow buckets: slots come from the newest
      block, and a full block is followed by a new one. */
  class SlotAllocator {
    const allocNum: nat
    var freeList: Block
    ghost var older: seq<Block>
    ghost var handed: set<Slot>

    /** All blocks but the newest are full, each points to the next older one, and as many slots have
        been handed out as the blocks count. */
    ghost predicate Valid()
      reads this, freeList, older
    {
      && 0 < allocNum && freeList.curr <= allocNum && Linked()
      && (forall b :: b in older ==> b != freeList && b.curr == allocNum)
      && (forall s :: s in handed ==> s.block == freeList || s.block in older)
      && (forall s :: s in handed ==> s.index < s.block.curr)
      && |handed| == Times(|older|, allocNum) + freeList.curr
    }

    ghost predicate Linked()
      reads this
    {
      && freeList.next == BlockAt(older, 0)
      && (forall i: nat :: i < |older| ==> older[i].next == BlockAt(older, i + 1))
    }

    /** `task_queue_init` */
    constructor (n: nat)
      requires 0 < n
      ensures Valid() && allocNum == n && handed == {} && older == [] && fresh(freeList)
    {
      allocNum := n;
      freeList := new Block(0, null);
      older := [];
      handed := {};
    }

    /** The next slot of the newest block, or the first one of a new block if that is full; never one
        that was handed out before. */
    method GetSlot() returns (ret: Slot)
      requires Valid()
      modifies this, freeList
      ensures Valid() && ret !in old(handed) && handed == old(handed) + {ret} && ret.index < allocNum
      ensures old(freeList.curr) < allocNum ==>
        freeList == old(freeList) && ret == Slot(freeList, old(freeList.curr)) && older == old(older)
      ensures old(freeList.curr) == allocNum ==>
        fresh(freeList) && ret == Slot(freeList, 0) && older == [old(freeList)] + old(older)
    {
      var l := freeList;
      if l.curr < allocNum {
        ret := Slot(l, l.curr);
        l.curr := l.curr + 1;
      } else {
        var nl := new Block(1, freeList);
        older := [freeList] + older;
        freeList := nl;
        ret := Slot(nl, 0);
        assert Linked();
      }
      handed := handed + {ret};
    }
  }
}
