/** The two `size_t` accumulators of every kernel. */
module Accumulators {
  import opened Bits
  import opened Relations

  const WORD: nat := 0x1_0000_0000_0000_0000

  /** What a `size_t` keeps of a number. */
  function Word(x: nat): nat { Off(x, WORD) }

  lemma WordIsRemainder(x: nat)
    ensures Word(x) == x % WORD
  {
    OffIsRemainder(x, WORD);
  }

  lemma WordPlus(a: nat, b: nat)
    ensures Word(Word(a) + b) == Word(a + b)
    ensures Word(Word(a) + Word(b)) == Word(a + b)
  {
    WordIsRemainder(a);
    WordIsRemainder(b);
    WordIsRemainder(a + b);
    WordIsRemainder(Word(a) + b);
    WordIsRemainder(Word(a) + Word(b));
    ModPlus(a, b, WORD);
    ModPlus(b, Word(a), WORD);
  }

  datatype Totals = Totals(matched: nat, checksum: nat)

  const ZERO := Totals(0, 0)

  /** One accumulation, as the kernels write it: with a flag, and a multiplication by the flag. */
  function AddPair(acc: Totals, r: Tuple, s: Tuple): Totals {
    var flag := if s.key == r.key then 1 else 0;
    Totals(Word(acc.matched + flag), Word(acc.checksum + (r.rowId + s.rowId) * flag))
  }

  function AddTotals(a: Totals, b: Totals): Totals {
    Totals(Word(a.matched + b.matched), Word(a.checksum + b.checksum))
  }

  /** Two numbers, as far as `size_t` can tell. */
  function Sums(m: nat, c: nat): Totals {
    Totals(Word(m), Word(c))
  }

  function JoinTotals(R: seq<Tuple>, S: seq<Tuple>): Totals {
    Sums(NestedLoop(Matched, R, S), NestedLoop(Checksum, R, S))
  }

  function PartTotals(R: seq<Tuple>, S: seq<Tuple>, seen: seq<Tuple>, s: Tuple): Totals {
    Sums(NestedLoop(Matched, R, S) + ProbeOne(Matched, seen, s),
         NestedLoop(Checksum, R, S) + ProbeOne(Checksum, seen, s))
  }

  /** The totals of the nested-loop join. */
  ghost predicate IsJoin(acc: Totals, R: seq<Tuple>, S: seq<Tuple>) {
    acc == JoinTotals(R, S)
  }

  /** Part of the way: the join with `S`, and the pairs of `s` with the tuples of `seen`. */
  ghost predicate Partly(acc: Totals, R: seq<Tuple>, S: seq<Tuple>, seen: seq<Tuple>, s: Tuple) {
    acc == PartTotals(R, S, seen, s)
  }

  lemma PartlyZero(R: seq<Tuple>)
    ensures IsJoin(ZERO, R, [])
  {
    assert Word(0) == 0;
  }

  lemma PartlyStart(acc: Totals, R: seq<Tuple>, S: seq<Tuple>, s: Tuple)
    requires IsJoin(acc, R, S)
    ensures Partly(acc, R, S, [], s)
  {
  }

  lemma PartlyOne(acc: Totals, R: seq<Tuple>, S: seq<Tuple>, seen: seq<Tuple>, r: Tuple, s: Tuple)
    requires Partly(acc, R, S, seen, s)
    ensures Partly(AddPair(acc, r, s), R, S, seen + [r], s)
  {
    AddPairReads(acc, NestedLoop(Matched, R, S) + ProbeOne(Matched, seen, s),
                 NestedLoop(Checksum, R, S) + ProbeOne(Checksum, seen, s), r, s);
    ProbeSnoc(Matched, seen, r, s);
    ProbeSnoc(Checksum, seen, r, s);
  }

  lemma AddPairReads(acc: Totals, m: nat, c: nat, r: Tuple, s: Tuple)
    requires acc == Sums(m, c)
    ensures AddPair(acc, r, s) == Sums(m + Weight(Matched, r, s), c + Weight(Checksum, r, s))
  {
    WordPlus(m, Weight(Matched, r, s));
    WordPlus(c, Weight(Checksum, r, s));
  }

  lemma PartlyEnd(acc: Totals, R: seq<Tuple>, S: seq<Tuple>, seen: seq<Tuple>, i: nat)
    requires i < |S| && Partly(acc, R, S[..i], seen, S[i])
    requires forall w :: ProbeOne(w, seen, S[i]) == ProbeOne(w, R, S[i])
    ensures IsJoin(acc, R, S[..i + 1])
  {
    Snoc(S, i);
    JoinSnoc(Matched, R, S[..i], S[i]);
    JoinSnoc(Checksum, R, S[..i], S[i]);
  }

  lemma WholeJoin(acc: Totals, R: seq<Tuple>, S: seq<Tuple>)
    requires IsJoin(acc, R, S[..|S|])
    ensures IsJoin(acc, R, S)
  {
    assert S[..|S|] == S;
  }
}
