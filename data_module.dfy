/**
 * `generate_batch` of the text classifier's data module: packs a batch of
 * `(label, tokens)` entries into the flat layout an embedding bag reads,
 * the concatenated tokens, the offset where each entry's tokens begin, and
 * the labels.
 *
 * Tensors are modelled as sequences of ints. The data module's dataset
 * download, random split and data loaders are not part of this model.
 */
module DataModule {
  import opened Wrappers
  import opened Seqs

  /** A batch entry: the label and the token ids of one text. */
  type Entry = (int, seq<int>)

  /** `(concated_tokens_batch, offset_batch, label_batch)`. */
  datatype Batch = Batch(tokens: seq<int>, offsets: seq<int>, labels: seq<int>)

  function Sum(s: seq<nat>): nat
  {
    if s == [] then 0 else s[0] + Sum(s[1..])
  }

  /** `tensor(s).cumsum(dim=0)`: the running totals, starting from `acc`. */
  function CumSumFrom(acc: nat, s: seq<nat>): seq<nat>
    decreases s
  {
    if s == [] then [] else [acc + s[0]] + CumSumFrom(acc + s[0], s[1..])
  }

  function CumSum(s: seq<nat>): seq<nat>
  {
    CumSumFrom(0, s)
  }

  /** `torch.cat(ts)`: the sequences one after the other. */
  function Concat(ts: seq<seq<int>>): seq<int>
  {
    if ts == [] then [] else ts[0] + Concat(ts[1..])
  }

  /** The token lists of a batch, in batch order. */
  function TokensOf(batch: seq<Entry>): (ts: seq<seq<int>>)
    ensures |ts| == |batch|
    ensures forall i :: 0 <= i < |batch| ==> ts[i] == batch[i].1
  {
    seq(|batch|, i requires 0 <= i < |batch| => batch[i].1)
  }

  /** `[len(tokens) for tokens in tokens_batch]`. */
  function Counts(ts: seq<seq<int>>): (cs: seq<nat>)
    ensures |cs| == |ts|
    ensures forall i :: 0 <= i < |ts| ==> cs[i] == |ts[i]|
  {
    seq(|ts|, i requires 0 <= i < |ts| => |ts[i]|)
  }

  /** `s[:-1]` in Python: all but the last element, and nothing of an empty list. */
  function DropLast(s: seq<nat>): (t: seq<nat>)
    ensures s != [] ==> t == s[..|s| - 1]
    ensures s == [] ==> t == []
  {
    if s == [] then [] else s[..|s| - 1]
  }

  /** The exclusive prefix sums: entry `i` is the sum of the counts before `i`. */
  function PrefixSums(cs: seq<nat>): (ps: seq<nat>)
    ensures |ps| == |cs|
    ensures forall i :: 0 <= i < |cs| ==> ps[i] == Sum(cs[..i])
  {
    seq(|cs|, i requires 0 <= i < |cs| => Sum(cs[..i]))
  }

  /**
   * `generate_batch`. `torch.cat` of an empty list raises a `RuntimeError`,
   * so an empty batch fails; otherwise there is one label and one offset per
   * entry, the offsets are the exclusive prefix sums of the token counts, and
   * each entry's tokens sit in the concatenation at their offset.
   */
  function GenerateBatch(batch: seq<Entry>): (r: Result<Batch>)
    ensures r.Failure? <==> batch == []
    ensures r.Failure? ==> r.error == RuntimeError
    ensures r.Success? ==>
      && |r.value.labels| == |batch|
      && (forall i :: 0 <= i < |batch| ==> r.value.labels[i] == batch[i].0)
      && r.value.offsets == PrefixSums(Counts(TokensOf(batch)))
      && |r.value.tokens| == Sum(Counts(TokensOf(batch)))
      && (forall i :: 0 <= i < |batch| ==>
            r.value.offsets[i] + |batch[i].1| <= |r.value.tokens|
            && r.value.tokens[r.value.offsets[i]..r.value.offsets[i] + |batch[i].1|] == batch[i].1)
  {
    if batch == [] then
      Failure(RuntimeError)
    else
      var labels := seq(|batch|, i requires 0 <= i < |batch| => batch[i].0);
      var tokens := TokensOf(batch);
      var counts := Counts(tokens);
      var offsets := CumSum([0] + DropLast(counts));
      OffsetsArePrefixSums(counts);
      assert offsets == PrefixSums(counts);
      ConcatLength(tokens);
      ConcatSlices(tokens);
      Success(Batch(Concat(tokens), offsets, labels))
  }

  // ---------------------------------------------------------------------
  // Lemmas
  // ---------------------------------------------------------------------

  lemma SumCons(x: nat, s: seq<nat>)
    ensures Sum([x] + s) == x + Sum(s)
  {
    assert ([x] + s)[1..] == s;
  }

  /** Each running total is the start value plus the sum of the prefix up to it. */
  lemma {:induction false} CumSumFromAt(acc: nat, s: seq<nat>)
    decreases s
    ensures |CumSumFrom(acc, s)| == |s|
    ensures forall i :: 0 <= i < |s| ==> CumSumFrom(acc, s)[i] == acc + Sum(s[..i + 1])
  {
    if s != [] {
      CumSumFromAt(acc + s[0], s[1..]);
      forall i | 0 <= i < |s|
        ensures CumSumFrom(acc, s)[i] == acc + Sum(s[..i + 1])
      {
        assert s[..i + 1] == [s[0]] + s[1..][..i];
        SumCons(s[0], s[1..][..i]);
        if i > 0 {
          assert s[1..][..i] == s[1..][..i - 1 + 1];
        }
      }
    }
  }

  /** The offsets `cumsum([0] + counts[:-1])` are the exclusive prefix sums of `counts`. */
  lemma OffsetsArePrefixSums(counts: seq<nat>)
    requires counts != []
    ensures |CumSum([0] + DropLast(counts))| == |counts|
    ensures forall i :: 0 <= i < |counts| ==> CumSum([0] + DropLast(counts))[i] == Sum(counts[..i])
  {
    var shifted := [0] + DropLast(counts);
    CumSumFromAt(0, shifted);
    forall i | 0 <= i < |counts|
      ensures CumSum(shifted)[i] == Sum(counts[..i])
    {
      assert shifted[..i + 1] == [0] + counts[..i];
      SumCons(0, counts[..i]);
    }
  }

  /** The concatenation is as long as all token counts together. */
  lemma {:induction false} ConcatLength(ts: seq<seq<int>>)
    ensures |Concat(ts)| == Sum(Counts(ts))
  {
    if ts != [] {
      ConcatLength(ts[1..]);
      assert Counts(ts) == [|ts[0]|] + Counts(ts[1..]);
      SumCons(|ts[0]|, Counts(ts[1..]));
    }
  }

  /** Where entry `i` starts in the concatenation, counted through the entries before it. */
  function Start(ts: seq<seq<int>>, i: nat): nat
    requires i <= |ts|
  {
    if i == 0 then 0 else |ts[0]| + Start(ts[1..], i - 1)
  }

  /** That start is the sum of the counts before `i`. */
  lemma {:induction false} StartIsSum(ts: seq<seq<int>>, i: nat)
    requires i <= |ts|
    ensures Start(ts, i) == Sum(Counts(ts)[..i])
  {
    if i == 0 {
      assert Counts(ts)[..0] == [];
    } else {
      StartIsSum(ts[1..], i - 1);
      assert Counts(ts)[..i] == [|ts[0]|] + Counts(ts[1..])[..i - 1];
      SumCons(|ts[0]|, Counts(ts[1..])[..i - 1]);
    }
  }

  /** Entry `i`'s tokens sit in the concatenation at its start. */
  lemma {:induction false} ConcatSliceAt(ts: seq<seq<int>>, i: nat)
    requires i < |ts|
    ensures Start(ts, i) + |ts[i]| <= |Concat(ts)|
    ensures Concat(ts)[Start(ts, i)..Start(ts, i) + |ts[i]|] == ts[i]
  {
    var rest := Concat(ts[1..]);
    assert Concat(ts) == ts[0] + rest;
    if i == 0 {
      SliceWithin(ts[0], rest, 0, |ts[0]|);
    } else {
      ConcatSliceAt(ts[1..], i - 1);
      var o := Start(ts[1..], i - 1);
      assert ts[1..][i - 1] == ts[i];
      SliceAfter(ts[0], rest, o, o + |ts[i]|);
    }
  }

  /** Entry `i`'s tokens sit in the concatenation at the sum of the counts before it. */
  lemma ConcatSlices(ts: seq<seq<int>>)
    ensures forall i :: 0 <= i < |ts| ==>
      Sum(Counts(ts)[..i]) + |ts[i]| <= |Concat(ts)|
      && Concat(ts)[Sum(Counts(ts)[..i])..Sum(Counts(ts)[..i]) + |ts[i]|] == ts[i]
  {
    forall i | 0 <= i < |ts|
      ensures Sum(Counts(ts)[..i]) + |ts[i]| <= |Concat(ts)|
      ensures Concat(ts)[Sum(Counts(ts)[..i])..Sum(Counts(ts)[..i]) + |ts[i]|] == ts[i]
    {
      ConcatSliceAt(ts, i);
      StartIsSum(ts, i);
    }
  }

  /**
   * The prefix sums start at 0, step by one count at a time, and, counts
   * being lengths, never decrease.
   */
  lemma PrefixSumsSteps(cs: seq<nat>)
    ensures cs != [] ==> PrefixSums(cs)[0] == 0
    ensures forall i :: 0 <= i < |cs| - 1 ==> PrefixSums(cs)[i + 1] == PrefixSums(cs)[i] + cs[i]
    ensures forall i, j :: 0 <= i <= j < |cs| ==> PrefixSums(cs)[i] <= PrefixSums(cs)[j]
  {
    if cs != [] {
      assert cs[..0] == [];
    }
    forall i | 0 <= i < |cs| - 1
      ensures PrefixSums(cs)[i + 1] == PrefixSums(cs)[i] + cs[i]
    {
      SumSnoc(cs[..i], cs[i]);
      assert cs[..i + 1] == cs[..i] + [cs[i]];
    }
    forall i, j | 0 <= i <= j < |cs|
      ensures PrefixSums(cs)[i] <= PrefixSums(cs)[j]
    {
      SumPrefixMonotone(cs, i, j);
    }
  }

  /** The offsets of a batch: the first is 0, each next one is further by one text's length. */
  lemma BatchOffsets(batch: seq<Entry>)
    requires batch != []
    ensures GenerateBatch(batch).Success?
    ensures |GenerateBatch(batch).value.offsets| == |batch|
    ensures GenerateBatch(batch).value.offsets[0] == 0
    ensures forall i :: 0 <= i < |batch| - 1 ==>
      GenerateBatch(batch).value.offsets[i + 1] - GenerateBatch(batch).value.offsets[i] == |batch[i].1|
    ensures forall i, j :: 0 <= i <= j < |batch| ==>
      GenerateBatch(batch).value.offsets[i] <= GenerateBatch(batch).value.offsets[j]
  {
    PrefixSumsSteps(Counts(TokensOf(batch)));
  }

  lemma {:induction false} SumSnoc(s: seq<nat>, x: nat)
    ensures Sum(s + [x]) == Sum(s) + x
  {
    if s == [] {
      assert [] + [x] == [x];
    } else {
      SumSnoc(s[1..], x);
      assert (s + [x])[1..] == s[1..] + [x];
    }
  }

  /** A longer prefix of counts has a sum at least as large. */
  lemma {:induction false} SumPrefixMonotone(s: seq<nat>, i: nat, j: nat)
    requires i <= j <= |s|
    ensures Sum(s[..i]) <= Sum(s[..j])
  {
    if i < j {
      SumPrefixMonotone(s, i, j - 1);
      SumSnoc(s[..j - 1], s[j - 1]);
      assert s[..j] == s[..j - 1] + [s[j - 1]];
    }
  }

  /** A concrete batch: two texts of two and one tokens. */
  lemma ExampleBatch(batch: seq<Entry>)
    requires batch == [(3, [10, 11]), (4, [12])]
    ensures GenerateBatch(batch) == Success(Batch([10, 11, 12], [0, 2], [3, 4]))
  {
    var tokens := TokensOf(batch);
    var counts := Counts(tokens);
    assert tokens == [[10, 11], [12]];
    assert counts == [2, 1];
    assert counts[..0] == [] && counts[..1] == [2];
    assert Sum([2]) == 2;
    assert PrefixSums(counts) == [0, 2];
    assert Concat(tokens) == [10, 11] + Concat([[12]]);
    assert Concat([[12]]) == [12] + Concat([]);
    var b := GenerateBatch(batch).value;
    assert b.labels == [3, 4];
    assert b.offsets == [0, 2];
    assert b.tokens == [10, 11, 12];
  }
}
