/** Writing a page body: greedy batches of at most 100 blocks, and the write whose last block is the
    sentinel, so that a cut-off write can always be told from a whole one. */
module PageWrite {
  import opened Seqs

  const BATCH: nat := 100
  const FORMAT_VERSION: nat := 3

  /** What the sentinel pattern reads in a block's text: the name and the converter's version. */
  datatype Mark = Mark(ident: string, version: nat)

  /** A block: its text stands for the whole content, `rows` are a table's, `mark` is read from the text. */
  datatype Block = Block(text: string, rows: nat, mark: Option<Mark>)

  // ---------- batches ----------

  function Cost(b: Block): nat { 1 + b.rows }

  function Weight(bs: seq<Block>): nat {
    if bs == [] then 0 else Weight(Init(bs)) + Cost(Last(bs))
  }

  function Flatten(batches: seq<seq<Block>>): seq<Block> {
    if batches == [] then [] else Flatten(Init(batches)) + Last(batches)
  }

  /** No batch is empty, and each weighs at most the limit unless it is one oversized block. */
  ghost predicate Batched(batches: seq<seq<Block>>) {
    forall i | 0 <= i < |batches| :: batches[i] != [] && (Weight(batches[i]) <= BATCH || |batches[i]| == 1)
  }

  /** No batch had room for the first block of the next. */
  ghost predicate Tight(batches: seq<seq<Block>>) {
    forall i | 0 < i < |batches| :: NoRoom(batches[i - 1], batches[i])
  }

  predicate NoRoom(batch: seq<Block>, next: seq<Block>) {
    next != [] && Weight(batch) + Cost(next[0]) > BATCH
  }

  /** A closed batch joins the others. */
  lemma CloseBatch(out: seq<seq<Block>>, current: seq<Block>)
    requires Batched(out) && Tight(out) && current != []
    requires Weight(current) <= BATCH || |current| == 1
    requires out != [] ==> NoRoom(Last(out), current)
    ensures Batched(out + [current]) && Tight(out + [current])
    ensures Flatten(out + [current]) == Flatten(out) + current
  {
    FlattenSnoc(out, current);
    var all := out + [current];
    forall i | 0 < i < |all| ensures NoRoom(all[i - 1], all[i]) {
      if i < |out| {
        assert NoRoom(out[i - 1], out[i]);
      }
    }
  }

  lemma FlattenSnoc(batches: seq<seq<Block>>, b: seq<Block>)
    ensures Flatten(batches + [b]) == Flatten(batches) + b
  {
    SnocParts(batches, b);
  }

  lemma WeightSnoc(bs: seq<Block>, b: Block)
    ensures Weight(bs + [b]) == Weight(bs) + Cost(b)
  {
    SnocParts(bs, b);
  }

  /** The closed batches and the open one hold the blocks so far. */
  ghost predicate Packing(out: seq<seq<Block>>, current: seq<Block>, weight: int, done: seq<Block>) {
    && Flatten(out) + current == done && weight == Weight(current)
    && Batched(out) && Tight(out)
    && (current == [] ==> out == [])
    && (current != [] ==> weight <= BATCH || |current| == 1)
    && (current != [] && out != [] ==> NoRoom(Last(out), current))
  }

  /** The next block joins the open batch when there is room, else it opens one. */
  lemma PackMore(out: seq<seq<Block>>, current: seq<Block>, weight: int, blocks: seq<Block>, i: nat)
    requires i < |blocks| && Packing(out, current, weight, blocks[..i])
    ensures var cost := Cost(blocks[i]);
            if current != [] && weight + cost > BATCH then Packing(out + [current], [] + [blocks[i]], 0 + cost, blocks[..i + 1])
            else Packing(out, current + [blocks[i]], weight + cost, blocks[..i + 1])
  {
    hide Batched, Tight, Flatten, Weight;
    var b := blocks[i];
    TakeSnoc(blocks, i);
    WeightSnoc(current, b);
    EmptyWeighsNothing();
    if current == [] || weight + Cost(b) <= BATCH {
      AppendAssoc(Flatten(out), current, [b]);
    } else {
      CloseBatch(out, current);
      WeightSnoc([], b);
      assert [] + [b] == [b];
    }
  }

  lemma PackStart(blocks: seq<Block>)
    ensures Packing([], [], 0, blocks[..0])
  {
  }

  lemma PackEnd(out: seq<seq<Block>>, current: seq<Block>, weight: int, done: seq<Block>)
    requires Packing(out, current, weight, done)
    ensures var all := if current == [] then out else out + [current];
            Flatten(all) == done && Batched(all) && Tight(all)
  {
    hide Batched, Tight, Flatten, Weight;
    if current != [] {
      CloseBatch(out, current);
    }
  }

  /** Pack the blocks into batches, in order; a table's rows ride along inside it. */
  method Batches(blocks: seq<Block>) returns (out: seq<seq<Block>>)
    ensures Flatten(out) == blocks
    ensures Batched(out) && Tight(out)
  {
    hide Packing, Batched, Tight, Flatten;
    out := [];
    var current: seq<Block>, weight := [], 0;
    PackStart(blocks);
    for i := 0 to |blocks|
      invariant Packing(out, current, weight, blocks[..i])
    {
      var b := blocks[i];
      var cost := 1 + b.rows;
      PackMore(out, current, weight, blocks, i);
      if current != [] && weight + cost > BATCH {
        out := out + [current];
        current, weight := [], 0;
      }
      current := current + [b];
      weight := weight + cost;
    }
    assert blocks[..|blocks|] == blocks;
    PackEnd(out, current, weight, blocks);
    if current != [] {
      out := out + [current];
    }
  }

  lemma FlattenNone()
    ensures Flatten([]) == []
  {
  }

  lemma EmptyWeighsNothing()
    ensures Weight([]) == 0
  {
  }

  // ---------- no split uses fewer ----------

  lemma {:induction false} WeightAppend(a: seq<Block>, b: seq<Block>)
    ensures Weight(a + b) == Weight(a) + Weight(b)
  {
    if b == [] {
      assert a + b == a;
    } else {
      AppendParts(a, b);
      WeightAppend(a, Init(b));
    }
  }

  /** Where the first `n` batches end. */
  function EndOf(batches: seq<seq<Block>>, n: nat): nat
    requires n <= |batches|
  {
    |Flatten(batches[..n])|
  }

  lemma {:induction false} FlattenAppend(a: seq<seq<Block>>, b: seq<seq<Block>>)
    ensures Flatten(a + b) == Flatten(a) + Flatten(b)
  {
    if b == [] {
      assert a + b == a;
    } else {
      AppendParts(a, b);
      assert Flatten(a + b) == Flatten(a + Init(b)) + Last(b);
      assert Flatten(b) == Flatten(Init(b)) + Last(b);
      hide Flatten;
      FlattenAppend(a, Init(b));
      AppendAssoc(Flatten(a), Flatten(Init(b)), Last(b));
    }
  }

  /** The batch at `n` is the slice of the input between its two ends. */
  lemma BatchIsSlice(batches: seq<seq<Block>>, n: nat)
    requires n < |batches|
    ensures EndOf(batches, n + 1) == EndOf(batches, n) + |batches[n]| <= |Flatten(batches)|
    ensures Flatten(batches)[EndOf(batches, n)..EndOf(batches, n + 1)] == batches[n]
  {
    hide Flatten;
    var below := batches[n + 1..];
    TakeSnoc(batches, n);
    FlattenSnoc(batches[..n], batches[n]);
    FlattenAppend(batches[..n + 1], below);
    MiddleSlice(Flatten(batches[..n]), batches[n], Flatten(below));
  }

  lemma TakeSnoc<T>(xs: seq<T>, n: nat)
    requires n < |xs|
    ensures xs[..n + 1] == xs[..n] + [xs[n]] && xs[..n + 1] + xs[n + 1..] == xs
  {
  }

  lemma MiddleSlice<T>(a: seq<T>, b: seq<T>, c: seq<T>)
    ensures (a + b + c)[|a|..|a| + |b|] == b
  {
  }

  lemma SliceWeighsLess(bs: seq<Block>, a: nat, b: nat, lo: nat, hi: nat)
    requires a <= lo <= hi <= b <= |bs|
    ensures Weight(bs[lo..hi]) <= Weight(bs[a..b])
  {
    assert bs[a..b] == bs[a..lo] + bs[lo..hi] + bs[hi..b];
    WeightAppend(bs[a..lo] + bs[lo..hi], bs[hi..b]);
    WeightAppend(bs[a..lo], bs[lo..hi]);
  }

  /** The greedy packing stays ahead: its first `n` batches reach at least as far as any other's. */
  lemma {:induction false} GreedyStaysAhead(out: seq<seq<Block>>, other: seq<seq<Block>>, n: nat)
    requires Tight(out) && Flatten(out) == Flatten(other)
    requires forall i | 0 <= i < |other| :: Weight(other[i]) <= BATCH
    requires n <= |other| && n <= |out|
    ensures EndOf(out, n) >= EndOf(other, n)
  {
    if n > 0 {
      GreedyStaysAhead(out, other, n - 1);
      var bs := Flatten(out);
      BatchIsSlice(out, n - 1);
      BatchIsSlice(other, n - 1);
      if n == |out| {
        assert out[..n] == out;
      } else if EndOf(out, n) < EndOf(other, n) {
        OverlapTooHeavy(out, other, n);
      }
    }
  }

  /** A batch that starts no later than the greedy one and ends after it holds it and the next
      block: more than the limit. */
  lemma OverlapTooHeavy(out: seq<seq<Block>>, other: seq<seq<Block>>, n: nat)
    requires Tight(out) && Flatten(out) == Flatten(other) && 0 < n < |out| && n <= |other|
    requires EndOf(other, n - 1) <= EndOf(out, n - 1) && EndOf(out, n) < EndOf(other, n)
    ensures Weight(other[n - 1]) > BATCH
  {
    hide Weight, Flatten, Tight, EndOf, Cost;
    var bs, start, end := Flatten(out), EndOf(out, n - 1), EndOf(out, n);
    BatchIsSlice(out, n - 1);
    BatchIsSlice(other, n - 1);
    BatchIsSlice(out, n);
    TightAt(out, n);
    SliceStarts(bs, end, EndOf(out, n + 1));
    SliceTooHeavy(bs, EndOf(other, n - 1), start, end, EndOf(other, n));
  }

  lemma SliceTooHeavy(bs: seq<Block>, lo: nat, start: nat, end: nat, hi: nat)
    requires lo <= start <= end < hi <= |bs| && Weight(bs[start..end]) + Cost(bs[end]) > BATCH
    ensures Weight(bs[lo..hi]) > BATCH
  {
    hide Weight;
    SliceSnoc(bs, start, end);
    WeightSnoc(bs[start..end], bs[end]);
    SliceWeighsLess(bs, lo, hi, start, end + 1);
  }

  lemma SliceSnoc<T>(xs: seq<T>, lo: nat, hi: nat)
    requires lo <= hi < |xs|
    ensures xs[lo..hi + 1] == xs[lo..hi] + [xs[hi]]
  {
  }

  lemma SliceStarts<T>(xs: seq<T>, lo: nat, hi: nat)
    requires lo < hi <= |xs|
    ensures xs[lo..hi][0] == xs[lo]
  {
  }

  lemma TightAt(out: seq<seq<Block>>, n: nat)
    requires Tight(out) && 0 < n < |out|
    ensures NoRoom(out[n - 1], out[n])
  {
  }

  /** When every block fits, no order-preserving split within the limit uses fewer batches. */
  lemma GreedyIsOptimal(out: seq<seq<Block>>, other: seq<seq<Block>>)
    requires Batched(out) && Tight(out) && Flatten(out) == Flatten(other)
    requires forall i | 0 <= i < |other| :: Weight(other[i]) <= BATCH
    ensures |out| <= |other|
  {
    if |out| > |other| {
      assert out[|other|] != [];
      assert other[..|other|] == other;
      BatchIsSlice(out, |other|);
      GreedyStaysAhead(out, other, |other|);
    }
  }

  /** With every block within the limit, so is every batch. */
  lemma BatchesWithinLimit(out: seq<seq<Block>>)
    requires Batched(out) && forall i | 0 <= i < |Flatten(out)| :: Cost(Flatten(out)[i]) <= BATCH
    ensures forall i | 0 <= i < |out| :: Weight(out[i]) <= BATCH
  {
    forall i | 0 <= i < |out| ensures Weight(out[i]) <= BATCH {
      BatchIsSlice(out, i);
      if |out[i]| == 1 {
        assert out[i] == [] + [out[i][0]];
        WeightSnoc([], out[i][0]);
        assert out[i][0] == Flatten(out)[EndOf(out, i)];
      }
    }
  }

  // ---------- the write ----------

  predicate Matches(b: Block, ident: string) {
    b.mark == Some(Mark(ident, FORMAT_VERSION))
  }

  predicate HasSentinel(blocks: seq<Block>, ident: string) {
    blocks != [] && Matches(Last(blocks), ident)
  }

  /** A body ends in its sentinel, and no earlier block of it reads as one. */
  ghost predicate BodyOk(body: seq<Block>, ident: string) {
    HasSentinel(body, ident) && forall i | 0 <= i < |body| - 1 :: !Matches(body[i], ident)
  }

  datatype Child = Child(id: nat, block: Block)
  function BlocksOf(cs: seq<Child>): (r: seq<Block>)
    ensures |r| == |cs|
  {
    seq(|cs|, i requires 0 <= i < |cs| => cs[i].block)
  }

  lemma BlocksOfSnoc(cs: seq<Child>, c: Child)
    ensures BlocksOf(cs + [c]) == BlocksOf(cs) + [c.block]
  {
  }

  datatype WriteEnd = Skipped | Written | Repaired | Cut

  /** What one attempt leaves, cut after `cut` calls: nothing on a whole page, else a suffix of what
      stood there, else the first batches of the body. */
  predicate AfterAttempt(before: seq<Block>, after: seq<Block>, ident: string, batches: seq<seq<Block>>, cut: nat) {
    if HasSentinel(before, ident) then after == before
    else if cut < |before| then after == before[cut..]
    else if cut - |before| < |batches| then after == Flatten(batches[..cut - |before|])
    else after == Flatten(batches)
  }

  class Page {
    var children: seq<Child>
    var nextId: nat

    ghost predicate Valid()
      reads this
    {
      && (forall i | 0 <= i < |children| :: children[i].id < nextId)
      && (forall i, j | 0 <= i < j < |children| :: children[i].id != children[j].id)
    }

    ghost function Blocks(): seq<Block>
      reads this
    {
      BlocksOf(children)
    }

    /** DELETE one child by id. */
    method Delete(id: nat)
      requires Valid() && children != [] && children[0].id == id
      modifies this`children
      ensures Valid() && children == old(children)[1..] && Blocks() == old(Blocks())[1..]
    {
      var kept: seq<Child> := [];
      for i := 0 to |children|
        invariant kept == if i == 0 then [] else children[1..i]
      {
        if children[i].id != id {
          kept := kept + [children[i]];
        }
      }
      children := kept;
    }

    /** PATCH one batch onto the end. */
    method Append(batch: seq<Block>)
      requires Valid()
      modifies this
      ensures Valid() && Blocks() == old(Blocks()) + batch && nextId >= old(nextId)
    {
      for i := 0 to |batch|
        invariant Valid() && nextId >= old(nextId)
        invariant Blocks() == old(Blocks()) + batch[..i]
      {
        BlocksOfSnoc(children, Child(nextId, batch[i]));
        assert batch[..i + 1] == batch[..i] + [batch[i]];
        children := children + [Child(nextId, batch[i])];
        nextId := nextId + 1;
      }
    }

    lemma SentinelRead(ident: string)
      ensures HasSentinel(Blocks(), ident) <==> (children != [] && Matches(Last(children).block, ident))
    {
    }

    /** One attempt at writing `body`, cut after `cut` DELETE and PATCH calls. */
    method WriteBody(ident: string, body: seq<Block>, cut: nat) returns (end: WriteEnd, ghost batches: seq<seq<Block>>)
      requires Valid()
      modifies this
      ensures Valid()
      ensures Flatten(batches) == body && Batched(batches) && Tight(batches)
      ensures AfterAttempt(old(Blocks()), Blocks(), ident, batches, cut)
      ensures end.Skipped? <==> HasSentinel(old(Blocks()), ident)
      ensures end.Cut? <==> !end.Skipped? && cut < |old(Blocks())| + |batches|
      ensures end.Written? ==> old(Blocks()) == []
      ensures end.Repaired? ==> old(Blocks()) != []
    {
      hide Batched, Tight, Flatten, BlocksOf, HasSentinel, Matches;
      SentinelRead(ident);
      ghost var was := Blocks();
      var packed := Batches(body);
      batches := packed;
      if children != [] && Matches(Last(children).block, ident) {
        return Skipped, packed;
      }
      var stood := children;
      var calls := 0;
      for i := 0 to |stood|
        invariant Valid() && calls == i <= cut
        invariant children == stood[i..] && Blocks() == was[i..]
      {
        if calls == cut {
          return Cut, packed;
        }
        Delete(stood[i].id);
        calls := calls + 1;
      }
      FlattenNone();
      assert packed[..0] == [];
      for i := 0 to |packed|
        invariant Valid() && calls == |stood| + i <= cut
        invariant Blocks() == Flatten(packed[..i])
      {
        if calls == cut {
          return Cut, packed;
        }
        assert packed[..i + 1] == packed[..i] + [packed[i]];
        FlattenSnoc(packed[..i], packed[i]);
        Append(packed[i]);
        calls := calls + 1;
      }
      assert packed[..|packed|] == packed;
      end := if stood == [] then Written else Repaired;
    }
  }

  // ---------- any schedule of attempts ----------

  /** One attempt: the body it would write, how that packs, and where it is cut. */
  datatype Attempt = Attempt(body: seq<Block>, batches: seq<seq<Block>>, cut: nat)

  ghost predicate AttemptOk(a: Attempt, ident: string) {
    BodyOk(a.body, ident) && Flatten(a.batches) == a.body && Batched(a.batches)
  }

  /** `pages[i + 1]` is what attempt `i` leaves of `pages[i]`. */
  ghost predicate Schedule(pages: seq<seq<Block>>, attempts: seq<Attempt>, ident: string) {
    && |pages| == |attempts| + 1
    && forall i | 0 <= i < |attempts| ::
         AttemptOk(attempts[i], ident)
         && AfterAttempt(pages[i], pages[i + 1], ident, attempts[i].batches, attempts[i].cut)
  }

  /** The attempt runs to its end. */
  predicate Completes(before: seq<Block>, a: Attempt) {
    a.cut >= |before| + |a.batches|
  }

  lemma PartHasNoSentinel(a: Attempt, ident: string, n: nat)
    requires AttemptOk(a, ident) && n < |a.batches|
    ensures !HasSentinel(Flatten(a.batches[..n]), ident)
    ensures Flatten(a.batches[..n]) < a.body
  {
    BatchIsSlice(a.batches, n);
    assert a.batches == a.batches[..n] + a.batches[n..];
    FlattenAppend(a.batches[..n], a.batches[n..]);
    var part := Flatten(a.batches[..n]);
    if part != [] {
      assert a.body[|part| - 1] == Last(part);
    }
  }

  /** An attempt on a page without the sentinel leaves one with it exactly when it completes, and
      then the page holds exactly the body. */
  lemma AttemptIsAllOrNothing(before: seq<Block>, after: seq<Block>, a: Attempt, ident: string)
    requires AttemptOk(a, ident) && AfterAttempt(before, after, ident, a.batches, a.cut)
    requires !HasSentinel(before, ident)
    ensures HasSentinel(after, ident) <==> Completes(before, a)
    ensures Completes(before, a) ==> after == a.body
  {
    if a.cut < |before| {
      assert Last(before[a.cut..]) == Last(before);
    } else if a.cut - |before| < |a.batches| {
      PartHasNoSentinel(a, ident, a.cut - |before|);
    }
  }

  /** For any schedule of attempts, a page that ends in the matching sentinel holds exactly the whole
      body of one attempt that completed, unless it already did at the start. */
  lemma {:induction false} SentinelMeansWhole(pages: seq<seq<Block>>, attempts: seq<Attempt>, ident: string, n: nat)
    requires Schedule(pages, attempts, ident) && n < |pages|
    requires HasSentinel(pages[n], ident) && !HasSentinel(pages[0], ident)
    ensures exists i | 0 <= i < n :: pages[n] == attempts[i].body && Completes(pages[i], attempts[i])
                                     && !HasSentinel(pages[i], ident)
  {
    var a := attempts[n - 1];
    if HasSentinel(pages[n - 1], ident) {
      SentinelMeansWhole(pages, attempts, ident, n - 1);
    } else {
      AttemptIsAllOrNothing(pages[n - 1], pages[n], a, ident);
    }
  }

  /** Once the page is whole, every later attempt writes nothing. */
  lemma {:induction false} WholePageStays(pages: seq<seq<Block>>, attempts: seq<Attempt>, ident: string, m: nat, n: nat)
    requires Schedule(pages, attempts, ident) && m <= n < |pages| && HasSentinel(pages[m], ident)
    ensures pages[n] == pages[m]
  {
    if m < n {
      WholePageStays(pages, attempts, ident, m, n - 1);
    }
  }

  /** The first attempt that completes leaves exactly its body, and the page stays so for good. */
  lemma FirstCompletionIsFinal(pages: seq<seq<Block>>, attempts: seq<Attempt>, ident: string, i: nat, n: nat)
    requires Schedule(pages, attempts, ident) && i < n < |pages|
    requires !HasSentinel(pages[0], ident) && Completes(pages[i], attempts[i])
    requires forall j | 0 <= j < i :: !Completes(pages[j], attempts[j])
    ensures pages[n] == attempts[i].body
  {
    NotWholeBefore(pages, attempts, ident, i);
    AttemptIsAllOrNothing(pages[i], pages[i + 1], attempts[i], ident);
    WholePageStays(pages, attempts, ident, i + 1, n);
  }

  lemma {:induction false} NotWholeBefore(pages: seq<seq<Block>>, attempts: seq<Attempt>, ident: string, i: nat)
    requires Schedule(pages, attempts, ident) && i < |pages| && !HasSentinel(pages[0], ident)
    requires forall j | 0 <= j < i :: !Completes(pages[j], attempts[j])
    ensures !HasSentinel(pages[i], ident)
  {
    if i > 0 {
      NotWholeBefore(pages, attempts, ident, i - 1);
      AttemptIsAllOrNothing(pages[i - 1], pages[i], attempts[i - 1], ident);
    }
  }
}
