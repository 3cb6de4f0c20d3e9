/** Rich-text spans under two limits: at most 1900 characters a span, at most 100 spans a block. */
module Spans {
  import opened Seqs

  const CHUNK: nat := 1900
  const MAX_SPANS: nat := 100
  const LIMIT: nat := 190000

  datatype Marks = Marks(code: bool, bold: bool, italic: bool, link: Option<string>)
  datatype Span = Span(content: string, marks: Marks)

  const Plain: Marks := Marks(false, false, false, None)

  /** The text the spans spell. */
  function TextOf(spans: seq<Span>): string {
    if spans == [] then "" else TextOf(Init(spans)) + Last(spans).content
  }

  /** A content cut into pieces of at most CHUNK characters. */
  function Pieces(content: string): (r: seq<string>)
    ensures r != []
  {
    if |content| <= CHUNK then [content] else [content[..CHUNK]] + Pieces(content[CHUNK..])
  }

  function Marked(pieces: seq<string>, marks: Marks): (r: seq<Span>)
    ensures |r| == |pieces|
  {
    seq(|pieces|, i requires 0 <= i < |pieces| => Span(pieces[i], marks))
  }

  function ChunkOf(s: Span): (r: seq<Span>)
    ensures r != []
  {
    Marked(Pieces(s.content), s.marks)
  }

  function Chunked(spans: seq<Span>): seq<Span> {
    if spans == [] then [] else Chunked(Init(spans)) + ChunkOf(Last(spans))
  }

  /** The spans after `keep`, merged into one unannotated span and cut again. */
  function MergedTail(spans: seq<Span>, keep: nat): seq<Span>
    requires keep <= |spans|
  {
    ChunkOf(Span(TextOf(spans[keep..]), Plain))
  }

  /** The first `keep`, counting down, whose prefix and merged tail fit; else the first spans alone. */
  function FitAt(spans: seq<Span>, keep: nat): seq<Span>
    requires keep < MAX_SPANS < |spans|
  {
    if keep + |MergedTail(spans, keep)| <= MAX_SPANS then spans[..keep] + MergedTail(spans, keep)
    else if keep == 0 then spans[..MAX_SPANS]
    else FitAt(spans, keep - 1)
  }

  function Fit(spans: seq<Span>): seq<Span> {
    var c := Chunked(spans);
    if |c| <= MAX_SPANS then c else FitAt(c, MAX_SPANS - 1)
  }

  /** Chunk only: for content that must survive verbatim. */
  function PlainRich(text: string): seq<Span> {
    var c := ChunkOf(Span(text, Plain));
    if |c| <= MAX_SPANS then c else c[..MAX_SPANS]
  }

  // ---------- the loops ----------

  method ChunkSpans(spans: seq<Span>) returns (out: seq<Span>)
    ensures out == Chunked(spans)
  {
    out := [];
    for n := 0 to |spans|
      invariant out == Chunked(spans[..n])
    {
      assert Init(spans[..n + 1]) == spans[..n];
      if |spans[n].content| <= CHUNK {
        out := out + [spans[n]];
      } else {
        var pieces := CutSpan(spans[n]);
        out := out + pieces;
      }
    }
    assert spans[..|spans|] == spans;
  }

  /** The pieces still to be cut from position `i` on. */
  function Rest(span: Span, i: nat): seq<Span> {
    if i < |span.content| then Marked(Pieces(span.content[i..]), span.marks) else []
  }

  lemma RestStep(span: Span, i: nat)
    requires i < |span.content|
    ensures var end := Min(i + CHUNK, |span.content|);
            Rest(span, i) == [Span(span.content[i..end], span.marks)] + Rest(span, i + CHUNK)
  {
    var left := span.content[i..];
    if |left| > CHUNK {
      assert left[..CHUNK] == span.content[i..i + CHUNK];
      assert left[CHUNK..] == span.content[i + CHUNK..];
      assert Pieces(left) == [left[..CHUNK]] + Pieces(left[CHUNK..]);
      assert Marked(Pieces(left), span.marks)
          == [Span(left[..CHUNK], span.marks)] + Marked(Pieces(left[CHUNK..]), span.marks);
    } else {
      assert left == span.content[i..|span.content|];
    }
  }

  method CutSpan(span: Span) returns (out: seq<Span>)
    requires span.content != ""
    ensures out == ChunkOf(span)
  {
    out := [];
    var i := 0;
    assert span.content[0..] == span.content;
    while i < |span.content|
      invariant i >= 0 && out + Rest(span, i) == ChunkOf(span)
    {
      RestStep(span, i);
      var end := Min(i + CHUNK, |span.content|);
      out := out + [Span(span.content[i..end], span.marks)];
      i := i + CHUNK;
    }
  }

  method FitSpans(spans: seq<Span>) returns (out: seq<Span>)
    ensures out == Fit(spans)
  {
    var c := ChunkSpans(spans);
    if |c| <= MAX_SPANS {
      return c;
    }
    var keep := MAX_SPANS - 1;
    while keep >= 0
      invariant -1 <= keep < MAX_SPANS
      invariant keep >= 0 ==> FitAt(c, keep) == Fit(spans)
      invariant keep < 0 ==> c[..MAX_SPANS] == Fit(spans)
    {
      var merged := ChunkSpans([Span(TextOf(c[keep..]), Plain)]);
      assert Chunked([Span(TextOf(c[keep..]), Plain)]) == MergedTail(c, keep) by {
        OneChunked(Span(TextOf(c[keep..]), Plain));
      }
      if keep + |merged| <= MAX_SPANS {
        return c[..keep] + merged;
      }
      keep := keep - 1;
    }
    out := c[..MAX_SPANS];
  }

  lemma OneChunked(s: Span)
    ensures Chunked([s]) == ChunkOf(s)
  {
    assert Init([s]) == [];
  }

  // ---------- text and sizes ----------

  lemma {:induction false} TextAppend(a: seq<Span>, b: seq<Span>)
    ensures TextOf(a + b) == TextOf(a) + TextOf(b)
  {
    if b == [] {
      assert a + b == a;
    } else {
      AppendParts(a, b);
      assert TextOf(a + b) == TextOf(a + Init(b)) + Last(b).content;
      assert TextOf(b) == TextOf(Init(b)) + Last(b).content;
      hide TextOf;
      TextAppend(a, Init(b));
      AppendAssoc(TextOf(a), TextOf(Init(b)), Last(b).content);
    }
  }

  lemma {:induction false} PiecesSpell(content: string, marks: Marks)
    ensures TextOf(Marked(Pieces(content), marks)) == content
  {
    if |content| <= CHUNK {
      assert Marked(Pieces(content), marks) == [] + [Span(content, marks)];
      SnocParts([], Span(content, marks));
      assert TextOf([]) == "";
    } else {
      var rest := Marked(Pieces(content[CHUNK..]), marks);
      var head := [Span(content[..CHUNK], marks)];
      assert Marked(Pieces(content), marks) == head + rest;
      PiecesSpell(content[CHUNK..], marks);
      TextAppend(head, rest);
      assert head == [] + [Span(content[..CHUNK], marks)];
      SnocParts([], Span(content[..CHUNK], marks));
      assert TextOf([]) == "";
    }
  }

  /** Chunking keeps the text. */
  lemma {:induction false} ChunkedSpells(spans: seq<Span>)
    ensures TextOf(Chunked(spans)) == TextOf(spans)
  {
    if spans != [] {
      ChunkedSpells(Init(spans));
      PiecesSpell(Last(spans).content, Last(spans).marks);
      TextAppend(Chunked(Init(spans)), ChunkOf(Last(spans)));
    }
  }

  predicate Small(s: Span) { |s.content| <= CHUNK }
  predicate Nonempty(s: Span) { s.content != "" }

  lemma {:induction false} PiecesSmall(content: string)
    ensures forall i | 0 <= i < |Pieces(content)| :: |Pieces(content)[i]| <= CHUNK
    ensures content != "" ==> forall i | 0 <= i < |Pieces(content)| :: Pieces(content)[i] != ""
  {
    if |content| > CHUNK {
      PiecesSmall(content[CHUNK..]);
    }
  }

  lemma {:induction false} ChunkedSmall(spans: seq<Span>)
    ensures forall i | 0 <= i < |Chunked(spans)| :: Small(Chunked(spans)[i])
    ensures (forall i | 0 <= i < |spans| :: Nonempty(spans[i])) ==>
            forall i | 0 <= i < |Chunked(spans)| :: Nonempty(Chunked(spans)[i])
  {
    if spans != [] {
      ChunkedSmall(Init(spans));
      PiecesSmall(Last(spans).content);
      assert Nonempty(Last(spans)) || !(forall i | 0 <= i < |spans| :: Nonempty(spans[i]));
    }
  }

  /** Between the pieces a content needs and its length: as few pieces as can hold it. */
  lemma {:induction false} PiecesCount(content: string)
    ensures |content| <= |Pieces(content)| * CHUNK
    ensures content != "" ==> (|Pieces(content)| - 1) * CHUNK < |content|
  {
    if |content| > CHUNK {
      PiecesCount(content[CHUNK..]);
    }
  }

  lemma {:induction false} SmallTotal(spans: seq<Span>)
    requires forall i | 0 <= i < |spans| :: Small(spans[i])
    ensures |TextOf(spans)| <= |spans| * CHUNK
  {
    if spans != [] {
      assert Small(Last(spans));
      forall i | 0 <= i < |Init(spans)| ensures Small(Init(spans)[i]) { assert Small(spans[i]); }
      SmallTotal(Init(spans));
    }
  }

  lemma {:induction false} NonemptyTotal(spans: seq<Span>)
    requires spans != [] && Nonempty(spans[0])
    ensures TextOf(spans) != ""
  {
    if |spans| > 1 {
      NonemptyTotal(Init(spans));
    }
  }

  // ---------- what fitting promises ----------

  /** Does the prefix of length `keep` with its tail merged fit? */
  predicate KeepFits(c: seq<Span>, keep: nat)
    requires keep <= |c|
  {
    keep + |MergedTail(c, keep)| <= MAX_SPANS
  }

  /** `FitAt` finds the longest prefix that fits, or none does. */
  lemma {:induction false} FitAtFinds(c: seq<Span>, keep: nat) returns (k: int)
    requires keep < MAX_SPANS < |c|
    ensures -1 <= k <= keep
    ensures k >= 0 ==> KeepFits(c, k) && FitAt(c, keep) == c[..k] + MergedTail(c, k)
    ensures k < 0 ==> FitAt(c, keep) == c[..MAX_SPANS]
    ensures forall j | k < j <= keep :: !KeepFits(c, j)
  {
    if KeepFits(c, keep) {
      k := keep;
    } else if keep == 0 {
      k := -1;
    } else {
      k := FitAtFinds(c, keep - 1);
    }
  }

  lemma MergedSpells(c: seq<Span>, keep: nat)
    requires keep <= |c|
    ensures TextOf(c[..keep] + MergedTail(c, keep)) == TextOf(c)
    ensures forall i | 0 <= i < |MergedTail(c, keep)| :: Small(MergedTail(c, keep)[i])
  {
    assert c == c[..keep] + c[keep..];
    TextAppend(c[..keep], c[keep..]);
    TextAppend(c[..keep], MergedTail(c, keep));
    PiecesSpell(TextOf(c[keep..]), Plain);
    PiecesSmall(TextOf(c[keep..]));
  }

  /** A chunked list longer than the limit can be merged to fit exactly when its text can. */
  lemma SomeKeepFits(c: seq<Span>)
    requires |c| > MAX_SPANS && forall i | 0 <= i < |c| :: Small(c[i])
    ensures |TextOf(c)| <= LIMIT ==> KeepFits(c, 0)
    ensures |TextOf(c)| > LIMIT ==> forall k | 0 <= k <= |c| :: !KeepFits(c, k)
  {
    assert c[0..] == c;
    PiecesCount(TextOf(c));
    forall k | 0 <= k <= |c| && KeepFits(c, k) ensures |TextOf(c)| <= LIMIT {
      MergedSpells(c, k);
      var r := c[..k] + MergedTail(c, k);
      forall i | 0 <= i < |r| ensures Small(r[i]) { }
      SmallTotal(r);
    }
  }

  /** At most 100 spans of at most 1900 characters, whatever comes in. */
  lemma FitIsWithinLimits(spans: seq<Span>)
    ensures |Fit(spans)| <= MAX_SPANS
    ensures forall i | 0 <= i < |Fit(spans)| :: |Fit(spans)[i].content| <= CHUNK
  {
    var c := Chunked(spans);
    ChunkedSmall(spans);
    if |c| > MAX_SPANS {
      var k := FitAtFinds(c, MAX_SPANS - 1);
      if k >= 0 {
        MergedSpells(c, k);
      }
    }
    forall i | 0 <= i < |Fit(spans)| ensures |Fit(spans)[i].content| <= CHUNK {
      assert Small(Fit(spans)[i]);
    }
  }

  /** The text survives exactly when it is at most 190,000 characters. */
  lemma FitIsLosslessUpToLimit(spans: seq<Span>)
    requires forall i | 0 <= i < |spans| :: Nonempty(spans[i])
    ensures TextOf(Fit(spans)) == TextOf(spans) <==> |TextOf(spans)| <= LIMIT
  {
    hide Chunked, FitAt, MergedTail, TextOf, KeepFits;
    var c := Chunked(spans);
    ChunkedSmall(spans);
    ChunkedSpells(spans);
    if |c| <= MAX_SPANS {
      SmallTotal(c);
    } else {
      var k := FitAtFinds(c, MAX_SPANS - 1);
      SomeKeepFits(c);
      if k >= 0 {
        MergedSpells(c, k);
      } else {
        assert !KeepFits(c, 0);
        assert c == c[..MAX_SPANS] + c[MAX_SPANS..];
        TextAppend(c[..MAX_SPANS], c[MAX_SPANS..]);
        assert Nonempty(c[MAX_SPANS]);
        NonemptyTotal(c[MAX_SPANS..]);
      }
    }
  }

  /** A merged tail takes at least one span. */
  lemma LateKeepFails(c: seq<Span>, keep: nat)
    requires MAX_SPANS <= keep <= |c|
    ensures !KeepFits(c, keep)
  {
  }

  /** When it must merge and can do so losslessly, it keeps the longest prefix that still fits: the
      result is that prefix and the merged tail, and no longer prefix with its tail merged fits. */
  lemma FitKeepsLongestPrefix(spans: seq<Span>)
    requires |Chunked(spans)| > MAX_SPANS && |TextOf(spans)| <= LIMIT
    ensures exists k | 0 <= k < MAX_SPANS ::
      && Fit(spans) == Chunked(spans)[..k] + MergedTail(Chunked(spans), k)
      && forall j | k < j <= |Chunked(spans)| :: !KeepFits(Chunked(spans), j)
  {
    hide Chunked, FitAt, MergedTail, TextOf, KeepFits;
    var c := Chunked(spans);
    ChunkedSmall(spans);
    ChunkedSpells(spans);
    var k := FitAtFinds(c, MAX_SPANS - 1);
    SomeKeepFits(c);
    assert k >= 0;
    forall j | k < j <= |c| ensures !KeepFits(c, j) {
      if j >= MAX_SPANS {
        LateKeepFails(c, j);
      }
    }
  }

  /** The first pieces are full ones. */
  lemma {:induction false} FullPieces(content: string, marks: Marks, n: nat)
    requires n * CHUNK < |content|
    ensures n < |Pieces(content)| && TextOf(Marked(Pieces(content), marks)[..n]) == content[..n * CHUNK]
  {
    var all := Marked(Pieces(content), marks);
    if n == 0 {
      assert all[..0] == [];
    } else {
      var rest, head := Marked(Pieces(content[CHUNK..]), marks), Span(content[..CHUNK], marks);
      FullPieces(content[CHUNK..], marks, n - 1);
      assert all == [head] + rest;
      assert all[..n] == [head] + rest[..n - 1];
      TextAppend([head], rest[..n - 1]);
      SnocParts([], head);
      assert [] + [head] == [head] && TextOf([]) == "";
      assert content[..n * CHUNK] == content[..CHUNK] + content[CHUNK..][..(n - 1) * CHUNK];
    }
  }

  /** Beyond the limit a run of text with no marks is cut at it. */
  lemma PlainTextIsCut(text: string)
    requires |text| > LIMIT
    ensures TextOf(Fit([Span(text, Plain)])) == text[..LIMIT]
    ensures TextOf(PlainRich(text)) == text[..LIMIT]
  {
    hide FitAt, MergedTail, TextOf, KeepFits, Pieces;
    var c := ChunkOf(Span(text, Plain));
    OneChunked(Span(text, Plain));
    FullPieces(text, Plain, MAX_SPANS);
    ChunkedSmall([Span(text, Plain)]);
    PiecesSpell(text, Plain);
    SomeKeepFits(c);
    var k := FitAtFinds(c, MAX_SPANS - 1);
    assert c[..MAX_SPANS] == Marked(Pieces(text), Plain)[..MAX_SPANS];
  }

  /** A run of text with no marks is carried whole up to the limit. */
  lemma PlainTextIsCarried(text: string)
    requires |text| <= LIMIT
    ensures TextOf(Fit([Span(text, Plain)])) == text
    ensures TextOf(PlainRich(text)) == text
  {
    var spans := [Span(text, Plain)];
    OneChunked(Span(text, Plain));
    PiecesSpell(text, Plain);
    PiecesCount(text);
  }
}
