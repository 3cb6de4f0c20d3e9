/** The parser undoes the printer: parsing the printed text of plain blocks gives the blocks back. */
module RoundTrip {
  import opened Seqs
  import opened Text
  import opened Spans
  import opened Markdown
  import opened MarkdownPrint
  import opened PlainLines

  // ---------- the printed text as lines ----------

  function BlockLines(b: Block, number: nat): (r: seq<string>)
    requires Printable(b)
    ensures r != []
  {
    match b
    case Code(text) => ["```"] + SplitNL(text) + ["```"]
    case Table(rows) => TableLines(rows)
    case _ => [BlockToMarkdown(b, number)]
  }

  lemma BlockIsLines(b: Block, number: nat)
    requires Printable(b)
    ensures BlockToMarkdown(b, number) == Join(BlockLines(b, number), "\n")
  {
    hide Join, SplitNL, TableLines, Decimal, Repeat;
    match b
    case Code(text) => CodeIsLines(SplitNL(text)); JoinSplitNL(text);
    case Table(rows) =>
    case _ => JoinOne(BlockToMarkdown(b, number), "\n");
  }

  lemma CodeIsLines(body: seq<string>)
    requires body != []
    ensures Join(["```"] + body + ["```"], "\n") == "```\n" + Join(body, "\n") + "\n```"
  {
    hide Join;
    var text := Join(body, "\n");
    JoinAppend(["```"] + body, ["```"], "\n");
    JoinAppend(["```"], body, "\n");
    JoinOne("```", "\n");
    assert "```" + "\n" == "```\n" && "\n" + "```" == "\n```";
    AppendAssoc("```\n" + text, "\n", "```");
  }

  lemma {:induction false} InnerOneLine(cells: seq<string>)
    requires cells != [] && forall i | 0 <= i < |cells| :: OneLine(cells[i])
    ensures OneLine(Inner(cells))
  {
    assert OneLine(cells[0]);
    if |cells| > 1 {
      InnerOneLine(cells[1..]);
    }
  }

  lemma RowOneLine(cells: seq<string>)
    requires cells != [] && forall i | 0 <= i < |cells| :: OneLine(cells[i])
    ensures OneLine(RowLine(cells))
  {
    InnerOneLine(cells);
    RowIs(cells);
  }

  lemma TableOneLine(rows: seq<seq<string>>)
    requires PlainBlock(Table(rows))
    ensures forall i | 0 <= i < |TableLines(rows)| :: OneLine(TableLines(rows)[i])
  {
    assert OneLine("---") && OneLine("");
    hide RowLine, OneLine;
    RowOneLine(Rules(|rows[0]|));
    forall i | 0 <= i < |rows| ensures OneLine(RowLine(rows[i])) {
      assert |rows[i]| == |rows[0]|;
      RowOneLine(rows[i]);
    }
  }

  lemma BlockOneLine(b: Block, number: nat)
    requires PlainBlock(b)
    ensures forall i | 0 <= i < |BlockLines(b, number)| :: OneLine(BlockLines(b, number)[i])
  {
    if b.Table? {
      TableOneLine(b.rows);
    }
  }

  predicate AllPrintable(bs: seq<Block>) {
    forall i | 0 <= i < |bs| :: Printable(bs[i])
  }

  predicate PlainEach(bs: seq<Block>) {
    forall i | 0 <= i < |bs| :: Printable(bs[i]) && PlainBlock(bs[i])
  }

  /** No bullet reads as a table's rule right below one with a pipe. */
  predicate NoRules(bs: seq<Block>) {
    forall i | 0 < i < |bs| :: !RuleBelow(bs[i - 1], bs[i])
  }

  predicate AllPlain(bs: seq<Block>) {
    PlainEach(bs) && NoRules(bs)
  }

  /** What the printed blocks read as. */
  function ReadAll(bs: seq<Block>): (r: seq<Block>)
    ensures |r| == |bs|
  {
    seq(|bs|, i requires 0 <= i < |bs| => ReadsAs(bs[i]))
  }

  /** Nothing but what a line of its own, a blank line or the end may come right below a block: an item
      below an item, and no rule below a pipe. */
  predicate Follows(b: Block, rest: seq<string>) {
    rest == [] || rest[0] == "" || ((b.Bullet? || b.Numbered?) && ('|' in b.text ==> !IsSeparator(rest[0])))
  }

  predicate NoRuleNext(rest: seq<string>) {
    rest == [] || !IsSeparator(rest[0])
  }

  function Gap(a: Block, b: Block): seq<string> {
    if Adjacent(a, b) then [] else [""]
  }

  function LinesOf(bs: seq<Block>): (r: seq<string>)
    requires AllPrintable(bs) && bs != []
    ensures r != []
  {
    var last := BlockLines(Last(bs), NumberOf(bs));
    if |bs| == 1 then last else LinesOf(Init(bs)) + Gap(bs[|bs| - 2], Last(bs)) + last
  }

  /** Putting a block's lines below printed ones. */
  lemma JoinBelow(front: seq<string>, a: Block, b: Block, last: seq<string>)
    requires front != [] && last != []
    ensures Join(front + Gap(a, b) + last, "\n")
         == Join(front, "\n") + (if Adjacent(a, b) then "\n" else "\n\n") + Join(last, "\n")
  {
    hide Join, Adjacent;
    if Adjacent(a, b) {
      assert front + [] + last == front + last;
      JoinAppend(front, last, "\n");
    } else {
      JoinAppend(front + [""], last, "\n");
      JoinAppend(front, [""], "\n");
      JoinOne("", "\n");
      assert "\n" + "" + "\n" == "\n\n";
      assert Join(front, "\n") + "\n" + "" + "\n" + Join(last, "\n") == Join(front, "\n") + "\n\n" + Join(last, "\n");
    }
  }

  lemma {:induction false} BodyIsLines(bs: seq<Block>)
    requires AllPrintable(bs) && bs != []
    ensures Body(bs) == Join(LinesOf(bs), "\n")
  {
    hide Join, BlockLines, BlockToMarkdown, Adjacent, Gap;
    BlockIsLines(Last(bs), NumberOf(bs));
    if |bs| > 1 {
      BodyIsLines(Init(bs));
      JoinBelow(LinesOf(Init(bs)), bs[|bs| - 2], Last(bs), BlockLines(Last(bs), NumberOf(bs)));
    }
  }

  lemma {:induction false} LinesAreLines(bs: seq<Block>)
    requires PlainEach(bs) && bs != []
    ensures forall i | 0 <= i < |LinesOf(bs)| :: OneLine(LinesOf(bs)[i])
  {
    assert OneLine("");
    hide BlockLines, PlainBlock, OneLine;
    BlockOneLine(Last(bs), NumberOf(bs));
    if |bs| > 1 {
      LinesAreLines(Init(bs));
    }
  }

  // ---------- scanning the printed lines ----------

  /** What the scanner holds open after a block's lines. */
  function PendingOf(b: Block): Pending {
    match b
    case Paragraph(text) => Open(ParagraphKind, [text])
    case Bullet(text) => Open(BulletKind, [text])
    case Numbered(text) => Open(NumberedKind, [text])
    case Quote(text) => Open(QuoteKind, [text])
    case _ => NoPending
  }

  /** What the scanner has emitted of a block by then. */
  function Settled(b: Block): seq<Block> {
    if PendingOf(b).Open? then [] else [b]
  }

  /** What comes out once a block's lines are behind the scanner. */
  function ScanAfter(b: Block, rest: seq<string>): seq<Block> {
    Settled(b) + Scan(rest, PendingOf(b))
  }

  lemma SettledThenFlushed(b: Block, more: seq<Block>)
    requires PendingOf(b).Open? ==> |b.text| <= LIMIT
    ensures Settled(b) + (Flush(PendingOf(b)) + more) == [b] + more
  {
    hide Rich;
    if PendingOf(b).Open? {
      RichIsIdentity(b.text);
    }
  }

  /** A line that opens a text block of its own. */
  lemma ScanOpening(line: string, rest: seq<string>, p: Pending, kind: Kind, t: string)
    requires Trimmed(line) && OpeningOf(line) == Opens(kind, t) && !IsDivider(line) && FenceLen(line) < 3
    requires '|' in line ==> NoRuleNext(rest)
    requires t != "" && |t| <= LIMIT && !(p.Open? && kind.QuoteKind?)
    ensures Scan([line] + rest, p) == Flush(p) + ScanAfter(TextBlock(kind, t), rest)
  {
    hide OpeningOf, IsDivider, FenceLen, MakeBlock, Flush, IsSeparator, Strip, Trimmed, ScanAfter, TextBlock, Scan, Continue;
    ScanText(line, rest, p);
    OpensNoParagraph(line);
    OpenedAfter(kind, t, rest);
    OpenedStep(line, p, kind, t);
    var emitted := if kind.HeadingKind? then [MakeBlock(kind, t)] else [];
    var open := if kind.HeadingKind? then NoPending else Open(kind, [t]);
    AppendAssoc(Flush(p), emitted, Scan(rest, open));
  }

  /** A line that is neither blank, nor a fence, nor a rule, nor the header of a table. */
  lemma ScanText(line: string, rest: seq<string>, p: Pending)
    requires Trimmed(line) && !IsDivider(line) && FenceLen(line) < 3 && ('|' in line ==> NoRuleNext(rest))
    ensures Scan([line] + rest, p) == Continue(p, line).emitted + Scan(rest, Continue(p, line).pending)
  {
    hide IsDivider, FenceLen, IsSeparator, Strip, Continue;
    StripTrimmed(line);
    var lines := [line] + rest;
    assert lines[1..] == rest;
    assert |lines| > 1 ==> lines[1] == rest[0];
  }

  lemma OpenedStep(line: string, p: Pending, kind: Kind, t: string)
    requires OpeningOf(line) == Opens(kind, t) && t != "" && !(p.Open? && kind.QuoteKind?)
    ensures Continue(p, line) == Step(Flush(p) + (if kind.HeadingKind? then [MakeBlock(kind, t)] else []),
                                      if kind.HeadingKind? then NoPending else Open(kind, [t]))
  {
    hide OpeningOf, MakeBlock, Flush;
    assert Flush(p) + [] == Flush(p);
  }

  lemma OpenedAfter(kind: Kind, t: string, rest: seq<string>)
    requires |t| <= LIMIT && !kind.ParagraphKind?
    ensures (if kind.HeadingKind? then [MakeBlock(kind, t)] + Scan(rest, NoPending) else [] + Scan(rest, Open(kind, [t])))
         == ScanAfter(TextBlock(kind, t), rest)
  {
    hide Scan, Rich, MakeBlock;
    MadeBlock(kind, t);
  }

  lemma OpensNoParagraph(t: string)
    ensures OpeningOf(t).Opens? ==> !OpeningOf(t).kind.ParagraphKind?
  {
  }

  lemma ScanParagraph(t: string, rest: seq<string>)
    requires PlainParagraph(t) && NoRuleNext(rest)
    ensures Scan([t] + rest, NoPending) == ScanAfter(ReadsAs(Paragraph(t)), rest)
  {
    hide OpeningOf, IsDivider, FenceLen, IsSeparator, Strip, Unmarked, OneLine, FirstWord, Rich, Scan;
    if OpeningOf(t).Opens? {
      ScanMarked(t, rest);
    } else {
      ScanJoins(t, rest, NoPending);
    }
  }

  /** A paragraph that begins with a mark. */
  lemma ScanMarked(t: string, rest: seq<string>)
    requires PlainParagraph(t) && NoRuleNext(rest) && OpeningOf(t).Opens?
    ensures Scan([t] + rest, NoPending) == ScanAfter(ReadsAs(Paragraph(t)), rest)
  {
    hide IsDivider, FenceLen, Unmarked, OneLine, FirstWord, Scan, NoRuleNext, OpeningOf, ScanAfter;
    var o := OpeningOf(t);
    assert |o.content| < |t|;
    ScanOpening(t, rest, NoPending, o.kind, o.content);
    assert Flush(NoPending) == [];
  }

  /** A line that opens nothing joins what is held open, or opens a paragraph. */
  lemma ScanJoins(text: string, rest: seq<string>, p: Pending)
    requires Trimmed(text) && OpeningOf(text).NoOpening? && !IsDivider(text) && FenceLen(text) < 3
    requires '|' in text ==> NoRuleNext(rest)
    ensures Scan([text] + rest, p)
         == Scan(rest, if p.Open? then Open(p.kind, p.parts + [text]) else Open(ParagraphKind, [text]))
  {
    hide OpeningOf, IsDivider, FenceLen, NoRuleNext, Scan;
    ScanText(text, rest, p);
  }

  lemma ScanBlank(rest: seq<string>, p: Pending)
    ensures Scan([""] + rest, p) == Flush(p) + Scan(rest, NoPending)
  {
    hide Flush;
    assert ([""] + rest)[1..] == rest;
  }

  lemma ScanDivider(rest: seq<string>)
    ensures Scan(["---"] + rest, NoPending) == [Divider] + Scan(rest, NoPending)
  {
    hide Strip, IsDivider, FenceLen, IsSeparator;
    DividerLine();
    assert (["---"] + rest)[1..] == rest;
  }

  lemma {:induction false} BodyLenIs(body: seq<string>, rest: seq<string>)
    requires forall i | 0 <= i < |body| :: !Closes(body[i], 3)
    ensures BodyLen(body + ["```"] + rest, 3) == |body|
  {
    hide Closes, FenceLen;
    var lines := body + ["```"] + rest;
    if body == [] {
      FenceLine();
      assert lines[0] == "```";
    } else {
      assert lines[0] == body[0];
      BodyLenIs(body[1..], rest);
      assert lines[1..] == body[1..] + ["```"] + rest;
    }
  }

  lemma ScanCode(t: string, rest: seq<string>)
    requires PlainCode(t)
    ensures Scan(["```"] + SplitNL(t) + ["```"] + rest, NoPending) == [Code(t)] + Scan(rest, NoPending)
  {
    hide Strip, FenceLen, Closes, SplitNL, OneLine, Verbatim, Join, BodyLen;
    var body := SplitNL(t);
    var lines := ["```"] + body + ["```"] + rest;
    FenceLine();
    BodyLenIs(body, rest);
    assert lines[1..] == body + ["```"] + rest;
    assert lines[1..1 + |body|] == body;
    JoinSplitNL(t);
    RichIsIdentity(t);
    assert lines[|body| + 2..] == rest;
  }

  lemma {:induction false} RowCountIs(rows: seq<string>, rest: seq<string>)
    requires (forall i | 0 <= i < |rows| :: IsRow(rows[i])) && (rest == [] || rest[0] == "")
    ensures RowCount(rows + rest) == |rows|
  {
    hide Strip;
    if rows == [] {
      assert rows + rest == rest;
      StripTrimmed("");
    } else {
      RowCountIs(rows[1..], rest);
      assert (rows + rest)[1..] == rows[1..] + rest;
    }
  }

  lemma RowParses(cells: seq<string>)
    requires cells != [] && forall i | 0 <= i < |cells| :: PlainCell(cells[i])
    ensures Fitted(SplitRow(RowLine(cells)), |cells|) == cells
    ensures SplitRow(RowLine(cells)) == cells && IsRow(RowLine(cells)) && FenceLen(RowLine(cells)) == 0
    ensures Strip(RowLine(cells)) == RowLine(cells) && '|' in RowLine(cells) && RowLine(cells) != ""
  {
    hide SplitRow, RowLine, Rich, OneLine, NoInline;
    RowSplits(cells);
    StripTrimmed(RowLine(cells));
    LeadingIs(RowLine(cells), 0, IsTick);
    forall i | 0 <= i < |cells| ensures Rich(cells[i]) == cells[i] {
      RichIsIdentity(cells[i]);
    }
  }

  lemma TableReads(rows: seq<seq<string>>)
    requires PlainBlock(Table(rows))
    ensures rows != [] && rows[0] != []
    ensures TableOf(RowLine(rows[0]), RowLines(rows[1..])) == Table(rows)
    ensures forall i | 0 <= i < |rows| :: IsRow(RowLine(rows[i]))
    ensures IsHeader(RowLine(rows[0]))
  {
    hide SplitRow, RowLine, Rich, PlainCell, Fitted, Strip, FenceLen, IsRow;
    forall i | 0 <= i < |rows|
      ensures Fitted(SplitRow(RowLine(rows[i])), |rows[0]|) == rows[i] && IsRow(RowLine(rows[i]))
    {
      assert |rows[i]| == |rows[0]|;
      RowParses(rows[i]);
    }
    RowParses(rows[0]);
  }

  predicate IsHeader(line: string) {
    Strip(line) == line && line != "" && FenceLen(line) < 3 && '|' in line
  }

  lemma Slices<T>(a: T, b: T, body: seq<T>, rest: seq<T>)
    ensures var xs := [a, b] + body + rest;
            && xs[0] == a && xs[1] == b && xs[0..] == xs && xs[2..] == body + rest
            && xs[2..2 + |body|] == body && xs[2 + |body|..] == rest
  {
  }

  lemma ScanRows(header: string, rule: string, body: seq<string>, rest: seq<string>)
    requires IsHeader(header) && IsSeparator(rule)
    requires (forall i | 0 <= i < |body| :: IsRow(body[i])) && (rest == [] || rest[0] == "")
    ensures Scan([header, rule] + body + rest, NoPending) == [TableOf(header, body)] + Scan(rest, NoPending)
  {
    hide Strip, FenceLen, IsSeparator, IsRow, TableOf, Scan, RowCount;
    var lines := [header, rule] + body + rest;
    Slices(header, rule, body, rest);
    RowCountIs(body, rest);
    AtTable(lines, 0, NoPending);
    assert Flush(NoPending) + [TableOf(header, body)] == [TableOf(header, body)];
  }

  lemma ScanTable(rows: seq<seq<string>>, rest: seq<string>)
    requires PlainBlock(Table(rows)) && (rest == [] || rest[0] == "")
    ensures Scan(TableLines(rows) + rest, NoPending) == [Table(rows)] + Scan(rest, NoPending)
  {
    hide PlainBlock, RowLine, IsHeader, IsSeparator, IsRow, TableOf, Scan;
    TableReads(rows);
    RuleIsSeparator(|rows[0]|);
    ScanRows(RowLine(rows[0]), RowLine(Rules(|rows[0]|)), RowLines(rows[1..]), rest);
  }

  function KindOf(b: Block): Kind
    requires b.Heading? || b.Bullet? || b.Numbered? || b.Quote?
  {
    match b
    case Heading(level, _) => HeadingKind(level)
    case Bullet(_) => BulletKind
    case Numbered(_) => NumberedKind
    case Quote(_) => QuoteKind
  }

  lemma TextLine(b: Block, number: nat)
    requires PlainBlock(b) && (b.Heading? || b.Bullet? || b.Numbered? || b.Quote?)
    ensures var line := BlockToMarkdown(b, number);
      && Trimmed(line) && OpeningOf(line) == Opens(KindOf(b), b.text) && !IsDivider(line) && FenceLen(line) == 0
      && ('|' in line <==> '|' in b.text) && b.text != ""
  {
    hide OpeningOf, IsDivider, FenceLen, OneLine, NoInline, Decimal;
    match b
    case Heading(level, t) => HeadingLine(level, t);
    case Bullet(t) => BulletLine(t);
    case Numbered(t) => NumberedLine(number, t);
    case Quote(t) => QuoteLine(t);
  }

  lemma ScanLine(b: Block, number: nat, rest: seq<string>, p: Pending)
    requires PlainBlock(b) && (b.Heading? || b.Bullet? || b.Numbered? || b.Quote?) && !(b.Quote? && p.Open?)
    requires Follows(b, rest)
    ensures Scan([BlockToMarkdown(b, number)] + rest, p) == Flush(p) + ScanAfter(b, rest)
  {
    hide Scan, OpeningOf, IsDivider, FenceLen, Flush, PlainBlock, BlockToMarkdown, Trimmed, NoRuleNext, Follows, ScanAfter, TextBlock;
    TextLine(b, number);
    FollowsIs(b, rest);
    OfItsKind(b);
    ScanOpening(BlockToMarkdown(b, number), rest, p, KindOf(b), b.text);
  }

  lemma OfItsKind(b: Block)
    requires PlainBlock(b) && (b.Heading? || b.Bullet? || b.Numbered? || b.Quote?)
    ensures |b.text| <= LIMIT && TextBlock(KindOf(b), b.text) == b && (KindOf(b).QuoteKind? <==> b.Quote?)
  {
  }

  /** What the printed line of a text block needs of the line below it. */
  lemma FollowsIs(b: Block, rest: seq<string>)
    requires Follows(b, rest) && (b.Heading? || b.Bullet? || b.Numbered? || b.Quote? || b.Paragraph?)
    ensures '|' in b.text ==> NoRuleNext(rest)
    ensures b.Paragraph? ==> NoRuleNext(rest)
  {
  }

  lemma ScanBlock(b: Block, number: nat, rest: seq<string>, p: Pending)
    requires PlainBlock(b) && Follows(b, rest)
    requires p.NoPending? || b.Bullet? || b.Numbered?
    ensures Scan(BlockLines(b, number) + rest, p) == Flush(p) + ScanAfter(ReadsAs(b), rest)
  {
    hide Scan, PlainText, Trimmed, BlockToMarkdown, TableLines, SplitNL, PlainCell, PlainParagraph, ScanAfter, IsSeparator, OpeningOf;
    match b
    case Paragraph(t) =>
      assert BlockToMarkdown(b, number) == t by { ParagraphLine(t, number); }
      FollowsIs(b, rest);
      ScanParagraph(t, rest);
      assert Flush(p) == [];
    case Divider =>
      DividerPrints(number);
      ScanDivider(rest);
      SettledAfter(b, rest);
    case Code(t) =>
      ScanCode(t, rest);
      SettledAfter(b, rest);
    case Table(rows) =>
      ScanTable(rows, rest);
      SettledAfter(b, rest);
    case _ => ScanLine(b, number, rest, p);
  }

  lemma SettledAfter(b: Block, rest: seq<string>)
    requires b.Divider? || b.Code? || b.Table?
    ensures ScanAfter(b, rest) == [b] + Scan(rest, NoPending)
  {
  }

  lemma ParagraphLine(t: string, number: nat)
    ensures BlockToMarkdown(Paragraph(t), number) == t
  {
  }

  lemma DividerPrints(number: nat)
    ensures BlockToMarkdown(Divider, number) == "---"
  {
  }

  lemma ScanFirst(b: Block, number: nat, rest: seq<string>)
    requires PlainBlock(b) && Follows(b, rest)
    ensures Scan(BlockLines(b, number) + rest, NoPending) == ScanAfter(ReadsAs(b), rest)
  {
    ScanBlock(b, number, rest, NoPending);
    hide ReadsAs, Scan, BlockLines, PlainBlock, ScanAfter;
  }

  function Below(a: Block, b: Block, number: nat, rest: seq<string>): seq<string>
    requires Printable(b)
  {
    Gap(a, b) + (BlockLines(b, number) + rest)
  }

  /** A block's lines below another's: what was held open is flushed first. */
  lemma ScanNext(a: Block, b: Block, number: nat, rest: seq<string>)
    requires Printable(b) && PlainBlock(a) && PlainBlock(b) && Follows(b, rest)
    ensures ScanAfter(ReadsAs(a), Below(a, b, number, rest)) == [ReadsAs(a)] + ScanAfter(ReadsAs(b), rest)
  {
    var below, more, read := BlockLines(b, number) + rest, ScanAfter(ReadsAs(b), rest), ReadsAs(a);
    ReadIsShort(a);
    SettledThenFlushed(read, more);
    assert ScanAfter(read, Gap(a, b) + below) == Settled(read) + Scan(Gap(a, b) + below, PendingOf(read));
    assert Scan(Gap(a, b) + below, PendingOf(read)) == Flush(PendingOf(read)) + more by {
      hide Scan, BlockLines, PlainBlock, Flush, PendingOf, ScanAfter, Settled, Follows, OpeningOf;
      if Adjacent(a, b) {
        assert Gap(a, b) + below == below;
        ScanBlock(b, number, rest, PendingOf(read));
      } else {
        hide ReadsAs;
        ScanBlank(below, PendingOf(read));
        ScanFirst(b, number, rest);
      }
    }
  }

  lemma ReadIsShort(b: Block)
    requires PlainBlock(b)
    ensures PendingOf(ReadsAs(b)).Open? ==> |ReadsAs(b).text| <= LIMIT
  {
    hide OpeningOf, FirstWord, IsDivider, FenceLen, OneLine;
  }

  lemma LinesOfOne(bs: seq<Block>)
    requires AllPrintable(bs) && |bs| == 1
    ensures LinesOf(bs) == BlockLines(Last(bs), NumberOf(bs))
  {
  }

  lemma Regroup<T>(x: seq<T>, a: seq<T>, b: seq<T>, c: seq<T>, d: seq<T>)
    requires x == a + b + c
    ensures x + d == a + (b + (c + d))
  {
    assert a + b + c + d == a + (b + (c + d));
  }

  lemma LinesOfMore(bs: seq<Block>)
    requires AllPrintable(bs) && |bs| > 1
    ensures LinesOf(bs) == LinesOf(Init(bs)) + Gap(bs[|bs| - 2], Last(bs)) + BlockLines(Last(bs), NumberOf(bs))
  {
  }

  lemma LinesBelow(bs: seq<Block>, rest: seq<string>)
    requires AllPrintable(bs) && |bs| > 1
    ensures LinesOf(bs) + rest == LinesOf(Init(bs)) + Below(bs[|bs| - 2], Last(bs), NumberOf(bs), rest)
  {
    hide BlockLines, Gap, NumberOf, LinesOf;
    LinesOfMore(bs);
    Regroup(LinesOf(bs), LinesOf(Init(bs)), Gap(bs[|bs| - 2], Last(bs)), BlockLines(Last(bs), NumberOf(bs)), rest);
  }

  lemma GapAfter(a: Block, b: Block, number: nat, rest: seq<string>)
    requires Printable(b)
    requires PlainBlock(b) && !RuleBelow(a, b)
    ensures Below(a, b, number, rest) != [] && Follows(a, Below(a, b, number, rest))
  {
    hide IsSeparator;
    if a.Numbered? && b.Numbered? {
      NumberedLine(number, b.text);
      NoRule(Decimal(number) + ". " + b.text);
    }
  }

  lemma LastMoved<T>(front: seq<T>, more: seq<T>)
    requires front != []
    ensures Init(front) + ([Last(front)] + more) == front + more
  {
  }

  lemma {:induction false} ScanLines(bs: seq<Block>, rest: seq<string>)
    requires AllPlain(bs) && bs != [] && Follows(Last(bs), rest)
    ensures Scan(LinesOf(bs) + rest, NoPending) == ReadAll(Init(bs)) + ScanAfter(ReadsAs(Last(bs)), rest)
  {
    hide Scan, BlockLines, PlainBlock, LinesOf, Below, NumberOf, ScanAfter, ReadsAs, Follows, RuleBelow;
    var b, n := Last(bs), NumberOf(bs);
    if |bs| == 1 {
      LinesOfOne(bs);
      ScanFirst(b, n, rest);
    } else {
      var front, a := Init(bs), bs[|bs| - 2];
      LinesBelow(bs, rest);
      GapAfter(a, b, n, rest);
      ScanLines(front, Below(a, b, n, rest));
      ScanNext(a, b, n, rest);
      assert ReadAll(Init(front)) == Init(ReadAll(front)) && Last(ReadAll(front)) == ReadsAs(a);
      LastMoved(ReadAll(front), ScanAfter(ReadsAs(b), rest));
    }
  }

  // ---------- the law ----------

  /** Parsing what the printer prints of plain blocks gives each back as it reads. */
  lemma ParseReadsPrint(bs: seq<Block>)
    requires AllPlain(bs)
    ensures Parse(Print(bs)) == ReadAll(bs)
  {
    hide PlainBlock, BlockLines, LinesOf, Scan, OneLine, Body, Join, ScanAfter, ReadsAs, RuleBelow;
    if bs == [] {
      NothingParses();
    } else {
      PrintedLines(bs);
      assert LinesOf(bs) + [] == LinesOf(bs);
      ScanLines(bs, []);
      ScanEnd(Last(bs));
      assert ReadAll(bs) == ReadAll(Init(bs)) + [ReadsAs(Last(bs))];
    }
  }

  lemma PrintedLines(bs: seq<Block>)
    requires PlainEach(bs) && bs != []
    ensures SplitLines(Print(bs)) == LinesOf(bs)
  {
    hide PlainBlock, BlockLines, LinesOf, OneLine, Body, Join;
    BodyIsLines(bs);
    LinesAreLines(bs);
    SplitJoined(LinesOf(bs));
  }

  lemma ScanEnd(b: Block)
    requires PlainBlock(b)
    ensures ScanAfter(ReadsAs(b), []) == [ReadsAs(b)]
  {
    ReadIsShort(b);
    SettledThenFlushed(ReadsAs(b), []);
    hide PlainBlock, Flush, PendingOf, Settled, ReadsAs;
    assert Settled(ReadsAs(b)) + Scan([], PendingOf(ReadsAs(b))) == Settled(ReadsAs(b)) + (Flush(PendingOf(ReadsAs(b))) + []);
    assert [ReadsAs(b)] + [] == [ReadsAs(b)];
  }

  /** Where no paragraph begins with a mark, that is the same blocks. */
  lemma ParseUndoesPrint(bs: seq<Block>)
    requires AllPlain(bs) && forall i | 0 <= i < |bs| && bs[i].Paragraph? :: OpeningOf(bs[i].text).NoOpening?
    ensures Parse(Print(bs)) == bs
  {
    hide PlainBlock, Parse, Print, OpeningOf, RuleBelow;
    ParseReadsPrint(bs);
    assert ReadAll(bs) == bs;
  }

  lemma NothingParses()
    ensures Parse(Print([])) == []
  {
    LeadingIs("\n", 0, NotBreak);
    ScanBlank([], NoPending);
  }

  lemma StepPrintable(text: string, p: Pending)
    ensures AllPrintable(Flush(p)) && AllPrintable(Continue(p, text).emitted)
  {
    hide OpeningOf, Rich;
  }

  lemma BothPrintable(a: seq<Block>, b: seq<Block>)
    requires AllPrintable(a) && AllPrintable(b)
    ensures AllPrintable(a + b)
  {
  }

  /** Every parsed block can be printed: a table has its header. */
  lemma {:induction false} ScanPrintable(lines: seq<string>, p: Pending)
    ensures AllPrintable(Scan(lines, p))
    decreases |lines|
  {
    hide Strip, FenceLen, BodyLen, RowCount, IsDivider, IsSeparator, AfterFence, Continue, CodeOf, TableOf, Flush, AllPrintable;
    StepPrintable("", p);
    DividerPrintable();
    if lines != [] {
      var text := Strip(lines[0]);
      if text == "" {
        ScanPrintable(lines[1..], NoPending);
        BothPrintable(Flush(p), Scan(lines[1..], NoPending));
      } else if FenceLen(text) >= 3 {
        var body := lines[1..1 + BodyLen(lines[1..], FenceLen(text))];
        CodePrintable(body);
        ScanPrintable(lines[AfterFence(lines)..], NoPending);
        BothPrintable(Flush(p), [CodeOf(body)]);
        BothPrintable(Flush(p) + [CodeOf(body)], Scan(lines[AfterFence(lines)..], NoPending));
      } else if OpensTable(lines) {
        var n := RowCount(lines[2..]);
        TablePrintable(lines[0], lines[2..2 + n]);
        ScanPrintable(lines[2 + n..], NoPending);
        BothPrintable(Flush(p), [TableOf(lines[0], lines[2..2 + n])]);
        BothPrintable(Flush(p) + [TableOf(lines[0], lines[2..2 + n])], Scan(lines[2 + n..], NoPending));
      } else if IsDivider(text) {
        ScanPrintable(lines[1..], NoPending);
        BothPrintable(Flush(p), [Divider]);
        BothPrintable(Flush(p) + [Divider], Scan(lines[1..], NoPending));
      } else {
        StepPrintable(text, p);
        ScanPrintable(lines[1..], Continue(p, text).pending);
        BothPrintable(Continue(p, text).emitted, Scan(lines[1..], Continue(p, text).pending));
      }
    }
  }

  lemma DividerPrintable()
    ensures AllPrintable([Divider])
  {
  }

  lemma TablePrintable(header: string, rows: seq<string>)
    ensures AllPrintable([TableOf(header, rows)])
  {
  }

  lemma CodePrintable(lines: seq<string>)
    ensures AllPrintable([CodeOf(lines)])
  {
  }
}
