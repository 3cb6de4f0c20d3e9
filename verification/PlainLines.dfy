/** The blocks the round trip is for, and what each line printed for them reads as. */
module PlainLines {
  import opened Seqs
  import opened Text
  import opened Spans
  import opened Markdown
  import opened MarkdownPrint

  // ---------- the blocks the law is for ----------

  predicate OneLine(s: string) {
    forall i | 0 <= i < |s| :: !IsBreak(s[i])
  }

  /** Begins and ends with something other than whitespace. */
  predicate Trimmed(s: string) {
    s != "" && !IsSpace(s[0]) && !IsSpace(s[|s| - 1])
  }

  /** No character an inline mark could start with, and no address. */
  predicate NoInline(s: string) {
    && (forall i | 0 <= i < |s| :: s[i] != '`' && s[i] != '[' && s[i] != '<' && s[i] != '*' && s[i] != '_')
    && (forall i | 0 <= i < |s| - 3 :: !(s[i] == 'h' && s[i + 1] == 't' && s[i + 2] == 't' && s[i + 3] == 'p'))
  }

  predicate PlainText(s: string) {
    OneLine(s) && NoInline(s) && |s| <= LIMIT
  }

  predicate Ended(s: string) {
    s != "" && !IsSpace(s[|s| - 1])
  }

  predicate NotBlank(c: char) { c != ' ' }

  /** What stands before the first blank. */
  function FirstWord(s: string): string {
    s[..Leading(s, NotBlank)]
  }

  /** A star before a space marks nothing. */
  predicate Unmarked(s: string) {
    NoInline(s) || ("* " <= s && NoInline(s[2..]))
  }

  /** Neither a rule nor a fence nor a quote; a mark that would open a heading or an item may stand in
      front, with one space behind it. */
  predicate PlainParagraph(s: string) {
    && Trimmed(s) && OneLine(s) && Unmarked(s) && |s| <= LIMIT
    && !IsDivider(s) && FenceLen(s) < 3 && s[0] != '>'
    && (OpeningOf(s).Opens? ==>
          Trimmed(FirstWord(s)) && Trimmed(OpeningOf(s).content) && s == FirstWord(s) + " " + OpeningOf(s).content)
  }

  predicate PlainCell(s: string) {
    (s == "" || Trimmed(s)) && PlainText(s) && '|' !in s
  }

  /** Fence-free code: no line of it, as lines end at `\n` only, would close its fence. */
  predicate PlainCode(s: string) {
    |s| <= LIMIT && forall i | 0 <= i < |SplitNL(s)| :: OneLine(SplitNL(s)[i]) && !Closes(SplitNL(s)[i], 3)
  }

  predicate PlainBlock(b: Block) {
    match b
    case Heading(level, text) => 1 <= level <= 3 && Trimmed(text) && PlainText(text)
    case Paragraph(text) => PlainParagraph(text)
    case Bullet(text) => Ended(text) && PlainText(text)
    case Numbered(text) => Trimmed(text) && PlainText(text)
    case Quote(text) => Trimmed(text) && PlainText(text)
    case Divider => true
    case Code(text) => PlainCode(text)
    case Table(rows) =>
      && rows != [] && rows[0] != []
      && forall i | 0 <= i < |rows| :: |rows[i]| == |rows[0]| && forall j | 0 <= j < |rows[i]| :: PlainCell(rows[i][j])
  }

  /** A bullet that reads as the rule of a table, right below one with a pipe. */
  predicate RuleBelow(a: Block, b: Block) {
    a.Bullet? && b.Bullet? && '|' in a.text && IsSeparator("- " + b.text)
  }

  // ---------- what a printed block reads as ----------

  function TextBlock(kind: Kind, text: string): Block {
    match kind
    case HeadingKind(level) => Heading(level, text)
    case ParagraphKind => Paragraph(text)
    case BulletKind => Bullet(text)
    case NumberedKind => Numbered(text)
    case QuoteKind => Quote(text)
  }

  /** A paragraph that begins with a mark reads as what the mark opens; every other block as itself. */
  function ReadsAs(b: Block): Block {
    if b.Paragraph? && OpeningOf(b.text).Opens? then TextBlock(OpeningOf(b.text).kind, OpeningOf(b.text).content) else b
  }

  lemma MadeBlock(kind: Kind, text: string)
    requires |text| <= LIMIT
    ensures MakeBlock(kind, text) == TextBlock(kind, text)
  {
    RichIsIdentity(text);
  }

  // ---------- strings ----------

  function NotNL(): char -> bool {
    (c: char) => c != '\n'
  }

  /** Cut at each `\n`, keeping a last empty line. */
  function SplitNL(s: string): (r: seq<string>)
    ensures r != []
    decreases |s|
  {
    var n := Leading(s, NotNL());
    if n == |s| then [s] else [s[..n]] + SplitNL(s[n + 1..])
  }

  lemma {:induction false} JoinAppend(a: seq<string>, b: seq<string>, sep: string)
    requires a != [] && b != []
    ensures Join(a + b, sep) == Join(a, sep) + sep + Join(b, sep)
  {
    if |a| == 1 {
      assert (a + b)[1..] == b;
    } else {
      assert (a + b)[1..] == a[1..] + b;
      JoinAppend(a[1..], b, sep);
    }
  }

  lemma {:induction false} JoinSplitNL(s: string)
    ensures Join(SplitNL(s), "\n") == s
    decreases |s|
  {
    hide Join, Leading;
    var n := Leading(s, NotNL());
    if n == |s| {
      JoinOne(s, "\n");
    } else {
      JoinSplitNL(s[n + 1..]);
      JoinAppend([s[..n]], SplitNL(s[n + 1..]), "\n");
      JoinOne(s[..n], "\n");
      assert s[n] == '\n';
      assert s == s[..n] + "\n" + s[n + 1..];
    }
  }

  lemma JoinOne(s: string, sep: string)
    ensures Join([s], sep) == s
  {
  }

  lemma {:induction false} LeadingIs(s: string, n: nat, p: char -> bool)
    requires n <= |s| && (forall i | 0 <= i < n :: p(s[i])) && (n < |s| ==> !p(s[n]))
    ensures Leading(s, p) == n
  {
    if n > 0 {
      LeadingIs(s[1..], n - 1, p);
    }
  }

  /** The first line ends at the first break. */
  lemma SplitFirst(line: string, below: string)
    requires OneLine(line)
    ensures SplitLines(line + "\n" + below) == [line] + SplitLines(below)
  {
    var s := line + "\n" + below;
    LeadingIs(s, |line|, NotBreak);
    assert s[..|line|] == line && s[|line| + 1..] == below;
    hide Leading;
  }

  /** Lines with no break of their own come back from their joined text. */
  lemma {:induction false} SplitJoined(lines: seq<string>)
    requires lines != [] && forall i | 0 <= i < |lines| :: OneLine(lines[i])
    ensures SplitLines(Join(lines, "\n") + "\n") == lines
  {
    hide SplitLines, OneLine;
    assert OneLine(lines[0]);
    if |lines| == 1 {
      JoinOne(lines[0], "\n");
      hide Join;
      assert lines == [lines[0]];
      assert lines[0] + "\n" + "" == lines[0] + "\n";
      SplitFirst(lines[0], "");
      NoLines();
    } else {
      var below := lines[1..];
      assert Join(lines, "\n") == lines[0] + "\n" + Join(below, "\n");
      hide Join;
      SplitJoined(below);
      AppendAssoc(lines[0] + "\n", Join(below, "\n"), "\n");
      SplitFirst(lines[0], Join(below, "\n") + "\n");
      assert lines == [lines[0]] + below;
    }
  }

  lemma NoLines()
    ensures SplitLines("") == []
  {
  }

  lemma StripTrimmed(s: string)
    requires s == "" || Trimmed(s)
    ensures Strip(s) == s
  {
    RStripIdentity(s);
  }

  lemma LStripSpaced(s: string)
    requires Trimmed(s)
    ensures LStrip(" " + s) == s
  {
    assert (" " + s)[1..] == s;
  }

  lemma {:induction false} RStripSpaced(s: string)
    requires s == "" || !IsSpace(s[|s| - 1])
    ensures RStrip(s + " ") == s
  {
    assert (s + " ")[..|s|] == s;
    RStripIdentity(s);
  }

  lemma StripPadded(s: string)
    requires s == "" || Trimmed(s)
    ensures Strip(" " + s + " ") == s
  {
    var padded := " " + s + " ";
    if s == "" {
      assert padded == "  ";
      assert padded[1..] == " " && " "[1..] == "";
    } else {
      assert padded[1..] == s + " ";
      assert LStrip(padded) == LStrip(s + " ") == s + " ";
      RStripSpaced(s);
    }
  }

  lemma RichIsIdentity(s: string)
    requires |s| <= LIMIT
    ensures Rich(s) == s && Verbatim(s) == s
  {
    PlainTextIsCarried(s);
  }

  // ---------- what each printed line opens ----------

  lemma HeadingLine(level: nat, t: string)
    requires 1 <= level <= 3 && Trimmed(t)
    ensures var line := Repeat('#', level) + " " + t;
            Trimmed(line) && OpeningOf(line) == Opens(HeadingKind(level), t) && !IsDivider(line) && FenceLen(line) == 0
  {
    hide Leading, LStrip;
    var line := Repeat('#', level) + " " + t;
    LeadingIs(line, level, IsHash);
    LeadingIs(line, 0, IsDash);
    LeadingIs(line, 0, IsTick);
    assert line[level..] == " " + t;
    LStripSpaced(t);
    assert line[|line| - 1] == t[|t| - 1];
  }

  lemma BulletLine(t: string)
    requires Ended(t)
    ensures var line := "- " + t;
            Trimmed(line) && OpeningOf(line) == Opens(BulletKind, t) && !IsDivider(line) && FenceLen(line) == 0
  {
    hide Leading, LStrip;
    var line := "- " + t;
    LeadingIs(line, 0, IsHash);
    LeadingIs(line, 1, IsDash);
    LeadingIs(line, 0, IsTick);
    assert line[|line| - 1] == t[|t| - 1];
    assert line[2..] == t;
  }

  lemma DigitsLead(d: string, t: string)
    requires d != "" && forall i | 0 <= i < |d| :: '0' <= d[i] <= '9'
    ensures Leading(d + ". " + t, IsDigit) == |d|
    ensures Leading(d + ". " + t, IsHash) == Leading(d + ". " + t, IsDash) == Leading(d + ". " + t, IsTick) == 0
  {
    hide Leading;
    var line := d + ". " + t;
    forall i | 0 <= i < |d| ensures IsDigit(line[i]) { assert line[i] == d[i]; }
    LeadingIs(line, |d|, IsDigit);
    assert line[0] == d[0];
    LeadingIs(line, 0, IsHash);
    LeadingIs(line, 0, IsDash);
    LeadingIs(line, 0, IsTick);
  }

  lemma NumberedLine(n: nat, t: string)
    requires Trimmed(t)
    ensures var line := Decimal(n) + ". " + t;
            Trimmed(line) && OpeningOf(line) == Opens(NumberedKind, t) && !IsDivider(line) && FenceLen(line) == 0
            && '0' <= line[0] <= '9'
  {
    hide Leading, Decimal, IsDigit, LStrip;
    var d := Decimal(n);
    var line := d + ". " + t;
    DigitsLead(d, t);
    assert line[0] == d[0] && line[|d|] == '.';
    assert line[|d| + 1..] == " " + t;
    LStripSpaced(t);
    assert line[|line| - 1] == t[|t| - 1];
  }

  /** A row whose first cell begins with neither a dash nor a colon is no rule. */
  lemma NoRule(line: string)
    requires Trimmed(line) && line[0] != '|' && line[0] != '-' && line[0] != ':'
    ensures !IsSeparator(line)
  {
    hide Leading, SplitPipes;
    StripTrimmed(line);
    var body := if line[|line| - 1] == '|' then line[..|line| - 1] else line;
    FirstCell(body);
    var cell := SplitRow(line)[0];
    assert cell[0] == line[0];
    NoRuleCell(cell);
  }

  lemma NoRuleCell(cell: string)
    requires cell != "" && cell[0] != '-' && cell[0] != ':'
    ensures !IsSeparatorCell(cell)
  {
  }

  lemma FirstCell(body: string)
    requires body != "" && body[0] != '|' && !IsSpace(body[0])
    ensures Strips(SplitPipes(body))[0] != "" && Strips(SplitPipes(body))[0][0] == body[0]
  {
    var n := Leading(body, NotPipe);
    assert SplitPipes(body)[0] == body[..n];
    StripBegun(body[..n]);
  }

  lemma StripBegun(s: string)
    requires s != "" && !IsSpace(s[0])
    ensures Strip(s) != "" && Strip(s)[0] == s[0]
  {
    assert LStrip(s) == s;
    RStripBegun(s);
  }

  lemma {:induction false} RStripBegun(s: string)
    requires s != "" && !IsSpace(s[0])
    ensures RStrip(s) != "" && RStrip(s)[0] == s[0]
  {
    if IsSpace(s[|s| - 1]) {
      RStripBegun(s[..|s| - 1]);
    }
  }

  lemma QuoteLine(t: string)
    requires Trimmed(t)
    ensures var line := "> " + t;
            Trimmed(line) && OpeningOf(line) == Opens(QuoteKind, t) && !IsDivider(line) && FenceLen(line) == 0
  {
    hide Leading, LStrip;
    var line := "> " + t;
    LeadingIs(line, 0, IsHash);
    LeadingIs(line, 0, IsDash);
    LeadingIs(line, 0, IsTick);
    LeadingIs(line, 0, IsDigit);
    assert line[1..] == " " + t;
    LStripSpaced(t);
    assert line[|line| - 1] == t[|t| - 1];
  }

  lemma DividerLine()
    ensures Strip("---") == "---" && IsDivider("---") && FenceLen("---") == 0
  {
    StripTrimmed("---");
    LeadingIs("---", 3, IsDash);
    LeadingIs("---", 0, IsTick);
  }

  lemma FenceLine()
    ensures Strip("```") == "```" && FenceLen("```") == 3 && Closes("```", 3)
  {
    StripTrimmed("```");
    LeadingIs("```", 3, IsTick);
  }

  // ---------- tables ----------

  /** What stands between a row's outer pipes. */
  function Inner(cells: seq<string>): string
    requires cells != []
  {
    if |cells| == 1 then " " + cells[0] + " " else " " + cells[0] + " |" + Inner(cells[1..])
  }

  lemma {:induction false} InnerIs(cells: seq<string>)
    requires cells != []
    ensures " " + Join(cells, " | ") + " " == Inner(cells)
  {
    if |cells| > 1 {
      InnerIs(cells[1..]);
    }
  }

  lemma RowIs(cells: seq<string>)
    requires cells != []
    ensures RowLine(cells) == "|" + Inner(cells) + "|"
  {
    InnerIs(cells);
  }

  function Pad(cells: seq<string>): (r: seq<string>)
    ensures |r| == |cells|
  {
    seq(|cells|, i requires 0 <= i < |cells| => " " + cells[i] + " ")
  }

  lemma SplitHead(head: string, below: string)
    requires '|' !in head
    ensures SplitPipes(head + "|" + below) == [head] + SplitPipes(below)
    ensures SplitPipes(head) == [head]
  {
    var s := head + "|" + below;
    LeadingIs(s, |head|, NotPipe);
    LeadingIs(head, |head|, NotPipe);
    assert s[..|head|] == head && s[|head| + 1..] == below;
    hide Leading;
  }

  lemma {:induction false} SplitInner(cells: seq<string>)
    requires cells != [] && forall i | 0 <= i < |cells| :: '|' !in cells[i]
    ensures SplitPipes(Inner(cells)) == Pad(cells)
  {
    hide SplitPipes;
    var head := " " + cells[0] + " ";
    PaddedHasNoPipe(cells[0]);
    if |cells| == 1 {
      SplitHead(head, "");
      assert Pad(cells) == [head];
    } else {
      assert Inner(cells) == head + "|" + Inner(cells[1..]) by {
        assert " " + cells[0] + " |" == head + "|";
      }
      hide Inner;
      SplitHead(head, Inner(cells[1..]));
      SplitInner(cells[1..]);
      assert Pad(cells) == [head] + Pad(cells[1..]);
    }
  }

  lemma PaddedHasNoPipe(cell: string)
    requires '|' !in cell
    ensures '|' !in " " + cell + " "
  {
  }

  /** A printed row splits into its cells. */
  lemma RowSplits(cells: seq<string>)
    requires cells != [] && forall i | 0 <= i < |cells| :: '|' !in cells[i] && (cells[i] == "" || Trimmed(cells[i]))
    ensures SplitRow(RowLine(cells)) == cells
    ensures Trimmed(RowLine(cells)) && '|' in RowLine(cells)
    ensures RowLine(cells)[0] == '|'
  {
    var line, inner := RowLine(cells), Inner(cells);
    RowIs(cells);
    assert line == "|" + inner + "|";
    StripTrimmed(line);
    assert line[1..] == inner + "|";
    assert (inner + "|")[..|inner|] == inner;
    SplitInner(cells);
    forall i | 0 <= i < |cells| ensures Strip(Pad(cells)[i]) == cells[i] {
      StripPadded(cells[i]);
    }
    assert SplitRow(line) == Strips(Pad(cells)) == cells;
  }

  lemma RuleIsSeparator(width: nat)
    requires width >= 1
    ensures IsSeparator(RowLine(Rules(width)))
  {
    hide RowLine, SplitRow, Strip;
    RowSplits(Rules(width));
    LeadingIs("---", 3, IsDash);
  }
}
