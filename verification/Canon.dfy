/** Canonical text: what a page's hash is taken from, and exactly when taking it twice changes nothing. */
module Canon {
  import opened Seqs
  import opened Text
  import opened Spans
  import opened Markdown
  import opened MarkdownPrint
  import opened PlainLines
  import opened RoundTrip

  /** The text a page's hash is taken from. */
  function Canonical(md: string): string {
    ScanPrintable(SplitLines(md), NoPending);
    Print(Parse(md))
  }

  // ---------- what parsing leaves ----------

  /** What is asked of a parsed block: no inline marks, no text cut at the limit, no code line that would
      close a fence of three. */
  predicate Tame(b: Block) {
    match b
    case Heading(_, text) => NoInline(text) && |text| < LIMIT
    case Paragraph(text) => Unmarked(text) && |text| < LIMIT
    case Bullet(text) => NoInline(text) && |text| < LIMIT
    case Numbered(text) => NoInline(text) && |text| < LIMIT
    case Quote(text) => NoInline(text) && |text| < LIMIT
    case Divider => true
    case Code(text) => |text| < LIMIT && forall i | 0 <= i < |SplitNL(text)| :: !Closes(SplitNL(text)[i], 3)
    case Table(rows) =>
      forall i | 0 <= i < |rows| :: forall j | 0 <= j < |rows[i]| :: NoInline(rows[i][j]) && |rows[i][j]| < LIMIT
  }

  predicate AllTame(bs: seq<Block>) {
    forall i | 0 <= i < |bs| :: Tame(bs[i])
  }

  predicate PlainIfTame(bs: seq<Block>) {
    forall b <- bs :: Tame(b) ==> PlainBlock(b)
  }

  predicate OneLines(lines: seq<string>) {
    forall i | 0 <= i < |lines| :: OneLine(lines[i])
  }

  lemma BothPlain(a: seq<Block>, b: seq<Block>)
    requires PlainIfTame(a) && PlainIfTame(b)
    ensures PlainIfTame(a + b)
  {
  }

  lemma {:induction false} LStripCuts(s: string)
    ensures |LStrip(s)| <= |s| && LStrip(s) == s[|s| - |LStrip(s)|..]
    ensures forall i | 0 <= i < |s| - |LStrip(s)| :: IsSpace(s[i])
  {
    if s != "" && IsSpace(s[0]) {
      LStripCuts(s[1..]);
    }
  }

  /** Stripping an ended text leaves a trimmed one. */
  lemma LStripEnded(s: string)
    requires Ended(s)
    ensures Trimmed(LStrip(s)) && LStrip(s)[|LStrip(s)| - 1] == s[|s| - 1]
    ensures OneLine(s) ==> OneLine(LStrip(s))
  {
    LStripCuts(s);
  }

  lemma StripLine(s: string)
    requires OneLine(s)
    ensures OneLine(Strip(s)) && (Strip(s) == "" || Trimmed(Strip(s)))
    ensures '|' !in s ==> '|' !in Strip(s)
  {
    LStripCuts(s);
    if LStrip(s) != "" {
      RStripBegun(LStrip(s));
    }
  }

  lemma UncutText(text: string)
    ensures |Rich(text)| <= LIMIT && (|Rich(text)| < LIMIT ==> Rich(text) == text)
    ensures |Verbatim(text)| <= LIMIT && (|Verbatim(text)| < LIMIT ==> Verbatim(text) == text)
  {
    if |text| > LIMIT {
      PlainTextIsCut(text);
    } else {
      PlainTextIsCarried(text);
    }
  }

  // ---------- what a line opens ----------

  /** What a trimmed line opens is a text of its own, trimmed unless it is a bullet's. */
  lemma OpenedText(text: string)
    requires Trimmed(text) && OneLine(text) && OpeningOf(text).Opens?
    ensures var o := OpeningOf(text);
      && OneLine(o.content) && !o.kind.ParagraphKind?
      && (o.kind.QuoteKind? || o.content != "")
      && (o.content != "" ==> Ended(o.content) && (o.kind.BulletKind? || Trimmed(o.content)))
      && (o.kind.HeadingKind? ==> 1 <= o.kind.level <= 3)
  {
    hide Leading, IsDigit, IsSpace, IsBreak;
    if HeadingOf(text).Opens? {
      LStripEnded(text[Leading(text, IsHash)..]);
    } else if "- " <= text || "* " <= text || "+ " <= text {
      BlankIsSpace();
      assert text[1] == ' ';
    } else if NumberedOf(text).Opens? {
      LStripEnded(text[Leading(text, IsDigit) + 1..]);
    } else if |text| > 1 {
      LStripEnded(text[1..]);
    }
  }

  lemma BlankIsSpace()
    ensures IsSpace(' ')
  {
  }

  /** A line that opens nothing, and more text behind a blank: if the whole opens something, the line was
      its mark. */
  lemma JoinedText(line: string, more: string)
    requires Trimmed(line) && OpeningOf(line).NoOpening? && Trimmed(more)
    ensures var t := line + " " + more;
            OpeningOf(t).Opens? ==> FirstWord(t) == line && OpeningOf(t).content == more && !OpeningOf(t).kind.QuoteKind?
  {
    hide LStrip, OpeningOf;
    var t := line + " " + more;
    OpeningCases(line);
    JoinedHeading(line, more);
    JoinedNumber(line, more);
    JoinedBullet(line, more);
    JoinedQuote(line, more);
    OpeningCases(t);
  }

  lemma OpeningCases(t: string)
    ensures OpeningOf(t).Opens? ==> OpeningOf(t).kind.HeadingKind? || OpeningOf(t).kind.BulletKind? || OpeningOf(t).kind.NumberedKind?
                                    || OpeningOf(t).kind.QuoteKind?
    ensures OpeningOf(t).Opens? && OpeningOf(t).kind.HeadingKind? ==> OpeningOf(t) == HeadingOf(t)
    ensures OpeningOf(t).Opens? && OpeningOf(t).kind.NumberedKind? ==> OpeningOf(t) == NumberedOf(t)
    ensures OpeningOf(t).Opens? && OpeningOf(t).kind.BulletKind? ==>
      ("- " <= t || "* " <= t || "+ " <= t) && OpeningOf(t).content == t[2..]
    ensures OpeningOf(t).Opens? && OpeningOf(t).kind.QuoteKind? ==> t != "" && t[0] == '>'
    ensures OpeningOf(t).NoOpening? ==> HeadingOf(t).NoOpening? && NumberedOf(t).NoOpening? && !("- " <= t || "* " <= t || "+ " <= t)
                                        && !(t != "" && t[0] == '>')
  {
  }

  lemma WordIs(word: string, more: string)
    requires forall i | 0 <= i < |word| :: word[i] != ' '
    ensures FirstWord(word + " " + more) == word
  {
    LeadingIs(word + " " + more, |word|, NotBlank);
  }

  /** What leads a line leads it with more text behind a blank. */
  lemma LeadsOn(line: string, more: string, p: char -> bool)
    requires !p(' ')
    ensures Leading(line + " " + more, p) == Leading(line, p)
  {
    var t, n := line + " " + more, Leading(line, p);
    forall i | 0 <= i < n ensures p(t[i]) {
      assert t[i] == line[i];
    }
    assert t[n] == if n < |line| then line[n] else ' ';
    LeadingIs(t, n, p);
  }

  lemma JoinedHeading(line: string, more: string)
    requires HeadingOf(line).NoOpening? && line != "" && Trimmed(more)
    ensures var t := line + " " + more;
            HeadingOf(t).Opens? ==> FirstWord(t) == line && HeadingOf(t).content == more
  {
    hide LStrip;
    var t := line + " " + more;
    var c := Leading(t, IsHash);
    LeadsOn(line, more, IsHash);
    if c < |line| {
      assert t[c] == line[c];
    } else if HeadingOf(t).Opens? {
      assert t[c..] == " " + more;
      LStripSpaced(more);
      WordIs(line, more);
    }
  }

  lemma JoinedNumber(line: string, more: string)
    requires NumberedOf(line).NoOpening? && line != "" && Trimmed(more)
    ensures var t := line + " " + more;
            NumberedOf(t).Opens? ==> FirstWord(t) == line && NumberedOf(t).content == more
  {
    hide LStrip, IsDigit;
    var t := line + " " + more;
    var c := Leading(t, IsDigit);
    assert t[|line|] == ' ';
    BlankIsNoDigit();
    LeadsOn(line, more, IsDigit);
    assert c + 1 < |line| ==> t[c] == line[c] && t[c + 1] == line[c + 1];
    if NumberedOf(t).Opens? {
      assert c < |line|;
      assert c + 1 == |line|;
      assert t[c + 1..] == " " + more;
      LStripSpaced(more);
      forall i | 0 <= i < |line| ensures line[i] != ' ' {
        assert i < c ==> IsDigit(t[i]) && t[i] == line[i];
      }
      WordIs(line, more);
    }
  }

  lemma BlankIsNoDigit()
    ensures !IsDigit(' ')
  {
  }

  lemma JoinedBullet(line: string, more: string)
    requires !("- " <= line || "* " <= line || "+ " <= line) && Trimmed(line)
    ensures var t := line + " " + more;
            "- " <= t || "* " <= t || "+ " <= t ==> FirstWord(t) == line && t[2..] == more
  {
    var t := line + " " + more;
    assert |line| >= 2 ==> t[..2] == line[..2];
    if "- " <= t || "* " <= t || "+ " <= t {
      WordIs(line, more);
    }
  }

  lemma JoinedQuote(line: string, more: string)
    requires line != "" && line[0] != '>'
    ensures (line + " " + more)[0] != '>'
  {
  }

  /** Nor does joining make a rule or a fence. */
  lemma JoinedPlain(line: string, more: string)
    requires Trimmed(line) && Trimmed(more) && OneLine(line) && OneLine(more) && FenceLen(line) < 3
    ensures var t := line + " " + more;
            Trimmed(t) && OneLine(t) && !IsDivider(t) && FenceLen(t) < 3 && t[0] == line[0]
  {
    hide IsSpace, IsBreak;
    var t := line + " " + more;
    assert t[|line|] == ' ' && t[|t| - 1] == more[|more| - 1];
    BlankIsNoBreak();
    LeadsOn(line, more, IsTick);
  }

  lemma BlankIsNoBreak()
    ensures !IsBreak(' ')
  {
  }

  // ---------- what the scanner holds open ----------

  /** Lines held open: trimmed and unbroken, but that a bullet may begin with blanks; the first of a
      paragraph opened nothing. */
  predicate HeldWell(p: Pending) {
    p.Open? ==>
      && p.parts != [] && !p.kind.HeadingKind?
      && (forall i | 0 <= i < |p.parts| :: OneLine(p.parts[i]) && Ended(p.parts[i]))
      && (forall i | 0 < i < |p.parts| :: Trimmed(p.parts[i]))
      && (!p.kind.BulletKind? ==> Trimmed(p.parts[0]))
      && (p.kind.ParagraphKind? ==> OpeningOf(p.parts[0]).NoOpening? && !IsDivider(p.parts[0]) && FenceLen(p.parts[0]) < 3)
  }

  lemma {:induction false} JoinedParts(parts: seq<string>)
    requires parts != [] && forall i | 0 <= i < |parts| :: OneLine(parts[i]) && Ended(parts[i])
    ensures OneLine(Join(parts, " ")) && Ended(Join(parts, " ")) && parts[0] != "" && Join(parts, " ")[0] == parts[0][0]
  {
    if |parts| > 1 {
      JoinedParts(parts[1..]);
      BlankIsNoBreak();
      hide IsBreak, IsSpace;
      var more := Join(parts[1..], " ");
      var t := parts[0] + " " + more;
      assert t[|t| - 1] == more[|more| - 1];
    }
  }

  /** The text of a paragraph held open. */
  lemma ParagraphHeld(parts: seq<string>)
    requires HeldWell(Open(ParagraphKind, parts)) && Unmarked(Join(parts, " ")) && |Join(parts, " ")| <= LIMIT
    ensures PlainParagraph(Join(parts, " "))
  {
    hide OpeningOf, IsDivider, FenceLen, OneLine, Unmarked, FirstWord;
    JoinedParts(parts);
    OpeningCases(parts[0]);
    if |parts| > 1 {
      var more := Join(parts[1..], " ");
      JoinedParts(parts[1..]);
      JoinedText(parts[0], more);
      JoinedPlain(parts[0], more);
    }
  }

  lemma FlushedPlain(p: Pending)
    requires HeldWell(p)
    ensures PlainIfTame(Flush(p))
  {
    hide OpeningOf, IsDivider, FenceLen, OneLine, NoInline, Unmarked, FirstWord, Join, Rich, IsSpace, PlainParagraph;
    if p.Open? {
      var t := Join(p.parts, " ");
      JoinedParts(p.parts);
      UncutText(t);
      assert p.parts[0] != "";
      if p.kind.ParagraphKind? && Tame(Paragraph(Rich(t))) {
        ParagraphHeld(p.parts);
      }
    }
  }

  lemma HeldMore(p: Pending, text: string)
    requires HeldWell(p) && p.Open? && Trimmed(text) && OneLine(text)
    ensures HeldWell(Open(p.kind, p.parts + [text]))
  {
    hide OpeningOf, IsDivider, FenceLen, OneLine, IsSpace;
    assert (p.parts + [text])[0] == p.parts[0];
  }

  /** One line of text keeps what is held well, and emits only plain blocks. */
  lemma ContinuedWell(p: Pending, text: string)
    requires HeldWell(p) && Trimmed(text) && OneLine(text) && !IsDivider(text) && FenceLen(text) < 3
    ensures HeldWell(Continue(p, text).pending) && PlainIfTame(Continue(p, text).emitted)
  {
    hide OpeningOf, IsDivider, FenceLen, OneLine, IsSpace, PlainIfTame, Flush, Rich, MakeBlock;
    FlushedPlain(p);
    NothingPlain();
    var o := OpeningOf(text);
    if o.NoOpening? {
      if p.Open? {
        HeldMore(p, text);
      } else {
        HeldFirst(ParagraphKind, text);
      }
    } else {
      OpenedText(text);
      if p.Open? && p.kind.QuoteKind? && o.kind.QuoteKind? && o.content != "" {
        HeldMore(p, o.content);
      } else if !o.kind.HeadingKind? {
        if o.content != "" {
          HeldFirst(o.kind, o.content);
        }
      } else {
        HeadingPlain(o.kind.level, o.content);
        BothPlain(Flush(p), [MakeBlock(o.kind, o.content)]);
      }
    }
  }

  lemma NothingPlain()
    ensures PlainIfTame([])
  {
  }

  lemma HeldFirst(kind: Kind, text: string)
    requires Ended(text) && OneLine(text) && !kind.HeadingKind? && (kind.BulletKind? || Trimmed(text))
    requires kind.ParagraphKind? ==> OpeningOf(text).NoOpening? && !IsDivider(text) && FenceLen(text) < 3
    ensures HeldWell(Open(kind, [text]))
  {
    hide OpeningOf, IsDivider, FenceLen, OneLine, IsSpace;
  }

  lemma HeadingPlain(level: nat, text: string)
    requires 1 <= level <= 3 && Trimmed(text) && OneLine(text)
    ensures PlainIfTame([MakeBlock(HeadingKind(level), text)])
  {
    hide OneLine, NoInline, Rich, Trimmed;
    UncutText(text);
  }

  // ---------- code and tables ----------

  lemma {:induction false} SplitJoinedNL(body: seq<string>)
    requires body != [] && OneLines(body)
    ensures SplitNL(Join(body, "\n")) == body
  {
    hide SplitNL, OneLine;
    assert OneLine(body[0]);
    if |body| == 1 {
      LastNL(body[0]);
    } else {
      FirstNL(body[0], Join(body[1..], "\n"));
      SplitJoinedNL(body[1..]);
      assert body == [body[0]] + body[1..];
    }
  }

  lemma LastNL(line: string)
    requires OneLine(line)
    ensures SplitNL(line) == [line]
  {
    LeadingIs(line, |line|, NotNL());
  }

  lemma FirstNL(line: string, more: string)
    requires OneLine(line)
    ensures SplitNL(line + "\n" + more) == [line] + SplitNL(more)
  {
    var t := line + "\n" + more;
    LeadingIs(t, |line|, NotNL());
    assert t[..|line|] == line && t[|line| + 1..] == more;
    hide Leading, OneLine;
  }

  lemma CodePlain(body: seq<string>)
    requires OneLines(body)
    ensures PlainIfTame([CodeOf(body)])
  {
    hide SplitNL, Verbatim, Closes, Join;
    var t := Join(body, "\n");
    UncutText(t);
    if body == [] {
      EmptyCode();
    } else {
      SplitJoinedNL(body);
    }
  }

  lemma EmptyCode()
    ensures Join([], "\n") == "" && SplitNL("") == [""]
  {
  }

  lemma {:induction false} PiecesOfRow(s: string)
    requires OneLine(s)
    ensures forall i | 0 <= i < |SplitPipes(s)| :: OneLine(SplitPipes(s)[i]) && '|' !in SplitPipes(s)[i]
    decreases |s|
  {
    var n := Leading(s, NotPipe);
    if n < |s| {
      PiecesOfRow(s[n + 1..]);
    }
  }

  lemma CellsOfRow(line: string)
    requires OneLine(line)
    ensures forall i | 0 <= i < |SplitRow(line)| ::
      OneLine(SplitRow(line)[i]) && '|' !in SplitRow(line)[i] && (SplitRow(line)[i] == "" || Trimmed(SplitRow(line)[i]))
  {
    StripLine(line);
    hide Strip, IsSpace, IsBreak, SplitPipes;
    var text := Strip(line);
    var head := if text != [] && text[0] == '|' then text[1..] else text;
    var body := if head != [] && head[|head| - 1] == '|' then head[..|head| - 1] else head;
    assert OneLine(body);
    PiecesOfRow(body);
    hide OneLine;
    forall i | 0 <= i < |SplitPipes(body)|
      ensures OneLine(Strip(SplitPipes(body)[i])) && '|' !in Strip(SplitPipes(body)[i])
           && (Strip(SplitPipes(body)[i]) == "" || Trimmed(Strip(SplitPipes(body)[i])))
    {
      StripLine(SplitPipes(body)[i]);
    }
  }

  predicate CellFine(cell: string) {
    NoInline(cell) && |cell| < LIMIT ==> PlainCell(cell)
  }

  lemma FittedPlain(line: string, width: nat)
    requires OneLine(line)
    ensures forall j | 0 <= j < width :: CellFine(Fitted(SplitRow(line), width)[j])
  {
    hide SplitRow, OneLine, NoInline, Rich, Trimmed;
    CellsOfRow(line);
    var cells := SplitRow(line);
    RichIsIdentity("");
    EmptyOneLine();
    forall j | 0 <= j < width ensures CellFine(Fitted(cells, width)[j]) {
      if j < |cells| {
        UncutText(cells[j]);
      }
    }
  }

  lemma EmptyOneLine()
    ensures OneLine("")
  {
  }

  lemma TablePlain(header: string, lines: seq<string>)
    requires OneLine(header) && OneLines(lines)
    ensures PlainIfTame([TableOf(header, lines)])
  {
    hide SplitRow, OneLine, Fitted, PlainCell, NoInline;
    var width := |SplitRow(header)|;
    var rows := TableOf(header, lines).rows;
    forall i | 0 <= i < |rows| ensures |rows[i]| == width && forall j | 0 <= j < width :: CellFine(rows[i][j]) {
      if i == 0 {
        FittedPlain(header, width);
      } else {
        FittedPlain(lines[i - 1], width);
      }
    }
  }

  lemma DividerPlain()
    ensures PlainIfTame([Divider])
  {
  }

  // ---------- every page ----------

  /** Whatever is scanned, its tame blocks are plain. */
  lemma {:induction false} ScannedPlain(lines: seq<string>, p: Pending)
    requires OneLines(lines) && HeldWell(p)
    ensures PlainIfTame(Scan(lines, p))
    decreases |lines|
  {
    hide Strip, FenceLen, BodyLen, RowCount, IsDivider, IsSeparator, AfterFence, Continue, CodeOf, TableOf, Flush, PlainIfTame, OneLine, HeldWell,
      Trimmed;
    FlushedPlain(p);
    DividerPlain();
    NothingHeld();
    if lines != [] {
      var text := Strip(lines[0]);
      assert OneLine(lines[0]);
      StripLine(lines[0]);
      if text == "" {
        ScannedPlain(lines[1..], NoPending);
        BothPlain(Flush(p), Scan(lines[1..], NoPending));
      } else if FenceLen(text) >= 3 {
        var body := lines[1..1 + BodyLen(lines[1..], FenceLen(text))];
        CodePlain(body);
        ScannedPlain(lines[AfterFence(lines)..], NoPending);
        BothPlain(Flush(p), [CodeOf(body)]);
        BothPlain(Flush(p) + [CodeOf(body)], Scan(lines[AfterFence(lines)..], NoPending));
      } else if OpensTable(lines) {
        var n := RowCount(lines[2..]);
        TablePlain(lines[0], lines[2..2 + n]);
        ScannedPlain(lines[2 + n..], NoPending);
        BothPlain(Flush(p), [TableOf(lines[0], lines[2..2 + n])]);
        BothPlain(Flush(p) + [TableOf(lines[0], lines[2..2 + n])], Scan(lines[2 + n..], NoPending));
      } else if IsDivider(text) {
        ScannedPlain(lines[1..], NoPending);
        BothPlain(Flush(p), [Divider]);
        BothPlain(Flush(p) + [Divider], Scan(lines[1..], NoPending));
      } else {
        ContinuedWell(p, text);
        ScannedPlain(lines[1..], Continue(p, text).pending);
        BothPlain(Continue(p, text).emitted, Scan(lines[1..], Continue(p, text).pending));
      }
    }
  }

  lemma NothingHeld()
    ensures HeldWell(NoPending)
  {
  }

  lemma {:induction false} SplitOneLines(s: string)
    ensures OneLines(SplitLines(s))
    decreases |s|
  {
    hide OneLine;
    if s != [] {
      var n := Leading(s, NotBreak);
      LeadIsOneLine(s);
      assert n == |s| ==> s[..n] == s;
      if n < |s| {
        SplitOneLines(s[n + (if s[n] == '\r' && n + 1 < |s| && s[n + 1] == '\n' then 2 else 1)..]);
      }
    }
  }

  lemma LeadIsOneLine(s: string)
    ensures OneLine(s[..Leading(s, NotBreak)])
  {
  }

  /** Whatever page is parsed, its blocks are plain when they are tame. */
  lemma TameIsPlain(md: string)
    requires AllTame(Parse(md))
    ensures PlainEach(Parse(md))
  {
    hide Scan, SplitLines, Tame, PlainBlock, HeldWell;
    SplitOneLines(md);
    NothingHeld();
    ScannedPlain(SplitLines(md), NoPending);
    ScanPrintable(SplitLines(md), NoPending);
  }

  // ---------- exactly when canonical text settles ----------

  /** Digits and a dot. */
  predicate NumberMark(w: string) {
    |w| >= 2 && w[|w| - 1] == '.' && Leading(w, IsDigit) == |w| - 1
  }

  /** A mark that is printed back as another: a star or a plus as a dash, four hashes or more as three,
      any number but one as one. */
  predicate MovingMark(w: string) {
    w == "*" || w == "+" || (4 <= |w| <= 6 && Leading(w, IsHash) == |w|) || (NumberMark(w) && w != "1.")
  }

  predicate Moves(t: string) {
    OpeningOf(t).Opens? && MovingMark(FirstWord(t))
  }

  /** No paragraph begins with a mark that moves, and none that reads as an item stands beside an item of
      its own type. */
  predicate KeepsPlace(bs: seq<Block>) {
    && (forall i | 0 <= i < |bs| && bs[i].Paragraph? :: !Moves(bs[i].text))
    && (forall i | 0 < i < |bs| :: Adjacent(ReadsAs(bs[i - 1]), ReadsAs(bs[i])) ==> Adjacent(bs[i - 1], bs[i]))
  }

  lemma {:induction false} KeepsPlaceParts(bs: seq<Block>)
    requires |bs| > 1
    ensures KeepsPlace(bs) <==>
      KeepsPlace(Init(bs)) && (Last(bs).Paragraph? ==> !Moves(Last(bs).text))
      && (Adjacent(ReadsAs(bs[|bs| - 2]), ReadsAs(Last(bs))) ==> Adjacent(bs[|bs| - 2], Last(bs)))
  {
    hide ReadsAs, Adjacent, Moves;
    var front := Init(bs);
    assert forall i | 0 <= i < |front| :: front[i] == bs[i];
  }

  // ---------- a mark, printed back ----------

  /** The mark a block's line begins with. */
  function MarkOf(kind: Kind, number: nat): string
    requires kind.HeadingKind? || kind.BulletKind? || kind.NumberedKind?
  {
    match kind
    case HeadingKind(level) => Repeat('#', level)
    case BulletKind => "-"
    case NumberedKind => Decimal(number) + "."
  }

  /** What the mark of a paragraph that opens something looks like. */
  lemma MarkIs(t: string)
    requires PlainParagraph(t) && OpeningOf(t).Opens?
    ensures var w, kind := FirstWord(t), OpeningOf(t).kind;
      && (kind.HeadingKind? || kind.BulletKind? || kind.NumberedKind?)
      && (kind.HeadingKind? ==> 1 <= |w| <= 6 && Leading(w, IsHash) == |w| && kind.level == if |w| <= 3 then |w| else 3)
      && (kind.BulletKind? ==> w == "-" || w == "*" || w == "+")
      && (kind.NumberedKind? ==> NumberMark(w))
  {
    hide OneLine, Unmarked, IsDivider, FenceLen, OpeningOf, FirstWord, LStrip, IsDigit;
    OpeningCases(t);
    var w, o := FirstWord(t), OpeningOf(t);
    if o.kind.HeadingKind? {
      HeadingMark(t, w, o.content);
    } else if o.kind.NumberedKind? {
      NumberedMark(t, w, o.content);
    } else {
      assert t[..1] == w;
    }
  }

  /** What is stripped before the content is blank, so the mark is all that stands before it. */
  lemma StripMark(t: string, c: nat, w: string, content: string)
    requires c <= |t| && LStrip(t[c..]) == content && t == w + " " + content && Trimmed(w)
    requires c < |t| && IsSpace(t[c])
    ensures |w| <= c
  {
    hide IsSpace;
    assert c < |w| ==> t[c..][|w| - 1 - c] == w[|w| - 1];
    LStripCuts(t[c..]);
  }

  lemma LStripShortens(s: string)
    requires s != "" && IsSpace(s[0])
    ensures |LStrip(s)| < |s|
  {
    LStripCuts(s[1..]);
  }

  lemma HeadingMark(t: string, w: string, content: string)
    requires HeadingOf(t).Opens? && HeadingOf(t).content == content && t == w + " " + content && Trimmed(w)
    ensures 1 <= |w| <= 6 && Leading(w, IsHash) == |w| && HeadingOf(t).kind == HeadingKind(if |w| <= 3 then |w| else 3)
  {
    hide LStrip, IsSpace;
    var c := Leading(t, IsHash);
    StripMark(t, c, w, content);
    LStripShortens(t[c..]);
    assert |w| == c;
    assert forall i | 0 <= i < c :: w[i] == t[i];
    LeadingIs(w, c, IsHash);
  }

  lemma NumberedMark(t: string, w: string, content: string)
    requires NumberedOf(t).Opens? && NumberedOf(t).content == content && t == w + " " + content && Trimmed(w)
    ensures NumberMark(w)
  {
    hide LStrip, IsSpace, IsDigit;
    var c := Leading(t, IsDigit);
    StripMark(t, c + 1, w, content);
    LStripShortens(t[c + 1..]);
    assert |w| == c + 1;
    assert forall i | 0 <= i <= c :: w[i] == t[i];
    DotIsNoDigit();
    LeadingIs(w, c, IsDigit);
  }

  lemma DotIsNoDigit()
    ensures !IsDigit('.')
  {
  }

  lemma HashesAre(w: string, n: nat)
    requires Leading(w, IsHash) == |w|
    ensures w == Repeat('#', n) <==> |w| == n
  {
  }

  lemma MarkedParts(t: string)
    requires PlainParagraph(t) && OpeningOf(t).Opens?
    ensures var o := OpeningOf(t);
      && t == FirstWord(t) + " " + o.content && o == Opens(o.kind, o.content)
      && Trimmed(o.content) && OneLine(t) && Unmarked(t) && |t| <= LIMIT
  {
    hide OpeningOf, FirstWord, OneLine, Unmarked, IsDivider, FenceLen, Trimmed;
  }

  /** In first place a marked paragraph prints back as itself exactly when its mark does not move. */
  lemma MarkPrints(t: string, number: nat)
    requires PlainParagraph(t) && OpeningOf(t).Opens? && (OpeningOf(t).kind.NumberedKind? ==> number == 1)
    ensures Printable(ReadsAs(Paragraph(t)))
    ensures BlockToMarkdown(ReadsAs(Paragraph(t)), number) == t <==> !MovingMark(FirstWord(t))
  {
    hide PlainParagraph, OpeningOf, FirstWord, MovingMark, MarkOf, BlockToMarkdown, TextBlock;
    MarkIs(t);
    MarkedParts(t);
    var w, o := FirstWord(t), OpeningOf(t);
    TextPrints(o.kind, o.content);
    PrintsMark(o.kind, o.content, number);
    SameBehind(MarkOf(o.kind, number), w, o.content);
    MarkStays(o.kind, w, number);
  }

  lemma TextPrints(kind: Kind, text: string)
    ensures Printable(TextBlock(kind, text))
  {
  }

  lemma MarkStays(kind: Kind, w: string, number: nat)
    requires kind.HeadingKind? ==> 1 <= |w| <= 6 && Leading(w, IsHash) == |w| && kind.level == if |w| <= 3 then |w| else 3
    requires kind.BulletKind? ==> w == "-" || w == "*" || w == "+"
    requires kind.NumberedKind? ==> NumberMark(w) && number == 1
    requires kind.HeadingKind? || kind.BulletKind? || kind.NumberedKind?
    ensures MarkOf(kind, number) == w <==> !MovingMark(w)
  {
    hide NumberMark, Leading, Repeat;
    match kind
    case HeadingKind(level) =>
      HashesAre(w, level);
      HashNoNumber(w);
    case BulletKind => DashStays();
    case NumberedKind =>
      assert Decimal(1) == "1";
      NumberNoHash(w);
  }

  lemma DashStays()
    ensures !MovingMark("-")
  {
  }

  lemma HashNoNumber(w: string)
    requires Leading(w, IsHash) == |w| && w != ""
    ensures !NumberMark(w) && w != "*" && w != "+"
  {
    hide IsDigit;
    assert w[0] == '#' && w[|w| - 1] == '#';
  }

  lemma NumberNoHash(w: string)
    requires NumberMark(w)
    ensures Leading(w, IsHash) != |w| && w != "*" && w != "+"
  {
    hide IsDigit;
    assert w[|w| - 1] == '.';
  }

  lemma PrintsMark(kind: Kind, content: string, number: nat)
    requires kind.HeadingKind? || kind.BulletKind? || kind.NumberedKind?
    ensures BlockToMarkdown(TextBlock(kind, content), number) == MarkOf(kind, number) + " " + content
  {
    hide Repeat, Decimal;
    match kind
    case HeadingKind(level) =>
    case BulletKind =>
    case NumberedKind => assert Decimal(number) + ". " + content == Decimal(number) + "." + " " + content;
  }

  lemma SameBehind(a: string, b: string, more: string)
    ensures a + " " + more == b + " " + more <==> a == b
  {
    if a + " " + more == b + " " + more {
      assert |a| == |b|;
      assert a == (a + " " + more)[..|a|] == b;
    }
  }

  // ---------- what reads is plain, and prints no longer ----------

  lemma NoInlineSuffix(s: string, k: nat)
    requires NoInline(s) && k <= |s|
    ensures NoInline(s[k..])
  {
    var t := s[k..];
    forall i | 0 <= i < |t| - 3 ensures !(t[i] == 'h' && t[i + 1] == 't' && t[i + 2] == 't' && t[i + 3] == 'p') {
      assert t[i] == s[k + i] && t[i + 1] == s[k + i + 1] && t[i + 2] == s[k + i + 2] && t[i + 3] == s[k + i + 3];
    }
  }

  lemma ReadIsPlain(b: Block)
    requires Printable(b) && PlainBlock(b)
    ensures Printable(ReadsAs(b)) && PlainBlock(ReadsAs(b))
  {
    if b.Paragraph? && OpeningOf(b.text).Opens? {
      MarkedIsPlain(b.text);
    }
  }

  lemma MarkedIsPlain(t: string)
    requires PlainParagraph(t) && OpeningOf(t).Opens?
    ensures Printable(ReadsAs(Paragraph(t))) && PlainBlock(ReadsAs(Paragraph(t)))
  {
    hide PlainParagraph, OpeningOf, FirstWord, IsDivider, FenceLen, NoInline, Leading, IsBreak, IsSpace;
    MarkIs(t);
    MarkedParts(t);
    var w, o := FirstWord(t), OpeningOf(t);
    assert t[|w| + 1..] == o.content;
    if NoInline(t) {
      NoInlineSuffix(t, |w| + 1);
    } else {
      StarWord(t);
    }
  }

  lemma StarWord(t: string)
    requires "* " <= t
    ensures FirstWord(t) == "*"
  {
    assert t[0] == '*' && t[1] == ' ';
    LeadingIs(t, 1, NotBlank);
  }

  lemma ReadsArePlain(bs: seq<Block>)
    requires PlainEach(bs)
    ensures PlainEach(ReadAll(bs))
  {
    hide PlainBlock, ReadsAs;
    forall i | 0 <= i < |bs| ensures Printable(ReadAll(bs)[i]) && PlainBlock(ReadAll(bs)[i]) {
      ReadIsPlain(bs[i]);
    }
  }

  lemma ReadAllParts(bs: seq<Block>)
    requires bs != []
    ensures Init(ReadAll(bs)) == ReadAll(Init(bs)) && Last(ReadAll(bs)) == ReadsAs(Last(bs))
    ensures |bs| > 1 ==> ReadAll(bs)[|bs| - 2] == ReadsAs(bs[|bs| - 2])
  {
    hide ReadsAs;
  }

  /** Items stay items. */
  lemma ReadKeepsItems(b: Block)
    ensures b.Bullet? ==> ReadsAs(b).Bullet?
    ensures b.Numbered? ==> ReadsAs(b).Numbered?
    ensures !b.Paragraph? ==> ReadsAs(b) == b
  {
    hide OpeningOf;
  }

  lemma AdjacentReads(a: Block, b: Block)
    ensures Adjacent(a, b) ==> Adjacent(ReadsAs(a), ReadsAs(b))
  {
    hide ReadsAs;
    ReadKeepsItems(a);
    ReadKeepsItems(b);
  }

  /** While nothing moves beside an item, items keep their numbers and what reads as one is the first. */
  lemma {:induction false} NumbersKept(bs: seq<Block>)
    requires bs != [] && forall i | 0 < i < |bs| :: Adjacent(ReadsAs(bs[i - 1]), ReadsAs(bs[i])) ==> Adjacent(bs[i - 1], bs[i])
    ensures Last(bs).Numbered? ==> NumberOf(ReadAll(bs)) == NumberOf(bs)
    ensures !Last(bs).Numbered? && ReadsAs(Last(bs)).Numbered? ==> NumberOf(ReadAll(bs)) == 1
  {
    hide ReadsAs;
    ReadAllParts(bs);
    ReadKeepsItems(Last(bs));
    if |bs| > 1 {
      var front, a := Init(bs), bs[|bs| - 2];
      ReadAllParts(front);
      ReadKeepsItems(a);
      AdjacentReads(a, Last(bs));
      forall i | 0 < i < |front| ensures Adjacent(ReadsAs(front[i - 1]), ReadsAs(front[i])) ==> Adjacent(front[i - 1], front[i]) {
        assert front[i] == bs[i] && front[i - 1] == bs[i - 1];
      }
      NumbersKept(front);
    } else {
      assert Init(bs) == [] && NumberOf([]) == 0;
    }
  }

  /** A block in its place prints back as itself unless it is a paragraph that moves. */
  lemma PlacePrints(b: Block, number: nat, read: nat)
    requires Printable(b) && PlainBlock(b)
    requires b.Numbered? ==> read == number
    requires !b.Numbered? && ReadsAs(b).Numbered? ==> read == 1
    ensures Printable(ReadsAs(b))
    ensures BlockToMarkdown(ReadsAs(b), read) == BlockToMarkdown(b, number) <==> !(b.Paragraph? && Moves(b.text))
  {
    ReadKeepsItems(b);
    hide OpeningOf, PlainParagraph, PlainText, PlainCell, PlainCode, Trimmed, Ended, MovingMark, FirstWord, Decimal, TableLines;
    if b.Paragraph? && OpeningOf(b.text).Opens? {
      KindRead(b.text);
      MarkPrints(b.text, if OpeningOf(b.text).kind.NumberedKind? then 1 else read);
    }
  }

  lemma KindRead(t: string)
    requires OpeningOf(t).Opens?
    ensures ReadsAs(Paragraph(t)).Numbered? <==> OpeningOf(t).kind.NumberedKind?
  {
    hide OpeningOf;
  }

  /** If nothing moves, the page prints back as it was. */
  lemma {:induction false} KeptPrints(bs: seq<Block>)
    requires PlainEach(bs) && KeepsPlace(bs)
    ensures PlainEach(ReadAll(bs)) && Body(ReadAll(bs)) == Body(bs)
  {
    hide PlainBlock, ReadsAs, Moves, BlockToMarkdown, Adjacent, NumberOf;
    ReadsArePlain(bs);
    if bs != [] {
      ReadAllParts(bs);
      NumbersKept(bs);
      PlacePrints(Last(bs), NumberOf(bs), NumberOf(ReadAll(bs)));
      if |bs| > 1 {
        KeepsPlaceParts(bs);
        AdjacentReads(bs[|bs| - 2], Last(bs));
        KeptPrints(Init(bs));
      }
    }
  }

  /** One block, one and the same number of lines, read or not. */
  lemma ReadLines(b: Block, number: nat, read: nat)
    requires Printable(b) && PlainBlock(b)
    ensures Printable(ReadsAs(b)) && |BlockLines(ReadsAs(b), read)| == |BlockLines(b, number)|
    ensures b.Paragraph? ==> BlockLines(b, number) == [BlockToMarkdown(b, number)]
                             && BlockLines(ReadsAs(b), read) == [BlockToMarkdown(ReadsAs(b), read)]
  {
    hide OpeningOf, BlockToMarkdown, SplitNL, TableLines;
  }

  lemma {:induction false} NoMoreLines(bs: seq<Block>)
    requires PlainEach(bs) && bs != []
    ensures PlainEach(ReadAll(bs)) && |LinesOf(ReadAll(bs))| <= |LinesOf(bs)|
  {
    hide PlainBlock, ReadsAs, BlockLines, NumberOf, Adjacent;
    ReadsArePlain(bs);
    ReadAllParts(bs);
    ReadLines(Last(bs), NumberOf(bs), NumberOf(ReadAll(bs)));
    if |bs| > 1 {
      NoMoreLines(Init(bs));
      AdjacentReads(bs[|bs| - 2], Last(bs));
    }
  }

  lemma Aligned<T>(a: seq<T>, b: seq<T>, c: seq<T>, a': seq<T>, b': seq<T>, c': seq<T>)
    requires a + b + c == a' + b' + c' && |a| <= |a'| && |b| <= |b'| && |c| == |c'|
    ensures a == a' && b == b' && c == c'
  {
    assert |a + b + c| == |a' + b' + c'|;
    assert a == (a + b + c)[..|a|] && a' == (a' + b' + c')[..|a|];
    assert b == (a + b + c)[|a|..|a| + |b|] && b' == (a' + b' + c')[|a|..|a| + |b|];
    assert c == (a + b + c)[|a| + |b|..] && c' == (a' + b' + c')[|a| + |b|..];
  }

  /** If the page prints back as it was, nothing moved. */
  lemma {:induction false} SameLinesKeep(bs: seq<Block>)
    requires PlainEach(bs) && bs != [] && PlainEach(ReadAll(bs)) && LinesOf(ReadAll(bs)) == LinesOf(bs)
    ensures KeepsPlace(bs)
  {
    hide PlainBlock, ReadsAs, Moves, BlockLines, NumberOf, Adjacent, BlockToMarkdown, LinesOf;
    var b, read := Last(bs), ReadAll(bs);
    ReadAllParts(bs);
    ReadLines(b, NumberOf(bs), NumberOf(read));
    if |bs| == 1 {
      LinesOfOne(bs);
      LinesOfOne(read);
      NumbersKept(bs);
      PlacePrints(b, NumberOf(bs), NumberOf(read));
    } else {
      var a := bs[|bs| - 2];
      LinesOfMore(bs);
      LinesOfMore(read);
      NoMoreLines(Init(bs));
      AdjacentReads(a, b);
      Aligned(LinesOf(Init(read)), Gap(ReadsAs(a), ReadsAs(b)), BlockLines(ReadsAs(b), NumberOf(read)),
              LinesOf(Init(bs)), Gap(a, b), BlockLines(b, NumberOf(bs)));
      SameLinesKeep(Init(bs));
      SamePlaces(bs);
      NumbersKept(bs);
      PlacePrints(b, NumberOf(bs), NumberOf(read));
      KeepsPlaceParts(bs);
    }
  }

  lemma SamePlaces(bs: seq<Block>)
    requires |bs| > 1 && KeepsPlace(Init(bs))
    requires Adjacent(ReadsAs(bs[|bs| - 2]), ReadsAs(Last(bs))) ==> Adjacent(bs[|bs| - 2], Last(bs))
    ensures forall i | 0 < i < |bs| :: Adjacent(ReadsAs(bs[i - 1]), ReadsAs(bs[i])) ==> Adjacent(bs[i - 1], bs[i])
  {
    hide ReadsAs, Adjacent, Moves;
    var front := Init(bs);
    assert forall i | 0 <= i < |front| :: front[i] == bs[i];
  }

  // ---------- a bullet that reads as a rule ----------

  /** The lines of a page begin with those of its first blocks. */
  lemma {:induction false} LinesBegin(bs: seq<Block>, n: nat) returns (below: seq<string>)
    requires AllPrintable(bs) && 0 < n < |bs|
    ensures LinesOf(bs) == LinesOf(bs[..n]) + below
    ensures Gap(bs[n - 1], bs[n]) + BlockLines(bs[n], NumberOf(bs[..n + 1])) <= below
  {
    hide BlockLines, Gap, NumberOf, LinesOf;
    var last := Gap(bs[|bs| - 2], Last(bs)) + BlockLines(Last(bs), NumberOf(bs));
    LinesOfMore(bs);
    assert LinesOf(bs) == LinesOf(Init(bs)) + last;
    if n == |bs| - 1 {
      assert bs[..n] == Init(bs) && bs[..n + 1] == bs;
      below := last;
    } else {
      var more := LinesBegin(Init(bs), n);
      assert Init(bs)[..n] == bs[..n] && Init(bs)[..n + 1] == bs[..n + 1];
      below := more + last;
      AppendAssoc(LinesOf(bs[..n]), more, last);
    }
  }

  lemma FirstLine(b: Block, number: nat)
    requires Printable(b) && PlainBlock(b)
    ensures BlockLines(b, number)[0] != ""
  {
    hide OpeningOf, IsDivider, FenceLen, Unmarked, FirstWord, OneLine, SplitNL, Join;
  }

  /** If lines that follow what the first blocks read as follow the first blocks too, no gap was lost. */
  lemma {:induction false} FrontAligned(bs: seq<Block>, read: seq<string>, below: seq<string>)
    requires PlainEach(bs) && bs != [] && PlainEach(ReadAll(bs)) && LinesOf(ReadAll(bs)) + read == LinesOf(bs) + below
    ensures LinesOf(ReadAll(bs)) == LinesOf(bs) && read == below
  {
    hide PlainBlock, ReadsAs, BlockLines, NumberOf, Adjacent, LinesOf;
    var b, rs := Last(bs), ReadAll(bs);
    ReadAllParts(bs);
    ReadLines(b, NumberOf(bs), NumberOf(rs));
    if |bs| == 1 {
      LinesOfOne(bs);
      LinesOfOne(rs);
    } else {
      var a := bs[|bs| - 2];
      LinesOfMore(bs);
      LinesOfMore(rs);
      AdjacentReads(a, b);
      FirstLine(Last(rs), NumberOf(rs));
      var last, lastRead := BlockLines(b, NumberOf(bs)), BlockLines(Last(rs), NumberOf(rs));
      AppendAssoc(LinesOf(Init(rs)), Gap(ReadsAs(a), Last(rs)) + lastRead, read);
      AppendAssoc(LinesOf(Init(bs)), Gap(a, b) + last, below);
      AppendAssoc(LinesOf(Init(rs)), Gap(ReadsAs(a), Last(rs)), lastRead);
      AppendAssoc(LinesOf(Init(bs)), Gap(a, b), last);
      FrontAligned(Init(bs), Gap(ReadsAs(a), Last(rs)) + lastRead + read, Gap(a, b) + last + below);
      GapsAligned(Gap(ReadsAs(a), Last(rs)), lastRead, read, Gap(a, b), last, below);
    }
    Aligned2(LinesOf(rs), read, LinesOf(bs), below);
  }

  lemma Aligned2<T>(a: seq<T>, b: seq<T>, a': seq<T>, b': seq<T>)
    requires a + b == a' + b' && |a| == |a'|
    ensures a == a' && b == b'
  {
    assert a == (a + b)[..|a|] && a' == (a' + b')[..|a|];
    assert b == (a + b)[|a|..] && b' == (a' + b')[|a|..];
  }

  lemma GapsAligned(gap: seq<string>, last: seq<string>, below: seq<string>, gap': seq<string>, last': seq<string>, below': seq<string>)
    requires gap + last + below == gap' + last' + below' && |last| == |last'| && last != [] && last[0] != ""
    requires (gap == [] || gap == [""]) && (gap' == [] || gap' == [""]) && |gap| <= |gap'|
    ensures |gap| == |gap'|
  {
    assert gap == [] ==> (gap + last + below)[0] == last[0];
    assert gap' == [""] ==> (gap' + last' + below')[0] == "";
  }

  /** The first bullet that reads as a rule below a pipe. */
  lemma FirstRule(bs: seq<Block>) returns (n: nat)
    requires !NoRules(bs)
    ensures 0 < n < |bs| && RuleBelow(bs[n - 1], bs[n]) && NoRules(bs[..n])
  {
    hide RuleBelow;
    n := 1;
    while !RuleBelow(bs[n - 1], bs[n])
      invariant 0 < n < |bs| && NoRules(bs[..n])
      invariant exists i | n <= i < |bs| :: RuleBelow(bs[i - 1], bs[i])
      decreases |bs| - n
    {
      n := n + 1;
    }
  }

  /** The line with the pipe is read as the header of a table, whatever is held open. */
  lemma ScanHeader(line: string, rule: string, rest: seq<string>, p: Pending) returns (more: seq<Block>)
    requires Trimmed(line) && '|' in line && FenceLen(line) < 3 && IsSeparator(rule)
    ensures more != [] && more[0].Table? && Scan([line, rule] + rest, p) == Flush(p) + more
  {
    hide Flush, FenceLen, IsSeparator, TableOf, RowCount, Strip;
    StripTrimmed(line);
    var lines := [line, rule] + rest;
    assert lines[0] == line && lines[1] == rule && lines[0..] == lines;
    var next := 2 + RowCount(lines[2..]);
    hide Scan;
    AtTable(lines, 0, p);
    more := [TableOf(lines[0], lines[2..next])] + Scan(lines[next..], NoPending);
    assert more[0].Table? by { ATable(lines[0], lines[2..next]); }
    AppendAssoc(Flush(p), [TableOf(lines[0], lines[2..next])], Scan(lines[next..], NoPending));
  }

  lemma ATable(header: string, lines: seq<string>)
    ensures TableOf(header, lines).Table?
  {
  }

  /** Where a bullet reads as a rule the page reads as the blocks before its header, and a table. */
  lemma RuleReads(bs: seq<Block>, n: nat) returns (more: seq<Block>)
    requires PlainEach(bs) && 0 < n < |bs| && RuleBelow(bs[n - 1], bs[n]) && NoRules(bs[..n])
    ensures more != [] && more[0].Table? && Parse(Print(bs)) == ReadAll(bs[..n - 1]) + more
  {
    hide PlainBlock, BlockLines, LinesOf, Scan, OneLine, Body, Join, ScanAfter, ReadsAs, IsSeparator, NumberOf, Gap, FenceLen, SplitLines, Print,
      NoRules;
    var front, a, b := bs[..n], bs[n - 1], bs[n];
    PlainPrints(bs);
    PrintedLines(bs);
    var below := LinesBegin(bs, n);
    BulletsAlone(a, b, NumberOf(front), NumberOf(bs[..n + 1]));
    assert below == ["- " + b.text] + below[1..];
    BulletHeader(a);
    if n == 1 {
      assert front == [a];
      LinesOfOne(front);
      assert LinesOf(bs) == ["- " + a.text, "- " + b.text] + below[1..];
      more := ScanHeader("- " + a.text, "- " + b.text, below[1..], NoPending);
      assert Flush(NoPending) == [] && ReadAll(bs[..0]) == [];
    } else {
      var g := Init(front);
      assert g == bs[..n - 1] && front[|front| - 2] == Last(g) && Last(front) == a;
      var rest := ["- " + a.text] + below;
      assert rest == ["- " + a.text, "- " + b.text] + below[1..];
      LinesOfMore(front);
      assert LinesOf(bs) == LinesOf(g) + (Gap(Last(g), a) + rest) by {
        Regroup(LinesOf(front), LinesOf(g), Gap(Last(g), a), ["- " + a.text], below);
      }
      RuleFollows(front, below);
      FrontPlain(bs, n);
      ScanLines(g, Gap(Last(g), a) + rest);
      more := TableBelow(Last(g), a, rest, "- " + b.text, below[1..]);
      assert ReadAll(g) == ReadAll(Init(g)) + [ReadsAs(Last(g))];
      AppendAssoc(ReadAll(Init(g)), [ReadsAs(Last(g))], more);
    }
  }

  lemma FrontPlain(bs: seq<Block>, n: nat)
    requires PlainEach(bs) && 1 < n <= |bs| && NoRules(bs[..n])
    ensures AllPlain(bs[..n - 1]) && PlainBlock(bs[n - 2]) && Last(bs[..n - 1]) == bs[n - 2]
  {
    hide PlainBlock, RuleBelow;
    assert forall i | 0 <= i < n - 1 :: bs[..n - 1][i] == bs[..n][i] == bs[i];
  }

  lemma BulletsAlone(a: Block, b: Block, m: nat, n: nat)
    requires a.Bullet? && b.Bullet?
    ensures BlockLines(a, m) == ["- " + a.text] && BlockLines(b, n) == ["- " + b.text] && Gap(a, b) == []
  {
  }

  lemma BulletHeader(a: Block)
    requires a.Bullet? && PlainBlock(a) && '|' in a.text
    ensures var line := "- " + a.text; Trimmed(line) && '|' in line && FenceLen(line) < 3
  {
    BulletLine(a.text);
  }

  /** The header's line may follow the block before it. */
  lemma RuleFollows(front: seq<Block>, below: seq<string>)
    requires |front| > 1 && NoRules(front) && Last(front).Bullet?
    ensures Follows(front[|front| - 2], Gap(front[|front| - 2], Last(front)) + (["- " + Last(front).text] + below))
  {
    hide IsSeparator;
    assert !RuleBelow(front[|front| - 2], front[|front| - 1]);
  }

  lemma TableBelow(a: Block, b: Block, rest: seq<string>, rule: string, more: seq<string>) returns (blocks: seq<Block>)
    requires PlainBlock(a) && b.Bullet? && PlainBlock(b) && '|' in b.text && IsSeparator(rule)
    requires rest == ["- " + b.text, rule] + more
    ensures blocks != [] && blocks[0].Table? && ScanAfter(ReadsAs(a), Gap(a, b) + rest) == [ReadsAs(a)] + blocks
  {
    hide Scan, FenceLen, IsSeparator, Flush, PendingOf, Settled, PlainBlock, ReadsAs, Trimmed;
    BulletHeader(b);
    ReadIsShort(a);
    var p := PendingOf(ReadsAs(a));
    if Adjacent(a, b) {
      assert Gap(a, b) + rest == rest;
      blocks := ScanHeader("- " + b.text, rule, more, p);
    } else {
      ScanBlank(rest, p);
      blocks := ScanHeader("- " + b.text, rule, more, NoPending);
      assert Flush(NoPending) + blocks == blocks by { NothingHeldFlushes(); }
    }
    SettledThenFlushed(ReadsAs(a), blocks);
  }

  lemma NothingHeldFlushes()
    ensures Flush(NoPending) == []
  {
  }

  /** The printed text of blocks, and then a table. */
  lemma {:induction false} TablePrints(front: seq<Block>, more: seq<Block>) returns (text: string)
    requires AllPrintable(front + more) && more != [] && more[0].Table?
    ensures text != "" && text[0] == '|' && AllPrintable(front)
    ensures Print(front + more) == if front == [] then text else Body(front) + "\n\n" + text
  {
    hide Body, Printable;
    var all := front + more;
    assert forall i | 0 <= i < |front| :: all[i] == front[i];
    if |more| == 1 {
      assert all[|front|] == more[0] && all == front + [more[0]];
      text := TableLast(front, more[0]);
    } else {
      assert Init(all) == front + Init(more) && Init(more)[0] == more[0];
      var before := TablePrints(front, Init(more));
      var above := if front == [] then "" else Body(front) + "\n\n";
      text := OneMorePrints(all, above, before);
    }
  }

  /** One more block below does not touch how the page begins. */
  lemma OneMorePrints(bs: seq<Block>, above: string, before: string) returns (text: string)
    requires |bs| > 1 && AllPrintable(bs) && AllPrintable(Init(bs))
    requires Print(Init(bs)) == above + before && before != "" && before[0] == '|'
    ensures text != "" && text[0] == '|' && Print(bs) == above + text
  {
    hide Body, Printable;
    LastPrints(bs);
    var tail := Print(bs)[|Body(Init(bs))|..];
    assert Print(bs) == Body(Init(bs)) + tail;
    CutEnd(Body(Init(bs)), above, before);
    text := before[..|before| - 1] + tail;
    AppendAssoc(above, before[..|before| - 1], tail);
  }

  lemma CutEnd(body: string, above: string, text: string)
    requires above + text == body + "\n" && text != "" && text[0] == '|'
    ensures |text| >= 2 && body == above + text[..|text| - 1] && text[..|text| - 1][0] == '|'
  {
    assert (above + text)[|above|] == '|' && (body + "\n")[|body|] == '\n';
    assert body == (body + "\n")[..|body|] == (above + text)[..|body|];
  }

  lemma TableLast(front: seq<Block>, b: Block) returns (text: string)
    requires AllPrintable(front + [b]) && AllPrintable(front) && Printable(b) && b.Table?
    ensures text != "" && text[0] == '|'
    ensures Print(front + [b]) == if front == [] then text else Body(front) + "\n\n" + text
  {
    hide NumberOf, BlockToMarkdown;
    var all := front + [b];
    assert Init(all) == front && Last(all) == b && (front != [] ==> all[|all| - 2] == Last(front));
    TableBegins(b, NumberOf(all));
    text := BlockToMarkdown(b, NumberOf(all)) + "\n";
  }

  lemma TableBegins(b: Block, number: nat)
    requires Printable(b) && b.Table?
    ensures BlockToMarkdown(b, number) != "" && BlockToMarkdown(b, number)[0] == '|'
  {
  }

  lemma LastPrints(bs: seq<Block>)
    requires AllPrintable(bs) && |bs| > 1
    ensures Body(Init(bs)) <= Print(bs)
  {
    hide BlockToMarkdown, NumberOf;
  }

  lemma {:induction false} SplitAbove(lines: seq<string>, text: string)
    requires lines != [] && forall i | 0 <= i < |lines| :: OneLine(lines[i])
    ensures SplitLines(Join(lines, "\n") + "\n" + text) == lines + SplitLines(text)
  {
    hide SplitLines, OneLine;
    assert OneLine(lines[0]);
    if |lines| == 1 {
      JoinOne(lines[0], "\n");
      assert lines == [lines[0]];
      SplitFirst(lines[0], text);
    } else {
      var more := Join(lines[1..], "\n");
      assert Join(lines, "\n") + "\n" + text == lines[0] + "\n" + (more + "\n" + text);
      SplitAbove(lines[1..], text);
      SplitFirst(lines[0], more + "\n" + text);
      assert lines == [lines[0]] + lines[1..];
    }
  }

  lemma SplitBegins(text: string)
    requires text != "" && text[0] == '|'
    ensures SplitLines(text) != [] && SplitLines(text)[0] != "" && SplitLines(text)[0][0] == '|'
  {
  }

  /** Where a bullet reads as a rule the page does not print back as it was. */
  lemma RulesMove(bs: seq<Block>)
    requires PlainEach(bs) && !NoRules(bs) && AllPrintable(bs)
    ensures AllPrintable(Parse(Print(bs))) && Print(Parse(Print(bs))) != Print(bs)
  {
    hide Parse, Print, PlainBlock, LinesOf, SplitLines, NoRules, RuleBelow, BlockLines, Body, Join, NumberOf, ReadsAs, Scan;
    var n := FirstRule(bs);
    assert RuleIs(bs[n - 1], bs[n]) by { RuleBullets(bs[n - 1], bs[n]); }
    var more := RuleReads(bs, n);
    var g, a := bs[..n - 1], bs[n - 1];
    ReparsePrintable(Print(bs));
    var text := TablePrints(ReadAll(g), more);
    SplitBegins(text);
    PrintedLines(bs);
    var below := LinesBegin(bs, n);
    if n == 1 {
      FirstLines(bs, below);
    } else {
      MiddleLines(bs, n, below, text);
    }
  }

  predicate RuleIs(a: Block, b: Block) { a.Bullet? && b.Bullet? }

  lemma RuleBullets(a: Block, b: Block)
    requires RuleBelow(a, b)
    ensures RuleIs(a, b)
  {
  }

  lemma ReparsePrintable(md: string)
    ensures AllPrintable(Parse(md))
  {
    ScanPrintable(SplitLines(md), NoPending);
  }

  lemma FirstLines(bs: seq<Block>, below: seq<string>)
    requires AllPrintable(bs) && bs != [] && bs[0].Bullet? && LinesOf(bs) == LinesOf(bs[..1]) + below
    ensures LinesOf(bs)[0][0] == '-'
  {
    hide NumberOf;
    LinesOfOne(bs[..1]);
  }

  /** Behind the blocks before the header a blank line and a row cannot be what was printed. */
  lemma MiddleLines(bs: seq<Block>, n: nat, below: seq<string>, text: string)
    requires PlainEach(bs) && 1 < n < |bs| && bs[n - 1].Bullet? && AllPrintable(bs)
    requires LinesOf(bs) == LinesOf(bs[..n]) + below
    requires SplitLines(text) != [] && SplitLines(text)[0] != "" && SplitLines(text)[0][0] == '|'
    ensures AllPrintable(ReadAll(bs[..n - 1])) && SplitLines(Body(ReadAll(bs[..n - 1])) + "\n\n" + text) != LinesOf(bs)
  {
    hide PlainBlock, LinesOf, SplitLines, BlockLines, Body, Join, NumberOf, ReadsAs, OneLine, Gap;
    var g, a, front := bs[..n - 1], bs[n - 1], bs[..n];
    assert forall i | 0 <= i < |g| :: g[i] == bs[i];
    ReadsArePlain(g);
    var rs := ReadAll(g);
    PlainPrints(rs);
    BodyIsLines(rs);
    LinesAreLines(rs);
    AboveBlank(LinesOf(rs), text);
    assert Init(front) == g && Last(front) == a && front[|front| - 2] == Last(g);
    LinesOfMore(front);
    BulletsAlone(a, a, NumberOf(front), 0);
    var gap := Gap(Last(g), a);
    Regroup(LinesOf(front), LinesOf(g), gap, ["- " + a.text], below);
    GapIs(Last(g), a);
    if LinesOf(rs) + ([""] + SplitLines(text)) == LinesOf(bs) {
      FrontAligned(g, [""] + SplitLines(text), gap + (["- " + a.text] + below));
      BlankNotItem(SplitLines(text), gap, "- " + a.text, below);
    }
  }

  lemma GapIs(a: Block, b: Block)
    ensures Gap(a, b) == [] || Gap(a, b) == [""]
  {
  }

  lemma BlankNotItem(lines: seq<string>, gap: seq<string>, item: string, below: seq<string>)
    requires lines != [] && lines[0] != "" && lines[0][0] == '|' && item != "" && item[0] == '-'
    requires gap == [] || gap == [""]
    ensures [""] + lines != gap + ([item] + below)
  {
    assert ([""] + lines)[0] == "" && ([""] + lines)[1] == lines[0];
    if gap == [] {
      assert (gap + ([item] + below))[0] == item;
    } else {
      assert (gap + ([item] + below))[1] == item;
    }
  }

  lemma AboveBlank(lines: seq<string>, text: string)
    requires lines != [] && forall i | 0 <= i < |lines| :: OneLine(lines[i])
    ensures SplitLines(Join(lines, "\n") + "\n\n" + text) == lines + ([""] + SplitLines(text))
  {
    hide SplitLines, OneLine, Join;
    EmptyOneLine();
    SplitAbove(lines, "\n" + text);
    SplitFirst("", text);
    assert "" + "\n" + text == "\n" + text;
    assert Join(lines, "\n") + "\n" + ("\n" + text) == Join(lines, "\n") + "\n\n" + text;
  }

  // ---------- the law ----------

  /** On the printed output of plain blocks, no paragraph of which begins with a mark, canonical is the
      identity: hashing a page as printed or as parsed again is the same. */
  lemma CanonicalIsIdempotent(bs: seq<Block>)
    requires AllPlain(bs) && forall i | 0 <= i < |bs| && bs[i].Paragraph? :: OpeningOf(bs[i].text).NoOpening?
    ensures var page := Print(bs); Canonical(page) == page && Canonical(Canonical(page)) == Canonical(page)
  {
    hide AllPlain, Parse, Print;
    ParseUndoesPrint(bs);
  }

  /** Of every page whose parsed blocks are tame: canonical text taken twice is the same as taken once if
      and only if no paragraph begins with a mark that moves, none reads as an item beside an item, and no
      bullet reads as a table's rule below one with a pipe. */
  lemma CanonicalSettlesExactlyWhen(md: string)
    requires AllTame(Parse(md))
    ensures Canonical(Canonical(md)) == Canonical(md) <==> KeepsPlace(Parse(md)) && NoRules(Parse(md))
  {
    hide AllTame, Parse, KeepsPlace, PlainBlock, RuleBelow, LinesOf, Body, SplitLines, ReadAll, PlainEach, NoRules;
    var bs := Parse(md);
    TameIsPlain(md);
    PlainPrints(bs);
    assert Canonical(md) == Print(bs);
    if NoRules(bs) {
      ParseReadsPrint(bs);
      ReadsArePlain(bs);
      PlainPrints(ReadAll(bs));
      assert Canonical(Canonical(md)) == Print(ReadAll(bs));
      SettledKeeps(bs);
    } else {
      RulesMove(bs);
    }
  }

  lemma PlainPrints(bs: seq<Block>)
    requires PlainEach(bs)
    ensures AllPrintable(bs)
  {
    hide PlainBlock;
  }

  lemma SettledKeeps(bs: seq<Block>)
    requires PlainEach(bs) && PlainEach(ReadAll(bs))
    ensures Print(ReadAll(bs)) == Print(bs) <==> KeepsPlace(bs)
  {
    hide KeepsPlace, PlainBlock, LinesOf, Body, SplitLines, ReadsAs;
    if KeepsPlace(bs) {
      KeptPrints(bs);
    }
    if Print(ReadAll(bs)) == Print(bs) {
      if bs == [] {
        NothingMoves();
      } else {
        PrintedLines(bs);
        PrintedLines(ReadAll(bs));
        SameLinesKeep(bs);
      }
    }
  }

  lemma NothingMoves()
    ensures KeepsPlace([])
  {
  }

  // ---------- one wrapped paragraph ----------

  /** A line of a wrapped paragraph: it opens nothing, and is neither a rule, a fence nor a row. */
  predicate WrappedLine(line: string) {
    Trimmed(line) && OneLine(line) && OpeningOf(line).NoOpening? && !IsDivider(line) && FenceLen(line) < 3 && '|' !in line
  }

  lemma {:induction false} ScanWrapped(lines: seq<string>, held: seq<string>)
    requires forall i | 0 <= i < |lines| :: WrappedLine(lines[i])
    requires held != []
    ensures Scan(lines, Open(ParagraphKind, held)) == Flush(Open(ParagraphKind, held + lines))
  {
    hide WrappedLine, Flush, Scan;
    if lines == [] {
      OpenAtEnd(Open(ParagraphKind, held));
      assert held + lines == held;
    } else {
      assert WrappedLine(lines[0]);
      WrappedStep(lines[0], lines[1..], Open(ParagraphKind, held));
      ScanWrapped(lines[1..], held + [lines[0]]);
      assert held + [lines[0]] + lines[1..] == held + lines;
      assert [lines[0]] + lines[1..] == lines;
    }
  }

  lemma WrappedStep(line: string, rest: seq<string>, p: Pending)
    requires WrappedLine(line)
    ensures Scan([line] + rest, p)
         == Scan(rest, if p.Open? then Open(p.kind, p.parts + [line]) else Open(ParagraphKind, [line]))
  {
    hide OpeningOf, IsDivider, FenceLen, Scan, OneLine, Trimmed;
    ScanJoins(line, rest, p);
  }

  /** The lines of a wrapped paragraph are joined into one. */
  lemma WrappedParses(lines: seq<string>)
    requires lines != [] && forall i | 0 <= i < |lines| :: WrappedLine(lines[i])
    requires |Join(lines, " ")| < LIMIT
    ensures Parse(Join(lines, "\n") + "\n") == [Paragraph(Join(lines, " "))]
  {
    forall i | 0 <= i < |lines| ensures OneLine(lines[i]) {
      assert WrappedLine(lines[i]);
    }
    hide WrappedLine, Scan, Join, SplitLines, Rich, OneLine;
    SplitJoined(lines);
    assert WrappedLine(lines[0]);
    WrappedStep(lines[0], lines[1..], NoPending);
    ScanWrapped(lines[1..], [lines[0]]);
    assert [lines[0]] + lines[1..] == lines;
    RichIsIdentity(Join(lines, " "));
  }

  /** The first line of a paragraph of several is its mark if the whole opens anything. */
  lemma FirstLineIsMark(first: string, more: string)
    requires WrappedLine(first) && Trimmed(more)
    ensures Moves(first + " " + more) <==> MovingMark(first)
  {
    hide OneLine, IsDivider, FenceLen, IsSpace, OpeningOf, MovingMark, FirstWord;
    var t := first + " " + more;
    JoinedText(first, more);
    if MovingMark(first) {
      MovingMarkOpens(first, more);
      if OpeningOf(t).Opens? {
        assert FirstWord(t) == first;
      }
    }
  }

  lemma MovingMarkOpens(w: string, more: string)
    requires MovingMark(w)
    ensures OpeningOf(w + " " + more).Opens?
  {
    var t := w + " " + more;
    BlankIsSpace();
    assert t[|w|] == ' ';
    hide IsSpace, IsDigit, LStrip;
    if w == "*" {
      assert "* " <= t;
    } else if w == "+" {
      assert "+ " <= t;
    } else if Leading(w, IsHash) == |w| && 4 <= |w| <= 6 {
      LeadsOn(w, more, IsHash);
    } else {
      LeadsOn(w, more, IsDigit) by { BlankIsNoDigit(); }
      assert t[|w| - 1] == w[|w| - 1];
    }
  }

  /** For one paragraph of two or more lines, none of which opens anything by itself: canonical text settles
      if and only if its first line is not a star, a plus, four to six hashes, or a number but one. */
  lemma WrappedSettlesExactlyWhen(first: string, more: seq<string>)
    requires more != [] && WrappedLine(first) && forall i | 0 <= i < |more| :: WrappedLine(more[i])
    requires Unmarked(Join([first] + more, " ")) && |Join([first] + more, " ")| < LIMIT
    ensures var md := Join([first] + more, "\n") + "\n";
            Canonical(Canonical(md)) == Canonical(md) <==> !MovingMark(first)
  {
    var lines := [first] + more;
    var md, t := Join(lines, "\n") + "\n", Join(lines, " ");
    forall i | 0 <= i < |lines| ensures WrappedLine(lines[i]) {
      assert i > 0 ==> lines[i] == more[i - 1];
    }
    JoinedLines(more);
    assert lines[1..] == more;
    assert t == first + " " + Join(more, " ");
    hide WrappedLine, Join, Parse, Moves, MovingMark, Canonical;
    WrappedParses(lines);
    FirstLineIsMark(first, Join(more, " "));
    AloneTame(t);
    CanonicalSettlesExactlyWhen(md);
    AloneKeeps(t);
    assert NoRules([Paragraph(t)]);
  }

  lemma JoinedLines(lines: seq<string>)
    requires lines != [] && forall i | 0 <= i < |lines| :: WrappedLine(lines[i])
    ensures Trimmed(Join(lines, " "))
  {
    hide OneLine, IsSpace, Join, OpeningOf, IsDivider, FenceLen;
    assert forall i | 0 <= i < |lines| :: WrappedLine(lines[i]) ==> OneLine(lines[i]) && Trimmed(lines[i]);
    assert WrappedLine(lines[0]);
    hide WrappedLine;
    JoinedParts(lines);
  }

  lemma AloneTame(t: string)
    requires Unmarked(t) && |t| < LIMIT
    ensures AllTame([Paragraph(t)])
  {
    hide Unmarked;
  }

  lemma AloneKeeps(t: string)
    ensures KeepsPlace([Paragraph(t)]) <==> !Moves(t)
  {
    hide Moves;
    assert [Paragraph(t)][0] == Paragraph(t);
  }

  // ---------- where canonical text is no fixed point ----------

  /** A paragraph joined from two lines may print as a line that opens something else. */
  lemma CanonicalMayMove()
    ensures Canonical("7.\nx") == "7. x\n" && Canonical("7. x\n") == "1. x\n"
  {
    hide Parse, Print;
    WrappedNumber();
    PrintedNumber();
    PrintsAlone(Paragraph("7. x"));
    PrintsAlone(Numbered("x"));
    assert Decimal(1) == "1";
    assert "1" + ". " + "x" == "1. x";
    SevenOpens();
  }

  lemma PrintsAlone(b: Block)
    requires Printable(b)
    ensures Print([b]) == BlockToMarkdown(b, if b.Numbered? then 1 else 0) + "\n"
  {
    hide BlockToMarkdown;
    assert Init([b]) == [] && Last([b]) == b;
    assert NumberOf([b]) == if b.Numbered? then 1 else 0;
    assert [b][0] == b;
  }

  lemma SevenOpens()
    ensures OpeningOf("7. x") == Opens(NumberedKind, "x") && !IsDivider("7. x") && FenceLen("7. x") == 0
  {
    assert Decimal(7) == "7";
    assert Decimal(7) + ". " + "x" == "7. x";
    NumberedLine(7, "x");
  }

  lemma SevenAloneOpensNothing()
    ensures OpeningOf("7.").NoOpening? && !IsDivider("7.") && FenceLen("7.") == 0
    ensures OpeningOf("x").NoOpening? && !IsDivider("x") && FenceLen("x") == 0
  {
    LeadingIs("7.", 0, IsHash);
    LeadingIs("7.", 0, IsDash);
    LeadingIs("7.", 0, IsTick);
    LeadingIs("7.", 1, IsDigit);
    LeadingIs("x", 0, IsHash);
    LeadingIs("x", 0, IsDash);
    LeadingIs("x", 0, IsTick);
    LeadingIs("x", 0, IsDigit);
  }

  lemma WrappedNumber()
    ensures Parse("7.\nx") == [Paragraph("7. x")]
  {
    hide SplitLines, OpeningOf, IsDivider, FenceLen, Scan, Rich, Leading;
    assert "7." + "\n" + "x" == "7.\nx";
    SplitFirst("7.", "x");
    LastLine("x");
    SevenAloneOpensNothing();
    ScanJoins("7.", ["x"], NoPending);
    assert ["x"] + [] == ["x"];
    ScanJoins("x", [], Open(ParagraphKind, ["7."]));
    OpenAtEnd(Open(ParagraphKind, ["7."] + ["x"]));
    assert Join(["7."] + ["x"], " ") == "7. x" by {
      JoinOne("x", " ");
      assert "7." + " " + "x" == "7. x";
    }
    RichIsIdentity("7. x");
  }

  lemma LastLine(line: string)
    requires OneLine(line) && line != ""
    ensures SplitLines(line) == [line]
  {
    LeadingIs(line, |line|, NotBreak);
  }

  lemma PrintedNumber()
    ensures Parse("7. x\n") == [Numbered("x")]
  {
    hide SplitLines, OpeningOf, IsDivider, FenceLen, IsSeparator, Strip, Rich, Leading, Scan;
    assert "7. x" + "\n" + "" == "7. x\n";
    SplitFirst("7. x", "");
    NoLines();
    SevenOpens();
    RichIsIdentity("x");
    ScanOpening("7. x", [], NoPending, NumberedKind, "x");
    assert ["7. x"] + [] == ["7. x"];
    OpenAtEnd(Open(NumberedKind, ["x"]));
  }

  lemma OpenAtEnd(p: Pending)
    ensures Scan([], p) == Flush(p)
  {
  }
}
