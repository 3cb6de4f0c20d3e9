/** Markdown to blocks: the line scanner, with its fences, tables and joined paragraphs.  Text with
    inline marks is outside this model: the inline parser stands as the identity. */
module Markdown {
  import opened Text
  import opened Spans

  datatype Block =
    | Heading(level: nat, text: string)
    | Paragraph(text: string)
    | Bullet(text: string)
    | Numbered(text: string)
    | Quote(text: string)
    | Divider
    | Code(text: string)
    | Table(rows: seq<seq<string>>)

  datatype Kind = HeadingKind(level: nat) | ParagraphKind | BulletKind | NumberedKind | QuoteKind

  datatype Opening = NoOpening | Opens(kind: Kind, content: string)

  /** A block that later lines may still continue. */
  datatype Pending = NoPending | Open(kind: Kind, parts: seq<string>)

  // ---------- characters ----------

  /** Where `splitlines` ends a line. */
  predicate IsBreak(c: char) {
    var n := c as int;
    10 <= n <= 13 || 28 <= n <= 30 || n == 0x85 || n == 0x2028 || n == 0x2029
  }

  /** The zeros of the decimal-digit blocks beyond ASCII, and the five runs of mathematical digits. */
  const DigitZeros: seq<int> := [
    0x660, 0x6F0, 0x7C0, 0x966, 0x9E6, 0xA66, 0xAE6, 0xB66, 0xBE6, 0xC66, 0xCE6, 0xD66, 0xDE6, 0xE50, 0xED0, 0xF20,
    0x1040, 0x1090, 0x17E0, 0x1810, 0x1946, 0x19D0, 0x1A80, 0x1A90, 0x1B50, 0x1BB0, 0x1C40, 0x1C50, 0xA620, 0xA8D0,
    0xA900, 0xA9D0, 0xA9F0, 0xAA50, 0xABF0, 0xFF10, 0x104A0, 0x10D30, 0x11066, 0x110F0, 0x11136, 0x111D0, 0x112F0,
    0x11450, 0x114D0, 0x11650, 0x116C0, 0x11730, 0x118E0, 0x11950, 0x11C50, 0x11D50, 0x11DA0, 0x11F50, 0x16A60,
    0x16AC0, 0x16B50, 0x1D7CE, 0x1D7D8, 0x1D7E2, 0x1D7EC, 0x1D7F6, 0x1E140, 0x1E2F0, 0x1E4F0, 0x1E950, 0x1FBF0]

  /** What `\d` matches. */
  predicate IsDigit(c: char) {
    '0' <= c <= '9' || (c as int >= 0x660 && exists z <- DigitZeros :: z <= c as int < z + 10)
  }

  function Leading(s: string, p: char -> bool): (n: nat)
    ensures n <= |s|
    ensures forall i | 0 <= i < n :: p(s[i])
    ensures n < |s| ==> !p(s[n])
  {
    if s != [] && p(s[0]) then 1 + Leading(s[1..], p) else 0
  }

  predicate IsHash(c: char) { c == '#' }
  predicate IsTick(c: char) { c == '`' }
  predicate IsDash(c: char) { c == '-' }
  predicate NotBreak(c: char) { !IsBreak(c) }
  predicate NotPipe(c: char) { c != '|' }

  function SplitLines(s: string): seq<string>
    decreases |s|
  {
    if s == [] then []
    else
      var n := Leading(s, NotBreak);
      if n == |s| then [s]
      else [s[..n]] + SplitLines(s[n + (if s[n] == '\r' && n + 1 < |s| && s[n + 1] == '\n' then 2 else 1)..])
  }

  function Join(parts: seq<string>, sep: string): string {
    if parts == [] then "" else if |parts| == 1 then parts[0] else parts[0] + sep + Join(parts[1..], sep)
  }

  // ---------- the text a block carries ----------

  function Rich(text: string): string {
    TextOf(Fit([Span(text, Plain)]))
  }

  function Verbatim(text: string): string {
    TextOf(PlainRich(text))
  }

  function MakeBlock(kind: Kind, text: string): Block {
    match kind
    case HeadingKind(level) => Heading(level, Rich(text))
    case ParagraphKind => Paragraph(Rich(text))
    case BulletKind => Bullet(Rich(text))
    case NumberedKind => Numbered(Rich(text))
    case QuoteKind => Quote(Rich(text))
  }

  // ---------- what a line opens ----------

  function HeadingOf(text: string): Opening {
    var c := Leading(text, IsHash);
    if 1 <= c <= 6 && c < |text| && IsSpace(text[c]) then Opens(HeadingKind(if c <= 3 then c else 3), LStrip(text[c..]))
    else NoOpening
  }

  function NumberedOf(text: string): Opening {
    var c := Leading(text, IsDigit);
    if 1 <= c && c + 1 < |text| && text[c] == '.' && IsSpace(text[c + 1]) then Opens(NumberedKind, LStrip(text[c + 1..]))
    else NoOpening
  }

  function OpeningOf(text: string): Opening {
    if HeadingOf(text).Opens? then HeadingOf(text)
    else if "- " <= text || "* " <= text || "+ " <= text then Opens(BulletKind, text[2..])
    else if NumberedOf(text).Opens? then NumberedOf(text)
    else if text != [] && text[0] == '>' then Opens(QuoteKind, LStrip(text[1..]))
    else NoOpening
  }

  predicate IsDivider(text: string) {
    |text| >= 3 && Leading(text, IsDash) == |text|
  }

  function FenceLen(text: string): nat {
    Leading(text, IsTick)
  }

  /** The closing fence of an opener of `n` ticks. */
  predicate Closes(line: string, n: nat) {
    FenceLen(Strip(line)) >= n && FenceLen(Strip(line)) == |Strip(line)|
  }

  // ---------- tables ----------

  function SplitPipes(s: string): (r: seq<string>)
    ensures r != []
    decreases |s|
  {
    var n := Leading(s, NotPipe);
    if n == |s| then [s] else [s[..n]] + SplitPipes(s[n + 1..])
  }

  function Strips(cells: seq<string>): (r: seq<string>)
    ensures |r| == |cells|
  {
    seq(|cells|, i requires 0 <= i < |cells| => Strip(cells[i]))
  }

  function SplitRow(line: string): (r: seq<string>)
    ensures r != []
  {
    var text := Strip(line);
    var head := if text != [] && text[0] == '|' then text[1..] else text;
    var body := if head != [] && head[|head| - 1] == '|' then head[..|head| - 1] else head;
    Strips(SplitPipes(body))
  }

  /** `^:?-+:?$` */
  predicate IsSeparatorCell(cell: string) {
    var a := if cell != [] && cell[0] == ':' then cell[1..] else cell;
    var b := if a != [] && a[|a| - 1] == ':' then a[..|a| - 1] else a;
    b != [] && Leading(b, IsDash) == |b|
  }

  predicate IsSeparator(line: string) {
    '|' in line && forall i | 0 <= i < |SplitRow(line)| :: IsSeparatorCell(SplitRow(line)[i])
  }

  predicate IsRow(line: string) {
    Strip(line) != "" && '|' in line
  }

  function RowCount(lines: seq<string>): (n: nat)
    ensures n <= |lines|
  {
    if lines != [] && IsRow(lines[0]) then 1 + RowCount(lines[1..]) else 0
  }

  /** A row's cells, padded with empty ones or cut to the table's width. */
  function Fitted(cells: seq<string>, width: nat): (r: seq<string>)
    ensures |r| == width
  {
    seq(width, i requires 0 <= i < width => if i < |cells| then Rich(cells[i]) else Rich(""))
  }

  function TableOf(header: string, lines: seq<string>): Block {
    var width := |SplitRow(header)|;
    Table([Fitted(SplitRow(header), width)]
          + seq(|lines|, i requires 0 <= i < |lines| => Fitted(SplitRow(lines[i]), width)))
  }

  // ---------- fences ----------

  /** How many lines stand before the closing fence. */
  function BodyLen(lines: seq<string>, n: nat): (k: nat)
    ensures k <= |lines|
  {
    if lines != [] && !Closes(lines[0], n) then 1 + BodyLen(lines[1..], n) else 0
  }

  function CodeOf(lines: seq<string>): Block {
    Code(Verbatim(Join(lines, "\n")))
  }

  // ---------- the scanner ----------

  function Flush(p: Pending): seq<Block> {
    if p.NoPending? then [] else [MakeBlock(p.kind, Join(p.parts, " "))]
  }

  datatype Step = Step(emitted: seq<Block>, pending: Pending)

  function Continue(p: Pending, text: string): Step {
    var o := OpeningOf(text);
    if o.NoOpening? then
      Step([], if p.Open? then Open(p.kind, p.parts + [text]) else Open(ParagraphKind, [text]))
    else if o.kind.QuoteKind? && o.content == "" then Step(Flush(p), NoPending)
    else if p.Open? && p.kind.QuoteKind? && o.kind.QuoteKind? then Step([], Open(QuoteKind, p.parts + [o.content]))
    else if !o.kind.HeadingKind? then Step(Flush(p), Open(o.kind, [o.content]))
    else Step(Flush(p) + [MakeBlock(o.kind, o.content)], NoPending)
  }

  predicate OpensTable(lines: seq<string>)
    requires lines != []
  {
    '|' in Strip(lines[0]) && |lines| > 1 && IsSeparator(lines[1])
  }

  /** Where the lines after a fence opened at the first of `lines` go on. */
  function AfterFence(lines: seq<string>): (n: nat)
    requires lines != []
    ensures 1 <= n <= |lines|
  {
    var end := 1 + BodyLen(lines[1..], FenceLen(Strip(lines[0]))) + 1;
    if end <= |lines| then end else |lines|
  }

  function Scan(lines: seq<string>, p: Pending): seq<Block>
    decreases |lines|
  {
    if lines == [] then Flush(p)
    else
      var text := Strip(lines[0]);
      if text == "" then Flush(p) + Scan(lines[1..], NoPending)
      else if FenceLen(text) >= 3 then
        var n := BodyLen(lines[1..], FenceLen(text));
        Flush(p) + [CodeOf(lines[1..1 + n])] + Scan(lines[AfterFence(lines)..], NoPending)
      else if OpensTable(lines) then
        var n := RowCount(lines[2..]);
        Flush(p) + [TableOf(lines[0], lines[2..2 + n])] + Scan(lines[2 + n..], NoPending)
      else if IsDivider(text) then Flush(p) + [Divider] + Scan(lines[1..], NoPending)
      else
        var step := Continue(p, text);
        step.emitted + Scan(lines[1..], step.pending)
  }

  function Parse(md: string): seq<Block> {
    Scan(SplitLines(md), NoPending)
  }

  // ---------- the loops ----------

  method ConsumeTable(lines: seq<string>, start: nat) returns (block: Block, next: nat)
    requires start + 1 < |lines|
    ensures next == start + 2 + RowCount(lines[start + 2..]) <= |lines|
    ensures block == TableOf(lines[start], lines[start + 2..next])
  {
    hide Fitted, SplitRow, Strip;
    var header := SplitRow(lines[start]);
    var i := start + 2;
    while i < |lines| && Strip(lines[i]) != "" && '|' in lines[i]
      invariant start + 2 <= i <= |lines|
      invariant RowCount(lines[start + 2..]) == i - (start + 2) + RowCount(lines[i..])
    {
      assert lines[i..][1..] == lines[i + 1..];
      i := i + 1;
    }
    next := i;
    var width := |header|;
    var rows := lines[start + 2..next];
    block := Table([Fitted(header, width)]
                   + seq(|rows|, k requires 0 <= k < |rows| => Fitted(SplitRow(rows[k]), width)));
  }

  method ConsumeFence(lines: seq<string>, start: nat) returns (block: Block, next: nat)
    requires start < |lines|
    ensures var n := BodyLen(lines[start + 1..], FenceLen(Strip(lines[start])));
            block == CodeOf(lines[start + 1..start + 1 + n])
    ensures next == start + AfterFence(lines[start..]) <= |lines|
  {
    var ticks := FenceLen(Strip(lines[start]));
    var i := start + 1;
    ghost var all := BodyLen(lines[start + 1..], ticks);
    while i < |lines| && !Closes(lines[i], ticks)
      invariant start + 1 <= i <= |lines|
      invariant all == i - (start + 1) + BodyLen(lines[i..], ticks)
    {
      assert lines[i..][1..] == lines[i + 1..];
      i := i + 1;
    }
    assert all == i - (start + 1);
    assert lines[start..][1..] == lines[start + 1..];
    block := CodeOf(lines[start + 1..i]);
    next := if i + 1 <= |lines| then i + 1 else |lines|;
  }

  // ---------- one turn of the scanner, by position ----------

  lemma AtBlank(lines: seq<string>, i: nat, p: Pending)
    requires i < |lines| && Strip(lines[i]) == ""
    ensures Scan(lines[i..], p) == Flush(p) + Scan(lines[i + 1..], NoPending)
  {
    hide Flush, Strip;
    assert lines[i..][1..] == lines[i + 1..];
  }

  lemma AtFence(lines: seq<string>, i: nat, p: Pending)
    requires i < |lines| && Strip(lines[i]) != "" && FenceLen(Strip(lines[i])) >= 3
    ensures var n := BodyLen(lines[i + 1..], FenceLen(Strip(lines[i])));
            var next := i + AfterFence(lines[i..]);
            Scan(lines[i..], p) == Flush(p) + [CodeOf(lines[i + 1..i + 1 + n])] + Scan(lines[next..], NoPending)
  {
    hide Flush, Strip, FenceLen, CodeOf, BodyLen;
    var left := lines[i..];
    assert left[1..] == lines[i + 1..];
    var n := BodyLen(lines[i + 1..], FenceLen(Strip(lines[i])));
    assert left[1..1 + n] == lines[i + 1..i + 1 + n];
    assert left[AfterFence(left)..] == lines[i + AfterFence(left)..];
  }

  lemma AtTable(lines: seq<string>, i: nat, p: Pending)
    requires i + 1 < |lines| && Strip(lines[i]) != "" && FenceLen(Strip(lines[i])) < 3
    requires '|' in Strip(lines[i]) && IsSeparator(lines[i + 1])
    ensures var next := i + 2 + RowCount(lines[i + 2..]);
            Scan(lines[i..], p) == Flush(p) + [TableOf(lines[i], lines[i + 2..next])] + Scan(lines[next..], NoPending)
  {
    hide Flush, Strip, FenceLen, TableOf, IsSeparator, RowCount;
    var left := lines[i..];
    assert left[2..] == lines[i + 2..];
    var next := i + 2 + RowCount(lines[i + 2..]);
    assert left[2..next - i] == lines[i + 2..next] && left[next - i..] == lines[next..];
  }

  lemma AtDivider(lines: seq<string>, i: nat, p: Pending)
    requires i < |lines| && Strip(lines[i]) != "" && FenceLen(Strip(lines[i])) < 3
    requires !('|' in Strip(lines[i]) && i + 1 < |lines| && IsSeparator(lines[i + 1])) && IsDivider(Strip(lines[i]))
    ensures Scan(lines[i..], p) == Flush(p) + [Divider] + Scan(lines[i + 1..], NoPending)
  {
    hide Flush, Strip, FenceLen, IsSeparator, IsDivider;
    assert lines[i..][1..] == lines[i + 1..];
  }

  lemma AtText(lines: seq<string>, i: nat, p: Pending)
    requires i < |lines| && Strip(lines[i]) != "" && FenceLen(Strip(lines[i])) < 3
    requires !('|' in Strip(lines[i]) && i + 1 < |lines| && IsSeparator(lines[i + 1])) && !IsDivider(Strip(lines[i]))
    ensures var step := Continue(p, Strip(lines[i]));
            Scan(lines[i..], p) == step.emitted + Scan(lines[i + 1..], step.pending)
  {
    hide Flush, Strip, FenceLen, IsSeparator, IsDivider, Continue;
    assert lines[i..][1..] == lines[i + 1..];
  }

  method BlocksFromMarkdown(md: string) returns (blocks: seq<Block>)
    ensures blocks == Parse(md)
  {
    hide Scan, Strip, FenceLen, IsSeparator, IsDivider, Continue, Flush, TableOf, CodeOf, RowCount, BodyLen, AfterFence;
    var lines := SplitLines(md);
    var pending, i := NoPending, 0;
    blocks := [];
    assert lines[0..] == lines;
    while i < |lines|
      invariant i <= |lines|
      invariant blocks + Scan(lines[i..], pending) == Parse(md)
    {
      var text := Strip(lines[i]);
      if text == "" {
        AtBlank(lines, i, pending);
        blocks := blocks + Flush(pending);
        pending := NoPending;
        i := i + 1;
      } else if FenceLen(text) >= 3 {
        AtFence(lines, i, pending);
        blocks := blocks + Flush(pending);
        pending := NoPending;
        var block, next := ConsumeFence(lines, i);
        blocks, i := blocks + [block], next;
      } else if '|' in text && i + 1 < |lines| && IsSeparator(lines[i + 1]) {
        AtTable(lines, i, pending);
        blocks := blocks + Flush(pending);
        pending := NoPending;
        var block, next := ConsumeTable(lines, i);
        blocks, i := blocks + [block], next;
      } else if IsDivider(text) {
        AtDivider(lines, i, pending);
        blocks := blocks + Flush(pending) + [Divider];
        pending := NoPending;
        i := i + 1;
      } else {
        AtText(lines, i, pending);
        var step := Continue(pending, text);
        blocks, pending := blocks + step.emitted, step.pending;
        i := i + 1;
      }
    }
    AtEnd(lines, pending);
    blocks := blocks + Flush(pending);
  }

  lemma AtEnd(lines: seq<string>, p: Pending)
    ensures Scan(lines[|lines|..], p) == Flush(p)
  {
  }
}
