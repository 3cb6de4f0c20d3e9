/** Blocks to markdown: the printer the page's hash is taken from. */
module MarkdownPrint {
  import opened Seqs
  import opened Markdown

  function Repeat(c: char, n: nat): (r: string)
    ensures |r| == n && forall i | 0 <= i < n :: r[i] == c
  {
    seq(n, i => c)
  }

  /** A number in decimal. */
  function Decimal(n: nat): (r: string)
    ensures r != "" && forall i | 0 <= i < |r| :: '0' <= r[i] <= '9'
  {
    if n < 10 then ['0' + n as char] else Decimal(n / 10) + ['0' + (n % 10) as char]
  }

  function RowLine(cells: seq<string>): string {
    "| " + Join(cells, " | ") + " |"
  }

  function Rules(width: nat): (r: seq<string>)
    ensures |r| == width && forall i | 0 <= i < width :: r[i] == "---"
  {
    seq(width, i => "---")
  }

  function RowLines(rows: seq<seq<string>>): (r: seq<string>)
    ensures |r| == |rows|
  {
    seq(|rows|, i requires 0 <= i < |rows| => RowLine(rows[i]))
  }

  /** The header, its rule, the other rows. */
  function TableLines(rows: seq<seq<string>>): seq<string>
    requires rows != []
  {
    [RowLine(rows[0]), RowLine(Rules(|rows[0]|))] + RowLines(rows[1..])
  }

  /** `rows[0]` is read, so a table has at least its header. */
  predicate Printable(b: Block) {
    b.Table? ==> b.rows != []
  }

  function BlockToMarkdown(b: Block, number: nat): string
    requires Printable(b)
  {
    match b
    case Heading(level, text) => Repeat('#', level) + " " + text
    case Paragraph(text) => text
    case Bullet(text) => "- " + text
    case Numbered(text) => Decimal(number) + ". " + text
    case Quote(text) => "> " + text
    case Divider => "---"
    case Code(text) => "```\n" + text + "\n```"
    case Table(rows) => Join(TableLines(rows), "\n")
  }

  /** The number a last numbered item carries: its place in its run. */
  function NumberOf(bs: seq<Block>): nat {
    if bs == [] || !Last(bs).Numbered? then 0 else NumberOf(Init(bs)) + 1
  }

  /** List items of one type stand on adjacent lines; everything else is set apart. */
  predicate Adjacent(a: Block, b: Block) {
    (a.Bullet? && b.Bullet?) || (a.Numbered? && b.Numbered?)
  }

  function Body(bs: seq<Block>): string
    requires forall i | 0 <= i < |bs| :: Printable(bs[i])
  {
    if bs == [] then ""
    else if |bs| == 1 then BlockToMarkdown(bs[0], NumberOf(bs))
    else Body(Init(bs)) + (if Adjacent(bs[|bs| - 2], Last(bs)) then "\n" else "\n\n")
         + BlockToMarkdown(Last(bs), NumberOf(bs))
  }

  function Print(bs: seq<Block>): string
    requires forall i | 0 <= i < |bs| :: Printable(bs[i])
  {
    Body(bs) + "\n"
  }

  method BlocksToMarkdown(bs: seq<Block>) returns (text: string)
    requires forall i | 0 <= i < |bs| :: Printable(bs[i])
    ensures text == Print(bs)
  {
    text := "";
    var number: nat, previous: seq<Block> := 0, [];
    for i := 0 to |bs|
      invariant number == NumberOf(bs[..i])
      invariant previous == if i == 0 then [] else [bs[i - 1]]
      invariant text == Body(bs[..i])
    {
      var block := bs[i];
      var upTo := bs[..i + 1];
      assert Init(upTo) == bs[..i] && Last(upTo) == block;
      number := if block.Numbered? then number + 1 else 0;
      var rendered := BlockToMarkdown(block, number);
      if previous == [] {
        text := rendered;
      } else {
        assert upTo[|upTo| - 2] == previous[0];
        text := text + (if Adjacent(previous[0], block) then "\n" else "\n\n") + rendered;
      }
      previous := [block];
    }
    assert bs[..|bs|] == bs;
    text := text + "\n";
  }
}
