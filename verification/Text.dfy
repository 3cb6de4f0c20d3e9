/** Text as the ledger and the converter read it: whitespace, normalisation, hashing. */
module Text {

  /** What `str.isspace` accepts for one character. */
  predicate IsSpace(c: char) {
    var n := c as int;
    || 9 <= n <= 13 || 28 <= n <= 32 || n == 0x85 || n == 0xA0 || n == 0x1680
    || 0x2000 <= n <= 0x200A || n == 0x2028 || n == 0x2029 || n == 0x202F || n == 0x205F || n == 0x3000
  }

  function RStrip(s: string): (r: string)
    ensures r == [] || !IsSpace(r[|r| - 1])
    ensures r <= s
  {
    if s != [] && IsSpace(s[|s| - 1]) then RStrip(s[..|s| - 1]) else s
  }

  function LStrip(s: string): (r: string)
    ensures r == [] || !IsSpace(r[0])
  {
    if s != [] && IsSpace(s[0]) then LStrip(s[1..]) else s
  }

  function Strip(s: string): string {
    RStrip(LStrip(s))
  }

  /** CRLF and lone CR turned to LF. */
  function Unix(s: string): string {
    if s == [] then []
    else if s[0] != '\r' then [s[0]] + Unix(s[1..])
    else if |s| > 1 && s[1] == '\n' then ['\n'] + Unix(s[2..])
    else ['\n'] + Unix(s[1..])
  }

  function Normalise(s: string): string {
    RStrip(Unix(s))
  }

  function TextHash(sha: string -> string, s: string): string {
    sha(Normalise(s))
  }

  /** The file `record_brief` writes. */
  function Stored(s: string): string {
    Normalise(s) + "\n"
  }

  lemma {:induction false} UnixHasNoReturns(s: string)
    ensures '\r' !in Unix(s)
  {
    if s != [] {
      UnixHasNoReturns(if s[0] == '\r' && |s| > 1 && s[1] == '\n' then s[2..] else s[1..]);
    }
  }

  lemma {:induction false} UnixIdentity(s: string)
    requires '\r' !in s
    ensures Unix(s) == s
  {
    if s != [] {
      UnixIdentity(s[1..]);
    }
  }

  lemma {:induction false} RStripIdentity(s: string)
    requires s == [] || !IsSpace(s[|s| - 1])
    ensures RStrip(s) == s
  {
  }

  lemma RStripNewline(s: string)
    ensures RStrip(s + "\n") == RStrip(s)
  {
    assert (s + "\n")[..|s|] == s;
  }

  lemma PrefixLacks(s: string, t: string, c: char)
    requires s <= t && c !in t
    ensures c !in s
  {
    assert forall i | 0 <= i < |s| :: s[i] == t[i];
  }

  /** A stored brief re-hashes to the hash it is named by. */
  lemma StoredTextRehashes(sha: string -> string, s: string)
    ensures TextHash(sha, Stored(s)) == TextHash(sha, s)
  {
    hide Unix, RStrip;
    var n := Normalise(s);
    UnixHasNoReturns(s);
    PrefixLacks(n, Unix(s), '\r');
    assert '\r' !in Stored(s);
    UnixIdentity(Stored(s));
    RStripNewline(n);
    RStripIdentity(n);
  }
}
