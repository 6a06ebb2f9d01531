/** The text of the /queue listing: a header, then one numbered
    "title | requester" line per entry, numbered from 1 in queue order. */
module Listing {
  import opened Types
  import opened Text

  const Header: string := "**Current Queue:**\n"

  /** Line for the entry at (1-based) position i: "`i.` title | user\n". */
  function EntryLine(i: nat, t: Track): string
  {
    "`" + NatToString(i) + ".` " + t.title + " | " + t.requester + "\n"
  }

  /** The lines for the entries, numbered from 1. */
  function Lines(q: seq<Track>): seq<string>
  {
    seq(|q|, k requires 0 <= k < |q| => EntryLine(k + 1, q[k]))
  }

  function Concat(ls: seq<string>): string
  {
    if ls == [] then "" else Concat(ls[..|ls| - 1]) + ls[|ls| - 1]
  }

  /** The whole reply for a non-empty queue. */
  function QueueText(q: seq<Track>): string
  {
    Header + Concat(Lines(q))
  }

  /** Appending an entry appends exactly one line, numbered |q| + 1: the
      listing after a /play on a busy chat extends the listing before it. */
  lemma QueueTextAppend(q: seq<Track>, t: Track)
    ensures QueueText(q + [t]) == QueueText(q) + EntryLine(|q| + 1, t)
  {
    var ls := Lines(q + [t]);
    assert ls[..|ls| - 1] == Lines(q);
  }

  /** The digits that open s, up to its first non-digit. */
  function LeadingDigits(s: string): (r: string)
    ensures AllDigits(r) && r <= s
  {
    if s != [] && IsDigit(s[0]) then [s[0]] + LeadingDigits(s[1..]) else []
  }

  lemma {:induction false} LeadingDigitsOf(d: string, rest: string)
    requires AllDigits(d)
    requires rest == [] || !IsDigit(rest[0])
    ensures LeadingDigits(d + rest) == d
  {
    if d != [] {
      assert (d + rest)[1..] == d[1..] + rest;
      LeadingDigitsOf(d[1..], rest);
    } else {
      assert d + rest == rest;
    }
  }

  /** The position a listing line shows: the number after its backtick. */
  function LineNumber(line: string): nat
  {
    if line == [] then 0 else ParseNat(LeadingDigits(line[1..]))
  }

  /** Every line of the listing reads back as its own 1-based position, so
      the entries are numbered 1..n in queue order. */
  lemma LinesNumbered(q: seq<Track>, k: nat)
    requires k < |q|
    ensures LineNumber(Lines(q)[k]) == k + 1
  {
    var line := EntryLine(k + 1, q[k]);
    var rest := ".` " + q[k].title + " | " + q[k].requester + "\n";
    assert line[1..] == NatToString(k + 1) + rest;
    LeadingDigitsOf(NatToString(k + 1), rest);
    ParseNatToString(k + 1);
  }
}
