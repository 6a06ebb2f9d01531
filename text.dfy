/** Decimal text of integers (Python's str(int)) and the "m:ss" duration
    field of the now-playing card, with the parsers that invert them. */
module Text {

  predicate IsDigit(c: char) { '0' <= c <= '9' }

  predicate AllDigits(s: string) { forall i :: 0 <= i < |s| ==> IsDigit(s[i]) }

  function Digit(n: nat): char
    requires n < 10
  {
    (48 + n) as char
  }

  function DigitValue(c: char): nat
    requires IsDigit(c)
  {
    (c as int - 48) as nat
  }

  /** Decimal digits of n, most significant first, without leading zeros. */
  function NatToString(n: nat): (r: string)
    ensures |r| >= 1 && AllDigits(r)
    ensures r[0] == '0' ==> n == 0
    decreases n
  {
    if n < 10 then [Digit(n)] else NatToString(n / 10) + [Digit(n % 10)]
  }

  /** The value of a run of decimal digits (0 for the empty run). */
  function ParseNat(s: string): nat
    requires AllDigits(s)
  {
    if s == [] then 0 else ParseNat(s[..|s| - 1]) * 10 + DigitValue(s[|s| - 1])
  }

  lemma {:induction false} ParseNatToString(n: nat)
    ensures ParseNat(NatToString(n)) == n
    decreases n
  {
    if n >= 10 {
      var s := NatToString(n);
      ParseNatToString(n / 10);
      assert s[..|s| - 1] == NatToString(n / 10);
    }
  }

  /** Python's str() of an int: a minus sign, then the digits of |i|. */
  function IntToString(i: int): string
  {
    if i < 0 then "-" + NatToString(-i) else NatToString(i)
  }

  predicate IsIntText(s: string)
  {
    if |s| > 0 && s[0] == '-' then |s| > 1 && AllDigits(s[1..]) else |s| > 0 && AllDigits(s)
  }

  function ParseInt(s: string): int
    requires IsIntText(s)
  {
    if s[0] == '-' then -(ParseNat(s[1..]) as int) else ParseNat(s)
  }

  /** Reading back the text of an integer gives that integer. */
  lemma IntTextRoundTrip(i: int)
    ensures IsIntText(IntToString(i)) && ParseInt(IntToString(i)) == i
  {
    var s := IntToString(i);
    if i < 0 {
      var d := NatToString(-i);
      assert s == "-" + d && s[0] == '-' && s[1..] == d;
      ParseNatToString(-i);
      assert ParseInt(s) == -(ParseNat(d) as int);
    } else {
      var d := NatToString(i);
      assert s == d && IsDigit(d[0]);
      ParseNatToString(i);
    }
  }

  /** Distinct integers have distinct texts. */
  lemma IntToStringInjective(i: int, j: int)
    ensures IntToString(i) == IntToString(j) <==> i == j
  {
    IntTextRoundTrip(i);
    IntTextRoundTrip(j);
  }

  /** The seconds field: always two digits, zero-padded ("{s:02d}"). */
  function TwoDigits(n: nat): string
    requires n < 100
  {
    [Digit(n / 10), Digit(n % 10)]
  }

  lemma TwoDigitsValue(n: nat)
    requires n < 100
    ensures AllDigits(TwoDigits(n)) && ParseNat(TwoDigits(n)) == n
  {
    var t := TwoDigits(n);
    assert DigitValue(t[0]) == n / 10 && DigitValue(t[1]) == n % 10;
    assert t[..1] == [t[0]] && t[..1][..0] == [];
    assert ParseNat(t[..1]) == n / 10;
  }

  /** The duration field of format_now_playing: "{d // 60}:{d % 60:02d}".
      Python floors both operators; with the positive divisor 60 that is
      exactly Dafny's Euclidean / and %, so negative durations agree too. */
  function FormatDuration(d: int): string
  {
    IntToString(d / 60) + ":" + TwoDigits(d % 60)
  }

  /** Shape of an "m:ss" text: an integer, a colon, exactly two digits. */
  predicate IsDurationText(s: string)
  {
    |s| >= 4 && s[|s| - 3] == ':' && IsIntText(s[..|s| - 3]) && AllDigits(s[|s| - 2..])
  }

  function MinutesField(s: string): int
    requires IsDurationText(s)
  {
    ParseInt(s[..|s| - 3])
  }

  function SecondsField(s: string): nat
    requires IsDurationText(s)
  {
    ParseNat(s[|s| - 2..])
  }

  /** The formatted duration reads back as minutes and seconds with the
      seconds in 0..59 and minutes*60 + seconds equal to the duration. */
  lemma DurationFields(d: int)
    ensures IsDurationText(FormatDuration(d))
    ensures 0 <= SecondsField(FormatDuration(d)) < 60
    ensures MinutesField(FormatDuration(d)) * 60 + SecondsField(FormatDuration(d)) == d
  {
    var s := FormatDuration(d);
    var m := IntToString(d / 60);
    assert s[..|s| - 3] == m;
    assert s[|s| - 2..] == TwoDigits(d % 60);
    IntTextRoundTrip(d / 60);
    TwoDigitsValue(d % 60);
  }

  /** The two fields are the only ones that fit: any minutes/seconds split
      with seconds in 0..59 is the one the formatter prints. */
  lemma DurationFieldsUnique(d: int, m: int, sec: int)
    requires 0 <= sec < 60 && m * 60 + sec == d
    ensures m == MinutesField(FormatDuration(d)) && sec == SecondsField(FormatDuration(d))
  {
    DurationFields(d);
    var m' := MinutesField(FormatDuration(d));
    var s' := SecondsField(FormatDuration(d));
    assert (m - m') * 60 == s' - sec;
  }

  /** The fixed opening of the now-playing card, up to the title. */
  const CardHeader: string := "**\U{25B6}\U{FE0F} Started Streaming |**  \n" + "**\U{25B8} Title :** "

  /** The now-playing card up to its duration field: header, title line
      and the label of the duration line. */
  function CardLead(title: string): string
  {
    CardHeader + title + "  \n" + "**\U{25B8} Duration :** `"
  }

  /** The rest of the card after the duration field. */
  function CardTail(user: string): string
  {
    "` minutes  \n" + "**\U{25B8} Requested by :** " + user
  }

  /** The message format_now_playing builds, with its Markdown and its two
      trailing spaces before each line break. */
  function NowPlayingText(title: string, duration: int, user: string): string
  {
    CardLead(title) + FormatDuration(duration) + CardTail(user)
  }

  /** Read at its place in the card, between the lead (which depends only
      on the title) and the tail (which depends only on the requester), the
      duration field is "m:ss" with seconds in 0..59 and minutes*60 +
      seconds equal to the duration; the title and the requester sit at
      fixed places too. */
  lemma NowPlayingFields(title: string, d: int, user: string)
    ensures var card := NowPlayingText(title, d, user);
      && |CardLead(title)| + |CardTail(user)| <= |card|
      && var field := card[|CardLead(title)|..|card| - |CardTail(user)|];
      && IsDurationText(field)
      && 0 <= SecondsField(field) < 60
      && MinutesField(field) * 60 + SecondsField(field) == d
      && card[|card| - |user|..] == user
      && card[..|CardHeader|] == CardHeader
      && card[|CardHeader|..|CardHeader| + |title|] == title
  {
    var card := NowPlayingText(title, d, user);
    var lead, tail := CardLead(title), CardTail(user);
    assert card[|lead|..|card| - |tail|] == FormatDuration(d);
    assert card[|card| - |user|..] == user;
    assert card[..|CardHeader|] == CardHeader;
    assert card[|CardHeader|..|CardHeader| + |title|] == title;
    DurationFields(d);
  }
}
