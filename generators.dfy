/** The formatting and sampling helpers of the content corpus
    (src/generators.py): each is a total function of its arguments and of
    the oracle it reads its random draws from. */
module Generators {
  import opened Text
  import opened Rng
  import opened Config

  // ---------------------------------------------------------------------
  // Pool pickers: one `random.choice` each
  // ---------------------------------------------------------------------

  function GenerateAvatarColor(o: Oracle): (r: Draw<string>)
    ensures r.value in AVATAR_COLORS && r.next == o.Skip(1)
  {
    Choice(o, AVATAR_COLORS)
  }

  function GenerateTweetText(o: Oracle): (r: Draw<string>)
    ensures r.value in RealTweets() && r.next == o.Skip(1)
  {
    Choice(o, RealTweets())
  }

  function GenerateInstagramCaption(o: Oracle): (r: Draw<string>)
    ensures r.value in RealCaptions() && r.next == o.Skip(1)
  {
    Choice(o, RealCaptions())
  }

  /** A whole pre-authored conversation, chosen as one unit. */
  function GenerateWhatsAppMessages(o: Oracle): (r: Draw<seq<Message>>)
    ensures r.value in RealConversations() && r.next == o.Skip(1)
  {
    Choice(o, RealConversations())
  }

  // ---------------------------------------------------------------------
  // get_initials
  // ---------------------------------------------------------------------

  /** The first letters of the first two whitespace-separated tokens,
      upper-cased; with fewer than two tokens, the first RAW character of
      the name upper-cased (so a name with leading whitespace yields that
      whitespace); "?" for the empty name. */
  function GetInitials(name: string): (r: string)
    ensures name == "" ==> r == "?"
    ensures r != [] && Upper(r) == r
  {
    var parts := Split(name);
    if |parts| >= 2 then
      SplitSound(name);
      assert IsWord(parts[0]) && IsWord(parts[1]);
      UpperIdempotent([parts[0][0], parts[1][0]]);
      InitialsOfTwoAreLong(parts[0][0], parts[1][0]);
      Upper([parts[0][0], parts[1][0]])
    else if name != "" then
      UpperIdempotent([name[0]]);
      UpperOfOne(name[0]);
      Upper([name[0]])
    else
      "?"
  }

  lemma UpperOfOne(c: char)
    ensures Upper([c]) == UpperChar(c) && |Upper([c])| > 0
  {
    assert Upper([c]) == UpperChar(c) + Upper([]);
  }

  /** Whitespace has no upper-case form. */
  lemma UpperOfSpace(c: char)
    requires IsSpace(c)
    ensures Upper([c]) == [c]
  {
    UpperOfOne(c);
  }

  /** Two upper-cased characters are at least two characters long. */
  lemma InitialsOfTwoAreLong(a: char, b: char)
    ensures |Upper([a, b])| >= 2
  {
    assert [a, b] == [a] + [b];
    UpperAppend([a], [b]);
    assert Upper([a]) == UpperChar(a) + Upper([]);
    assert Upper([b]) == UpperChar(b) + Upper([]);
  }

  /** A name made of two words (with any whitespace around and between
      them, and anything after a further separator) gives the upper-cased
      first letters of the two words. */
  lemma {:induction false} InitialsOfTwoWords(lead: string, w1: string, sep: string, w2: string, tail: string)
    requires AllSpace(lead) && IsWord(w1) && IsWord(w2)
    requires sep != [] && AllSpace(sep)
    requires tail == [] || IsSpace(tail[0])
    ensures GetInitials(lead + w1 + sep + w2 + tail) == Upper([w1[0], w2[0]])
  {
    var rest := sep + w2 + tail;
    assert lead + w1 + sep + w2 + tail == lead + w1 + rest;
    SplitCons(lead, w1, rest);
    SplitCons(sep, w2, tail);
  }

  /** A single word, possibly followed by whitespace, gives its first
      letter upper-cased. */
  lemma {:induction false} InitialsOfOneWord(w: string, trail: string)
    requires IsWord(w) && AllSpace(trail)
    ensures GetInitials(w + trail) == Upper([w[0]])
  {
    assert [] + w + trail == w + trail;
    SplitCons([], w, trail);
    SplitBlank(trail);
  }

  /** A name that starts with whitespace and has fewer than two words
      yields that whitespace character, not a letter and not "?". */
  lemma {:induction false} InitialsOfPaddedWord(lead: string, w: string, trail: string)
    requires lead != [] && AllSpace(lead) && IsWord(w) && AllSpace(trail)
    ensures GetInitials(lead + w + trail) == [lead[0]]
  {
    var name := lead + w + trail;
    SplitCons(lead, w, trail);
    SplitBlank(trail);
    assert name[0] == lead[0];
    UpperOfSpace(lead[0]);
  }

  /** A non-empty name of whitespace only yields its first character. */
  lemma {:induction false} InitialsOfBlank(name: string)
    requires name != [] && AllSpace(name)
    ensures GetInitials(name) == [name[0]]
  {
    SplitBlank(name);
    UpperOfSpace(name[0]);
  }

  lemma InitialsExampleTwoWords()
    ensures GetInitials("Maria Santos") == "MS"
  {
    var w1, w2 := "Maria", "Santos";
    assert IsWord(w1);
    assert IsWord(w2);
    assert AllSpace(" ");
    assert "Maria Santos" == [] + w1 + " " + w2 + [];
    InitialsOfTwoWords([], w1, " ", w2, []);
    UpperOfMS();
  }

  lemma UpperOfMS()
    ensures Upper(['M', 'S']) == "MS"
  {
    assert ['M', 'S'] == ['M'] + ['S'];
    UpperAppend(['M'], ['S']);
    UpperOfOne('M');
    UpperOfOne('S');
  }

  lemma InitialsExampleOneWord()
    ensures GetInitials("João") == "J"
  {
    var w := "João";
    assert IsWord(w) && AllSpace([]);
    assert w == w + [];
    InitialsOfOneWord(w, []);
    UpperOfOne('J');
  }

  // ---------------------------------------------------------------------
  // generate_username
  // ---------------------------------------------------------------------

  /** The name lower-cased with every ' ' removed (only the ASCII space:
      tabs and other whitespace stay). */
  function Handle(name: string): (h: string)
    ensures ' ' !in h
  {
    RemoveChar(Lower(name), ' ')
  }

  /** The five equally likely suffixes, for the number drawn first. */
  function UsernameSuffixes(number: nat): (s: seq<string>)
    ensures |s| == 5
  {
    ["_oficial", "_real", "br", NatToString(number), NatToString(number)]
  }

  /** A suffix `generate_username` can append. */
  ghost predicate IsUsernameSuffix(s: string) {
    s == "_oficial" || s == "_real" || s == "br"
    || exists n: nat :: 1 <= n <= 999 && s == NatToString(n)
  }

  /** `u` is a username `generate_username(name)` can return. */
  ghost predicate IsUsernameOf(u: string, name: string) {
    exists suffix :: IsUsernameSuffix(suffix) && u == "@" + Handle(name) + suffix
  }

  /** '@', the handle, and one suffix: draws the number in [1, 999], then
      the suffix. */
  function GenerateUsername(name: string, o: Oracle): (r: Draw<string>)
    ensures IsUsernameOf(r.value, name)
    ensures r.next == o.Skip(2)
  {
    var number := RandInt(o, 1, 999);
    var suffix := Choice(number.next, UsernameSuffixes(number.value));
    assert IsUsernameSuffix(suffix.value) by {
      var ss := UsernameSuffixes(number.value);
      assert suffix.value in ss;
      assert ss[3] == NatToString(number.value);
    }
    Draw("@" + Handle(name) + suffix.value, suffix.next)
  }

  lemma SuffixHasNoAt(s: string)
    requires IsUsernameSuffix(s)
    ensures '@' !in s
  {
    if s != "_oficial" && s != "_real" && s != "br" {
      var n: nat :| 1 <= n <= 999 && s == NatToString(n);
      assert AllDigits(s);
    }
  }

  /** Instagram's form of a username: `generate_username(name)` with every
      '@' removed. Holds of `u` exactly when `u` is that form. */
  ghost predicate IsInstagramUsernameOf(u: string, name: string) {
    exists suffix :: IsUsernameSuffix(suffix) && u == RemoveChar(Handle(name), '@') + suffix
  }

  lemma RemoveMarker(h: string, suffix: string)
    requires '@' !in suffix
    ensures RemoveChar("@" + h + suffix, '@') == RemoveChar(h, '@') + suffix
  {
    var at := "@";
    RemoveCharAppend(at + h, suffix, '@');
    RemoveCharAppend(at, h, '@');
    assert RemoveChar(at, '@') == [] by {
      assert at[0] == '@' && at[1..] == [];
    }
    RemoveCharAbsent(suffix, '@');
    calc {
      RemoveChar(at + h + suffix, '@');
      RemoveChar(at + h, '@') + RemoveChar(suffix, '@');
      RemoveChar(at, '@') + RemoveChar(h, '@') + suffix;
      { assert RemoveChar(at, '@') + RemoveChar(h, '@') == RemoveChar(h, '@'); }
      RemoveChar(h, '@') + suffix;
    }
  }

  /** Removing '@' from a generated username drops the marker and any
      '@' of the name, and keeps the suffix. */
  lemma InstagramUsername(u: string, name: string)
    requires IsUsernameOf(u, name)
    ensures IsInstagramUsernameOf(RemoveChar(u, '@'), name)
    ensures '@' !in RemoveChar(u, '@')
  {
    var suffix :| IsUsernameSuffix(suffix) && u == "@" + Handle(name) + suffix;
    SuffixHasNoAt(suffix);
    RemoveMarker(Handle(name), suffix);
  }

  // ---------------------------------------------------------------------
  // format_number
  // ---------------------------------------------------------------------

  /** `x.y` where the integer `tenths` is ten times the value shown. */
  function OneDecimal(tenths: nat): string {
    NatToString(tenths / 10) + "." + [DigitChar(tenths % 10)]
  }

  /** `n / unit` rounded to the nearest tenth, halves rounded up, for the
      two units the counts are shown in. */
  function RoundTenths(n: nat, unit: nat): (t: nat)
    requires unit == 1000 || unit == 1_000_000
    ensures 10 * n - unit / 2 < t * unit <= 10 * n + unit / 2
  {
    if unit == 1000 then (10 * n + 500) / 1000 else (10 * n + 500_000) / 1_000_000
  }

  /** The compact count shown on a post: millions with 'M', thousands with
      'K', one decimal each; smaller (and negative) numbers as `str(n)`. */
  function FormatNumber(n: int): (r: string)
    ensures n < 1000 ==> r == IntToString(n)
    ensures 1000 <= n < 1_000_000 ==>
      exists t: nat :: r == OneDecimal(t) + "K" && 10 * n - 500 < 1000 * t <= 10 * n + 500
    ensures 1_000_000 <= n ==>
      exists t: nat :: r == OneDecimal(t) + "M" && 10 * n - 500_000 < 1_000_000 * t <= 10 * n + 500_000
  {
    if n >= 1_000_000 then OneDecimal(RoundTenths(n, 1_000_000)) + "M"
    else if n >= 1000 then OneDecimal(RoundTenths(n, 1000)) + "K"
    else IntToString(n)
  }

  /** Below a thousand the text reads back as the number itself. */
  lemma FormatNumberSmallRoundTrip(n: int)
    requires n < 1000
    ensures var s := FormatNumber(n);
            (s[0] == '-' ==> AllDigits(s[1..])) && (s[0] != '-' ==> AllDigits(s))
            && ParseInt(s) == n
  {
    ParseIntToString(n);
  }

  /** The unit letter tells the magnitude: 'M' exactly from a million up,
      'K' exactly for thousands, and a digit otherwise. */
  lemma FormatNumberUnit(n: int)
    ensures var s := FormatNumber(n);
            |s| > 0
            && (s[|s| - 1] == 'M' <==> n >= 1_000_000)
            && (s[|s| - 1] == 'K' <==> 1000 <= n < 1_000_000)
            && (n < 1000 ==> IsDigit(s[|s| - 1]))
  {
    var s := FormatNumber(n);
    if n < 1000 {
      if n < 0 {
        assert s == "-" + NatToString(-n);
        assert s[|s| - 1] == NatToString(-n)[|NatToString(-n)| - 1];
      }
    }
  }

  lemma FormatNumberExamples()
    ensures FormatNumber(1500) == "1.5K"
    ensures FormatNumber(2500000) == "2.5M"
    ensures FormatNumber(999) == "999"
  {
    assert NatToString(1) == "1";
    assert NatToString(2) == "2";
    assert NatToString(99) == NatToString(9) + [DigitChar(9)];
    assert NatToString(999) == NatToString(99) + [DigitChar(9)];
  }

  /** Just below a million the thousands form rounds up to four digits:
      999999 is shown as "1000.0K", not as "1.0M". */
  lemma FormatNumberBelowMillion()
    ensures FormatNumber(999_999) == "1000.0K"
  {
    assert NatToString(1) == "1";
    assert NatToString(10) == NatToString(1) + [DigitChar(0)];
    assert NatToString(100) == NatToString(10) + [DigitChar(0)];
    assert NatToString(1000) == NatToString(100) + [DigitChar(0)];
  }

  // ---------------------------------------------------------------------
  // generate_timestamp and generate_time
  // ---------------------------------------------------------------------

  /** A relative timestamp: "<h>h" for 1 <= h <= 23, or "<d>d" for
      1 <= d <= 7. */
  ghost predicate IsRelativeStamp(s: string) {
    (exists h: nat :: 1 <= h <= 23 && s == NatToString(h) + "h")
    || (exists d: nat :: 1 <= d <= 7 && s == NatToString(d) + "d")
  }

  /** `generate_timestamp(days_ago)`: with no argument, draws days_ago in
      [0, 7] first. 0 draws an hour in [1, 23] ("<h>h"); 1 is "1d"; any
      other value up to 7 (negatives included) is "<d>d"; beyond 7 it is
      the calendar date that many days ago. */
  function GenerateTimestamp(daysAgo: Option<int>, o: Oracle): (r: Draw<string>)
    ensures daysAgo.None? ==> IsRelativeStamp(r.value)
    ensures daysAgo == Some(0) ==> exists h: nat :: 1 <= h <= 23 && r.value == NatToString(h) + "h"
    ensures daysAgo == Some(1) ==> r.value == "1d"
    ensures daysAgo.Some? && 1 < daysAgo.value <= 7 ==> r.value == NatToString(daysAgo.value) + "d"
    ensures daysAgo.Some? && daysAgo.value < 0 ==> r.value == "-" + NatToString(-daysAgo.value) + "d"
    ensures daysAgo.Some? && daysAgo.value > 7 ==> r.value == o.datesBefore(daysAgo.value)
  {
    var d := match daysAgo
      case None => RandInt(o, 0, 7)
      case Some(d) => Draw(d, o);
    if d.value == 0 then
      var hours := RandInt(d.next, 1, 23);
      Draw(IntToString(hours.value) + "h", hours.next)
    else if d.value == 1 then
      assert "1d" == NatToString(1) + "d";
      Draw("1d", d.next)
    else if d.value <= 7 then
      Draw(IntToString(d.value) + "d", d.next)
    else
      Draw(d.next.datesBefore(d.value), d.next)
  }

  /** `generate_time()`: "HH:MM", hour in [0, 23] and minute in [0, 59],
      both zero-padded to two digits. */
  function GenerateTime(o: Oracle): (r: Draw<string>)
    ensures |r.value| == 5 && r.value[2] == ':'
    ensures AllDigits(r.value[..2]) && AllDigits(r.value[3..])
    ensures ParseNat(r.value[..2]) <= 23 && ParseNat(r.value[3..]) <= 59
    ensures r.next == o.Skip(2)
  {
    var hour := RandInt(o, 0, 23);
    var minute := RandInt(hour.next, 0, 59);
    var hh := ZeroPad(hour.value, 2);
    var mm := ZeroPad(minute.value, 2);
    ParseZeroPad(hour.value, 2);
    ParseZeroPad(minute.value, 2);
    var s := hh + ":" + mm;
    assert s[..2] == hh && s[3..] == mm;
    Draw(s, minute.next)
  }
}
