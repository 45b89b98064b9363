/** Character and string primitives the generators rely on: Python's
    whitespace splitting, case mapping, and integer <-> decimal text. */
module Text {

  datatype Option<T> = None | Some(value: T)

  // ---------------------------------------------------------------------
  // Whitespace and str.split()
  // ---------------------------------------------------------------------

  /** The characters Python's `str.split()` (no argument) treats as separators. */
  predicate IsSpace(c: char) {
    c == ' ' || ('\t' <= c <= '\r') || ('\U{1C}' <= c <= '\U{1F}')
    || c == '\U{85}' || c == '\U{A0}' || c == '\U{1680}'
    || ('\U{2000}' <= c <= '\U{200A}') || c == '\U{2028}' || c == '\U{2029}'
    || c == '\U{202F}' || c == '\U{205F}' || c == '\U{3000}'
  }

  predicate AllSpace(s: string) {
    forall i :: 0 <= i < |s| ==> IsSpace(s[i])
  }

  /** A token of `str.split()`: non-empty and free of whitespace. */
  predicate IsWord(s: string) {
    |s| > 0 && forall i :: 0 <= i < |s| ==> !IsSpace(s[i])
  }

  function LeadingSpaces(s: string): (k: nat)
    ensures k <= |s| && AllSpace(s[..k])
    ensures k < |s| ==> !IsSpace(s[k])
  {
    if s == [] || !IsSpace(s[0]) then 0 else 1 + LeadingSpaces(s[1..])
  }

  function WordLength(s: string): (k: nat)
    ensures k <= |s|
    ensures forall i :: 0 <= i < k ==> !IsSpace(s[i])
    ensures k < |s| ==> IsSpace(s[k])
  {
    if s == [] || IsSpace(s[0]) then 0 else 1 + WordLength(s[1..])
  }

  /** Python's `s.split()`: the maximal runs of non-whitespace, in order. */
  function Split(s: string): (words: seq<string>)
    decreases |s|
  {
    var a := LeadingSpaces(s);
    if a == |s| then []
    else
      var rest := s[a..];
      var w := WordLength(rest);
      [rest[..w]] + Split(rest[w..])
  }

  /** The characters of `s` that are not whitespace, in order. */
  function NonSpace(s: string): string {
    if s == [] then [] else (if IsSpace(s[0]) then [] else [s[0]]) + NonSpace(s[1..])
  }

  function Flatten(ws: seq<string>): string {
    if ws == [] then [] else ws[0] + Flatten(ws[1..])
  }

  lemma {:induction false} NonSpaceAppend(a: string, b: string)
    ensures NonSpace(a + b) == NonSpace(a) + NonSpace(b)
    decreases |a|
  {
    if a == [] {
      assert a + b == b;
    } else {
      assert (a + b)[1..] == a[1..] + b;
      NonSpaceAppend(a[1..], b);
    }
  }

  lemma {:induction false} NonSpaceOfSpaces(s: string)
    requires AllSpace(s)
    ensures NonSpace(s) == []
    decreases |s|
  {
    if s != [] {
      NonSpaceOfSpaces(s[1..]);
    }
  }

  lemma {:induction false} NonSpaceOfWord(s: string)
    requires forall i :: 0 <= i < |s| ==> !IsSpace(s[i])
    ensures NonSpace(s) == s
    decreases |s|
  {
    if s != [] {
      NonSpaceOfWord(s[1..]);
    }
  }

  /** Every token is a word, and the tokens together hold exactly the
      non-whitespace characters of the input, in order. */
  lemma {:induction false} SplitSound(s: string)
    ensures forall k :: 0 <= k < |Split(s)| ==> IsWord(Split(s)[k])
    ensures Flatten(Split(s)) == NonSpace(s)
    decreases |s|
  {
    var a := LeadingSpaces(s);
    assert s == s[..a] + s[a..];
    NonSpaceAppend(s[..a], s[a..]);
    NonSpaceOfSpaces(s[..a]);
    if a == |s| {
      assert s[a..] == [];
    } else {
      var rest := s[a..];
      var w := WordLength(rest);
      assert rest == rest[..w] + rest[w..];
      NonSpaceAppend(rest[..w], rest[w..]);
      NonSpaceOfWord(rest[..w]);
      SplitSound(rest[w..]);
      var ws := Split(s);
      assert ws == [rest[..w]] + Split(rest[w..]);
      assert ws[1..] == Split(rest[w..]);
      forall k | 0 <= k < |ws| ensures IsWord(ws[k]) {
        if k > 0 {
          assert ws[k] == Split(rest[w..])[k - 1];
        }
      }
    }
  }

  lemma {:induction false} SplitEmptyIffBlank(s: string)
    ensures Split(s) == [] <==> AllSpace(s)
  {
    var a := LeadingSpaces(s);
    if a == |s| {
      assert s[..a] == s;
    } else {
      assert !IsSpace(s[a]);
    }
  }

  lemma {:induction false} LeadingSpacesAppend(sp: string, t: string)
    requires AllSpace(sp) && (t == [] || !IsSpace(t[0]))
    ensures LeadingSpaces(sp + t) == |sp|
    decreases |sp|
  {
    if sp == [] {
      assert sp + t == t;
    } else {
      var s := sp + t;
      assert s[0] == sp[0] && IsSpace(sp[0]);
      assert s[1..] == sp[1..] + t;
      assert AllSpace(sp[1..]) by {
        forall i | 0 <= i < |sp[1..]| ensures IsSpace(sp[1..][i]) {
          assert sp[1..][i] == sp[i + 1];
        }
      }
      LeadingSpacesAppend(sp[1..], t);
    }
  }

  lemma {:induction false} WordLengthAppend(w: string, t: string)
    requires forall i :: 0 <= i < |w| ==> !IsSpace(w[i])
    requires t == [] || IsSpace(t[0])
    ensures WordLength(w + t) == |w|
    decreases |w|
  {
    if w == [] {
      assert w + t == t;
    } else {
      var s := w + t;
      assert s[0] == w[0] && !IsSpace(w[0]);
      assert s[1..] == w[1..] + t;
      assert forall i :: 0 <= i < |w[1..]| ==> !IsSpace(w[1..][i]) by {
        forall i | 0 <= i < |w[1..]| ensures !IsSpace(w[1..][i]) {
          assert w[1..][i] == w[i + 1];
        }
      }
      WordLengthAppend(w[1..], t);
    }
  }

  /** Leading whitespace, then a word, then anything that starts with
      whitespace: the word is the first token. */
  lemma {:induction false} SplitCons(sp: string, w: string, t: string)
    requires AllSpace(sp) && IsWord(w) && (t == [] || IsSpace(t[0]))
    ensures Split(sp + w + t) == [w] + Split(t)
  {
    var s := sp + w + t;
    assert s == sp + (w + t);
    LeadingSpacesAppend(sp, w + t);
    assert s[|sp|..] == w + t;
    WordLengthAppend(w, t);
    assert (w + t)[..|w|] == w;
    assert (w + t)[|w|..] == t;
  }

  lemma {:induction false} SplitBlank(s: string)
    requires AllSpace(s)
    ensures Split(s) == []
  {
    SplitEmptyIffBlank(s);
  }

  // ---------------------------------------------------------------------
  // Case mapping (str.upper / str.lower)
  // ---------------------------------------------------------------------

  /** Python's `upper()` of one character, for ASCII and Latin-1; every
      other character maps to itself. 'ß' becomes the two letters "SS". */
  function UpperChar(c: char): string {
    if 'a' <= c <= 'z' then [(c as int - 32) as char]
    else if '\U{E0}' <= c <= '\U{FE}' && c != '\U{F7}' then [(c as int - 32) as char]
    else if c == '\U{FF}' then ['\U{178}']
    else if c == '\U{B5}' then ['\U{39C}']
    else if c == '\U{DF}' then "SS"
    else [c]
  }

  function Upper(s: string): string {
    if s == [] then [] else UpperChar(s[0]) + Upper(s[1..])
  }

  lemma {:induction false} UpperAppend(a: string, b: string)
    ensures Upper(a + b) == Upper(a) + Upper(b)
    decreases |a|
  {
    if a == [] {
      assert a + b == b;
    } else {
      assert (a + b)[0] == a[0];
      assert (a + b)[1..] == a[1..] + b;
      UpperAppend(a[1..], b);
    }
  }

  lemma UpperCharFixed(c: char)
    ensures Upper(UpperChar(c)) == UpperChar(c)
  {
    var u := UpperChar(c);
    if c == '\U{DF}' {
      assert u == ['S'] + ['S'];
      UpperAppend(['S'], ['S']);
    } else {
      assert |u| == 1;
      assert Upper(u) == UpperChar(u[0]) + Upper([]);
    }
  }

  /** Upper-casing twice is upper-casing once. */
  lemma {:induction false} UpperIdempotent(s: string)
    ensures Upper(Upper(s)) == Upper(s)
    decreases |s|
  {
    if s != [] {
      UpperAppend(UpperChar(s[0]), Upper(s[1..]));
      UpperCharFixed(s[0]);
      UpperIdempotent(s[1..]);
    }
  }

  /** Python's `lower()` of one character, for ASCII and Latin-1. */
  function LowerChar(c: char): char {
    if 'A' <= c <= 'Z' then (c as int + 32) as char
    else if '\U{C0}' <= c <= '\U{DE}' && c != '\U{D7}' then (c as int + 32) as char
    else c
  }

  function Lower(s: string): (r: string)
    ensures |r| == |s|
    ensures forall i :: 0 <= i < |s| ==> r[i] == LowerChar(s[i])
  {
    seq(|s|, i requires 0 <= i < |s| => LowerChar(s[i]))
  }

  /** Python's `s.replace(c, '')`: every occurrence of `c` removed. */
  function RemoveChar(s: string, c: char): (r: string)
    ensures c !in r
    ensures |r| <= |s|
  {
    if s == [] then [] else (if s[0] == c then [] else [s[0]]) + RemoveChar(s[1..], c)
  }

  lemma {:induction false} RemoveCharAppend(a: string, b: string, c: char)
    ensures RemoveChar(a + b, c) == RemoveChar(a, c) + RemoveChar(b, c)
    decreases |a|
  {
    if a == [] {
      assert a + b == b;
    } else {
      assert (a + b)[0] == a[0];
      assert (a + b)[1..] == a[1..] + b;
      RemoveCharAppend(a[1..], b, c);
    }
  }

  lemma {:induction false} RemoveCharAbsent(s: string, c: char)
    requires c !in s
    ensures RemoveChar(s, c) == s
    decreases |s|
  {
    if s != [] {
      assert c !in s[1..];
      RemoveCharAbsent(s[1..], c);
    }
  }

  // ---------------------------------------------------------------------
  // Decimal text (str(n), f"{n:0wd}") and its parser
  // ---------------------------------------------------------------------

  predicate IsDigit(c: char) {
    '0' <= c <= '9'
  }

  predicate AllDigits(s: string) {
    forall i :: 0 <= i < |s| ==> IsDigit(s[i])
  }

  function DigitChar(d: nat): (c: char)
    requires d < 10
    ensures IsDigit(c)
  {
    ('0' as int + d) as char
  }

  function DigitValue(c: char): (d: nat)
    requires IsDigit(c)
    ensures d < 10 && DigitChar(d) == c
  {
    c as int - '0' as int
  }

  /** Python's `str(n)` for a natural number: no leading zeros. */
  function NatToString(n: nat): (s: string)
    ensures |s| > 0 && AllDigits(s)
    ensures (s[0] == '0') == (n == 0)
    ensures n < 10 <==> |s| == 1
  {
    if n < 10 then [DigitChar(n)] else NatToString(n / 10) + [DigitChar(n % 10)]
  }

  /** The value of a string of decimal digits (leading zeros allowed). */
  function ParseNat(s: string): nat
    requires AllDigits(s)
  {
    if s == [] then 0 else ParseNat(s[..|s| - 1]) * 10 + DigitValue(s[|s| - 1])
  }

  /** Reading back the decimal text of `n` gives `n`. */
  lemma {:induction false} ParseNatToString(n: nat)
    ensures ParseNat(NatToString(n)) == n
  {
    if n >= 10 {
      var s := NatToString(n);
      assert s[..|s| - 1] == NatToString(n / 10);
      ParseNatToString(n / 10);
    }
  }

  lemma NatToStringInjective(m: nat, n: nat)
    requires NatToString(m) == NatToString(n)
    ensures m == n
  {
    ParseNatToString(m);
    ParseNatToString(n);
  }

  function Zeros(k: nat): (s: string)
    ensures |s| == k && AllDigits(s)
    ensures forall i :: 0 <= i < k ==> s[i] == '0'
  {
    seq(k, _ => '0')
  }

  lemma {:induction false} ParseNatLeadingZeros(k: nat, s: string)
    requires AllDigits(s)
    ensures ParseNat(Zeros(k) + s) == ParseNat(s)
    decreases |s|
  {
    if s == [] {
      assert Zeros(k) + s == Zeros(k);
      ParseNatOfZeros(k);
    } else {
      var t := Zeros(k) + s;
      assert t[..|t| - 1] == Zeros(k) + s[..|s| - 1];
      ParseNatLeadingZeros(k, s[..|s| - 1]);
    }
  }

  lemma {:induction false} ParseNatOfZeros(k: nat)
    ensures ParseNat(Zeros(k)) == 0
  {
    if k > 0 {
      assert Zeros(k)[..k - 1] == Zeros(k - 1);
      ParseNatOfZeros(k - 1);
    }
  }

  /** Python's `f"{n:0{width}d}"`: the decimal text of n, left-padded with
      zeros to at least `width` characters. */
  function ZeroPad(n: nat, width: nat): (s: string)
    ensures AllDigits(s)
    ensures |s| == if |NatToString(n)| < width then width else |NatToString(n)|
  {
    var digits := NatToString(n);
    if |digits| < width then Zeros(width - |digits|) + digits else digits
  }

  /** Padding never changes the value read back. */
  lemma ParseZeroPad(n: nat, width: nat)
    ensures ParseNat(ZeroPad(n, width)) == n
  {
    var digits := NatToString(n);
    ParseNatToString(n);
    if |digits| < width {
      assert ZeroPad(n, width) == Zeros(width - |digits|) + digits;
      ParseNatLeadingZeros(width - |digits|, digits);
    } else {
      assert ZeroPad(n, width) == digits;
    }
  }

  /** A run of digits closed by a non-digit can be read off a string in
      one way only. */
  lemma DigitRunUnique(a: string, x: string, b: string, y: string)
    requires AllDigits(a) && AllDigits(b)
    requires x != [] && y != [] && !IsDigit(x[0]) && !IsDigit(y[0])
    requires a + x == b + y
    ensures a == b && x == y
  {
    var s := a + x;
    assert forall i :: 0 <= i < |a| ==> IsDigit(s[i]);
    assert forall i :: 0 <= i < |b| ==> IsDigit(s[i]);
    assert s[|a|] == x[0] && s[|b|] == y[0];
    assert |a| == |b|;
    assert a == s[..|a|] && b == s[..|b|];
    assert x == s[|a|..] && y == s[|b|..];
  }

  /** Python's `str(n)` for any integer. */
  function IntToString(n: int): (s: string)
    ensures |s| > 0
    ensures n >= 0 ==> s == NatToString(n)
  {
    if n < 0 then "-" + NatToString(-n) else NatToString(n)
  }

  function ParseInt(s: string): int
    requires s != [] && (s[0] == '-' ==> AllDigits(s[1..])) && (s[0] != '-' ==> AllDigits(s))
  {
    if s[0] == '-' then -(ParseNat(s[1..]) as int) else ParseNat(s)
  }

  /** `int(str(n)) == n`. */
  lemma ParseIntToString(n: int)
    ensures var s := IntToString(n);
            (s[0] == '-' ==> AllDigits(s[1..])) && (s[0] != '-' ==> AllDigits(s))
            && ParseInt(s) == n
  {
    if n < 0 {
      ParseNatToString(-n);
      assert IntToString(n)[1..] == NatToString(-n);
    } else {
      ParseNatToString(n);
    }
  }
}
