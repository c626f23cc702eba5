/** ASCII approximations of the Python string operations the scorers and
    steps use: `str.lower`, `str.strip`, `str.split()`, `in` on strings, and
    the regular-expression tokenisers, which are modelled as "maximal runs of
    characters of one class". */
module Text {
  import opened Common

  /** `str.isspace()` on ASCII: tab, line feed, vertical tab, form feed,
      carriage return, the four separator controls 0x1C-0x1F, and space. */
  predicate IsSpace(c: char) {
    var n := c as int;
    (9 <= n <= 13) || (28 <= n <= 32)
  }

  predicate IsUpper(c: char) { 'A' <= c <= 'Z' }
  predicate IsLowerLetter(c: char) { 'a' <= c <= 'z' }
  predicate IsDigit(c: char) { '0' <= c <= '9' }

  /** The regex class `\w` restricted to ASCII. */
  predicate IsWordChar(c: char) {
    IsUpper(c) || IsLowerLetter(c) || IsDigit(c) || c == '_'
  }

  function LowerChar(c: char): (r: char)
    ensures IsUpper(c) ==> IsLowerLetter(r)
    ensures !IsUpper(c) ==> r == c
  {
    if IsUpper(c) then (c as int + 32) as char else c
  }

  /** `str.lower()` on ASCII. */
  function Lower(s: string): (r: string)
    ensures |r| == |s|
    ensures forall i :: 0 <= i < |s| ==> r[i] == LowerChar(s[i])
  {
    seq(|s|, i requires 0 <= i < |s| => LowerChar(s[i]))
  }

  /** Number of leading characters of `s` that satisfy `p`. */
  function RunLen(s: string, p: char -> bool): (n: nat)
    ensures n <= |s|
    ensures forall i :: 0 <= i < n ==> p(s[i])
    ensures n < |s| ==> !p(s[n])
  {
    if s == [] || !p(s[0]) then 0 else 1 + RunLen(s[1..], p)
  }

  /** The maximal non-empty runs of characters satisfying `p`, left to right. */
  function Runs(s: string, p: char -> bool): (r: seq<string>)
    ensures forall k :: 0 <= k < |r| ==> r[k] != []
    ensures forall k, i :: 0 <= k < |r| && 0 <= i < |r[k]| ==> p(r[k][i])
    decreases |s|
  {
    if s == [] then []
    else if !p(s[0]) then Runs(s[1..], p)
    else
      var n := RunLen(s, p);
      [s[..n]] + Runs(s[n..], p)
  }

  predicate NotSpace(c: char) { !IsSpace(c) }

  /** `str.split()` with no argument: the maximal runs of non-whitespace. */
  function Split(s: string): (r: seq<string>)
    ensures forall k :: 0 <= k < |r| ==> r[k] != []
    ensures forall k, i :: 0 <= k < |r| && 0 <= i < |r[k]| ==> !IsSpace(r[k][i])
  {
    Runs(s, NotSpace)
  }

  /** `re.split("[C]+", s)` for a character class `sep`: the pieces between
      maximal runs of separators, empty pieces included. */
  function Pieces(s: string, sep: char -> bool): (r: seq<string>)
    ensures |r| >= 1
    ensures forall k, i :: 0 <= k < |r| && 0 <= i < |r[k]| ==> !sep(r[k][i])
    decreases |s|
  {
    var n := RunLen(s, c => !sep(c));
    if n == |s| then [s]
    else
      assert sep(s[n]);
      var m := n + RunLen(s[n..], sep);
      [s[..n]] + Pieces(s[m..], sep)
  }

  /** Leading whitespace removed. */
  function LStrip(s: string): (r: string)
    ensures |r| <= |s|
  {
    if s == [] || !IsSpace(s[0]) then s else LStrip(s[1..])
  }

  /** `LStrip` drops exactly the leading whitespace: what it keeps is a
      suffix that does not start with a space, and what it drops is all
      space. */
  lemma {:induction false} LStripDropsLeadingSpace(s: string)
    ensures var r := LStrip(s);
      && r == s[|s| - |r|..]
      && (r != [] ==> !IsSpace(r[0]))
      && forall i :: 0 <= i < |s| - |r| ==> IsSpace(s[i])
  {
    if s != [] && IsSpace(s[0]) {
      LStripDropsLeadingSpace(s[1..]);
      var r := LStrip(s);
      forall i | 0 <= i < |s| - |r| ensures IsSpace(s[i]) {
        if i > 0 { assert s[i] == s[1..][i - 1]; }
      }
    }
  }

  /** Trailing whitespace removed. */
  function RStrip(s: string): (r: string)
    ensures |r| <= |s|
  {
    if s == [] || !IsSpace(s[|s| - 1]) then s else RStrip(s[..|s| - 1])
  }

  /** `RStrip` drops exactly the trailing whitespace. */
  lemma {:induction false} RStripDropsTrailingSpace(s: string)
    ensures var r := RStrip(s);
      && r == s[..|r|]
      && (r != [] ==> !IsSpace(r[|r| - 1]))
      && forall i :: |r| <= i < |s| ==> IsSpace(s[i])
  {
    if s != [] && IsSpace(s[|s| - 1]) {
      var init := s[..|s| - 1];
      RStripDropsTrailingSpace(init);
      var r := RStrip(s);
      assert r == RStrip(init);
      assert r == init[..|r|] == s[..|r|];
      forall i | |r| <= i < |s| ensures IsSpace(s[i]) {
        if i < |s| - 1 { assert s[i] == init[i]; }
      }
    }
  }

  /** `str.strip()` with no argument. */
  function Strip(s: string): (r: string)
    ensures |r| <= |s|
  {
    RStrip(LStrip(s))
  }

  /** A stripped string neither starts nor ends with whitespace. */
  lemma StripEnds(s: string)
    ensures var r := Strip(s);
      r != [] ==> !IsSpace(r[0]) && !IsSpace(r[|r| - 1])
  {
    var l := LStrip(s);
    LStripDropsLeadingSpace(s);
    RStripDropsTrailingSpace(l);
    var r := RStrip(l);
    if r != [] {
      assert r[0] == l[0];
    }
  }

  /** The sentence terminators of the pattern `[.!?]+`. */
  predicate IsTerminal(c: char) { c == '.' || c == '!' || c == '?' }

  /** Stripped pieces, blank ones dropped. */
  function NonBlank(pieces: seq<string>): (r: seq<string>)
    ensures |r| <= |pieces|
  {
    if pieces == [] then []
    else
      var head := Strip(pieces[0]);
      if head != [] then [head] + NonBlank(pieces[1..]) else NonBlank(pieces[1..])
  }

  /** `[s.strip() for s in re.split(r"[.!?]+", text.strip()) if s.strip()]` */
  function Sentences(text: string): seq<string> {
    NonBlank(Pieces(Strip(text), IsTerminal))
  }

  /** `needle in hay` for Python strings. */
  predicate Contains(hay: string, needle: string)
    decreases |hay|
  {
    needle <= hay || (hay != [] && Contains(hay[1..], needle))
  }

  /** `hay.endswith(suffix)`. */
  predicate EndsWith(hay: string, suffix: string) {
    |suffix| <= |hay| && hay[|hay| - |suffix|..] == suffix
  }

  /** `sep.join(parts)`. */
  function Join(parts: seq<string>, sep: string): (r: string)
    decreases |parts|
  {
    if parts == [] then ""
    else if |parts| == 1 then parts[0]
    else parts[0] + sep + Join(parts[1..], sep)
  }

  /** Number of elements of `s` that belong to `lexicon`
      (`sum(1 for w in s if w in lexicon)`). */
  function CountIn(s: seq<string>, lexicon: set<string>): (n: nat)
    ensures n <= |s|
  {
    if s == [] then 0
    else CountIn(s[..|s| - 1], lexicon) + (if s[|s| - 1] in lexicon then 1 else 0)
  }

  /** Number of elements of `s` outside `lexicon`
      (`sum(1 for w in s if w not in lexicon)`). */
  function CountNotIn(s: seq<string>, lexicon: set<string>): (n: nat)
    ensures n == |s| - CountIn(s, lexicon)
  {
    if s == [] then 0
    else CountNotIn(s[..|s| - 1], lexicon) + (if s[|s| - 1] !in lexicon then 1 else 0)
  }

  /** Number of characters of `s` satisfying `p`. */
  function CountChars(s: string, p: char -> bool): (n: nat)
    ensures n <= |s|
  {
    if s == [] then 0
    else CountChars(s[..|s| - 1], p) + (if p(s[|s| - 1]) then 1 else 0)
  }

  /** The set of distinct elements, `set(s)`. */
  function Distinct(s: seq<string>): set<string> {
    set w | w in s
  }

  lemma {:induction false} DistinctBound(s: seq<string>)
    ensures |Distinct(s)| <= |s|
    ensures s != [] ==> |Distinct(s)| >= 1
  {
    if s != [] {
      var init := s[..|s| - 1];
      DistinctBound(init);
      assert Distinct(s) == Distinct(init) + {s[|s| - 1]} by {
        forall w ensures w in Distinct(s) <==> w in Distinct(init) + {s[|s| - 1]} {
          if w in s {
            var i :| 0 <= i < |s| && s[i] == w;
            if i < |s| - 1 { assert init[i] == w; }
          }
          if w in init {
            var i :| 0 <= i < |init| && init[i] == w;
            assert s[i] == w;
          }
        }
      }
      assert s[|s| - 1] in Distinct(s);
    }
  }

  lemma {:induction false} CountInMonotoneLexicon(s: seq<string>, small: set<string>, big: set<string>)
    requires small <= big
    ensures CountIn(s, small) <= CountIn(s, big)
  {
    if s != [] { CountInMonotoneLexicon(s[..|s| - 1], small, big); }
  }

  /** Removing from the lexicon a word that occurs nowhere in `s` does not
      change the count. */
  lemma {:induction false} CountInIgnoresAbsent(s: seq<string>, lexicon: set<string>, w: string)
    requires forall k :: 0 <= k < |s| ==> s[k] != w
    ensures CountIn(s, lexicon) == CountIn(s, lexicon - {w})
  {
    if s != [] { CountInIgnoresAbsent(s[..|s| - 1], lexicon, w); }
  }

  // ------------------------------------------------ decimal integers

  function DigitChar(d: nat): (c: char)
    requires d < 10
    ensures IsDigit(c)
  {
    ('0' as int + d) as char
  }

  function DigitValue(c: char): (d: nat)
    requires IsDigit(c)
    ensures d < 10
  {
    c as int - '0' as int
  }

  /** `str(n)` for a non-negative integer: its decimal digits. */
  function NatToString(n: nat): (s: string)
    ensures s != []
    ensures forall i :: 0 <= i < |s| ==> IsDigit(s[i])
  {
    if n < 10 then [DigitChar(n)] else NatToString(n / 10) + [DigitChar(n % 10)]
  }

  predicate AllDigits(s: string) {
    forall i :: 0 <= i < |s| ==> IsDigit(s[i])
  }

  /** The value of a string of decimal digits. */
  function DigitsValue(s: string): nat
    requires AllDigits(s)
  {
    if s == [] then 0 else DigitsValue(s[..|s| - 1]) * 10 + DigitValue(s[|s| - 1])
  }

  /** `int(s)` on a string: surrounding whitespace, an optional sign and at
      least one decimal digit; anything else raises `ValueError` (`None`). */
  function ParseInt(s: string): (r: Option<int>)
  {
    var t := Strip(s);
    if t == [] then None
    else if t[0] == '-' || t[0] == '+' then
      var digits := t[1..];
      if digits != [] && AllDigits(digits) then
        Some(if t[0] == '-' then -(DigitsValue(digits) as int) else DigitsValue(digits) as int)
      else None
    else if AllDigits(t) then Some(DigitsValue(t) as int)
    else None
  }

  /** Decimal rendering is one-to-one, so ids built from distinct counters
      never collide. */
  lemma {:induction false} NatToStringInjective(a: nat, b: nat)
    requires NatToString(a) == NatToString(b)
    ensures a == b
  {
    var s := NatToString(a);
    if a >= 10 && b >= 10 {
      var sa := NatToString(a / 10);
      var sb := NatToString(b / 10);
      assert s[..|s| - 1] == sa;
      assert NatToString(b)[..|s| - 1] == sb;
      NatToStringInjective(a / 10, b / 10);
      assert DigitValue(s[|s| - 1]) == a % 10 == b % 10;
    } else if a < 10 && b < 10 {
      assert DigitValue(s[0]) == a == b;
    }
  }

  lemma {:induction false} DigitsValueOfNatToString(n: nat)
    ensures DigitsValue(NatToString(n)) == n
  {
    var s := NatToString(n);
    if n >= 10 {
      DigitsValueOfNatToString(n / 10);
      assert s[..|s| - 1] == NatToString(n / 10);
    }
  }

  /** `int(str(n)) == n`. */
  lemma ParseIntOfNatToString(n: nat)
    ensures ParseInt(NatToString(n)) == Some(n)
  {
    var s := NatToString(n);
    assert LStrip(s) == s;
    assert RStrip(s) == s;
    DigitsValueOfNatToString(n);
  }

  /** A needle found in a string is found in any string around it. */
  lemma {:induction false} ContainsInfix(a: string, b: string, c: string, needle: string)
    requires Contains(b, needle)
    ensures Contains(a + b + c, needle)
    decreases |a|
  {
    if a == [] {
      ContainsExtendRight(b, c, needle);
      assert a + b + c == b + c;
    } else {
      ContainsInfix(a[1..], b, c, needle);
      assert (a + b + c)[1..] == a[1..] + b + c;
    }
  }

  lemma {:induction false} ContainsExtendRight(b: string, c: string, needle: string)
    requires Contains(b, needle)
    ensures Contains(b + c, needle)
    decreases |b|
  {
    if needle <= b {
      assert (b + c)[..|needle|] == b[..|needle|];
    } else {
      ContainsExtendRight(b[1..], c, needle);
      assert (b + c)[1..] == b[1..] + c;
    }
  }

  /** Each part sits inside the joined string. */
  lemma {:induction false} JoinInfix(parts: seq<string>, sep: string, i: nat) returns (before: string, after: string)
    requires i < |parts|
    ensures Join(parts, sep) == before + parts[i] + after
    decreases |parts|
  {
    if |parts| == 1 {
      before, after := "", "";
    } else if i == 0 {
      before, after := "", sep + Join(parts[1..], sep);
    } else {
      var b, a := JoinInfix(parts[1..], sep, i - 1);
      before, after := parts[0] + sep + b, a;
    }
  }

  /** Lower-casing distributes over concatenation. */
  lemma LowerConcat(a: string, b: string)
    ensures Lower(a + b) == Lower(a) + Lower(b)
  {
  }

  /** A needle found in one lower-cased part is found in the lower-cased
      joined string. */
  lemma JoinedLowerContains(parts: seq<string>, sep: string, i: nat, needle: string)
    requires i < |parts| && Contains(Lower(parts[i]), needle)
    ensures Contains(Lower(Join(parts, sep)), needle)
  {
    var before, after := JoinInfix(parts, sep, i);
    LowerConcat(before + parts[i], after);
    LowerConcat(before, parts[i]);
    ContainsInfix(Lower(before), Lower(parts[i]), Lower(after), needle);
  }

  /** Containment is transitive. */
  lemma {:induction false} ContainsWithin(hay: string, mid: string, needle: string)
    requires Contains(hay, mid) && Contains(mid, needle)
    ensures Contains(hay, needle)
    decreases |hay|
  {
    if mid <= hay {
      ContainsExtendRight(mid, hay[|mid|..], needle);
      assert mid + hay[|mid|..] == hay;
    } else {
      ContainsWithin(hay[1..], mid, needle);
    }
  }

  /** A needle with a character the haystack lacks is not in it. */
  lemma {:induction false} MissingCharNotContained(hay: string, needle: string, c: char)
    requires c in needle && c !in hay
    ensures !Contains(hay, needle)
    decreases |hay|
  {
    var i :| 0 <= i < |needle| && needle[i] == c;
    if i < |hay| {
      assert hay[i] != needle[i];
    }
    if hay != [] {
      MissingCharNotContained(hay[1..], needle, c);
    }
  }
}
