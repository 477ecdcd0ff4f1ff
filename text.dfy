/** The Python string operations the driver applies to instrument replies:
    `lower()`, `in`, `strip()`, `split(sep)`, `[-1]`, `int()` and `str()` on integers. */
module Text {
  import opened Wrappers

  /** Python's `str.isspace()` on the Latin-1 range: tab to carriage return, the four
      information separators, space, next-line and no-break space. */
  predicate IsSpace(c: char) {
    (9 <= c as int <= 13) || (28 <= c as int <= 32) || c as int == 0x85 || c as int == 0xA0
  }

  predicate AllSpace(s: string) {
    forall i :: 0 <= i < |s| ==> IsSpace(s[i])
  }

  /** `str.lower()` on one character, for the ASCII letters. */
  function LowerChar(c: char): char {
    if 'A' <= c <= 'Z' then (c as int + 32) as char else c
  }

  function Lower(s: string): string {
    seq(|s|, i requires 0 <= i < |s| => LowerChar(s[i]))
  }

  /** `needle` occurs in `hay` starting at index `i`. */
  predicate OccursAt(hay: string, needle: string, i: int) {
    0 <= i && i + |needle| <= |hay| && hay[i..i + |needle|] == needle
  }

  /** Python's `needle in hay` on strings, scanning from the left. */
  predicate Contains(hay: string, needle: string)
    decreases |hay|
  {
    |needle| <= |hay| && (hay[..|needle|] == needle || Contains(hay[1..], needle))
  }

  /** The scan finds `needle` exactly when it occurs somewhere in `hay`. */
  lemma {:induction false} ContainsIff(hay: string, needle: string)
    ensures Contains(hay, needle) <==> exists i :: OccursAt(hay, needle, i)
    decreases |hay|
  {
    if |needle| <= |hay| {
      if hay[..|needle|] == needle {
        assert OccursAt(hay, needle, 0);
      } else {
        assert |hay| > 0;
        ContainsIff(hay[1..], needle);
        if Contains(hay[1..], needle) {
          var i :| OccursAt(hay[1..], needle, i);
          assert hay[i + 1..i + 1 + |needle|] == hay[1..][i..i + |needle|];
          assert OccursAt(hay, needle, i + 1);
        } else {
          forall i | OccursAt(hay, needle, i) ensures false {
            assert i != 0;
            assert hay[1..][i - 1..i - 1 + |needle|] == hay[i..i + |needle|];
            assert OccursAt(hay[1..], needle, i - 1);
          }
        }
      }
    }
  }

  /** Python's `s.lstrip()`: `s` without its leading whitespace. */
  function StripLeft(s: string): string
    decreases |s|
  {
    if |s| > 0 && IsSpace(s[0]) then StripLeft(s[1..]) else s
  }

  /** Python's `s.rstrip()`: `s` without its trailing whitespace. */
  function StripRight(s: string): string
    decreases |s|
  {
    if |s| > 0 && IsSpace(s[|s| - 1]) then StripRight(s[..|s| - 1]) else s
  }

  /** Python's `s.strip()`: whitespace removed from both ends. */
  function Strip(s: string): string {
    StripRight(StripLeft(s))
  }

  /** `lstrip()` removes whitespace only, and all of it: what is left is a tail of `s` that is
      empty or starts with a non-blank. */
  lemma {:induction false} StripLeftShape(s: string)
    ensures var r := StripLeft(s);
      && |r| <= |s| && s[|s| - |r|..] == r && AllSpace(s[..|s| - |r|])
      && (r == [] || !IsSpace(r[0]))
    decreases |s|
  {
    if |s| > 0 && IsSpace(s[0]) {
      StripLeftShape(s[1..]);
      var r := StripLeft(s);
      assert s[1..][|s| - 1 - |r|..] == s[|s| - |r|..];
      assert s[..|s| - |r|] == [s[0]] + s[1..][..|s| - 1 - |r|];
    }
  }

  /** `rstrip()` removes whitespace only, and all of it: what is left is a head of `s` that is
      empty or ends with a non-blank. */
  lemma {:induction false} StripRightShape(s: string)
    ensures var r := StripRight(s);
      && |r| <= |s| && s[..|r|] == r && AllSpace(s[|r|..])
      && (r == [] || !IsSpace(r[|r| - 1]))
    decreases |s|
  {
    if |s| > 0 && IsSpace(s[|s| - 1]) {
      var t := s[..|s| - 1];
      StripRightShape(t);
      var r := StripRight(s);
      assert t[..|r|] == s[..|r|];
      assert s[|r|..] == t[|r|..] + [s[|s| - 1]];
    }
  }

  /** `strip()` keeps the middle of `s`: a slice that neither starts nor ends with whitespace,
      with only whitespace cut on either side. */
  lemma StripShape(s: string)
    ensures var r := Strip(s); var lo := |s| - |StripLeft(s)|;
      && (r == [] || (!IsSpace(r[0]) && !IsSpace(r[|r| - 1])))
      && 0 <= lo && lo + |r| <= |s| && s[lo..lo + |r|] == r
      && AllSpace(s[..lo]) && AllSpace(s[lo + |r|..])
  {
    var t := StripLeft(s);
    StripLeftShape(s);
    StripRightShape(t);
    var r := Strip(s);
    var lo := |s| - |t|;
    if r != [] {
      assert r[0] == t[0];
    }
    assert s[lo..lo + |r|] == t[..|r|];
    assert s[lo + |r|..] == t[|r|..];
  }

  /** A string that neither starts nor ends with whitespace is left alone by `strip()`. */
  lemma StripUnchanged(s: string)
    requires s == [] || (!IsSpace(s[0]) && !IsSpace(s[|s| - 1]))
    ensures Strip(s) == s
  {
  }

  /** The words joined back together with `sep` between them: Python's `sep.join(words)`. */
  function Join(words: seq<string>, sep: char): string
    decreases |words|
  {
    if |words| == 0 then "" else if |words| == 1 then words[0] else words[0] + [sep] + Join(words[1..], sep)
  }

  /** Python's `s.split(sep)` with an explicit one-character separator: every separator
      ends a word, so adjacent separators give empty words and "" gives [""]. */
  function Split(s: string, sep: char): (words: seq<string>)
    ensures |words| >= 1
    decreases |s|
  {
    if s == [] then [""]
    else
      var rest := Split(s[1..], sep);
      if s[0] == sep then [""] + rest else [[s[0]] + rest[0]] + rest[1..]
  }

  /** The words hold no separator, and joining them with it gives back `s`. */
  lemma {:induction false} SplitShape(s: string, sep: char)
    ensures forall i :: 0 <= i < |Split(s, sep)| ==> sep !in Split(s, sep)[i]
    ensures Join(Split(s, sep), sep) == s
    decreases |s|
  {
    if s != [] {
      var rest := Split(s[1..], sep);
      SplitShape(s[1..], sep);
      if s[0] == sep {
        assert Join([""] + rest, sep) == [sep] + Join(rest, sep);
      } else {
        var words := [[s[0]] + rest[0]] + rest[1..];
        assert words[1..] == rest[1..];
        assert s == [s[0]] + s[1..];
        assert Split(s, sep) == words;
      }
    }
  }

  lemma {:induction false} SplitPrepend(w: string, t: string, sep: char)
    requires sep !in w
    ensures Split(w + t, sep) == [w + Split(t, sep)[0]] + Split(t, sep)[1..]
    decreases |w|
  {
    if w != [] {
      assert (w + t)[1..] == w[1..] + t;
      SplitPrepend(w[1..], t, sep);
      assert [w[0]] + (w[1..] + Split(t, sep)[0]) == w + Split(t, sep)[0];
    } else {
      var ws := Split(t, sep);
      assert w + t == t;
      assert w + ws[0] == ws[0];
      assert ws == [ws[0]] + ws[1..];
    }
  }

  /** Splitting undoes joining, for words that do not contain the separator. */
  lemma {:induction false} SplitOfJoin(words: seq<string>, sep: char)
    requires |words| >= 1
    requires forall i :: 0 <= i < |words| ==> sep !in words[i]
    ensures Split(Join(words, sep), sep) == words
    decreases |words|
  {
    if |words| == 1 {
      SplitPrepend(words[0], "", sep);
      assert words[0] + "" == words[0];
    } else {
      var tail := Join(words[1..], sep);
      SplitOfJoin(words[1..], sep);
      SplitPrepend(words[0], [sep] + tail, sep);
      assert words[0] + [sep] + tail == words[0] + ([sep] + tail);
      assert ([sep] + tail)[1..] == tail;
      assert Split([sep] + tail, sep) == [""] + words[1..];
      assert words[0] + "" == words[0];
      assert words == [words[0]] + words[1..];
    }
  }

  lemma {:induction false} JoinSnoc(words: seq<string>, w: string, sep: char)
    requires |words| >= 1
    ensures Join(words + [w], sep) == Join(words, sep) + [sep] + w
    decreases |words|
  {
    if |words| == 1 {
      assert words + [w] == [words[0], w];
      assert [w][1..] == [];
    } else {
      assert (words + [w])[1..] == words[1..] + [w];
      JoinSnoc(words[1..], w, sep);
    }
  }

  /** Python's `s.split(' ')[-1]`. */
  function LastToken(s: string): string {
    var words := Split(s, ' ');
    words[|words| - 1]
  }

  /** The last token is the longest tail of `s` without a space: all of `s`, or what follows its
      last space. */
  lemma LastTokenIsTail(s: string)
    ensures var t := LastToken(s);
      && ' ' !in t && |t| <= |s| && s[|s| - |t|..] == t
      && (|t| < |s| ==> s[|s| - |t| - 1] == ' ')
  {
    var words := Split(s, ' ');
    var n := |words|;
    var t := words[n - 1];
    SplitShape(s, ' ');
    assert ' ' !in words[n - 1];
    if n > 1 {
      var init := words[..n - 1];
      assert words == init + [t];
      JoinSnoc(init, t, ' ');
      var p := Join(init, ' ');
      assert s == p + [' '] + t;
      assert s[|p| + 1..] == t;
      assert s[|p|] == ' ';
    } else {
      assert words == [t];
      assert s == t;
    }
  }

  /** What follows the last space of `p + " " + t` is `t` itself, when `t` has no space. */
  lemma LastTokenAfterSpace(p: string, t: string)
    requires ' ' !in t
    ensures LastToken(p + " " + t) == t
  {
    var s := p + " " + t;
    var u := LastToken(s);
    LastTokenIsTail(s);
    assert forall k :: |s| - |u| <= k < |s| ==> s[k] == u[k - (|s| - |u|)];
    assert forall k :: |s| - |t| <= k < |s| ==> s[k] == t[k - (|s| - |t|)];
    assert s[|s| - |t| - 1] == ' ';
    assert s[|s| - |t|..] == t;
  }

  /** No whitespace anywhere in `w`. */
  predicate NoSpace(w: string) {
    forall k :: 0 <= k < |w| ==> !IsSpace(w[k])
  }

  /** Joining words without whitespace, with a separator that is not whitespace, gives a string
      without whitespace. */
  lemma {:induction false} JoinNoSpace(words: seq<string>, sep: char)
    requires !IsSpace(sep)
    requires forall i :: 0 <= i < |words| ==> NoSpace(words[i])
    ensures NoSpace(Join(words, sep))
    decreases |words|
  {
    if |words| > 1 {
      JoinNoSpace(words[1..], sep);
      var j := words[0] + [sep] + Join(words[1..], sep);
      forall k | 0 <= k < |j| ensures !IsSpace(j[k]) {
        if k < |words[0]| {
          assert j[k] == words[0][k];
        } else if k > |words[0]| {
          assert j[k] == Join(words[1..], sep)[k - |words[0]| - 1];
        }
      }
    }
  }

  predicate IsDigit(c: char) {
    '0' <= c <= '9'
  }

  /** Every character of `s` is a digit, checked from the right as `NumeralValue` reads them. */
  predicate AllDigits(s: string)
    decreases |s|
  {
    s == [] || (IsDigit(s[|s| - 1]) && AllDigits(s[..|s| - 1]))
  }

  lemma {:induction false} AllDigitsEach(s: string)
    requires AllDigits(s)
    ensures forall k :: 0 <= k < |s| ==> IsDigit(s[k])
    decreases |s|
  {
    if s != [] {
      var init := s[..|s| - 1];
      AllDigitsEach(init);
      assert forall k :: 0 <= k < |init| ==> s[k] == init[k];
    }
  }

  /** A non-empty run of ASCII digits. */
  predicate IsNumeral(s: string) {
    |s| > 0 && AllDigits(s)
  }

  function DigitValue(c: char): nat
    requires IsDigit(c)
  {
    c as int - '0' as int
  }

  /** The decimal value of a run of digits, read from the left. */
  function NumeralValue(s: string): nat
    requires AllDigits(s)
    decreases |s|
  {
    if s == [] then 0 else 10 * NumeralValue(s[..|s| - 1]) + DigitValue(s[|s| - 1])
  }

  /** Python's `int(s)` on a string: optional surrounding whitespace, an optional sign and
      at least one ASCII digit; anything else raises ValueError, here None. */
  function ParseInt(s: string): Option<int> {
    var t := Strip(s);
    if |t| > 0 && (t[0] == '-' || t[0] == '+') && IsNumeral(t[1..]) then
      Some(if t[0] == '-' then -(NumeralValue(t[1..]) as int) else NumeralValue(t[1..]))
    else if IsNumeral(t) then Some(NumeralValue(t))
    else None
  }

  function Digit(d: nat): (c: char)
    requires d < 10
    ensures IsDigit(c) && DigitValue(c) == d
  {
    ('0' as int + d) as char
  }

  /** Python's `str(n)` on a non-negative integer. */
  function NatToString(n: nat): string
    decreases n
  {
    if n < 10 then [Digit(n)] else NatToString(n / 10) + [Digit(n % 10)]
  }

  /** Python's `str(n)` on an integer. */
  function IntToString(n: int): string {
    if n < 0 then "-" + NatToString(-n) else NatToString(n)
  }

  /** A formatted integer holds no space, so it is always one token. */
  lemma IntToStringNoSpace(n: int)
    ensures ' ' !in IntToString(n)
  {
    var m: nat := if n < 0 then -n else n;
    NatToStringIsNumeral(m);
    var digits := NatToString(m);
    AllDigitsEach(digits);
    assert forall k :: 0 <= k < |digits| ==> digits[k] != ' ';
    assert IntToString(n) == if n < 0 then "-" + digits else digits;
  }

  lemma {:induction false} NatToStringIsNumeral(n: nat)
    ensures IsNumeral(NatToString(n)) && NumeralValue(NatToString(n)) == n
    decreases n
  {
    if n >= 10 {
      NatToStringIsNumeral(n / 10);
      var s := NatToString(n);
      assert s[..|s| - 1] == NatToString(n / 10);
    }
  }

  /** `int(str(n)) == n`: the commands the driver formats with `str` read back as the same integer. */
  lemma ParseIntOfIntToString(n: int)
    ensures ParseInt(IntToString(n)) == Some(n)
  {
    var m: nat := if n < 0 then -n else n;
    var digits := NatToString(m);
    NatToStringIsNumeral(m);
    var s := IntToString(n);
    assert s == if n < 0 then "-" + digits else digits;
    assert IsDigit(s[|s| - 1]) by {
      assert s[|s| - 1] == digits[|digits| - 1];
    }
    assert !IsSpace(s[0]) by {
      if n >= 0 {
        AllDigitsEach(digits);
        assert IsDigit(s[0]);
      }
    }
    StripUnchanged(s);
    if n < 0 {
      assert s[0] == '-' && s[1..] == digits;
    } else {
      AllDigitsEach(digits);
      assert IsDigit(s[0]);
      assert s[0] != '-' && s[0] != '+';
    }
  }
}
