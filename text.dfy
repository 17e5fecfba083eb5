/**
 * The string operations the command interpreter relies on, as MicroPython performs them:
 * str.split() with no separator, str.lower(), str.isnumeric(), int() on one token and
 * str() of an integer.  Only ASCII letters and digits are modelled.
 */
module Text {
  import opened Wrappers

  /** MicroPython's whitespace: the space and the control characters tab through carriage return. */
  predicate IsSpace(c: char) {
    c == ' ' || '\t' <= c <= '\r'
  }

  /** A non-empty run of non-whitespace characters: what str.split() returns pieces of. */
  predicate IsWord(w: string) {
    w != [] && forall i :: 0 <= i < |w| ==> !IsSpace(w[i])
  }

  predicate Blank(s: string) {
    forall i :: 0 <= i < |s| ==> IsSpace(s[i])
  }

  /** The length of the run of non-whitespace characters at the front of s. */
  function WordLength(s: string): (n: nat)
    ensures n <= |s|
    ensures forall i :: 0 <= i < n ==> !IsSpace(s[i])
    ensures n < |s| ==> IsSpace(s[n])
  {
    if s == [] || IsSpace(s[0]) then 0 else 1 + WordLength(s[1..])
  }

  /** str.split() with no separator: the maximal runs of non-whitespace characters, in order. */
  function Split(s: string): (words: seq<string>)
    ensures forall i :: 0 <= i < |words| ==> IsWord(words[i])
    ensures words == [] <==> Blank(s)
    decreases |s|
  {
    if s == [] then []
    else if IsSpace(s[0]) then
      var words := Split(s[1..]);
      assert Blank(s) <==> Blank(s[1..]) by {
        if Blank(s[1..]) {
          forall i | 0 <= i < |s| ensures IsSpace(s[i]) {
            if i > 0 { assert s[i] == s[1..][i - 1]; }
          }
        }
      }
      words
    else
      var n := WordLength(s);
      [s[..n]] + Split(s[n..])
  }

  /** The words joined by single spaces. */
  function Join(words: seq<string>): string {
    if words == [] then ""
    else if |words| == 1 then words[0]
    else words[0] + " " + Join(words[1..])
  }

  lemma {:induction false} WordLengthOfWord(w: string, rest: string)
    requires IsWord(w)
    requires rest == [] || IsSpace(rest[0])
    ensures WordLength(w + rest) == |w|
    decreases |w|
  {
    assert (w + rest)[0] == w[0];
    if |w| > 1 {
      assert (w + rest)[1..] == w[1..] + rest;
      WordLengthOfWord(w[1..], rest);
    } else {
      assert (w + rest)[1..] == rest;
    }
  }

  /** A word followed by a space and more text splits into the word and the split of the rest. */
  lemma SplitAfterWord(w: string, rest: string)
    requires IsWord(w)
    ensures Split(w + " " + rest) == [w] + Split(rest)
  {
    var s := w + " " + rest;
    WordLengthOfWord(w, " " + rest);
    assert s == w + (" " + rest);
    assert !IsSpace(s[0]);
    assert s[..|w|] == w;
    assert s[|w|..] == " " + rest;
    assert Split(s) == [w] + Split(" " + rest);
    assert (" " + rest)[1..] == rest;
  }

  /** A word ended by a newline splits into just that word. */
  lemma SplitWordLine(w: string)
    requires IsWord(w)
    ensures Split(w + "\n") == [w]
  {
    var s := w + "\n";
    WordLengthOfWord(w, "\n");
    assert !IsSpace(s[0]);
    assert s[..|w|] == w;
    assert s[|w|..] == "\n";
    assert Split("\n") == Split("\n"[1..]);
  }

  /** Two words separated by a space and ended by a newline split into those two words. */
  lemma SplitTwoWordLine(verb: string, arg: string)
    requires IsWord(verb) && IsWord(arg)
    ensures Split(verb + " " + arg + "\n") == [verb, arg]
  {
    assert verb + " " + arg + "\n" == verb + " " + (arg + "\n");
    SplitAfterWord(verb, arg + "\n");
    SplitWordLine(arg);
  }

  /** Splitting words joined by spaces gives the words back. */
  lemma {:induction false} SplitJoin(words: seq<string>)
    requires forall i :: 0 <= i < |words| ==> IsWord(words[i])
    ensures Split(Join(words)) == words
    decreases |words|
  {
    if words == [] {
    } else if |words| == 1 {
      var w := words[0];
      WordLengthOfWord(w, "");
      assert w + "" == w;
      assert w[..|w|] == w;
      assert Split(w) == [w] + Split(w[|w|..]);
    } else {
      SplitAfterWord(words[0], Join(words[1..]));
      SplitJoin(words[1..]);
      assert words == [words[0]] + words[1..];
    }
  }

  /** The words laid out with the text after each one: gaps[i] follows words[i]. */
  function Layout(words: seq<string>, gaps: seq<string>): string
    requires |gaps| == |words|
  {
    if words == [] then "" else words[0] + gaps[0] + Layout(words[1..], gaps[1..])
  }

  /** Whitespace between the words, at least one character of it, and any whitespace after the last. */
  predicate Separators(gaps: seq<string>) {
    forall i :: 0 <= i < |gaps| ==> Blank(gaps[i]) && (i < |gaps| - 1 ==> gaps[i] != [])
  }

  /** Leading whitespace is dropped. */
  lemma {:induction false} SplitBlankPrefix(pre: string, s: string)
    requires Blank(pre)
    ensures Split(pre + s) == Split(s)
    decreases |pre|
  {
    if pre == [] {
      assert pre + s == s;
    } else {
      assert Blank(pre[1..]) by {
        forall i | 0 <= i < |pre[1..]| ensures IsSpace(pre[1..][i]) {
          assert pre[1..][i] == pre[i + 1];
        }
      }
      assert IsSpace((pre + s)[0]);
      assert (pre + s)[1..] == pre[1..] + s;
      SplitBlankPrefix(pre[1..], s);
    }
  }

  /** A word followed by whitespace splits into the word and the split of what follows. */
  lemma SplitWordGap(w: string, gap: string, rest: string)
    requires IsWord(w) && Blank(gap)
    requires gap != [] || rest == []
    ensures Split(w + gap + rest) == [w] + Split(rest)
  {
    var s := w + gap + rest;
    WordLengthOfWord(w, gap + rest);
    assert s == w + (gap + rest);
    assert !IsSpace(s[0]);
    assert s[..|w|] == w;
    assert s[|w|..] == gap + rest;
    SplitBlankPrefix(gap, rest);
  }

  lemma SeparatorsTail(gaps: seq<string>)
    requires gaps != [] && Separators(gaps)
    ensures Separators(gaps[1..])
  {
    forall i | 0 <= i < |gaps[1..]| ensures Blank(gaps[1..][i]) && (i < |gaps[1..]| - 1 ==> gaps[1..][i] != []) {
      assert gaps[1..][i] == gaps[i + 1];
    }
  }

  /**
   * str.split() of a line as a client sends it: whatever whitespace comes before, between and
   * after the words (runs of spaces and tabs, a closing "\r\n"), the words come back in order.
   */
  lemma {:induction false} SplitLayout(pre: string, words: seq<string>, gaps: seq<string>)
    requires Blank(pre)
    requires forall i :: 0 <= i < |words| ==> IsWord(words[i])
    requires |gaps| == |words| && Separators(gaps)
    ensures Split(pre + Layout(words, gaps)) == words
    decreases |words|
  {
    SplitBlankPrefix(pre, Layout(words, gaps));
    if words != [] {
      var rest := Layout(words[1..], gaps[1..]);
      SeparatorsTail(gaps);
      SplitLayout("", words[1..], gaps[1..]);
      assert "" + rest == rest;
      assert gaps[0] == [] ==> rest == "" by {
        if gaps[0] == [] { assert |gaps| == 1; }
      }
      SplitWordGap(words[0], gaps[0], rest);
      assert words == [words[0]] + words[1..];
    }
  }

  /** str.lower() on one character; only the ASCII capitals change. */
  function LowerChar(c: char): (l: char)
    ensures 'A' <= c <= 'Z' ==> 'a' <= l <= 'z' && l as int == c as int + 32
    ensures !('A' <= c <= 'Z') ==> l == c
  {
    if 'A' <= c <= 'Z' then (c as int + 32) as char else c
  }

  /** str.lower(): each character lowered in place. */
  function Lower(s: string): (r: string)
    ensures |r| == |s|
    ensures forall i :: 0 <= i < |s| ==> r[i] == LowerChar(s[i])
  {
    if s == [] then [] else [LowerChar(s[0])] + Lower(s[1..])
  }

  /** Lowering twice is lowering once. */
  lemma LowerIdempotent(s: string)
    ensures Lower(Lower(s)) == Lower(s)
  {
    assert forall i :: 0 <= i < |s| ==> LowerChar(LowerChar(s[i])) == LowerChar(s[i]);
  }

  predicate IsDigit(c: char) {
    '0' <= c <= '9'
  }

  /** str.isnumeric(), restricted to ASCII: a non-empty run of decimal digits. */
  predicate IsNumeric(s: string) {
    s != [] && forall i :: 0 <= i < |s| ==> IsDigit(s[i])
  }

  /** The value of a run of decimal digits, most significant first. */
  function DigitsValue(s: string): nat
    requires forall i :: 0 <= i < |s| ==> IsDigit(s[i])
    decreases |s|
  {
    if s == [] then 0
    else
      assert IsDigit(s[|s| - 1]);
      DigitsValue(s[..|s| - 1]) * 10 + (s[|s| - 1] as int - '0' as int)
  }

  function DigitChar(d: nat): (c: char)
    requires d < 10
    ensures IsDigit(c) && c as int - '0' as int == d
  {
    ('0' as int + d) as char
  }

  /** str() of a natural number: its decimal digits without leading zeros. */
  function NatToString(n: nat): (s: string)
    ensures IsNumeric(s)
    ensures s[0] != '0' || n == 0
  {
    if n < 10 then [DigitChar(n)] else NatToString(n / 10) + [DigitChar(n % 10)]
  }

  /** str() of an integer: a minus sign before the digits of a negative number. */
  function IntToString(n: int): (s: string)
    ensures n >= 0 ==> IsNumeric(s)
    ensures n < 0 ==> |s| > 1 && s[0] == '-' && IsNumeric(s[1..])
  {
    if n < 0 then "-" + NatToString(-n) else NatToString(n)
  }

  /** int() on one token: an optional sign followed by decimal digits; anything else raises. */
  function ParseInt(s: string): (r: Option<int>)
    ensures IsNumeric(s) ==> r == Some(DigitsValue(s))
    ensures |s| > 1 && (s[0] == '-' || s[0] == '+') && IsNumeric(s[1..]) ==>
      r == Some(if s[0] == '-' then 0 - DigitsValue(s[1..]) else DigitsValue(s[1..]))
    ensures r.Some? ==> IsNumeric(s) || (|s| > 1 && (s[0] == '-' || s[0] == '+') && IsNumeric(s[1..]))
  {
    if |s| > 1 && s[0] == '-' && IsNumeric(s[1..]) then Some(0 - DigitsValue(s[1..]))
    else if |s| > 1 && s[0] == '+' && IsNumeric(s[1..]) then Some(DigitsValue(s[1..]))
    else if IsNumeric(s) then Some(DigitsValue(s))
    else None
  }

  lemma {:induction false} NatToStringValue(n: nat)
    ensures DigitsValue(NatToString(n)) == n
    decreases n
  {
    var s := NatToString(n);
    if n >= 10 {
      NatToStringValue(n / 10);
      assert s[..|s| - 1] == NatToString(n / 10);
    } else {
      assert s[..|s| - 1] == [];
    }
  }

  /** int(str(n)) == n: the integers the interpreter prints read back as themselves. */
  lemma ParseIntToString(n: int)
    ensures ParseInt(IntToString(n)) == Some(n)
  {
    if n < 0 {
      var digits := NatToString(-n);
      NatToStringValue(-n);
      assert ("-" + digits)[1..] == digits;
    } else {
      NatToStringValue(n);
    }
  }
}
