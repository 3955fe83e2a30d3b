/**
 * Statement text as the two query helpers build it, and two ways of reading it back:
 * its whitespace-separated words, and the `$n` placeholders
 * that the values of a parameterised statement are bound to.
 */
module SqlText {
  import opened Chars

  /** One call of `connection.query`: the statement text and the values bound to `$1`, `$2`, ... */
  datatype Statement = Statement(text: string, values: seq<string>)

  predicate IsSpace(c: char) { c == ' ' || c == '\t' || c == '\n' || c == '\r' }

  predicate IsWordChar(c: char) { !IsSpace(c) }

  predicate IsBlank(s: string) { forall i :: 0 <= i < |s| ==> IsSpace(s[i]) }

  /** A non-empty run of characters with no whitespace in it. */
  predicate IsWord(w: string) { w != [] && forall i :: 0 <= i < |w| ==> IsWordChar(w[i]) }

  /** What opens each line of the query templates: a line break and 16 spaces of indentation. */
  const LineStart: string := "\n                "

  /** What closes the query templates: a line break and 12 spaces before the closing backquote. */
  const Closing: string := "\n            "

  /**
   * A multi-line template literal whose lines are `lines`: every line is written on a line of
   * its own after the template's indentation, and the literal ends with the closing indentation.
   */
  function Template(lines: seq<string>): (r: string)
    ensures |r| > 0 && r[0] == '\n'
  {
    if lines == [] then Closing else LineStart + lines[0] + Template(lines[1..])
  }

  /** The two kinds of character runs the readings scan for. */
  datatype CharClass = WordChars | Digits

  predicate InClass(p: CharClass, c: char)
  {
    match p
    case WordChars => IsWordChar(c)
    case Digits => IsDigit(c)
  }

  /** Length of the longest prefix of `s` whose characters are all of class `p`. */
  function Run(s: string, p: CharClass): (n: nat)
    ensures n <= |s|
  {
    if s == [] || !InClass(p, s[0]) then 0 else 1 + Run(s[1..], p)
  }

  /** The run is the longest prefix of characters satisfying p. */
  lemma {:induction false} RunIsLongest(s: string, p: CharClass)
    ensures forall i :: 0 <= i < Run(s, p) ==> InClass(p, s[i])
    ensures Run(s, p) < |s| ==> !InClass(p, s[Run(s, p)])
  {
    if s != [] && InClass(p, s[0]) {
      RunIsLongest(s[1..], p);
      assert forall i :: 1 <= i < Run(s, p) ==> s[i] == s[1..][i - 1];
    }
  }

  /** The words of `s`: its maximal runs of non-whitespace characters, in order. */
  function Words(s: string): seq<string>
    decreases |s|
  {
    if s == [] then []
    else if IsSpace(s[0]) then Words(s[1..])
    else
      var n := Run(s, WordChars);
      [s[..n]] + Words(s[n..])
  }

  /** Value of a decimal digit. */
  function DigitValue(c: char): (v: nat)
    ensures IsDigit(c) ==> v == c as int - '0' as int
  {
    if IsDigit(c) then c as int - '0' as int else 0
  }

  /** Value of a string of decimal digits. */
  function Decimal(d: string): nat
  {
    if d == [] then 0 else 10 * Decimal(d[..|d| - 1]) + DigitValue(d[|d| - 1])
  }

  /** The digit strings n of the `$n` placeholders of `s`, in the order they occur. */
  function PlaceholderDigits(s: string): seq<string>
    decreases |s|
  {
    if s == [] then []
    else if s[0] == '$' && Run(s[1..], Digits) > 0 then
      var n := Run(s[1..], Digits);
      [s[1..n + 1]] + PlaceholderDigits(s[n + 1..])
    else PlaceholderDigits(s[1..])
  }

  /** The values of a sequence of digit strings. */
  function Numbers(ds: seq<string>): seq<nat>
  {
    if ds == [] then [] else [Decimal(ds[0])] + Numbers(ds[1..])
  }

  /** The numbers n of the `$n` placeholders of `s`, in the order they occur. */
  function Placeholders(s: string): seq<nat>
  {
    Numbers(PlaceholderDigits(s))
  }

  /** The numbers 1, 2, ..., n. */
  function OneTo(n: nat): (r: seq<nat>)
    ensures |r| == n && forall i :: 0 <= i < n ==> r[i] == i + 1
  {
    if n == 0 then [] else OneTo(n - 1) + [n]
  }

  lemma {:induction false} RunConcat(x: string, y: string, p: CharClass)
    ensures Run(x + y, p) == if Run(x, p) < |x| then Run(x, p) else |x| + Run(y, p)
  {
    if x == [] {
      assert x + y == y;
    } else if InClass(p, x[0]) {
      assert (x + y)[1..] == x[1..] + y;
      RunConcat(x[1..], y, p);
    }
  }

  /** Whitespace in front of a text contributes no word. */
  lemma {:induction false} WordsAfterBlank(w: string, x: string)
    requires IsBlank(w)
    ensures Words(w + x) == Words(x)
  {
    if w == [] {
      assert w + x == x;
    } else {
      assert (w + x)[0] == w[0] && IsSpace(w[0]);
      assert (w + x)[1..] == w[1..] + x;
      assert Words(w + x) == Words((w + x)[1..]);
      WordsAfterBlank(w[1..], x);
    }
  }

  /** A word followed by whitespace (or by nothing) is read as that one word. */
  lemma WordsCons(w: string, x: string)
    requires IsWord(w)
    requires x == [] || IsSpace(x[0])
    ensures Words(w + x) == [w] + Words(x)
  {
    RunConcat(w, x, WordChars);
    RunIsLongest(w, WordChars);
    assert Run(w, WordChars) == |w|;
    assert (w + x)[..|w|] == w;
    assert (w + x)[|w|..] == x;
  }

  /** A word, one space, then a text: the word, then the words of the text. */
  lemma WordThenText(w: string, x: string)
    requires IsWord(w)
    ensures Words(w + " " + x) == [w] + Words(x)
  {
    assert w + " " + x == w + (" " + x);
    WordsCons(w, " " + x);
    WordsAfterBlank(" ", x);
  }

  /** Two words, each followed by one space, then a text. */
  lemma TwoWordsThenText(v: string, w: string, x: string)
    requires IsWord(v) && IsWord(w)
    ensures Words(v + " " + w + " " + x) == [v, w] + Words(x)
  {
    assert v + " " + w + " " + x == v + " " + (w + " " + x);
    WordThenText(v, w + " " + x);
    WordThenText(w, x);
  }

  /** Words of a text split where whitespace begins: no word spans the cut. */
  lemma {:induction false} WordsConcat(a: string, b: string)
    requires b == [] || IsSpace(b[0])
    ensures Words(a + b) == Words(a) + Words(b)
    decreases |a|
  {
    if a == [] {
      assert a + b == b;
    } else if IsSpace(a[0]) {
      assert (a + b)[1..] == a[1..] + b;
      WordsConcat(a[1..], b);
    } else {
      var k := Run(a, WordChars);
      RunConcat(a, b, WordChars);
      RunIsLongest(b, WordChars);
      if k < |a| {
        assert (a + b)[..k] == a[..k];
        assert (a + b)[k..] == a[k..] + b;
        WordsConcat(a[k..], b);
      } else {
        assert Run(b, WordChars) == 0;
        assert (a + b)[..k] == a == a[..k];
        assert (a + b)[k..] == b;
        assert a[k..] == [];
        assert Words(a) == [a];
      }
    }
  }

  lemma {:induction false} NumbersConcat(x: seq<string>, y: seq<string>)
    ensures Numbers(x + y) == Numbers(x) + Numbers(y)
  {
    if x == [] {
      assert x + y == y;
    } else {
      assert (x + y)[0] == x[0] && (x + y)[1..] == x[1..] + y;
      NumbersConcat(x[1..], y);
    }
  }

  /** Characters in front of a text that include no `$` contribute no placeholder. */
  lemma {:induction false} DigitsAfterPlain(w: string, x: string)
    requires forall i :: 0 <= i < |w| ==> w[i] != '$'
    ensures PlaceholderDigits(w + x) == PlaceholderDigits(x)
  {
    if w == [] {
      assert w + x == x;
    } else {
      assert (w + x)[0] == w[0] != '$';
      assert (w + x)[1..] == w[1..] + x;
      assert PlaceholderDigits(w + x) == PlaceholderDigits((w + x)[1..]);
      DigitsAfterPlain(w[1..], x);
    }
  }

  lemma PlaceholdersAfterPlain(w: string, x: string)
    requires forall i :: 0 <= i < |w| ==> w[i] != '$'
    ensures Placeholders(w + x) == Placeholders(x)
  {
    DigitsAfterPlain(w, x);
  }

  /** A placeholder at the start of `a` ends inside `a` when `b` does not start with a digit. */
  lemma PlaceholderBeforeCut(a: string, b: string)
    requires a != [] && a[0] == '$' && Run(a[1..], Digits) > 0
    requires b == [] || !IsDigit(b[0])
    ensures var k := Run(a[1..], Digits);
      PlaceholderDigits(a + b) == [a[1..k + 1]] + PlaceholderDigits(a[k + 1..] + b)
  {
    var t, k := a + b, Run(a[1..], Digits);
    assert t[1..] == a[1..] + b;
    RunConcat(a[1..], b, Digits);
    assert Run(t[1..], Digits) == k;
    assert t[1..k + 1] == a[1..k + 1];
    assert t[k + 1..] == a[k + 1..] + b;
  }

  /** A first character of `a` that starts no placeholder is skipped alike in `a + b`. */
  lemma NoPlaceholderBeforeCut(a: string, b: string)
    requires a != [] && !(a[0] == '$' && Run(a[1..], Digits) > 0)
    requires b == [] || !IsDigit(b[0])
    ensures PlaceholderDigits(a + b) == PlaceholderDigits(a[1..] + b)
  {
    var t := a + b;
    assert t[1..] == a[1..] + b;
    RunConcat(a[1..], b, Digits);
    assert Run(t[1..], Digits) == Run(a[1..], Digits);
  }

  /** Placeholders of a text split where a non-digit begins: no placeholder spans the cut. */
  lemma {:induction false} DigitsConcat(a: string, b: string)
    requires b == [] || !IsDigit(b[0])
    ensures PlaceholderDigits(a + b) == PlaceholderDigits(a) + PlaceholderDigits(b)
    decreases |a|, 1
  {
    if a == [] {
      assert a + b == b;
    } else if a[0] == '$' && Run(a[1..], Digits) > 0 {
      DigitsConcatAfterPlaceholder(a, b);
    } else {
      NoPlaceholderBeforeCut(a, b);
      DigitsConcat(a[1..], b);
    }
  }

  /** The case of DigitsConcat where `a` starts with a placeholder. */
  lemma {:induction false} DigitsConcatAfterPlaceholder(a: string, b: string)
    requires a != [] && a[0] == '$' && Run(a[1..], Digits) > 0
    requires b == [] || !IsDigit(b[0])
    ensures PlaceholderDigits(a + b) == PlaceholderDigits(a) + PlaceholderDigits(b)
    decreases |a|, 0
  {
    var k := Run(a[1..], Digits);
    var first, rest, tail := [a[1..k + 1]], PlaceholderDigits(a[k + 1..]), PlaceholderDigits(b);
    assert PlaceholderDigits(a + b) == first + PlaceholderDigits(a[k + 1..] + b) by {
      PlaceholderBeforeCut(a, b);
    }
    assert PlaceholderDigits(a[k + 1..] + b) == rest + tail by {
      DigitsConcat(a[k + 1..], b);
    }
    assert PlaceholderDigits(a) == first + rest;
    assert first + (rest + tail) == (first + rest) + tail;
  }

  /** Placeholders of a text split where a non-digit begins: no placeholder spans the cut. */
  lemma PlaceholdersConcat(a: string, b: string)
    requires b == [] || !IsDigit(b[0])
    ensures Placeholders(a + b) == Placeholders(a) + Placeholders(b)
  {
    DigitsConcat(a, b);
    NumbersConcat(PlaceholderDigits(a), PlaceholderDigits(b));
  }

  /** The words of each line, line after line. */
  function LinesWords(lines: seq<string>): seq<string>
  {
    if lines == [] then [] else Words(lines[0]) + LinesWords(lines[1..])
  }

  /** The placeholders of each line, line after line. */
  function LinesPlaceholders(lines: seq<string>): seq<nat>
  {
    if lines == [] then [] else Placeholders(lines[0]) + LinesPlaceholders(lines[1..])
  }

  /** Laying lines out in a template neither adds, drops nor merges words. */
  lemma {:induction false} TemplateWords(lines: seq<string>)
    ensures Words(Template(lines)) == LinesWords(lines)
  {
    if lines == [] {
      WordsAfterBlank(Closing, []);
      assert Closing + [] == Closing;
    } else {
      var rest := Template(lines[1..]);
      assert Template(lines) == LineStart + (lines[0] + rest);
      WordsAfterBlank(LineStart, lines[0] + rest);
      WordsConcat(lines[0], rest);
      TemplateWords(lines[1..]);
    }
  }

  /** Laying lines out in a template neither adds, drops nor merges placeholders. */
  lemma {:induction false} TemplatePlaceholders(lines: seq<string>)
    ensures Placeholders(Template(lines)) == LinesPlaceholders(lines)
  {
    if lines == [] {
      PlaceholdersAfterPlain(Closing, []);
      assert Closing + [] == Closing;
    } else {
      var rest := Template(lines[1..]);
      assert Template(lines) == LineStart + (lines[0] + rest);
      PlaceholdersAfterPlain(LineStart, lines[0] + rest);
      PlaceholdersConcat(lines[0], rest);
      TemplatePlaceholders(lines[1..]);
    }
  }

  lemma TwoLinesWords(a: string, b: string)
    ensures Words(Template([a, b])) == Words(a) + Words(b)
  {
    TemplateWords([a, b]);
    assert [a, b][1..] == [b] && [b][1..] == [];
    assert LinesWords([b]) == Words(b) + LinesWords([]);
  }

  lemma TwoLinesPlaceholders(a: string, b: string)
    ensures Placeholders(Template([a, b])) == Placeholders(a) + Placeholders(b)
  {
    TemplatePlaceholders([a, b]);
    assert [a, b][1..] == [b] && [b][1..] == [];
    assert LinesPlaceholders([b]) == Placeholders(b) + LinesPlaceholders([]);
  }

  /** A template of two lines reads as its first line then its second. */
  lemma TwoLines(a: string, b: string)
    ensures Words(Template([a, b])) == Words(a) + Words(b)
    ensures Placeholders(Template([a, b])) == Placeholders(a) + Placeholders(b)
  {
    TwoLinesWords(a, b);
    TwoLinesPlaceholders(a, b);
  }

  lemma ThreeLinesWords(a: string, b: string, c: string)
    ensures Words(Template([a, b, c])) == Words(a) + Words(b) + Words(c)
  {
    var rest := Template([b, c]);
    assert [a, b, c][1..] == [b, c];
    assert Template([a, b, c]) == LineStart + (a + rest);
    WordsAfterBlank(LineStart, a + rest);
    WordsConcat(a, rest);
    TwoLinesWords(b, c);
  }

  lemma ThreeLinesPlaceholders(a: string, b: string, c: string)
    ensures Placeholders(Template([a, b, c])) == Placeholders(a) + Placeholders(b) + Placeholders(c)
  {
    var rest := Template([b, c]);
    assert [a, b, c][1..] == [b, c];
    assert Template([a, b, c]) == LineStart + (a + rest);
    PlaceholdersAfterPlain(LineStart, a + rest);
    PlaceholdersConcat(a, rest);
    TwoLinesPlaceholders(b, c);
  }

  /** A template of three lines reads as its lines in order. */
  lemma ThreeLines(a: string, b: string, c: string)
    ensures Words(Template([a, b, c])) == Words(a) + Words(b) + Words(c)
    ensures Placeholders(Template([a, b, c])) == Placeholders(a) + Placeholders(b) + Placeholders(c)
  {
    ThreeLinesWords(a, b, c);
    ThreeLinesPlaceholders(a, b, c);
  }

  /** The first line of a template stands verbatim right after the opening indentation. */
  lemma TemplateFirstLine(lines: seq<string>)
    requires |lines| > 0
    ensures |Template(lines)| >= |LineStart| + |lines[0]|
    ensures Template(lines)[..|LineStart|] == LineStart
    ensures Template(lines)[|LineStart|..|LineStart| + |lines[0]|] == lines[0]
  {
    var t := Template(lines);
    assert t == LineStart + lines[0] + Template(lines[1..]);
  }

  /** The first two lines of a template stand verbatim, each after its indentation. */
  lemma TemplateTwoLines(lines: seq<string>)
    requires |lines| >= 2
    ensures Template(lines) == LineStart + lines[0] + LineStart + lines[1] + Template(lines[2..])
  {
    assert lines[1..][1..] == lines[2..];
  }

  /** Where each of four consecutive pieces of a text stands in it. */
  lemma PiecesAt(a: string, b: string, c: string, d: string, rest: string)
    ensures var t := a + b + c + d + rest;
      |t| >= |a| + |b| + |c| + |d| &&
      t[..|a|] == a && t[|a|..|a| + |b|] == b && t[|a| + |b|..|a| + |b| + |c|] == c &&
      t[|a| + |b| + |c|..|a| + |b| + |c| + |d|] == d
  {
    var t := a + b + c + d + rest;
    assert t == a + (b + (c + (d + rest)));
  }

  /**
   * When the second line of a template is a prefix followed by a text, the first line stands
   * after the opening indentation and the text right after the second indentation and the prefix.
   */
  lemma {:induction false} SecondLineAt(lines: seq<string>, prefix: string, x: string)
    requires |lines| >= 2 && lines[1] == prefix + x
    ensures var t := Template(lines);
      var at := |LineStart| + |lines[0]| + |LineStart + prefix|;
      |t| >= at + |x| &&
      t[..|LineStart|] == LineStart &&
      t[|LineStart|..|LineStart| + |lines[0]|] == lines[0] &&
      t[|LineStart| + |lines[0]|..at] == LineStart + prefix &&
      t[at..at + |x|] == x
  {
    var rest := Template(lines[2..]);
    TemplateTwoLines(lines);
    assert Template(lines) == LineStart + lines[0] + (LineStart + prefix) + x + rest;
    PiecesAt(LineStart, lines[0], LineStart + prefix, x, rest);
  }

  /** A clause line `keyword $d`: a keyword, one space and a placeholder with a one-digit number. */
  function ParamClause(keyword: string, digit: char): string
  {
    keyword + [' ', '$', digit]
  }

  /** A clause line "keyword $n" is read as two words: the keyword and the placeholder. */
  lemma KeywordPlaceholderWords(keyword: string, digit: char)
    requires IsWord(keyword)
    requires IsDigit(digit)
    ensures Words(keyword + [' ', '$', digit]) == [keyword, ['$', digit]]
  {
    var tail := ['$', digit];
    assert keyword + [' ', '$', digit] == keyword + ([' '] + tail);
    WordsCons(keyword, [' '] + tail);
    WordsAfterBlank([' '], tail);
    WordsCons(tail, []);
    assert tail + [] == tail;
  }

  /** `$d` for a single digit d is the placeholder d. */
  lemma DigitPlaceholder(digit: char)
    requires IsDigit(digit)
    ensures Placeholders(['$', digit]) == [digit as int - '0' as int]
  {
    assert Run([digit], Digits) == 1 by {
      assert [digit][1..] == [];
    }
    assert ['$', digit][1..] == [digit] && ['$', digit][1..2] == [digit] && ['$', digit][2..] == [];
    assert PlaceholderDigits(['$', digit]) == [[digit]] + PlaceholderDigits([]);
    assert Decimal([digit]) == digit as int - '0' as int by {
      assert [digit][..0] == [];
    }
    assert Numbers([[digit]]) == [Decimal([digit])] + Numbers([]) by {
      assert [[digit]][1..] == [];
    }
  }

  /** A clause line "keyword $n" holds the one placeholder n. */
  lemma KeywordPlaceholderNumber(keyword: string, digit: char)
    requires forall i :: 0 <= i < |keyword| ==> keyword[i] != '$'
    requires IsDigit(digit)
    ensures Placeholders(keyword + [' ', '$', digit]) == [digit as int - '0' as int]
  {
    var plain := keyword + [' '];
    assert forall i :: 0 <= i < |plain| ==> plain[i] != '$' by {
      forall i | 0 <= i < |plain| ensures plain[i] != '$' {
        if i < |keyword| { assert plain[i] == keyword[i]; }
      }
    }
    assert keyword + [' ', '$', digit] == plain + ['$', digit];
    PlaceholdersAfterPlain(plain, ['$', digit]);
    DigitPlaceholder(digit);
  }
}
