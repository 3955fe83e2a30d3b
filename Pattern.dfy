/**
 * The fragment of JavaScript regular expressions the schemas use, and what it means for a
 * whole string to match one. A schema pattern is anchored by `^` and `$` and has no flags,
 * so it matches when the entire string is in its language.
 */
module Pattern {
  import opened Wrappers

  datatype Regex =
    | Empty                           // matches the empty string only
    | Range(lo: char, hi: char)       // one character between lo and hi: a class [lo-hi] or a literal
    | Concat(first: Regex, second: Regex)
    | Alt(left: Regex, right: Regex)  // first|second
    | Plus(body: Regex)               // body+

  /** A literal character, `\-` included. */
  function Char(c: char): Regex { Range(c, c) }

  /** `\d` and `[0-9]`: the ASCII digits. */
  const Digit: Regex := Range('0', '9')

  /** body{n}: exactly n copies of body, one after another. */
  function Times(body: Regex, n: nat): Regex
  {
    if n == 0 then Empty else Concat(body, Times(body, n - 1))
  }

  /** The whole of `s` is in the language of `r`. */
  predicate Matches(r: Regex, s: string)
    decreases r, |s|
  {
    match r
    case Empty => s == []
    case Range(lo, hi) => |s| == 1 && lo <= s[0] <= hi
    case Concat(a, b) => exists i :: 0 <= i <= |s| && Matches(a, s[..i]) && Matches(b, s[i..])
    case Alt(a, b) => Matches(a, s) || Matches(b, s)
    case Plus(a) => exists i :: 0 < i <= |s| && Matches(a, s[..i]) && (i == |s| || Matches(r, s[i..]))
  }

  /** The one length every match of `r` has, when there is one. */
  function FixedLength(r: Regex): Option<nat>
  {
    match r
    case Empty => Some(0)
    case Range(_, _) => Some(1)
    case Concat(a, b) =>
      if FixedLength(a).Some? && FixedLength(b).Some? then Some(FixedLength(a).value + FixedLength(b).value)
      else None
    case Alt(a, b) =>
      if FixedLength(a).Some? && FixedLength(a) == FixedLength(b) then FixedLength(a) else None
    case Plus(_) => None
  }

  /** Every string a fixed-length pattern matches has that length. */
  lemma {:induction false} MatchLength(r: Regex, s: string)
    requires FixedLength(r).Some? && Matches(r, s)
    ensures |s| == FixedLength(r).value
  {
    match r
    case Empty =>
    case Range(_, _) =>
    case Concat(a, b) =>
      var i :| 0 <= i <= |s| && Matches(a, s[..i]) && Matches(b, s[i..]);
      MatchLength(a, s[..i]);
      MatchLength(b, s[i..]);
    case Alt(a, b) =>
      if Matches(a, s) { MatchLength(a, s); } else { MatchLength(b, s); }
  }

  /** After a fixed-length first part, a concatenation splits at that length and nowhere else. */
  lemma ConcatFixed(a: Regex, b: Regex, s: string)
    requires FixedLength(a).Some?
    ensures Matches(Concat(a, b), s) <==>
      FixedLength(a).value <= |s| && Matches(a, s[..FixedLength(a).value]) && Matches(b, s[FixedLength(a).value..])
  {
    var n := FixedLength(a).value;
    if Matches(Concat(a, b), s) {
      var i :| 0 <= i <= |s| && Matches(a, s[..i]) && Matches(b, s[i..]);
      MatchLength(a, s[..i]);
    }
  }

  /** `[lo-hi]+` matches exactly the non-empty strings of characters between lo and hi. */
  lemma {:induction false} PlusRange(lo: char, hi: char, s: string)
    ensures Matches(Plus(Range(lo, hi)), s) <==> |s| > 0 && forall k :: 0 <= k < |s| ==> lo <= s[k] <= hi
    decreases |s|
  {
    var r := Plus(Range(lo, hi));
    if Matches(r, s) {
      var i :| 0 < i <= |s| && Matches(Range(lo, hi), s[..i]) && (i == |s| || Matches(r, s[i..]));
      assert i == 1 && lo <= s[0] <= hi;
      if i < |s| {
        PlusRange(lo, hi, s[1..]);
        assert forall k :: 1 <= k < |s| ==> s[k] == s[1..][k - 1];
      }
    }
    if |s| > 0 && forall k :: 0 <= k < |s| ==> lo <= s[k] <= hi {
      assert Matches(Range(lo, hi), s[..1]);
      if |s| > 1 {
        PlusRange(lo, hi, s[1..]);
        assert Matches(r, s[1..]);
      }
      assert 0 < 1 <= |s| && Matches(Range(lo, hi), s[..1]) && (1 == |s| || Matches(r, s[1..]));
    }
  }

  /** `[lo-hi]{n}` matches exactly the strings of n characters between lo and hi. */
  lemma {:induction false} TimesRange(lo: char, hi: char, n: nat, s: string)
    ensures FixedLength(Times(Range(lo, hi), n)) == Some(n)
    ensures Matches(Times(Range(lo, hi), n), s) <==> |s| == n && forall k :: 0 <= k < |s| ==> lo <= s[k] <= hi
  {
    if n > 0 {
      ConcatFixed(Range(lo, hi), Times(Range(lo, hi), n - 1), s);
      if |s| > 0 {
        TimesRange(lo, hi, n - 1, s[1..]);
        assert forall k :: 1 <= k < |s| ==> s[k] == s[1..][k - 1];
      } else {
        TimesRange(lo, hi, n - 1, s);
      }
    }
  }
}
