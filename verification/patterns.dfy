/**
 * The two string tools the value types use: a `str.format` template with
 * `{}` fields, and an anchored regular expression made of literal text and
 * capturing groups. Both are written as the literal texts that sit between
 * (and around) the fields or groups. A value type writes itself with a
 * template and reads itself back with a pattern; when the pattern has the
 * template's texts, reading back what was written recovers the field texts.
 */
module Patterns {
  import opened Wire
  import opened Numerals

  /** A capturing group: `(\d+)`, or the RGBA alpha group `(\d*(?:\.\d+)(?:e-\d\d)?)`. */
  datatype Group = Digits | Fraction

  /** `template.format(*args)`, for the template `texts[0] {} texts[1] {} ... texts[n]`. */
  function Format(texts: seq<string>, args: seq<string>): string
    requires |texts| == |args| + 1
  {
    if args == [] then texts[0] else texts[0] + args[0] + Format(texts[1..], args[1..])
  }

  /** `t` is the tail of `s`, as `s.endswith(t)`. */
  predicate EndsWith(s: string, t: string) {
    |t| <= |s| && s[|s| - |t|..] == t
  }

  /** A formatted text starts with the template's first text and ends with its last. */
  lemma {:induction false} FormatEnds(texts: seq<string>, args: seq<string>)
    requires |texts| == |args| + 1
    ensures texts[0] <= Format(texts, args)
    ensures EndsWith(Format(texts, args), texts[|texts| - 1])
  {
    if args != [] {
      FormatEnds(texts[1..], args[1..]);
      var rest := Format(texts[1..], args[1..]);
      assert Format(texts, args) == (texts[0] + args[0]) + rest;
    }
  }

  // ---------------------------------------------------------------------
  // Scanning from a position
  // ---------------------------------------------------------------------

  /** Where the run of digits that starts at `i` ends. */
  function DigitsEnd(s: string, i: nat): (j: nat)
    requires i <= |s|
    ensures i <= j <= |s|
    decreases |s| - i
  {
    if i < |s| && IsDigit(s[i]) then DigitsEnd(s, i + 1) else i
  }

  /** Where the optional `e-\d\d` at `k` ends. */
  function ExponentEnd(s: string, k: nat): (j: nat)
    requires k <= |s|
    ensures j == k || j == k + 4 <= |s|
  {
    if k + 4 <= |s| && s[k] == 'e' && s[k + 1] == '-' && IsDigit(s[k + 2]) && IsDigit(s[k + 3]) then k + 4 else k
  }

  /** Where the alpha group that starts at `i` ends: optional digits, a point, digits, an optional exponent. */
  function FractionEnd(s: string, i: nat): (r: Option<nat>)
    requires i <= |s|
    ensures r.Some? ==> i < r.value <= |s|
  {
    var j := DigitsEnd(s, i);
    if j < |s| && s[j] == '.' then
      var k := DigitsEnd(s, j + 1);
      if k == j + 1 then None else Some(ExponentEnd(s, k))
    else None
  }

  /** Where the longest run of `group` that starts at `i` ends, if there is one. */
  function GroupEnd(group: Group, s: string, i: nat): (r: Option<nat>)
    requires i <= |s|
    ensures r.Some? ==> i < r.value <= |s|
  {
    match group
    case Digits => var j := DigitsEnd(s, i); if j == i then None else Some(j)
    case Fraction => FractionEnd(s, i)
  }

  /** The text `t` occurs in `s` at position `i`. */
  predicate TextAt(s: string, i: nat, t: string) {
    i + |t| <= |s| && forall k | 0 <= k < |t| :: s[i + k] == t[k]
  }

  /**
   * Matching the pattern `texts[0] (group 0) texts[1] ... texts[n]` against
   * `s` from position `i` to the end, giving the texts the groups capture.
   * Each group takes the longest run it can. In every pattern used here a
   * group is followed by text that cannot continue it, so the longest run
   * is also the only one a backtracking matcher could succeed with.
   */
  function MatchFrom(texts: seq<string>, groups: seq<Group>, s: string, i: nat): (r: Option<seq<string>>)
    requires |texts| == |groups| + 1 && i <= |s|
    ensures r.Some? ==> |r.value| == |groups|
    decreases |groups|
  {
    var t := texts[0];
    if TextAt(s, i, t) then
      var j := i + |t|;
      if groups == [] then (if j == |s| then Some([]) else None)
      else
        var e := GroupEnd(groups[0], s, j);
        if e.None? then None
        else
          var captured := MatchFrom(texts[1..], groups[1..], s, e.value);
          if captured.None? then None else Some([s[j..e.value]] + captured.value)
    else None
  }

  /** Matching the pattern against all of `s`. */
  function Match(texts: seq<string>, groups: seq<Group>, s: string): (r: Option<seq<string>>)
    requires |texts| == |groups| + 1
    ensures r.Some? ==> |r.value| == |groups|
  {
    MatchFrom(texts, groups, s, 0)
  }

  /** `re.match('^' + pattern + '$', s)`: `$` also matches just before a final newline. */
  function Anchored(texts: seq<string>, groups: seq<Group>, s: string): (r: Option<seq<string>>)
    requires |texts| == |groups| + 1
    ensures r.Some? ==> |r.value| == |groups|
  {
    var whole := Match(texts, groups, s);
    if whole.Some? then whole
    else if |s| > 0 && s[|s| - 1] == '\n' then Match(texts, groups, s[..|s| - 1])
    else None
  }

  // ---------------------------------------------------------------------
  // What the template may put in a field
  // ---------------------------------------------------------------------

  /** Every group is followed by the end of the pattern or by text whose first character cannot continue it. */
  predicate Delimited(texts: seq<string>) {
    forall i | 1 <= i < |texts| ::
      (i == |texts| - 1 && texts[i] == []) ||
      (texts[i] != [] && !IsDigit(texts[i][0]) && texts[i][0] != 'e')
  }

  /** The whole of `a` is a run of `group`. */
  predicate Fits(group: Group, a: string) {
    GroupEnd(group, a, 0) == Some(|a|)
  }

  /** Each argument is a whole run of the group in the same place. */
  predicate AllFit(groups: seq<Group>, args: seq<string>) {
    |groups| == |args| &&
    (groups != [] ==> Fits(groups[0], args[0]) && AllFit(groups[1..], args[1..]))
  }

  /** A non-empty string of digits is a whole `(\d+)` group. */
  lemma FitsDigits(a: string)
    requires a != [] && AllDigits(a)
    ensures Fits(Digits, a)
  {
    DigitsEndOfDigits(a, 0);
  }

  lemma {:induction false} DigitsEndOfDigits(a: string, i: nat)
    requires i <= |a| && AllDigits(a)
    ensures DigitsEnd(a, i) == |a|
    decreases |a| - i
  {
    if i < |a| {
      DigitsEndOfDigits(a, i + 1);
    }
  }

  /** `r` cannot continue a group that ends just before it. */
  predicate Stops(r: string) {
    r == [] || (!IsDigit(r[0]) && r[0] != 'e')
  }

  // ---------------------------------------------------------------------
  // Scanning inside a concatenation
  // ---------------------------------------------------------------------

  /**
   * Scanning digits inside `x + y + r` from a position in `y` ends where
   * scanning `y` alone ends, unless that run reaches the end of `y` and `r`
   * continues it.
   */
  lemma {:induction false} DigitsEndInside(x: string, y: string, r: string, i: nat)
    requires i <= |y| && (DigitsEnd(y, i) < |y| || r == [] || !IsDigit(r[0]))
    ensures DigitsEnd(x + y + r, |x| + i) == |x| + DigitsEnd(y, i)
    decreases |y| - i
  {
    var s := x + y + r;
    if i < |y| {
      assert s[|x| + i] == y[i];
      if IsDigit(y[i]) {
        DigitsEndInside(x, y, r, i + 1);
      }
    } else if r != [] {
      assert s[|x| + i] == r[0];
    }
  }

  /** The exponent scan inside `x + y + r` ends where it ends in `y`, when `r` cannot start an exponent. */
  lemma ExponentEndInside(x: string, y: string, r: string, k: nat)
    requires k <= |y| && ExponentEnd(y, k) == |y| && (r == [] || r[0] != 'e')
    ensures ExponentEnd(x + y + r, |x| + k) == |x| + |y|
  {
    var s := x + y + r;
    if k < |y| {
      assert s[|x| + k] == y[k] && s[|x| + k + 1] == y[k + 1];
      assert s[|x| + k + 2] == y[k + 2] && s[|x| + k + 3] == y[k + 3];
    } else if r != [] {
      assert s[|x| + k] == r[0];
    }
  }

  /** A whole group, followed by text that stops it, is found exactly inside a longer string. */
  lemma GroupEndInside(group: Group, x: string, a: string, r: string)
    requires Fits(group, a) && Stops(r)
    ensures GroupEnd(group, x + a + r, |x|) == Some(|x| + |a|)
  {
    var s := x + a + r;
    DigitsEndInside(x, a, r, 0);
    if group.Fraction? {
      var j := DigitsEnd(a, 0);
      assert a[j] == '.' && s[|x| + j] == a[j];
      var k := DigitsEnd(a, j + 1);
      DigitsEndInside(x, a, r, j + 1);
      ExponentEndInside(x, a, r, k);
    }
  }

  /** The text at the start of `t + rest`. */
  lemma TextAtInside(x: string, t: string, r: string)
    ensures TextAt(x + t + r, |x|, t)
  {
    var s := x + t + r;
    forall k | 0 <= k < |t| ensures s[|x| + k] == t[k] { }
  }

  lemma SliceInside(x: string, a: string, r: string)
    ensures (x + a + r)[|x|..|x| + |a|] == a
  {
  }

  /** What a template writes starts with its first text, so it stops a group when that text does. */
  lemma FormatStops(texts: seq<string>, args: seq<string>)
    requires |texts| == |args| + 1
    requires (texts[0] != [] && !IsDigit(texts[0][0]) && texts[0][0] != 'e') || (|texts| == 1 && texts[0] == [])
    ensures Stops(Format(texts, args))
  {
    if args != [] {
      assert Format(texts, args)[0] == texts[0][0];
    }
  }

  // ---------------------------------------------------------------------
  // Round trip
  // ---------------------------------------------------------------------

  /**
   * Reading back, from position `|p|`, what the template wrote after `p`
   * gives back the arguments, when each fits its group and the pattern has
   * the template's texts.
   */
  lemma {:induction false} MatchFromFormat(texts: seq<string>, groups: seq<Group>, args: seq<string>, p: string)
    requires |texts| == |groups| + 1 && Delimited(texts) && AllFit(groups, args)
    ensures MatchFrom(texts, groups, p + Format(texts, args), |p|) == Some(args)
    decreases |groups|
  {
    var t := texts[0];
    var s := p + Format(texts, args);
    if args == [] {
      TextAtInside(p, t, []);
      assert p + t + [] == s;
    } else {
      var a := args[0];
      var rest := Format(texts[1..], args[1..]);
      var p' := p + t + a;
      assert s == p' + rest && s == (p + t) + a + rest && s == p + t + (a + rest);
      assert MatchFrom(texts[1..], groups[1..], s, |p'|) == Some(args[1..]) by {
        DelimitedTail(texts);
        MatchFromFormat(texts[1..], groups[1..], args[1..], p');
      }
      var j := |p + t|;
      var e := |p'|;
      assert j == |p| + |texts[0]| && e == j + |a|;
      GroupInFormat(texts, groups[0], p + t, a, args[1..], s, j, e);
      assert TextAt(s, |p|, t) by {
        TextAtInside(p, t, a + rest);
      }
      MatchFromCons(texts, groups, s, |p|, j, e, args[1..]);
      assert [a] + args[1..] == args;
    }
  }

  /** Every text after the first of a delimited pattern is still delimited once the first is dropped. */
  lemma DelimitedTail(texts: seq<string>)
    requires |texts| >= 1 && Delimited(texts)
    ensures Delimited(texts[1..])
  {
    forall i | 1 <= i < |texts| - 1 ensures texts[1..][i] == texts[i + 1] { }
  }

  /** The group written after `x`, followed by the rest of the template, is found exactly, and captures `a`. */
  lemma GroupInFormat(texts: seq<string>, group: Group, x: string, a: string, args: seq<string>, s: string, j: nat, e: nat)
    requires |texts| == |args| + 2 && Delimited(texts) && Fits(group, a)
    requires s == x + a + Format(texts[1..], args) && j == |x| && e == |x| + |a|
    ensures e <= |s| && GroupEnd(group, s, j) == Some(e) && s[j..e] == a
  {
    FormatStops(texts[1..], args);
    GroupEndInside(group, x, a, Format(texts[1..], args));
    SliceInside(x, a, Format(texts[1..], args));
  }

  /** One step of the matcher that succeeds: the first text, the first group's capture, then the rest. */
  lemma MatchFromCons(texts: seq<string>, groups: seq<Group>, s: string, i: nat, j: nat, e: nat, r: seq<string>)
    requires |texts| == |groups| + 1 && groups != [] && i <= |s| && TextAt(s, i, texts[0])
    requires j == i + |texts[0]| && GroupEnd(groups[0], s, j) == Some(e) && e <= |s|
    requires MatchFrom(texts[1..], groups[1..], s, e) == Some(r)
    ensures MatchFrom(texts, groups, s, i) == Some([s[j..e]] + r)
  {
  }

  /** Reading back what the template wrote gives back the arguments. */
  lemma MatchFormat(texts: seq<string>, groups: seq<Group>, args: seq<string>)
    requires |texts| == |groups| + 1 && Delimited(texts) && AllFit(groups, args)
    ensures Match(texts, groups, Format(texts, args)) == Some(args)
  {
    MatchFromFormat(texts, groups, args, []);
    assert [] + Format(texts, args) == Format(texts, args);
  }

  /** One step of matching: after the first text and the first group, the match goes on from where the group ends. */
  lemma MatchFromStep(texts: seq<string>, groups: seq<Group>, s: string, i: nat, e: nat)
    requires |texts| == |groups| + 1 && i <= |s| && groups != [] && TextAt(s, i, texts[0])
    requires i + |texts[0]| <= |s| && GroupEnd(groups[0], s, i + |texts[0]|) == Some(e)
    ensures MatchFrom(texts, groups, s, i).None? <==> MatchFrom(texts[1..], groups[1..], s, e).None?
  {
  }

  /** A pattern only matches strings that end in its last text. */
  lemma {:induction false} MatchFromEndsWith(texts: seq<string>, groups: seq<Group>, s: string, i: nat)
    requires |texts| == |groups| + 1 && i <= |s| && MatchFrom(texts, groups, s, i).Some?
    ensures |texts[|texts| - 1]| <= |s|
    ensures TextAt(s, |s| - |texts[|texts| - 1]|, texts[|texts| - 1])
    ensures texts[|texts| - 1] != [] ==> s[|s| - 1] == texts[|texts| - 1][|texts[|texts| - 1]| - 1]
    decreases |groups|
  {
    if groups != [] {
      var j := i + |texts[0]|;
      var e := GroupEnd(groups[0], s, j).value;
      MatchFromEndsWith(texts[1..], groups[1..], s, e);
    }
  }

  /** The newline that `$` tolerates: a match of the text without it is a match of the text with it. */
  lemma AnchoredTrailingNewline(texts: seq<string>, groups: seq<Group>, s: string)
    requires |texts| == |groups| + 1 && Match(texts, groups, s).Some?
    requires texts[|texts| - 1] != [] && texts[|texts| - 1][|texts[|texts| - 1]| - 1] != '\n'
    ensures Anchored(texts, groups, s + "\n") == Match(texts, groups, s)
  {
    var s' := s + "\n";
    var t := texts[|texts| - 1];
    if Match(texts, groups, s').Some? {
      MatchFromEndsWith(texts, groups, s', 0);
    }
    assert s'[..|s'| - 1] == s;
  }
}
