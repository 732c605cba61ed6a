/** String helpers of the fulfilment code: ASCII case mapping, `', '.join`,
    `rreplace` (built on `str.rsplit`) and the natural-language list `ltostr`. */
module Text {
  import opened Wrappers

  predicate IsUpper(c: char) {
    'A' <= c <= 'Z'
  }

  predicate IsLowerLetter(c: char) {
    'a' <= c <= 'z'
  }

  /** `str.lower` on one character (ASCII letters only). */
  function LowerChar(c: char): (r: char)
    ensures !IsUpper(r)
    ensures IsUpper(c) ==> IsLowerLetter(r) && r as int == c as int + 32
    ensures !IsUpper(c) ==> r == c
  {
    if IsUpper(c) then (c as int + 32) as char else c
  }

  /** `str.upper` on one character (ASCII letters only). */
  function UpperChar(c: char): (r: char)
    ensures !IsLowerLetter(r)
    ensures IsLowerLetter(c) ==> IsUpper(r) && r as int == c as int - 32
    ensures !IsLowerLetter(c) ==> r == c
  {
    if IsLowerLetter(c) then (c as int - 32) as char else c
  }

  /** True when `s` has no upper-case letter, i.e. `s == s.lower()`. */
  predicate IsLowered(s: string) {
    forall i :: 0 <= i < |s| ==> !IsUpper(s[i])
  }

  /** `s.lower()`. */
  function Lower(s: string): (r: string)
    ensures |r| == |s|
    ensures IsLowered(r)
    ensures forall i :: 0 <= i < |s| ==> r[i] == LowerChar(s[i])
  {
    seq(|s|, i requires 0 <= i < |s| => LowerChar(s[i]))
  }

  /** Lower-casing is idempotent and leaves lowered text alone, so a list
      lowered once (the movie list, the theater list) compares equal to the
      lowered user input whatever casing either side had. */
  lemma LowerFixesLowered(s: string)
    requires IsLowered(s)
    ensures Lower(s) == s
  {
  }

  lemma LowerIdempotent(s: string)
    ensures Lower(Lower(s)) == Lower(s)
  {
    LowerFixesLowered(Lower(s));
  }

  /** `s.capitalize()`: first character upper-cased, the rest lower-cased. */
  function Capitalize(s: string): (r: string)
    ensures |r| == |s|
    ensures |s| > 0 ==> r[0] == UpperChar(s[0]) && r[1..] == Lower(s[1..])
    ensures Lower(r) == Lower(s)
  {
    if |s| == 0 then "" else [UpperChar(s[0])] + Lower(s[1..])
  }

  /** `sep.join(items)`, built from the right so that the last separator is
      the one right before the last item. */
  function Join(items: seq<string>, sep: string): string
    decreases |items|
  {
    if |items| == 0 then ""
    else if |items| == 1 then items[0]
    else Join(items[..|items| - 1], sep) + sep + items[|items| - 1]
  }

  /** A join starts with the first item and ends with the last one. */
  lemma {:induction false} JoinEnds(items: seq<string>, sep: string)
    requires |items| > 0
    ensures |items[0]| <= |Join(items, sep)| && Join(items, sep)[..|items[0]|] == items[0]
    ensures var last := items[|items| - 1];
            |last| <= |Join(items, sep)| && Join(items, sep)[|Join(items, sep)| - |last|..] == last
  {
    if |items| > 1 {
      var front := items[..|items| - 1];
      JoinEnds(front, sep);
      assert front[0] == items[0];
      var j := Join(front, sep);
      assert Join(items, sep) == j + sep + items[|items| - 1];
      assert (j + sep + items[|items| - 1])[..|items[0]|] == j[..|items[0]|];
    }
  }

  /** A join is as long as its items together plus one separator between
      each neighbouring pair. */
  lemma {:induction false} JoinLength(items: seq<string>, sep: string)
    requires |items| > 0
    ensures |Join(items, sep)| == TotalLength(items) + (|items| - 1) * |sep|
  {
    if |items| > 1 {
      var front := items[..|items| - 1];
      JoinLength(front, sep);
      assert |Join(items, sep)| == |Join(front, sep)| + |sep| + |items[|items| - 1]|;
    }
  }

  /** The sum of the items' lengths. */
  function TotalLength(items: seq<string>): nat {
    if |items| == 0 then 0 else TotalLength(items[..|items| - 1]) + |items[|items| - 1]|
  }

  /** `sub` occurs in `s` starting at index `i`. */
  predicate OccursAt(s: string, sub: string, i: int) {
    0 <= i && i + |sub| <= |s| && s[i..i + |sub|] == sub
  }

  /** Python's `sub in s`. */
  ghost predicate Contains(s: string, sub: string) {
    exists i :: OccursAt(s, sub, i)
  }

  /** A string without a comma cannot contain the ", " separator. */
  lemma NoCommaNoSeparator(s: string)
    requires forall i :: 0 <= i < |s| ==> s[i] != ','
    ensures !Contains(s, ", ")
  {
    forall j | 0 <= j && j + 2 <= |s|
      ensures !OccursAt(s, ", ", j)
    {
      assert s[j..j + 2][0] == s[j];
    }
  }

  lemma ContainsItself(s: string)
    ensures Contains(s, s)
  {
    assert OccursAt(s, s, 0);
  }

  /** What occurs in a string occurs in any extension of it, on either side. */
  lemma ContainsAppend(a: string, b: string, sub: string)
    requires Contains(a, sub)
    ensures Contains(a + b, sub)
  {
    var i :| OccursAt(a, sub, i);
    assert (a + b)[i..i + |sub|] == a[i..i + |sub|];
    assert OccursAt(a + b, sub, i);
  }

  lemma ContainsPrepend(a: string, b: string, sub: string)
    requires Contains(b, sub)
    ensures Contains(a + b, sub)
  {
    var i :| OccursAt(b, sub, i);
    assert (a + b)[|a| + i..|a| + i + |sub|] == b[i..i + |sub|];
    assert OccursAt(a + b, sub, |a| + i);
  }

  /** `sub` occurs in `a + sub + b`, whatever `b` is appended later. */
  lemma ContainsInserted(a: string, sub: string)
    ensures Contains(a + sub, sub)
  {
    ContainsItself(sub);
    ContainsPrepend(a, sub, sub);
  }

  /** `sub` occurs in `a + sub + b`. */
  lemma ContainsWithin(a: string, sub: string, b: string)
    ensures Contains(a + sub + b, sub)
  {
    ContainsInserted(a, sub);
    ContainsAppend(a + sub, b, sub);
  }

  /** Each of three pieces occurs in a text that strings them together. */
  lemma ContainsThree(p: string, a: string, q: string, b: string, t: string, c: string, u: string)
    ensures Contains(p + a + q + b + t + c + u, a)
    ensures Contains(p + a + q + b + t + c + u, b)
    ensures Contains(p + a + q + b + t + c + u, c)
  {
    ContainsWithin(p, a, q);
    ContainsAppend(p + a + q, b, a);
    ContainsInserted(p + a + q, b);
    ContainsAppend(p + a + q + b, t, a);
    ContainsAppend(p + a + q + b, t, b);
    ContainsAppend(p + a + q + b + t, c, a);
    ContainsAppend(p + a + q + b + t, c, b);
    ContainsInserted(p + a + q + b + t, c);
    ContainsAppend(p + a + q + b + t + c, u, a);
    ContainsAppend(p + a + q + b + t + c, u, b);
    ContainsAppend(p + a + q + b + t + c, u, c);
  }

  /** The right-most occurrence of `sub` in `s` that starts at or before
      `from`: the search `str.rsplit` performs. */
  function LastOccurrence(s: string, sub: string, from: int): (r: Option<nat>)
    decreases from + 1
    ensures r.Some? ==> r.value <= from && OccursAt(s, sub, r.value)
    ensures r.Some? ==> forall j :: r.value < j <= from ==> !OccursAt(s, sub, j)
    ensures r.None? ==> forall j :: j <= from ==> !OccursAt(s, sub, j)
  {
    if from < 0 then None
    else if OccursAt(s, sub, from) then Some(from)
    else LastOccurrence(s, sub, from - 1)
  }

  /** `s.rfind(sub)` as an Option: the right-most occurrence, if any. */
  function RFind(s: string, sub: string): (r: Option<nat>)
    ensures r.Some? ==> OccursAt(s, sub, r.value)
    ensures r.Some? ==> forall j :: r.value < j ==> !OccursAt(s, sub, j)
    ensures r.None? ==> !Contains(s, sub)
  {
    LastOccurrence(s, sub, |s| - |sub|)
  }

  /** `rreplace(s, old, new, occ)`, that is `new.join(s.rsplit(old, occ))`:
      the right-most `occ` non-overlapping occurrences of `old` (here `target`), found from
      the right, are replaced by `new` (here `repl`). */
  function RReplace(s: string, target: string, repl: string, occ: nat): (r: string)
    requires |target| > 0
    decreases occ
    ensures occ == 0 || !Contains(s, target) ==> r == s
  {
    if occ == 0 then s
    else
      match RFind(s, target)
      case None => s
      case Some(i) => RReplace(s[..i], target, repl, occ - 1) + repl + s[i + |target|..]
  }

  /** With one replacement, `rreplace` rewrites exactly the last occurrence
      of `target` and leaves a string without `target` unchanged. */
  lemma RReplaceLast(s: string, target: string, repl: string)
    requires |target| > 0
    ensures !Contains(s, target) ==> RReplace(s, target, repl, 1) == s
    ensures Contains(s, target) ==>
              exists i :: OccursAt(s, target, i)
                          && (forall j :: i < j ==> !OccursAt(s, target, j))
                          && RReplace(s, target, repl, 1) == s[..i] + repl + s[i + |target|..]
  {
    match RFind(s, target)
    case None =>
    case Some(i) =>
      assert OccursAt(s, target, i);
  }

  /** `ltostr(a)`: the items joined by ", " with the last ", " turned into
      " and ". */
  function LToStr(items: seq<string>): string
  {
    RReplace(Join(items, ", "), ", ", " and ", 1)
  }

  /** The shape `ltostr` promises: "" for no items, the item itself for one,
      and "a, b and c" for several, provided the last item has no ", " of its
      own (one inside it would be the last occurrence instead). */
  lemma {:induction false} LToStrShape(items: seq<string>)
    ensures |items| == 0 ==> LToStr(items) == ""
    ensures |items| == 1 && !Contains(items[0], ", ") ==> LToStr(items) == items[0]
    ensures |items| >= 2 && !Contains(items[|items| - 1], ", ") ==>
              LToStr(items) == Join(items[..|items| - 1], ", ") + " and " + items[|items| - 1]
  {
    if |items| == 0 {
      assert !OccursAt("", ", ", 0);
      assert RFind("", ", ").None?;
    } else if |items| == 1 {
      if !Contains(items[0], ", ") {
        assert RFind(items[0], ", ").None?;
      }
    } else if !Contains(items[|items| - 1], ", ") {
      var front := Join(items[..|items| - 1], ", ");
      var last := items[|items| - 1];
      var s := front + ", " + last;
      var p := |front|;
      assert s == Join(items, ", ");
      assert s[p..p + 2] == ", ";
      assert OccursAt(s, ", ", p);
      forall j | p < j
        ensures !OccursAt(s, ", ", j)
      {
        if j == p + 1 {
          assert s[j] == ' ';
        } else if j + 2 <= |s| {
          assert s[j..j + 2] == last[j - p - 2..j - p];
          assert !OccursAt(last, ", ", j - p - 2);
        }
      }
      match RFind(s, ", ")
      case None =>
        assert false;
      case Some(i) =>
        assert i == p;
        assert s[..p] == front;
        assert s[p + 2..] == last;
    }
  }

  lemma LToStrPair(a: string, b: string)
    requires !Contains(b, ", ")
    ensures LToStr([a, b]) == a + " and " + b
  {
    LToStrShape([a, b]);
    assert [a, b][..1] == [a];
  }

  /** Three short items: "a, b and c". */
  lemma LToStrThree()
    ensures LToStr(["a", "b", "c"]) == "a, b and c"
  {
    assert !OccursAt("c", ", ", 0);
    LToStrShape(["a", "b", "c"]);
    assert ["a", "b", "c"][..2] == ["a", "b"];
    JoinAB();
  }

  lemma JoinAB()
    ensures Join(["a", "b"], ", ") == "a, b"
  {
    assert ["a", "b"][..1] == ["a"];
  }
}
