/** `isvalid_mobile`: `re.match(r'(^[+0-9]{1,3})*([0-9]{10,11}$)', mobile)`.
    The group anchored by `^` can match at most once (only at position 0), so
    the pattern accepts exactly the strings `p + d` with `p` of 0 to 3
    characters from `[+0-9]` and `d` of 10 or 11 digits. */
module Phone {
  import opened Numbers

  predicate IsPhoneChar(c: char) {
    c == '+' || IsDigit(c)
  }

  predicate AllPhoneChars(s: string) {
    forall i :: 0 <= i < |s| ==> IsPhoneChar(s[i])
  }

  /** `s` splits at `k` into a prefix matching `[+0-9]{0,3}` and a suffix
      matching `[0-9]{10,11}` that runs to the end of the string. */
  predicate SplitsAt(s: string, k: int) {
    && 0 <= k <= 3
    && k <= |s|
    && AllPhoneChars(s[..k])
    && (|s| - k == 10 || |s| - k == 11)
    && AllDigits(s[k..])
  }

  /** The language of the mobile-number regular expression. */
  ghost predicate MobileShape(s: string) {
    exists k :: SplitsAt(s, k)
  }

  /** The length of the longest all-digit suffix of `s`. */
  function TrailingDigits(s: string): (t: nat)
    ensures t <= |s|
    ensures AllDigits(s[|s| - t..])
    ensures t < |s| ==> !IsDigit(s[|s| - t - 1])
  {
    if |s| == 0 || !IsDigit(s[|s| - 1]) then 0
    else
      var t := TrailingDigits(s[..|s| - 1]);
      DigitRunExtends(s, t);
      t + 1
  }

  lemma DigitRunExtends(s: string, t: nat)
    requires |s| > 0 && IsDigit(s[|s| - 1])
    requires t <= |s| - 1 && AllDigits(s[..|s| - 1][|s| - 1 - t..])
    ensures AllDigits(s[|s| - (t + 1)..])
  {
    var run := s[|s| - (t + 1)..];
    var shorter := s[..|s| - 1][|s| - 1 - t..];
    forall i | 0 <= i < |run|
      ensures IsDigit(run[i])
    {
      if i < t {
        assert shorter[i] == run[i];
      }
    }
  }

  /** The check without backtracking: everything before the trailing digit
      run is `[+0-9]`, and the run is long enough for a split with a prefix of
      at most three characters. */
  predicate AcceptsDigitRun(s: string) {
    var t := TrailingDigits(s);
    AllPhoneChars(s[..|s| - t]) && ((10 <= |s| <= 13 && t >= 10) || (|s| == 14 && t >= 11))
  }

  /** `isvalid_mobile(mobile)`. */
  function IsValidMobile(s: string): (b: bool)
    ensures b <==> MobileShape(s)
  {
    MobileShapeIff(s);
    AcceptsDigitRun(s)
  }

  lemma MobileShapeIff(s: string)
    ensures MobileShape(s) <==> AcceptsDigitRun(s)
  {
    if AcceptsDigitRun(s) {
      ShapeFromDigitRun(s);
    }
    if MobileShape(s) {
      DigitRunFromShape(s);
    }
  }

  /** A long enough trailing digit run after `[+0-9]` characters yields a split. */
  lemma ShapeFromDigitRun(s: string)
    requires AcceptsDigitRun(s)
    ensures MobileShape(s)
  {
    var t := TrailingDigits(s);
    var u := |s| - t;
    var k := if |s| <= 13 then |s| - 10 else 3;
    PhonePrefixGrows(s, u, k);
    DigitSuffixShrinks(s, u, k);
    assert SplitsAt(s, k);
  }

  /** Any split leaves a trailing digit run at least as long as its suffix. */
  lemma DigitRunFromShape(s: string)
    requires MobileShape(s)
    ensures AcceptsDigitRun(s)
  {
    var k :| SplitsAt(s, k);
    var t := TrailingDigits(s);
    assert t >= |s| - k;
    var u := |s| - t;
    forall i | 0 <= i < u
      ensures IsPhoneChar(s[..u][i])
    {
      assert s[..k][i] == s[i];
    }
  }

  lemma PhonePrefixGrows(s: string, u: int, k: int)
    requires 0 <= u <= k <= |s|
    requires AllPhoneChars(s[..u])
    requires AllDigits(s[u..])
    ensures AllPhoneChars(s[..k])
  {
    forall i | 0 <= i < k
      ensures IsPhoneChar(s[..k][i])
    {
      if i < u {
        assert s[..u][i] == s[i];
      } else {
        assert s[u..][i - u] == s[i];
      }
    }
  }

  lemma DigitSuffixShrinks(s: string, u: int, k: int)
    requires 0 <= u <= k <= |s|
    requires AllDigits(s[u..])
    ensures AllDigits(s[k..])
  {
    forall i | 0 <= i < |s| - k
      ensures IsDigit(s[k..][i])
    {
      assert s[u..][i + k - u] == s[k + i];
    }
  }

  /** A full international number passes; a five-digit number does not. */
  lemma MobileExamples()
    ensures IsValidMobile("+14155551234")
    ensures !IsValidMobile("12345")
  {
    var s := "+14155551234";
    assert SplitsAt(s, 1) by {
      assert s[..1] == "+";
      assert s[1..] == "14155551234";
    }
    var short := "12345";
    assert !SplitsAt(short, 0) && !SplitsAt(short, 1) && !SplitsAt(short, 2) && !SplitsAt(short, 3);
  }
}
