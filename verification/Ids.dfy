/**
 The id and name patterns of the API document, by the meaning of regular expressions, against the
 rules they stand for.
 */
module Ids {

  datatype Regex =
    | LowerDigit        // [a-z0-9]
    | LowerDigitHyphen  // [a-z0-9-]
    | Lower             // [a-z]
    | Cat(a: Regex, b: Regex)
    | Opt(r: Regex)
    | Rep(r: Regex, lo: nat, hi: nat)
    | Star(r: Regex)

  predicate IsLower(c: char) {
    'a' <= c <= 'z'
  }

  predicate IsLowerDigit(c: char) {
    IsLower(c) || '0' <= c <= '9'
  }

  predicate IsLowerDigitHyphen(c: char) {
    IsLowerDigit(c) || c == '-'
  }

  /** `s` as a whole matches `r` (both patterns are anchored at both ends). */
  ghost predicate Matches(r: Regex, s: string)
    decreases r, 0
  {
    match r
    case LowerDigit => |s| == 1 && IsLowerDigit(s[0])
    case LowerDigitHyphen => |s| == 1 && IsLowerDigitHyphen(s[0])
    case Lower => |s| == 1 && IsLower(s[0])
    case Cat(a, b) => exists i :: 0 <= i <= |s| && Matches(a, s[..i]) && Matches(b, s[i..])
    case Opt(r1) => s == "" || Matches(r1, s)
    case Rep(r1, lo, hi) => exists n: nat :: lo <= n <= hi && Power(r1, n, s)
    case Star(r1) => exists n: nat :: Power(r1, n, s)
  }

  /** `s` is `n` consecutive matches of `r`. */
  ghost predicate Power(r: Regex, n: nat, s: string)
    decreases r, n + 1
  {
    if n == 0 then s == ""
    else exists i :: 0 <= i <= |s| && Matches(r, s[..i]) && Power(r, n - 1, s[i..])
  }

  /** ^[a-z0-9]([a-z0-9-]{0,61}[a-z0-9])?$ */
  const ID_PATTERN := Cat(LowerDigit, Opt(Cat(Rep(LowerDigitHyphen, 0, 61), LowerDigit)))

  /** ^[a-z0-9]([-a-z0-9]*[a-z0-9])?$ */
  const NAME_PATTERN := Cat(LowerDigit, Opt(Cat(Star(LowerDigitHyphen), LowerDigit)))

  /** The label of section 2.3.1 of RFC 1035, lower case: it starts with a letter. */
  const DNS1035_PATTERN := Cat(Lower, Opt(Cat(Star(LowerDigitHyphen), LowerDigit)))

  /** The path parameter: pattern only. */
  ghost predicate PathIdAccepted(s: string) {
    Matches(ID_PATTERN, s)
  }

  /** The id query parameter and the id field: pattern and length bounds. */
  ghost predicate QueryIdAccepted(s: string) {
    Matches(ID_PATTERN, s) && 1 <= |s| <= 63
  }

  /** The metadata name: a different pattern and length bounds. */
  ghost predicate NameAccepted(s: string) {
    Matches(NAME_PATTERN, s) && 1 <= |s| <= 63
  }

  /** The four rules of the document: length, first character, all characters, last character. */
  predicate LegalId(s: string) {
    && 1 <= |s| <= 63
    && IsLowerDigit(s[0])
    && (forall i :: 0 <= i < |s| ==> IsLowerDigitHyphen(s[i]))
    && IsLowerDigit(s[|s| - 1])
  }

  lemma {:induction false} PowerOfClass(n: nat, s: string)
    ensures Power(LowerDigitHyphen, n, s) <==> |s| == n && forall i :: 0 <= i < |s| ==> IsLowerDigitHyphen(s[i])
  {
    if n > 0 {
      if Power(LowerDigitHyphen, n, s) {
        var i :| 0 <= i <= |s| && Matches(LowerDigitHyphen, s[..i]) && Power(LowerDigitHyphen, n - 1, s[i..]);
        PowerOfClass(n - 1, s[i..]);
        assert i == 1 && s == s[..1] + s[1..];
      }
      if |s| == n && forall i :: 0 <= i < |s| ==> IsLowerDigitHyphen(s[i]) {
        PowerOfClass(n - 1, s[1..]);
        assert Matches(LowerDigitHyphen, s[..1]);
      }
    }
  }

  /** What both patterns require around the middle part. */
  predicate Shape(s: string) {
    && |s| >= 1 && IsLowerDigit(s[0])
    && (forall i :: 0 <= i < |s| ==> IsLowerDigitHyphen(s[i]))
    && IsLowerDigit(s[|s| - 1])
  }

  /** Any number of middle characters, or at most 61. */
  predicate IsMiddle(r: Regex) {
    r == Star(LowerDigitHyphen) || r == Rep(LowerDigitHyphen, 0, 61)
  }

  lemma MiddleIsClass(middle: Regex, s: string)
    requires IsMiddle(middle)
    ensures Matches(middle, s) <==>
            (middle.Rep? ==> |s| <= 61) && forall i :: 0 <= i < |s| ==> IsLowerDigitHyphen(s[i])
  {
    PowerOfClass(|s|, s);
    if Matches(middle, s) {
      var n: nat :| (middle.Rep? ==> n <= 61) && Power(LowerDigitHyphen, n, s);
      PowerOfClass(n, s);
    }
  }

  /** A string after its first character, matched by middle characters and a last one. */
  predicate Tail(middle: Regex, s: string) {
    && 1 <= |s| && (middle.Rep? ==> |s| <= 62)
    && (forall i :: 0 <= i < |s| ==> IsLowerDigitHyphen(s[i]))
    && IsLowerDigit(s[|s| - 1])
  }

  lemma MatchedTail(middle: Regex, s: string)
    requires IsMiddle(middle) && Matches(Cat(middle, LowerDigit), s)
    ensures Tail(middle, s)
  {
    var i :| 0 <= i <= |s| && Matches(middle, s[..i]) && Matches(LowerDigit, s[i..]);
    MiddleIsClass(middle, s[..i]);
    assert i == |s| - 1;
    forall j | 0 <= j < |s| ensures IsLowerDigitHyphen(s[j]) {
      assert j < i ==> s[..i][j] == s[j];
      assert j == i ==> s[i..][0] == s[j];
    }
  }

  lemma TailMatches(middle: Regex, s: string)
    requires IsMiddle(middle) && Tail(middle, s)
    ensures Matches(Cat(middle, LowerDigit), s)
  {
    var n := |s| - 1;
    MiddleIsClass(middle, s[..n]);
    assert Matches(middle, s[..n]) && Matches(LowerDigit, s[n..]);
  }

  lemma MatchedPattern(middle: Regex, s: string)
    requires IsMiddle(middle) && Matches(Cat(LowerDigit, Opt(Cat(middle, LowerDigit))), s)
    ensures Shape(s) && (middle.Rep? ==> |s| <= 63)
  {
    var tail := Opt(Cat(middle, LowerDigit));
    var i :| 0 <= i <= |s| && Matches(LowerDigit, s[..i]) && Matches(tail, s[i..]);
    assert i == 1;
    var rest := s[1..];
    if rest != "" {
      MatchedTail(middle, rest);
      assert s[|s| - 1] == rest[|rest| - 1];
    }
    forall j | 0 <= j < |s| ensures IsLowerDigitHyphen(s[j]) {
      assert j > 0 ==> rest[j - 1] == s[j];
      assert j == 0 ==> s[..1][0] == s[j];
    }
  }

  lemma PatternMatches(middle: Regex, s: string)
    requires IsMiddle(middle) && Shape(s) && (middle.Rep? ==> |s| <= 63)
    ensures Matches(Cat(LowerDigit, Opt(Cat(middle, LowerDigit))), s)
  {
    var tail := Opt(Cat(middle, LowerDigit));
    var rest := s[1..];
    if rest != "" {
      TailMatches(middle, rest);
    }
    assert Matches(LowerDigit, s[..1]) && Matches(tail, rest);
  }

  lemma PatternShape(middle: Regex, s: string)
    requires IsMiddle(middle)
    ensures Matches(Cat(LowerDigit, Opt(Cat(middle, LowerDigit))), s) <==> Shape(s) && (middle.Rep? ==> |s| <= 63)
  {
    if Matches(Cat(LowerDigit, Opt(Cat(middle, LowerDigit))), s) {
      MatchedPattern(middle, s);
    }
    if Shape(s) && (middle.Rep? ==> |s| <= 63) {
      PatternMatches(middle, s);
    }
  }

  /** The id pattern means exactly the four documented rules, with or without the explicit length bounds. */
  lemma IdPatternIsRules(s: string)
    ensures PathIdAccepted(s) <==> LegalId(s)
    ensures QueryIdAccepted(s) <==> LegalId(s)
  {
    PatternShape(Rep(LowerDigitHyphen, 0, 61), s);
  }

  /** The three validators accept the same strings. */
  lemma ValidatorsAgree(s: string)
    ensures PathIdAccepted(s) <==> NameAccepted(s)
    ensures QueryIdAccepted(s) <==> NameAccepted(s)
  {
    IdPatternIsRules(s);
    PatternShape(Star(LowerDigitHyphen), s);
  }

  /**
   The document calls the name a DNS-1035 label; what the validator accepts is wider by exactly
   the names that start with a digit.
   */
  lemma NameVersusDns1035(s: string)
    ensures Matches(DNS1035_PATTERN, s) && |s| <= 63 <==> NameAccepted(s) && s != "" && IsLower(s[0])
  {
    PatternShape(Star(LowerDigitHyphen), s);
    var tail := Opt(Cat(Star(LowerDigitHyphen), LowerDigit));
    if Matches(DNS1035_PATTERN, s) {
      var i :| 0 <= i <= |s| && Matches(Lower, s[..i]) && Matches(tail, s[i..]);
      assert i == 1 && Matches(LowerDigit, s[..1]);
    }
    if Matches(NAME_PATTERN, s) && s != "" && IsLower(s[0]) {
      var i :| 0 <= i <= |s| && Matches(LowerDigit, s[..i]) && Matches(tail, s[i..]);
      assert i == 1 && Matches(Lower, s[..1]);
    }
  }
}
