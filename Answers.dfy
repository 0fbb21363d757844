// Answer normalisation (Trainer.submitPair): the text box's value is
// upper-cased and then trimmed of white space on both ends; an empty result
// is not an answer.

module Answers {

  /** ECMAScript WhiteSpace and LineTerminator code points, the set String.prototype.trim removes. */
  predicate IsWhitespace(c: char)
  {
    c == '\t' || c == '\n' || c == '\U{B}' || c == '\U{C}' || c == '\r' || c == ' '
    || c == '\U{A0}' || c == '\U{1680}' || ('\U{2000}' <= c <= '\U{200A}')
    || c == '\U{2028}' || c == '\U{2029}' || c == '\U{202F}' || c == '\U{205F}'
    || c == '\U{3000}' || c == '\U{FEFF}'
  }

  predicate IsLowerAscii(c: char)
  {
    'a' <= c <= 'z'
  }

  /** toUpperCase on one character, for the ASCII letters. */
  function ToUpper(c: char): (u: char)
    ensures !IsLowerAscii(u)
    ensures IsWhitespace(u) <==> IsWhitespace(c)
    ensures !IsLowerAscii(c) ==> u == c
    ensures IsLowerAscii(c) ==> 'A' <= u <= 'Z' && u as int - 'A' as int == c as int - 'a' as int
  {
    if IsLowerAscii(c) then (c as int - 32) as char else c
  }

  /** `toUpperCase()`: same length, each lower-case letter replaced by its capital, nothing else changed. */
  function UpperCase(s: string): (r: string)
    ensures |r| == |s|
    ensures forall i :: 0 <= i < |s| ==> !IsLowerAscii(r[i])
    ensures forall i :: 0 <= i < |s| && IsLowerAscii(s[i]) ==> r[i] as int == s[i] as int - ('a' as int - 'A' as int)
    ensures forall i :: 0 <= i < |s| && !IsLowerAscii(s[i]) ==> r[i] == s[i]
  {
    seq(|s|, i requires 0 <= i < |s| => ToUpper(s[i]))
  }

  lemma UpperCaseAt(s: string)
    ensures |UpperCase(s)| == |s|
    ensures forall i :: 0 <= i < |s| ==> UpperCase(s)[i] == ToUpper(s[i])
  {
  }

  /** How many white-space characters trimStart drops. */
  function LeadingSpace(s: string): (k: nat)
    ensures k <= |s|
    ensures forall i :: 0 <= i < k ==> IsWhitespace(s[i])
    ensures k == |s| || !IsWhitespace(s[k])
  {
    if |s| > 0 && IsWhitespace(s[0]) then 1 + LeadingSpace(s[1..]) else 0
  }

  /** How many characters trimEnd keeps. */
  function KeptLength(s: string): (k: nat)
    ensures k <= |s|
    ensures forall i :: k <= i < |s| ==> IsWhitespace(s[i])
    ensures k == 0 || !IsWhitespace(s[k - 1])
  {
    if |s| > 0 && IsWhitespace(s[|s| - 1]) then KeptLength(s[..|s| - 1]) else |s|
  }

  /** String.prototype.trim: drop white space at both ends. */
  function Trim(s: string): (r: string)
    ensures LeadingSpace(s) + |r| <= |s|
    ensures r == s[LeadingSpace(s)..LeadingSpace(s) + |r|]
    ensures r == [] || (!IsWhitespace(r[0]) && !IsWhitespace(r[|r| - 1]))
    ensures forall i :: LeadingSpace(s) + |r| <= i < |s| ==> IsWhitespace(s[i])
  {
    var t := s[LeadingSpace(s)..];
    t[..KeptLength(t)]
  }

  /** `value.toUpperCase().trim()`: what submitPair stores. It has no lower-case
      letter and no white space at either end. */
  function Normalize(s: string): (r: string)
    ensures |r| <= |s|
    ensures r == [] || (!IsWhitespace(r[0]) && !IsWhitespace(r[|r| - 1]))
    ensures forall i :: 0 <= i < |r| ==> !IsLowerAscii(r[i])
  {
    TrimKeepsUpper(UpperCase(s));
    Trim(UpperCase(s))
  }

  /** Trimming only removes characters, so it brings back no lower-case letter. */
  lemma TrimKeepsUpper(u: string)
    requires forall i :: 0 <= i < |u| ==> !IsLowerAscii(u[i])
    ensures forall i :: 0 <= i < |Trim(u)| ==> !IsLowerAscii(Trim(u)[i])
  {
    var k := LeadingSpace(u);
    var r := Trim(u);
    forall i | 0 <= i < |r|
      ensures !IsLowerAscii(r[i])
    {
      assert r[i] == u[k + i];
    }
  }

  /** What an answer in userAnswers looks like: non-empty, no lower-case letter,
      no white space at either end. */
  predicate IsAnswer(a: string)
  {
    && a != []
    && !IsWhitespace(a[0]) && !IsWhitespace(a[|a| - 1])
    && forall i :: 0 <= i < |a| ==> !IsLowerAscii(a[i])
  }

  /** trim() yields "" exactly when every character is white space. */
  lemma TrimEmptyIff(s: string)
    ensures Trim(s) == [] <==> forall i :: 0 <= i < |s| ==> IsWhitespace(s[i])
  {
    var k := LeadingSpace(s);
    var t := s[k..];
    if k < |s| {
      assert t[0] == s[k];
      assert KeptLength(t) > 0;
    }
  }

  /** Upper-casing does not change which characters are white space, so the
      emptiness test of handleEnter (trim only) and of submitPair agree. */
  lemma NormalizeEmptyIff(s: string)
    ensures Normalize(s) == [] <==> Trim(s) == []
    ensures Normalize(s) == [] <==> forall i :: 0 <= i < |s| ==> IsWhitespace(s[i])
  {
    var u := UpperCase(s);
    UpperCaseAt(s);
    TrimEmptyIff(s);
    TrimEmptyIff(u);
    assert (forall i :: 0 <= i < |u| ==> IsWhitespace(u[i]))
       <==> (forall i :: 0 <= i < |s| ==> IsWhitespace(s[i]));
  }

  /** A string with no lower-case letters and no white space at either end is its own normal form. */
  lemma NormalFormFixed(s: string)
    requires s == [] || (!IsWhitespace(s[0]) && !IsWhitespace(s[|s| - 1]))
    requires forall i :: 0 <= i < |s| ==> !IsLowerAscii(s[i])
    ensures Normalize(s) == s
  {
    UpperCaseAt(s);
    assert UpperCase(s) == s;
    assert LeadingSpace(s) == 0;
    assert KeptLength(s) == |s|;
  }

  /** Normalising twice is normalising once. */
  lemma NormalizeIdempotent(s: string)
    ensures Normalize(Normalize(s)) == Normalize(s)
  {
    NormalFormFixed(Normalize(s));
  }

  /** Every non-empty normalised value is an answer. */
  lemma NormalizedIsAnswer(s: string)
    requires Normalize(s) != []
    ensures IsAnswer(Normalize(s))
  {
  }

  /** Answers are exactly the non-empty strings that normalisation leaves alone. */
  lemma AnswerIffNormal(a: string)
    ensures IsAnswer(a) <==> a != [] && Normalize(a) == a
  {
    if IsAnswer(a) {
      NormalFormFixed(a);
    }
    if a != [] && Normalize(a) == a {
      NormalizedIsAnswer(a);
    }
  }

  /** Typing " ab " stores "AB": the letters are upper-cased and the spaces trimmed. */
  lemma LowerCaseScenario()
    ensures Normalize(" ab ") == "AB"
  {
    var u := UpperCase(" ab ");
    assert u == " AB ";
    assert LeadingSpace(u) == 1;
    assert KeptLength(u[1..]) == 2;
  }
}
