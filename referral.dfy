/** The referral-code generator (internals/utils/generate_referal_code.go).
    The random index is a nondeterministic choice: the model promises what
    every code looks like, whatever the random source returns. */
module Referral {

  const CodeLength := 6

  predicate IsAlphanumeric(c: char)
  {
    ('a' <= c <= 'z') || ('A' <= c <= 'Z') || ('0' <= c <= '9')
  }

  const Lowercase := "abcdefghijklmnopqrstuvwxyz"
  const Uppercase := "ABCDEFGHIJKLMNOPQRSTUVWXYZ"
  const DecimalDigits := "0123456789"

  /** The alphabet of the codes: the lower-case letters, the upper-case
      letters and the digits, in that order. */
  const Domains := Lowercase + Uppercase + DecimalDigits

  /** Each of the three runs is exactly its range of characters. */
  lemma RunsAreRanges()
    ensures forall c: char :: c in Lowercase <==> 'a' <= c <= 'z'
    ensures forall c: char :: c in Uppercase <==> 'A' <= c <= 'Z'
    ensures forall c: char :: c in DecimalDigits <==> '0' <= c <= '9'
  {
    LowercaseRange();
    UppercaseRange();
    DigitsRange();
  }

  lemma LowercaseRange()
    ensures forall c: char :: c in Lowercase <==> 'a' <= c <= 'z'
  {
  }

  lemma UppercaseRange()
    ensures forall c: char :: c in Uppercase <==> 'A' <= c <= 'Z'
  {
  }

  lemma DigitsRange()
    ensures forall c: char :: c in DecimalDigits <==> '0' <= c <= '9'
  {
  }

  /** The alphabet is exactly the 62 ASCII letters and digits: the lower-case
      letters, then the upper-case ones, then the digits. */
  lemma DomainsAreAlphanumerics()
    ensures |Domains| == 62
    ensures forall c: char :: c in Domains <==> IsAlphanumeric(c)
  {
    RunsAreRanges();
    forall c: char
      ensures c in Domains <==> IsAlphanumeric(c)
    {
      assert c in Domains <==> c in Lowercase + Uppercase || c in DecimalDigits;
      assert c in Lowercase + Uppercase <==> c in Lowercase || c in Uppercase;
    }
  }

  predicate IsReferralCode(code: string)
  {
    |code| == CodeLength && forall i :: 0 <= i < |code| ==> code[i] in Domains
  }

  /** GenerateReferalCode: six characters, each drawn from the alphabet.
      The method touches no state. */
  method GenerateReferralCode() returns (code: string)
    ensures IsReferralCode(code)
    ensures forall i :: 0 <= i < |code| ==> IsAlphanumeric(code[i])
  {
    DomainsAreAlphanumerics();
    code := "";
    var n := 0;
    while n < CodeLength
      invariant 0 <= n <= CodeLength
      invariant |code| == n
      invariant forall i :: 0 <= i < |code| ==> code[i] in Domains
    {
      var k :| 0 <= k < |Domains|;
      code := code + [Domains[k]];
      n := n + 1;
    }
  }
}
