/** The two input checks of utils/validation.ts. */
module Validation {

  /** The institutional mail domain every account address must end with. */
  const GachonSuffix: string := "@gachon.ac.kr"

  /** The shortest password `validatePassword` accepts. */
  const MinPasswordLength: nat := 8

  /** `email.endsWith("@gachon.ac.kr")`: a case-sensitive suffix test. */
  function IsGachonEmail(email: string): (ok: bool)
    ensures ok ==> |GachonSuffix| <= |email| && email == email[..|email| - |GachonSuffix|] + GachonSuffix
    ensures !ok ==> |email| < |GachonSuffix| || email[|email| - |GachonSuffix|..] != GachonSuffix
  {
    |GachonSuffix| <= |email| && email[|email| - |GachonSuffix|..] == GachonSuffix
  }

  /** `password.length >= 8`. */
  function ValidatePassword(password: string): (ok: bool)
    ensures ok ==> |password| >= MinPasswordLength && password != ""
    ensures !ok ==> |password| < MinPasswordLength
  {
    |password| >= MinPasswordLength
  }

  /** An address is institutional exactly when it is some local part followed by the domain. */
  lemma IsGachonEmailIffSuffix(email: string)
    ensures IsGachonEmail(email) <==> exists local :: email == local + GachonSuffix
  {
    if IsGachonEmail(email) {
      var local := email[..|email| - |GachonSuffix|];
      assert email == local + GachonSuffix;
    }
    if exists local :: email == local + GachonSuffix {
      var local :| email == local + GachonSuffix;
      assert email[|local|..] == GachonSuffix;
    }
  }

  /** Every local part, the empty one included, yields an accepted address. */
  lemma AnyLocalPartAccepted(local: string)
    ensures IsGachonEmail(local + GachonSuffix)
  {
    assert (local + GachonSuffix)[|local|..] == GachonSuffix;
  }

  /** Other domains and other letter cases of the domain are rejected. */
  lemma OtherDomainsRejected()
    ensures !IsGachonEmail("a@gmail.com")
    ensures !IsGachonEmail("x@GACHON.AC.KR")
    ensures !IsGachonEmail("")
  {
    var upper := "x@GACHON.AC.KR";
    assert upper[|upper| - |GachonSuffix|..][1] == 'G';
  }

  /** A password that passes still passes when more characters are appended. */
  lemma ValidatePasswordMonotone(password: string, more: string)
    requires ValidatePassword(password)
    ensures ValidatePassword(password + more)
  {
  }

  /** Eight characters pass; seven and none do not. */
  lemma ValidatePasswordThreshold()
    ensures ValidatePassword("12345678")
    ensures !ValidatePassword("1234567")
    ensures !ValidatePassword("")
  {
  }
}
