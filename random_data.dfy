/** `RandomDataUtils`: fixed-format test data. Each random draw is a
    parameter whose range the requires clause states. */
module RandomData {
  import opened Wrappers
  import opened Errors
  import opened Text

  const FIRST_NAME_PREFIX: string := "FName"
  const MIDDLE_NAME_PREFIX: string := "MName"
  const LAST_NAME_PREFIX: string := "LName"
  const EMAIL_DOMAIN: string := "@gmail.com"

  predicate IsAsciiAlphanumerics(s: string) {
    forall i :: 0 <= i < |s| ==> IsAsciiAlphanumeric(s[i])
  }

  /** A fixed prefix followed by `letters`, which is exactly what follows the
      prefix. */
  function Prefixed(prefix: string, letters: string): (r: string)
    ensures |r| == |prefix| + |letters|
    ensures r[..|prefix|] == prefix && r[|prefix|..] == letters
  {
    prefix + letters
  }

  /** `getRandomFirstName()`: "FName" and three random letters. */
  function RandomFirstName(letters: string): (r: string)
    requires |letters| == 3 && IsLetters(letters)
    ensures |r| == 8 && r[..5] == FIRST_NAME_PREFIX && IsLetters(r[5..])
  {
    Prefixed(FIRST_NAME_PREFIX, letters)
  }

  /** `getRandomMiddleName()`: "MName" and two random letters. */
  function RandomMiddleName(letters: string): (r: string)
    requires |letters| == 2 && IsLetters(letters)
    ensures |r| == 7 && r[..5] == MIDDLE_NAME_PREFIX && IsLetters(r[5..])
  {
    Prefixed(MIDDLE_NAME_PREFIX, letters)
  }

  /** `getRandomLastName()`: "LName" and four random letters. */
  function RandomLastName(letters: string): (r: string)
    requires |letters| == 4 && IsLetters(letters)
    ensures |r| == 9 && r[..5] == LAST_NAME_PREFIX && IsLetters(r[5..])
  {
    Prefixed(LAST_NAME_PREFIX, letters)
  }

  /** `getRandomEmail(mobile)`: the mobile number at gmail.com. */
  function EmailFor(mobile: string): (r: string)
    ensures Between("", EMAIL_DOMAIN, r) == Some(mobile)
  {
    BetweenRoundTrip("", EMAIL_DOMAIN, mobile);
    assert "" + mobile + EMAIL_DOMAIN == mobile + EMAIL_DOMAIN;
    mobile + EMAIL_DOMAIN
  }

  /** Distinct mobile numbers give distinct emails. */
  lemma {:induction false} EmailForInjective(a: string, b: string)
    requires EmailFor(a) == EmailFor(b)
    ensures a == b
  {
    assert Between("", EMAIL_DOMAIN, EmailFor(a)) == Some(a);
    assert Between("", EMAIL_DOMAIN, EmailFor(b)) == Some(b);
  }

  /** `getRandomMobileNumber()`: '9' and nine random digits. */
  function RandomMobileNumber(digits: string): (r: string)
    requires |digits| == 9 && IsDigits(digits)
    ensures |r| == 10 && IsDigits(r) && r[0] == '9' && r[1..] == digits
  {
    "9" + digits
  }

  /** `getRandomEmail()`: eight random letters and digits, lower-cased, at
      gmail.com. */
  function RandomEmail(alphanumerics: string): (r: string)
    requires |alphanumerics| == 8 && IsAsciiAlphanumerics(alphanumerics)
    ensures |r| == 18 && r[8..] == EMAIL_DOMAIN
    ensures forall i :: 0 <= i < 8 ==> IsAsciiAlphanumeric(r[i]) && !IsAsciiUpper(r[i])
  {
    var user := Lower(alphanumerics);
    assert forall i :: 0 <= i < 8 ==> user[i] == LowerChar(alphanumerics[i]);
    user + EMAIL_DOMAIN
  }

  /** `getRandomAlphabetic(length)`: `length` random letters; a negative
      length is an IllegalArgumentException. */
  function RandomAlphabetic(length: int, letters: string): (r: Result<string, Ex>)
    requires length >= 0 ==> |letters| == length && IsLetters(letters)
    ensures r.Failure? <==> length < 0
    ensures r.Success? ==> |r.value| == length && IsLetters(r.value)
    ensures r.Failure? ==> r.error.IllegalArgument?
  {
    if length < 0 then
      Failure(IllegalArgument("Requested random string length is less than 0."))
    else Success(letters)
  }
}
