/** `MobileNumberUtils`: ten-digit numbers whose first digit says whether the
    number is valid (5-9) or invalid (0-4), saved to config.properties. */
module MobileNumbers {
  import opened Wrappers
  import opened Errors
  import opened Text
  import opened Config

  const VALID_KEY: string := "valid.mobile"
  const INVALID_KEY: string := "invalid.mobile"

  predicate IsDraws(ds: seq<nat>) {
    forall i :: 0 <= i < |ds| ==> ds[i] < 10
  }

  predicate IsValidMobile(s: string) {
    |s| == 10 && IsDigits(s) && '5' <= s[0] <= '9'
  }

  predicate IsInvalidMobile(s: string) {
    |s| == 10 && IsDigits(s) && '0' <= s[0] <= '4'
  }

  /** No number is both valid and invalid: the first-digit ranges are
      disjoint. */
  lemma ValidAndInvalidDisjoint(s: string)
    ensures !(IsValidMobile(s) && IsInvalidMobile(s))
  {
  }

  /** The `StringBuilder` loop both generators run: the first digit, then
      nine more draws appended one at a time. */
  method AppendDigits(first: nat, rest: seq<nat>) returns (s: string)
    requires first < 10 && |rest| == 9 && IsDraws(rest)
    ensures s == DigitsOf([first] + rest)
    ensures |s| == 10 && IsDigits(s) && s[0] == DigitChar(first)
  {
    s := [DigitChar(first)];
    for i := 0 to 9
      invariant s == DigitsOf([first] + rest[..i])
    {
      assert [first] + rest[..i + 1] == ([first] + rest[..i]) + [rest[i]];
      s := s + [DigitChar(rest[i])];
    }
    assert rest[..9] == rest;
  }

  /** `generateValidMobileNumber()`: first digit `5 + draw`; the number is
      saved under "valid.mobile" and returned, or the failed save is
      rethrown. */
  method GenerateValidMobileNumber(store: ConfigStore, draw: nat, rest: seq<nat>, writeOk: bool)
    returns (r: Result<string, Ex>)
    requires draw < 5 && |rest| == 9 && IsDraws(rest)
    modifies store`saved
    ensures var number := DigitsOf([5 + draw] + rest);
            IsValidMobile(number)
            && (r.Success? <==> Persisted(store.resource, VALID_KEY, number, writeOk).Success?)
            && (r.Success? ==> r.value == number && store.saved.Some?
                               && VALID_KEY in store.saved.value && store.saved.value[VALID_KEY] == r.value
                               && store.saved == Some(Persisted(store.resource, VALID_KEY, number, writeOk).value))
            && (r.Failure? ==> store.saved == old(store.saved)
                               && r.error == Runtime(WRITE_FAILED, Some(Io)))
  {
    var number := AppendDigits(5 + draw, rest);
    var saved := store.Set(VALID_KEY, number, writeOk);
    match saved
    case Pass => r := Success(number);
    case Fail(e) => r := Failure(e);
  }

  /** `generateInvalidMobileNumber()`: first digit `draw` (0-4), saved under
      "invalid.mobile". */
  method GenerateInvalidMobileNumber(store: ConfigStore, draw: nat, rest: seq<nat>, writeOk: bool)
    returns (r: Result<string, Ex>)
    requires draw < 5 && |rest| == 9 && IsDraws(rest)
    modifies store`saved
    ensures var number := DigitsOf([draw] + rest);
            IsInvalidMobile(number)
            && (r.Success? <==> Persisted(store.resource, INVALID_KEY, number, writeOk).Success?)
            && (r.Success? ==> r.value == number && store.saved.Some?
                               && INVALID_KEY in store.saved.value && store.saved.value[INVALID_KEY] == r.value
                               && store.saved == Some(Persisted(store.resource, INVALID_KEY, number, writeOk).value))
            && (r.Failure? ==> store.saved == old(store.saved)
                               && r.error == Runtime(WRITE_FAILED, Some(Io)))
  {
    var number := AppendDigits(draw, rest);
    var saved := store.Set(INVALID_KEY, number, writeOk);
    match saved
    case Pass => r := Success(number);
    case Fail(e) => r := Failure(e);
  }
}
