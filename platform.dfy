/** The four platforms a test can run on, and `Platform.fromString`. */
module Platforms {
  import opened Wrappers
  import opened Errors
  import opened Text

  datatype Platform = WEB | ANDROID | IOS | MOBILE_WEB {
    /** WEB and MOBILE_WEB drive a browser; ANDROID and IOS a native app. */
    predicate IsBrowser() {
      this == WEB || this == MOBILE_WEB
    }
  }

  /** `Enum.name()`: the constant's identifier. */
  function Name(p: Platform): string {
    match p
    case WEB => "WEB"
    case ANDROID => "ANDROID"
    case IOS => "IOS"
    case MOBILE_WEB => "MOBILE_WEB"
  }

  /** `Platform.valueOf`: an exact, case-sensitive match on a constant's name. */
  function ValueOf(name: string): (r: Option<Platform>)
    ensures forall p :: r == Some(p) <==> Name(p) == name
  {
    if name == "WEB" then Some(WEB)
    else if name == "ANDROID" then Some(ANDROID)
    else if name == "IOS" then Some(IOS)
    else if name == "MOBILE_WEB" then Some(MOBILE_WEB)
    else None
  }

  const BLANK_MESSAGE: string :=
    "Platform is null or empty. Please set it using -Dplatform or in config.properties. " +
    "Supported platforms: WEB, ANDROID, IOS, MOBILE_WEB."

  function InvalidMessage(raw: string): string {
    "Invalid platform: '" + raw + "'. Supported platforms are: WEB, ANDROID, IOS, MOBILE_WEB."
  }

  /** `Platform.fromString`: null or blank input and unknown names raise
      IllegalArgumentException; otherwise the trimmed, upper-cased input
      names the constant returned. */
  function FromString(raw: Option<string>): (r: Result<Platform, Ex>)
    ensures r.Success? <==> raw.Some? && ValueOf(Upper(Trim(raw.value))).Some?
    ensures r.Success? ==> Name(r.value) == Upper(Trim(raw.value))
    ensures (raw.None? || IsBlank(raw.value)) ==> r == Failure(IllegalArgument(BLANK_MESSAGE))
    ensures raw.Some? && !IsBlank(raw.value) && r.Failure? ==>
              r.error == IllegalArgument(InvalidMessage(raw.value))
  {
    if raw.None? || Trim(raw.value) == [] then
      Failure(IllegalArgument(BLANK_MESSAGE))
    else
      match ValueOf(Upper(Trim(raw.value)))
      case Some(p) => Success(p)
      case None => Failure(IllegalArgument(InvalidMessage(raw.value)))
  }

  /** The page objects and JavaScriptUtils read the platform as
      `Platform.fromString(System.getProperty("platform", "WEB"))`. */
  function FromSystemProperty(system: map<string, string>): (r: Result<Platform, Ex>)
    ensures "platform" !in system ==> r == Success(WEB)
    ensures "platform" in system ==> r == FromString(Some(system["platform"]))
  {
    var raw := if "platform" in system then system["platform"] else "WEB";
    ParseName(WEB);
    FromString(Some(raw))
  }

  /** Parsing a constant's own name gives that constant. */
  lemma ParseName(p: Platform)
    ensures FromString(Some(Name(p))) == Success(p)
  {
    NameCanonical(p);
    ParseCanonical(Name(p), p);
  }

  /** Every constant's name is already trimmed and upper-case. */
  lemma NameCanonical(p: Platform)
    ensures Upper(Trim(Name(p))) == Name(p)
  {
    CanonicalText(Name(p));
  }

  /** Any input whose trimmed, upper-cased form is a constant's name parses
      to that constant. */
  lemma ParseCanonical(s: string, p: Platform)
    requires Upper(Trim(s)) == Name(p)
    ensures FromString(Some(s)) == Success(p)
  {
  }

  /** Two inputs that differ only in the case of their letters parse the
      same way. */
  lemma ParseIgnoresCase(s: string, t: string)
    requires Upper(s) == Upper(t)
    ensures FromString(Some(s)).Success? == FromString(Some(t)).Success?
    ensures FromString(Some(s)).Success? ==> FromString(Some(s)) == FromString(Some(t))
  {
    UpperTrim(s);
    UpperTrim(t);
    assert Upper(Trim(s)) == Upper(Trim(t));
  }

  /** "web", "Web" and "WEB" all name WEB, and likewise for every constant. */
  lemma ParseAnyCase(s: string, p: Platform)
    requires Upper(s) == Name(p)
    ensures FromString(Some(s)) == Success(p)
  {
    ParseName(p);
    assert Upper(Name(p)) == Name(p);
    ParseIgnoresCase(s, Name(p));
  }

  /** Leading and trailing whitespace is removed before matching. */
  lemma ParseIgnoresPadding(w1: string, s: string, w2: string)
    requires IsBlank(w1) && IsBlank(w2) && !IsBlank(s)
    ensures FromString(Some(w1 + s + w2)).Success? == FromString(Some(s)).Success?
    ensures FromString(Some(s)).Success? ==> FromString(Some(w1 + s + w2)) == FromString(Some(s))
  {
    TrimIgnoresPadding(w1, s, w2);
  }

  /** No input outside the four names is ever mapped to a default. */
  lemma ParseNeverDefaults(s: string)
    requires forall p :: Upper(Trim(s)) != Name(p)
    ensures FromString(Some(s)).Failure?
  {
  }
}
