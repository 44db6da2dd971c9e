/** Element locators (`By`) and the per-platform choice between a web and a
    native locator that every page object's getters make. */
module Locators {
  import opened Wrappers
  import opened Text
  import opened Platforms

  /** The three locator strategies the page objects use: `By.xpath`,
      `By.cssSelector` and `AppiumBy.flutterKey`. */
  datatype By = XPath(expr: string) | Css(selector: string) | FlutterKey(key: string) {
    /** The selector text the locator was built from. */
    function Selector(): string {
      match this
      case XPath(e) => e
      case Css(s) => s
      case FlutterKey(k) => k
    }
  }

  /** What a page getter returns: one locator for the browser platforms and
      one for the native apps. */
  datatype LocatorPair = LocatorPair(web: By, native: By)

  /** `switch (platform) { case WEB, MOBILE_WEB -> web; case ANDROID, IOS -> native; }` */
  function ForPlatform(p: Platform, pair: LocatorPair): (r: By)
    ensures p.IsBrowser() ==> r == pair.web
    ensures !p.IsBrowser() ==> r == pair.native
  {
    match p
    case WEB | MOBILE_WEB => pair.web
    case ANDROID | IOS => pair.native
  }

  /** Every getter gives WEB and MOBILE_WEB one locator and ANDROID and IOS
      another. */
  lemma PlatformsPair(pair: LocatorPair)
    ensures ForPlatform(WEB, pair) == ForPlatform(MOBILE_WEB, pair)
    ensures ForPlatform(ANDROID, pair) == ForPlatform(IOS, pair)
  {
  }

  /** `By.toString()`, as concatenated into log and exception messages. */
  function Describe(loc: By): string {
    match loc
    case XPath(e) => "By.xpath: " + e
    case Css(s) => "By.cssSelector: " + s
    case FlutterKey(k) => "AppiumBy.flutterKey: " + k
  }

  /** A locator's description names its selector. */
  lemma {:induction false} DescribeNamesSelector(loc: By)
    ensures Contains(Describe(loc), loc.Selector())
  {
    var d := Describe(loc);
    var s := loc.Selector();
    var i := |d| - |s|;
    assert d[i..] == s;
    assert OccursAt(d, s, i);
  }
}
