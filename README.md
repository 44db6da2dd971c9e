# Briskpe cross-platform test framework, modelled in Dafny

The Briskpe framework drives one Flutter application on four platforms:
WEB, MOBILE_WEB, ANDROID and IOS. It uses Selenium for the browsers and
Appium for the native apps. This project models its core:

- the platform name parser (`Platform.fromString`);
- configuration lookup and persistence (`Config`);
- the per-thread driver slots (`DriverManager`, `DriverFactory`) and the session requests `DriverFactory` assembles;
- the platform-dependent locator choice in `BasePage` and in the four page objects (`LoginPage`, `SignUp`, `DashBoard`, `UsersProfile`);
- the JavaScript click helpers (`JavaScriptUtils`);
- the random test-data generators (`RandomDataUtils`, `MobileNumberUtils`);
- the spreadsheet reader and writer (`ExcelUtils`).

## How the model is built

- **The browser or device is an oracle.** A `Backend.Remote` object holds four fixed answer functions:
  - whether a driver call on a session fails, and with which Selenium exception;
  - whether an element is displayed;
  - whether an element is enabled;
  - what a script returns.

  It also holds the log of the calls made so far (`events`). A method that talks to the driver is specified by the calls it appends to that log and by the exception it raises.
- **`Backend.Run` is the semantics of one Java `try` block.** It makes the calls in order and stops at the first failure. A null driver raises NullPointerException before any call is made.
- **Page methods are stated through `Run`.** Each page method is specified as `Run` of the calls it makes, followed by the page's own `catch`: it swallows the failure, wraps it in a RuntimeException, or lets it propagate.
- **Java `null` is `Option.None`, and a thrown exception is `Result.Failure` or `Outcome.Fail`.**
- **Per-thread state.** `ThreadLocal` is a map from thread to value. `DriverManager` and `DriverFactory` each own a separate one, as in the source.
- **System properties and the properties file are plain values** (`Config.Sources`). Writing the properties file is the class `Config.ConfigStore`, whose `saved` field is the file on disk.
- **Random draws are parameters.** Their range is stated as a precondition, and the model proves the format of whatever is drawn.
- **A spreadsheet is a map.** Sheet name maps to row index, which maps to a sequence of optional cells. `ExcelUtils.ExcelFile` holds the workbook file, which `writeCell` replaces.

Two facts about the code that the model keeps:

- `createDriver` is not idempotent. A second call replaces the stored session without quitting the first.
- No locator getter reports a platform as unsupported: every `switch` covers all four platforms. `BasePage` falls back to the web locator for any other setting. `DriverFactory.createDriver(MOBILE_WEB)`, however, does raise IllegalStateException.

Points in the code worth knowing, all reflected in the model:

- Several native Flutter keys are shared between different page elements, so on ANDROID and IOS those elements cannot be told apart (`UsersProfile.NativeKeysShared`, `SignUp.NativeKeysShared`).
- `DashBoard`'s pending-action page xpath quotes its identifier with double quotes, while the other identifier xpaths use single quotes. Both forms carry the Flutter key (`DashBoard.IdentifierIsFlutterKey`).
- Some calls do not match any declared signature, and the model uses the declared method in each case:
  - `UsersProfile.java:321` calls `jsClick(locator, driver)`, but the declared method is `jsClick(By, String)`.
  - `SignUp.java:327` calls a two-argument `clickElementWithJS`, but the declared one takes a WebElement.
  - `SignUp` calls `WaitUtils.untilClickable`, which `WaitUtils` does not declare. It is modelled as a wait that may throw.

## Model

| member | source | states |
|---|---|---|
| Text.Trim | src/main/java/com/briskpe/framework/core/Platform.java:32 | `String.trim`: the result is a middle part of the input with only chars <= U+0020 before and after it; it is empty exactly when the input is all such chars, and otherwise starts and ends with a non-space char |
| Text.TrimIgnoresPadding | src/main/java/com/briskpe/framework/core/Platform.java:39 | surrounding the input with whitespace never changes what `trim` returns |
| Text.Upper | src/main/java/com/briskpe/framework/core/Platform.java:39 | `toUpperCase`: same length, each char is the upper-case form of the input char at that position, so no lower-case letter is left and every non-letter is unchanged |
| Text.Lower | src/main/java/com/briskpe/framework/utils/RandomDataUtils.java:67 | `toLowerCase`: same length, each char is the lower-case form of the input char at that position, so no upper-case letter is left and every non-letter is unchanged |
| Text.UpperTrim | src/main/java/com/briskpe/framework/core/Platform.java:39 | upper-casing commutes with `trim` |
| Platforms.ValueOf | src/main/java/com/briskpe/framework/core/Platform.java:39 | `Enum.valueOf` returns `p` exactly when the text is `p`'s name (case-sensitive) |
| Platforms.FromString | src/main/java/com/briskpe/framework/core/Platform.java:31-45 | success iff the trimmed, upper-cased input names a constant, and then the result has that name; null/blank input and unknown names raise IllegalArgumentException with the two source messages |
| Platforms.ParseName | src/main/java/com/briskpe/framework/core/Platform.java:31-45 | parsing a constant's own name gives that constant back (round trip) |
| Platforms.ParseAnyCase | src/main/java/com/briskpe/framework/core/Platform.java:39 | any capitalisation of a constant's name parses to it |
| Platforms.ParseIgnoresCase | src/main/java/com/briskpe/framework/core/Platform.java:39 | two inputs equal up to letter case parse the same way |
| Platforms.ParseIgnoresPadding | src/main/java/com/briskpe/framework/core/Platform.java:39 | leading/trailing whitespace does not change the result |
| Platforms.ParseNeverDefaults | src/main/java/com/briskpe/framework/core/Platform.java:40-44 | any input outside the four names fails; there is no default platform |
| Platforms.FromSystemProperty | src/main/java/com/briskpe/framework/utils/JavaScriptUtils.java:14 | with no `platform` system property the platform is WEB; otherwise it is `fromString` of the property's value |
| Config.Get | src/main/java/com/briskpe/framework/core/Config.java:25-27 | a system property wins over the properties file; null iff the key is in neither |
| Config.GetOr | src/main/java/com/briskpe/framework/core/Config.java:30-32 | the default is used exactly when the key is in neither source |
| Config.SystemWins | src/main/java/com/briskpe/framework/core/Config.java:24-32 | a system property hides any file value and any default |
| Config.LoadTable | src/main/java/com/briskpe/framework/core/Config.java:13-22 | a missing resource gives an empty table, an unreadable one "Cannot load config.properties" wrapping the IOException |
| Config.Persisted | src/main/java/com/briskpe/framework/core/Config.java:33-54 | the written table maps the key to the value and keeps every other key of the classpath copy; a write failure raises the source's RuntimeException |
| Config.SetsDoNotAccumulate | src/main/java/com/briskpe/framework/core/Config.java:37-48 | `set` starts from the classpath copy, not from the file it wrote, so an earlier `set` of another key is lost |
| Config.ConfigStore.Set | src/main/java/com/briskpe/framework/core/Config.java:33-54 | the saved file becomes the persisted table on success and is unchanged on failure (see the Left out line on truncation); the error is `Persisted`'s |
| Config.Load | src/main/java/com/briskpe/framework/core/Config.java:13-22 | the store is created unless the resource is unreadable, with the source's message |
| ThreadLocals.ThreadLocal.Get | src/main/java/com/briskpe/framework/core/DriverManager.java:13-15 | a thread sees its own value, or null |
| ThreadLocals.ThreadLocal.Set | src/main/java/com/briskpe/framework/core/DriverManager.java:9-11 | sets the calling thread's value; every other thread's value is unchanged |
| DriverManager.DriverManager.GetDriver | src/main/java/com/briskpe/framework/core/DriverManager.java:13-15 | the calling thread's driver, null exactly when the thread has none stored |
| ThreadLocals.ThreadLocal.Remove | src/main/java/com/briskpe/framework/core/DriverManager.java:21 | clears the calling thread's value only |
| ThreadLocals.RemoveIdempotent | src/main/java/com/briskpe/framework/core/DriverFactory.java:77 | removing twice is removing once |
| ThreadLocals.SetOverwrites | src/main/java/com/briskpe/framework/core/DriverFactory.java:52-54 | a second set replaces the first |
| DriverManager.DriverManager.SetDriver | src/main/java/com/briskpe/framework/core/DriverManager.java:9-11 | the calling thread's driver becomes the argument; other threads unchanged |
| DriverManager.DriverManager.QuitDriver | src/main/java/com/briskpe/framework/core/DriverManager.java:17-23 | no driver: nothing happens; otherwise one Quit call, and the slot is cleared only if quit did not throw; other threads unchanged |
| Locators.ForPlatform | src/main/java/com/briskpe/framework/pages/DashBoard.java:38-43 | WEB and MOBILE_WEB get the web locator, ANDROID and IOS the native one |
| Locators.PlatformsPair | src/main/java/com/briskpe/framework/pages/DashBoard.java:38-43 | every getter pairs WEB with MOBILE_WEB and ANDROID with IOS |
| Locators.DescribeNamesSelector | src/main/java/com/briskpe/framework/utils/JavaScriptUtils.java:103 | `By.toString()` contains the locator's selector text |
| Capabilities.ChromeOptions | src/main/java/com/briskpe/framework/core/DriverFactory.java:86-105 | exactly the `--disable-notifications` argument and the notifications pref set to 2 (block) |
| Capabilities.ParseBoolean | src/main/java/com/briskpe/framework/core/DriverFactory.java:121 | `Boolean.parseBoolean`: true iff the text is "true" ignoring case |
| Capabilities.AndroidOptions | src/main/java/com/briskpe/framework/core/DriverFactory.java:111-121 | udid, package and activity come from configuration, automation "Flutter", platform "Android", noReset from `noReset` |
| Capabilities.NoResetDefaultsToTrue | src/main/java/com/briskpe/framework/core/DriverFactory.java:120 | an unset `noReset` means no reset |
| Capabilities.IOSOptions | src/main/java/com/briskpe/framework/core/DriverFactory.java:133-138 | device name from configuration, bundle `com.briskpe.app`, automation "Flutter" |
| Capabilities.Endpoint | src/main/java/com/briskpe/framework/core/DriverFactory.java:124 | `appium.url`, defaulting to `http://127.0.0.1:4723` |
| DriverFactory.PlatformSetting | src/main/java/com/briskpe/framework/core/DriverFactory.java:39 | the system property, falling back to the file, is exactly `Config.get("platform")` |
| DriverFactory.Blueprint | src/main/java/com/briskpe/framework/core/DriverFactory.java:48-61 | WEB asks for Chrome; ANDROID/IOS for their options at the endpoint, failing with "Bad Appium server URL" on a malformed URL; MOBILE_WEB (and only it) raises IllegalStateException |
| DriverFactory.SessionCalls | src/main/java/com/briskpe/framework/core/DriverFactory.java:102-103 | a session is opened first, and only Chrome is maximised |
| DriverFactory.WebIgnoresUrl | src/main/java/com/briskpe/framework/core/DriverFactory.java:52 | a web session never depends on the Appium URL |
| DriverFactory.DriverFactory.GetDriver | src/main/java/com/briskpe/framework/core/DriverFactory.java:66-68 | the calling thread's session from the factory's own slot, null exactly when the thread has none stored |
| DriverFactory.DriverFactory.CreateDriverFor | src/main/java/com/briskpe/framework/core/DriverFactory.java:48-61 | on success the thread's slot holds a fresh session distinct from every other thread's; on failure the slot is unchanged; other threads unchanged |
| DriverFactory.DriverFactory.CreateDriver | src/main/java/com/briskpe/framework/core/DriverFactory.java:37-43 | a platform setting that fails to parse raises that error and touches nothing; one that parses requests the parsed platform's session: the same error, calls, session count and slot update as `CreateDriverFor` on that platform |
| DriverFactory.DriverFactory.QuitDriver | src/main/java/com/briskpe/framework/core/DriverFactory.java:73-79 | as `DriverManager.QuitDriver`, on the factory's own slot |
| Backend.Run | src/main/java/com/briskpe/framework/base/BasePage.java:43-53 | the calls made are a prefix of the block's calls, all on the one driver; no error iff every call succeeds; a null driver raises NullPointerException with no call made |
| Backend.CompleteRunMakesEveryCall | src/main/java/com/briskpe/framework/base/BasePage.java:43-53 | a block that does not fail makes every one of its calls, in order |
| Backend.RunAppend | src/main/java/com/briskpe/framework/pages/LoginPage.java:73-96 | two blocks run one after the other log the concatenation of their calls when the first succeeds |
| Backend.RunStopsAtFailure | src/main/java/com/briskpe/framework/pages/LoginPage.java:73-96 | once a block fails, nothing after it in the same `try` runs |
| BasePage.Setting | src/main/java/com/briskpe/framework/base/BasePage.java:26 | the `platform` setting (system property, then file, then "WEB") upper-cased char by char and not trimmed |
| BasePage.SettingIgnoresCase | src/main/java/com/briskpe/framework/base/BasePage.java:26-31 | a setting in any case that upper-cases to ANDROID or IOS selects that platform's locator, or the web one when it is null |
| BasePage.LocatorForPlatform | src/main/java/com/briskpe/framework/base/BasePage.java:25-37 | ANDROID/IOS take their locator when given and fall back to the web one; every other setting takes the web locator |
| BasePage.PaddedSettingUsesWeb | src/main/java/com/briskpe/framework/base/BasePage.java:26-35 | BasePage does not trim, so a padded setting such as " ANDROID" selects the web locator |
| BasePage.FailuresNameElement | src/main/java/com/briskpe/framework/base/BasePage.java:52 | both failure messages name the element |
| BasePage.OnLocator | src/main/java/com/briskpe/framework/base/BasePage.java:44-48 | a null locator fails before any call: NullPointerException on a null driver, otherwise the driver's IllegalArgumentException "Locator must be set" |
| BasePage.EnterText | src/main/java/com/briskpe/framework/base/BasePage.java:42-54 | find, clear, type on the chosen locator; any failure becomes "Failed to enter text in '…'" |
| BasePage.ClickElement | src/main/java/com/briskpe/framework/base/BasePage.java:59-70 | find, click on the chosen locator; any failure becomes "Failed to click on '…'" |
| JavaScriptUtils.JsClickCalls | src/main/java/com/briskpe/framework/utils/JavaScriptUtils.java:84-100 | find first; then on WEB the default JS click when `js.Query` is null or empty, else the configured query; elsewhere a native click |
| JavaScriptUtils.ScriptOnlyOnWeb | src/main/java/com/briskpe/framework/utils/JavaScriptUtils.java:86-100 | a script runs iff the platform is WEB |
| JavaScriptUtils.JsClickFailureNamesLocator | src/main/java/com/briskpe/framework/utils/JavaScriptUtils.java:103 | the failure message names the locator's selector |
| JavaScriptUtils.JavaScriptUtils.JsClick | src/main/java/com/briskpe/framework/utils/JavaScriptUtils.java:81-105 | makes the `JsClickCalls`; any failure is wrapped with the locator message |
| JavaScriptUtils.JavaScriptUtils.ExecuteJs | src/main/java/com/briskpe/framework/utils/JavaScriptUtils.java:19-32 | off WEB nothing happens; on WEB runs `js.Query`, failures become "Flutter placeholder not clicked. JS Query failed." |
| JavaScriptUtils.JavaScriptUtils.ClickElementWithJS | src/main/java/com/briskpe/framework/utils/JavaScriptUtils.java:38-51 | off WEB nothing happens; on WEB one script click, failures become "Unable to click element using JS" |
| JavaScriptUtils.JavaScriptUtils.ExecuteCustomJs | src/main/java/com/briskpe/framework/utils/JavaScriptUtils.java:58-73 | off WEB returns null with no call; on WEB returns the script's value, failures become "JS execution failed" |
| JavaScriptUtils.Load | src/main/java/com/briskpe/framework/utils/JavaScriptUtils.java:13-14 | class initialisation fails exactly when the platform property fails to parse; the driver is the factory's |
| RandomData.Prefixed | src/main/java/com/briskpe/framework/utils/RandomDataUtils.java:21 | the prefix followed by the letters, recoverable by slicing |
| RandomData.RandomFirstName | src/main/java/com/briskpe/framework/utils/RandomDataUtils.java:20-22 | "FName" then 3 letters |
| RandomData.RandomMiddleName | src/main/java/com/briskpe/framework/utils/RandomDataUtils.java:29-31 | "MName" then 2 letters |
| RandomData.RandomLastName | src/main/java/com/briskpe/framework/utils/RandomDataUtils.java:38-40 | "LName" then 4 letters |
| RandomData.EmailFor | src/main/java/com/briskpe/framework/utils/RandomDataUtils.java:48-50 | stripping "@gmail.com" gives back the mobile number |
| RandomData.EmailForInjective | src/main/java/com/briskpe/framework/utils/RandomDataUtils.java:48-50 | different numbers give different emails |
| RandomData.RandomMobileNumber | src/main/java/com/briskpe/framework/utils/RandomDataUtils.java:57-59 | ten digits starting with '9', then the nine drawn digits |
| RandomData.RandomEmail | src/main/java/com/briskpe/framework/utils/RandomDataUtils.java:66-69 | eight lower-case alphanumerics then "@gmail.com" |
| RandomData.RandomAlphabetic | src/main/java/com/briskpe/framework/utils/RandomDataUtils.java:77-79 | `length` letters, or IllegalArgumentException exactly when `length` is negative |
| MobileNumbers.ValidAndInvalidDisjoint | src/main/java/com/briskpe/framework/utils/MobileNumberUtils.java:15-27 | no number is both valid (first digit 5-9) and invalid (first digit 0-4) |
| MobileNumbers.AppendDigits | src/main/java/com/briskpe/framework/utils/MobileNumberUtils.java:16-20 | the loop builds exactly the ten drawn digits, first digit first |
| MobileNumbers.GenerateValidMobileNumber | src/main/java/com/briskpe/framework/utils/MobileNumberUtils.java:13-23 | a valid ten-digit number; returned iff it was saved under `valid.mobile`; otherwise the file is unchanged and the write error propagates |
| MobileNumbers.GenerateInvalidMobileNumber | src/main/java/com/briskpe/framework/utils/MobileNumberUtils.java:25-35 | as above with an invalid number saved under `invalid.mobile` |
| ExcelUtils.NaturalText | src/main/java/com/briskpe/framework/utils/ExcelUtils.java:80 | decimal digits with no leading zero |
| ExcelUtils.NaturalTextRoundTrip | src/main/java/com/briskpe/framework/utils/ExcelUtils.java:80 | reading the digits back gives the number |
| ExcelUtils.LongText | src/main/java/com/briskpe/framework/utils/ExcelUtils.java:80 | `String.valueOf(long)`: the digits of the value with no leading zero, with a minus sign for negatives |
| ExcelUtils.CellValue | src/main/java/com/briskpe/framework/utils/ExcelUtils.java:76-85 | null, blank and error cells read ""; a STRING cell reads its text and a FORMULA cell its formula; booleans read "true"/"false"; a number reads as `String.valueOf(long)`, its digits with a minus sign when negative |
| ExcelUtils.ReadCell | src/main/java/com/briskpe/framework/utils/ExcelUtils.java:16-28 | an unreadable file raises "❌ Failed to read from Excel"; a missing sheet or row raises NullPointerException; a negative column then raises IllegalArgumentException; otherwise the cell's text (a missing cell reads "") |
| ExcelUtils.SetCell | src/main/java/com/briskpe/framework/utils/ExcelUtils.java:39-41 | the row holds the string at the column unless that cell is a formula, which stays as it is; the row grows only as far as needed, and every other cell is unchanged |
| ExcelUtils.WithCell | src/main/java/com/briskpe/framework/utils/ExcelUtils.java:36-41 | the target cell holds the string (a formula cell keeps its formula), the row exists afterwards, and every other cell of every sheet is unchanged |
| ExcelUtils.ReadAfterWrite | src/main/java/com/briskpe/framework/utils/ExcelUtils.java:16-51 | reading back a written cell that is not a formula gives the written text |
| ExcelUtils.WriteKeepsFormula | src/main/java/com/briskpe/framework/utils/ExcelUtils.java:16-51 | a written formula cell still reads its formula, exactly as before the write |
| ExcelUtils.RowAsMap | src/main/java/com/briskpe/framework/utils/ExcelUtils.java:54-74 | an unreadable file raises "❌ Failed to read row as map"; it fails with NullPointerException exactly when the sheet or the header row is missing, or the data row is missing while the header has a cell; otherwise the map is `Zip` of the header and the row (an empty row when missing) |
| ExcelUtils.ZipKeys | src/main/java/com/briskpe/framework/utils/ExcelUtils.java:63-67 | the map's keys are exactly the header texts |
| ExcelUtils.ZipLaterColumnWins | src/main/java/com/briskpe/framework/utils/ExcelUtils.java:63-67 | for a duplicated header the rightmost column's value is kept |
| ExcelUtils.ShortRowReadsEmpty | src/main/java/com/briskpe/framework/utils/ExcelUtils.java:64-66 | a header past the end of the data row maps to "" |
| ExcelUtils.ReadRowAsMap | src/main/java/com/briskpe/framework/utils/ExcelUtils.java:54-74 | the loop computes exactly `RowAsMap` |
| ExcelUtils.GenerateInvalidMobileNumber | src/main/java/com/briskpe/framework/utils/ExcelUtils.java:93-101 | the loop builds exactly the drawn digits, an invalid mobile number |
| ExcelUtils.ExcelFile.WriteCell | src/main/java/com/briskpe/framework/utils/ExcelUtils.java:31-51 | unreadable file: "❌ Failed to write to Excel"; missing sheet: NullPointerException; otherwise the file becomes `WithCell`, or stays unchanged if the write fails |
| ExcelUtils.GenerateAndSaveInvalidMobileNumber | src/main/java/com/briskpe/framework/utils/ExcelUtils.java:88-91 | on success the file becomes `WithCell` with the generated invalid number, so the cell reads it back (or its old formula) and every other cell is unchanged; an unreadable file raises "❌ Failed to write to Excel", a missing sheet NullPointerException, a failed write "❌ Failed to write to Excel", and the file is then unchanged |
| UsersProfile.MenuItemLocator | src/main/java/com/briskpe/framework/pages/UsersProfile.java:160-165 | the browser xpath is a template from which the label reads back; natively the label is the Flutter key |
| UsersProfile.InviteTeamMemberField | src/main/java/com/briskpe/framework/pages/UsersProfile.java:167-172 | the same for the invite-form fields |
| UsersProfile.TemplatesInjective | src/main/java/com/briskpe/framework/pages/UsersProfile.java:160-172 | different labels give different locators on every platform |
| UsersProfile.TemplatesPaired | src/main/java/com/briskpe/framework/pages/UsersProfile.java:160-172 | the templates pair WEB with MOBILE_WEB and ANDROID with IOS |
| UsersProfile.MenuOf | src/main/java/com/briskpe/framework/pages/UsersProfile.java:105-131 | a label decodes only to the menu entry it labels |
| UsersProfile.MenuLabelDecodes | src/main/java/com/briskpe/framework/pages/UsersProfile.java:105-131 | every menu entry's label decodes to that entry |
| UsersProfile.LabelsDistinct | src/main/java/com/briskpe/framework/pages/UsersProfile.java:105-131 | the seven menu labels are pairwise different |
| UsersProfile.MenuEntriesDistinct | src/main/java/com/briskpe/framework/pages/UsersProfile.java:105-131 | the seven menu locators are pairwise different on every platform |
| UsersProfile.LocatorsPaired | src/main/java/com/briskpe/framework/pages/UsersProfile.java:28-172 | every element pairs WEB with MOBILE_WEB and ANDROID with IOS |
| UsersProfile.FixedLocator | src/main/java/com/briskpe/framework/pages/UsersProfile.java:28-158 | each fixed getter returns the web half of its pair in a browser and the native half in the apps |
| UsersProfile.NativeLocator | src/main/java/com/briskpe/framework/pages/UsersProfile.java:28-158 | natively each fixed getter returns its Flutter key |
| UsersProfile.NativeKeysShared | src/main/java/com/briskpe/framework/pages/UsersProfile.java:56-75 | natively, profile screen = delete account and virtual-accounts page = invite-success popup |
| UsersProfile.FormEntries | src/main/java/com/briskpe/framework/pages/UsersProfile.java:355-373 | five fields; the email is the mobile number plus "@gmail.com" |
| UsersProfile.UsersProfile.ClickElement | src/main/java/com/briskpe/framework/pages/UsersProfile.java:317-329 | browsers click through `jsClick`; natively find then click; failures are logged and swallowed |
| UsersProfile.UsersProfile.IsElementVisible | src/main/java/com/briskpe/framework/pages/UsersProfile.java:331-341 | true iff find and isDisplayed succeed and the element is displayed |
| UsersProfile.UsersProfile.ClickProfileAndSettingButton | src/main/java/com/briskpe/framework/pages/UsersProfile.java:184-199 | browsers: find, move-to, double-click, true iff none fails; native: the page click, always true |
| UsersProfile.UsersProfile.EnterText | src/main/java/com/briskpe/framework/pages/UsersProfile.java:343-353 | find, clear, type; failures swallowed |
| UsersProfile.UsersProfile.FillInviteTeamMemberForm | src/main/java/com/briskpe/framework/pages/UsersProfile.java:355-373 | types the five generated values into their fields, in source order |
| UsersProfile.Open | src/main/java/com/briskpe/framework/pages/UsersProfile.java:23-24 | construction fails iff the platform property fails to parse; the driver is `DriverManager`'s |
| SignUp.LocatorsPaired | src/main/java/com/briskpe/framework/pages/SignUp.java:31-109 | every element pairs WEB with MOBILE_WEB and ANDROID with IOS |
| SignUp.NativeKeysShared | src/main/java/com/briskpe/framework/pages/SignUp.java:80-109 | natively, account type, continue button and account-type page share one key |
| SignUp.JsFallbackError | src/main/java/com/briskpe/framework/pages/SignUp.java:325-330 | the JS fallback does nothing off WEB and fails only with "Unable to click element using JS" |
| SignUp.SelectRun | src/main/java/com/briskpe/framework/pages/SignUp.java:314-333 | at most three calls; succeeds iff find succeeds and the click succeeds or fails as not-interactable and the JS fallback succeeds; the third call is the WEB script |
| SignUp.FallbackOnlyWhenNotInteractable | src/main/java/com/briskpe/framework/pages/SignUp.java:318-331 | any other click error is not retried and surfaces as is |
| SignUp.SignUp.EnterMobileNumber | src/main/java/com/briskpe/framework/pages/SignUp.java:122-134 | types "9" plus nine drawn digits into the mobile field; failures propagate |
| SignUp.SignUp.EnterEmail | src/main/java/com/briskpe/framework/pages/SignUp.java:142-154 | types a lower-case eight-char address into the email field; failures propagate |
| SignUp.SignUp.ClickWhenClickable | src/main/java/com/briskpe/framework/pages/SignUp.java:159-210 | wait clickable, find, click on the action's element; failures propagate |
| SignUp.SignUp.IsTrue | src/main/java/com/briskpe/framework/pages/SignUp.java:219-289 | true iff the calls succeed and the element is displayed (or enabled, for the two enablement checks) |
| SignUp.SignUp.SelectAccountType | src/main/java/com/briskpe/framework/pages/SignUp.java:314-333 | exactly `SelectRun`, any failure wrapped as "Could not select account type: Company" |
| SignUp.Open | src/main/java/com/briskpe/framework/pages/SignUp.java:26-27 | construction fails iff the platform property fails to parse; the driver is the factory's |
| DashBoard.LocatorsPaired | src/main/java/com/briskpe/framework/pages/DashBoard.java:38-113 | every element pairs WEB with MOBILE_WEB and ANDROID with IOS |
| DashBoard.IdentifierOf | src/main/java/com/briskpe/framework/pages/DashBoard.java:59-71 | an identifier is read from a `flt-semantics-identifier` xpath only when the xpath has that shape |
| DashBoard.SingleQuoted | src/main/java/com/briskpe/framework/pages/DashBoard.java:61 | a single-quoted identifier xpath reads back its identifier |
| DashBoard.DoubleQuoted | src/main/java/com/briskpe/framework/pages/DashBoard.java:68 | a double-quoted identifier xpath reads back its identifier |
| DashBoard.IdentifierIsFlutterKey | src/main/java/com/briskpe/framework/pages/DashBoard.java:38-113 | for every identifier-based element, the web identifier is the native Flutter key |
| DashBoard.DashBoard.ExecuteJsQueryIfWeb | src/main/java/com/briskpe/framework/pages/DashBoard.java:20-35 | on WEB runs `js.Query` and swallows failures; elsewhere nothing |
| DashBoard.DashBoard.IsElementVisible | src/main/java/com/briskpe/framework/pages/DashBoard.java:186-196 | true iff find and isDisplayed succeed and the element is displayed |
| DashBoard.DashBoard.ClickElement | src/main/java/com/briskpe/framework/pages/DashBoard.java:198-206 | find then click; failures swallowed |
| DashBoard.DashBoard.ClickPendingAction | src/main/java/com/briskpe/framework/pages/DashBoard.java:169-171 | `jsClick` on the pending-action locator; its failure propagates |
| DashBoard.Open | src/main/java/com/briskpe/framework/pages/DashBoard.java:16-17 | construction fails iff the platform property fails to parse; the driver is the factory's |
| LoginPage.LocatorsPaired | src/main/java/com/briskpe/framework/pages/LoginPage.java:27-64 | every element pairs WEB with MOBILE_WEB and ANDROID with IOS; login tab, OTP tab and verify button are the same everywhere |
| LoginPage.MobileInputStrategy | src/main/java/com/briskpe/framework/pages/LoginPage.java:33-38 | the mobile input is a CSS selector exactly in browsers and an xpath exactly natively |
| LoginPage.LoginTabCalls | src/main/java/com/briskpe/framework/pages/LoginPage.java:73-96 | on WEB: wait for the placeholder, run the render script, then find and isDisplayed; elsewhere only find and isDisplayed |
| LoginPage.WebLoginTabRun | src/main/java/com/briskpe/framework/pages/LoginPage.java:73-96 | on WEB a failing render trigger ends the check with no login-tab call; otherwise the login-tab calls follow it |
| LoginPage.RenderTriggerOnlyOnWeb | src/main/java/com/briskpe/framework/pages/LoginPage.java:75-85 | a script runs iff the platform is WEB |
| LoginPage.LoginPage.IsLoginTabDisplayed | src/main/java/com/briskpe/framework/pages/LoginPage.java:73-96 | true iff all the calls succeed and the tab is displayed; failures are swallowed |
| LoginPage.LoginPage.EnterMobileNumber | src/main/java/com/briskpe/framework/pages/LoginPage.java:104-110 | find, clear, type into the mobile input; failures propagate |
| LoginPage.LoginPage.TapGetOtp | src/main/java/com/briskpe/framework/pages/LoginPage.java:115-119 | find then click the Get-OTP button; failures propagate |
| LoginPage.LoginPage.IsEnterOtpTabDisplayed | src/main/java/com/briskpe/framework/pages/LoginPage.java:126-136 | true iff find and isDisplayed succeed and the tab is displayed |
| LoginPage.LoginPage.EnterOtp | src/main/java/com/briskpe/framework/pages/LoginPage.java:144-150 | find, clear, type into the OTP field; failures propagate |
| LoginPage.LoginPage.ClickVerifyButton | src/main/java/com/briskpe/framework/pages/LoginPage.java:155-159 | find then click the verify button; failures propagate |
| LoginPage.LoginPage.GetVerifyButton | src/main/java/com/briskpe/framework/pages/LoginPage.java:166-168 | the verify button's locator, the same on every platform |
| LoginPage.Open | src/main/java/com/briskpe/framework/pages/LoginPage.java:22-23 | construction fails iff the platform property fails to parse; the driver is the factory's |

## Left out

- Text.Upper: Java's `toUpperCase`/`toLowerCase` use the default locale and all of Unicode; the model maps ASCII letters only.
- Logging (`System.out`, `java.util.logging`), Extent reports, screenshots and `ReportCleaner` have no observable effect on the modelled state.
- `Thread.sleep` pauses and explicit wait timeouts are not modelled; time does not appear in the model.
- `WaitUtils.untilVisible`, `waitForElementVisible` and `untilPresent` catch their own failures, and their callers ignore the result, so they are modelled as having no effect. `WaitUtils` itself is not part of this model.
- The wait that `SignUp` calls `untilClickable` and `LoginPage`'s own presence wait are single driver calls that may fail. Their polling is not modelled.
- The exact text of a NullPointerException and the exception classes Selenium raises for a null driver inside `Actions` or `WebDriverWait` are not modelled. Every null-driver failure is a NullPointerException.
- ExcelUtils.CellValue: a NUMERIC cell is stated for whole values only. The `double`-to-`long` cast of fractional, huge or NaN values is not modelled.
- ExcelUtils.SetCell: the cached result POI stores in a formula cell on `setCellValue` is not modelled, because `getCellValue` reads the formula and never the cached result.
- Config.ConfigStore.Set: `new FileOutputStream` truncates config.properties before `store` writes it, so a `store` that fails part-way leaves a truncated file; the model keeps the file unchanged on every failure.
- ExcelUtils.ExcelFile.WriteCell: negative row and column indexes are excluded by the types. POI's sheet-size limits are not modelled, and neither is a write that fails half-way and leaves a truncated file (a failed write leaves the file unchanged).
- The second random draw that `SignUp.enterMobileNumber` and `enterEmail` make only for their log lines is not modelled.
- The text of `AppiumBy.flutterKey(...).toString()` is modelled as "AppiumBy.flutterKey: " followed by the key.
- `MouseActionsUtil` and `ElementUtils` are modelled only as the driver calls they make (move-to, double-click).
- The public one-line page wrappers (`clickProfileIcon`, `isProfileIconVisible`, `clickSkipButton`, `isNextButtonVisible` and the like) are modelled by their private helpers applied to `Locator(platform, e)`.
- A failure of `JavaScriptUtils`' class initialisation that surfaces inside a page call is not modelled. Its construction is `JavaScriptUtils.Load`.
- RandomData.RandomAlphabetic: the exact IllegalArgumentException message of `RandomStringUtils` is not stated.
- The test classes (`BaseTest` and the page tests) are callers, not part of this model.
- Concurrency: threads are identified explicitly, and their interleaving is not modelled.
