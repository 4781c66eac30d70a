# Playwright/Cucumber test harness: a verified model of its decision logic

This project models the decision logic of a Java test-automation harness
built on Playwright and Cucumber. It covers four parts, each with properties
proved in Dafny:

- **The action-utility layer** (`utilze/playwright.java`):
  - the process-wide variable store that page objects share;
  - the bounded-retry navigation loop;
  - the argument checks that run before the page is touched;
  - the "safe" queries that turn exceptions into defaults;
  - the keyword-to-path lookup in `FilePaths.txt`;
  - the range checks of the random generators.
- **Framework initialisation** (`Initialization/FrameWorkInitialization.java`):
  - where each setting comes from: system property, then `BrowserConfig.properties`, then the built-in default;
  - how `window_size` becomes a viewport;
  - which engine and channel a browser name selects;
  - the ordered launch arguments and the conditional context options;
  - the staged browser start-up, which stores browser, context and page one after another;
  - the rule that a failed `setUp` cleans up once and rethrows, while `tearDown` and `shutdownAll` never throw.
- **The Cucumber hooks** (`hooks/Hooks.java`):
  - the pass/fail counters and the pass rate;
  - `formatTime` and `sanitize`;
  - where a failed scenario's trace goes;
  - parsing and caching of feature-level tags;
  - filtering those tags out of a scenario's tags.
- **The DemoBlaze cart page object** (`pages/DemoBlaze_cart/cart.java`):
  - which laptop a position word selects;
  - the dialog handler and the bounded polling of `verifyPopupText`;
  - the product name carried through the variable store to the row and delete locators.

The model has five modules, one file each:

| file | module | models |
|---|---|---|
| `java_text.dfy` | `JavaText` | the `String` and `Integer` operations the harness relies on, with their edge cases written out: `trim`, ASCII case mapping, `split` with Java's trailing-empty rule, `parseInt`, decimal printing |
| `playwright_util.dfy` | `PlaywrightUtil` | `playwright` |
| `framework_init.dfy` | `FrameworkInit` | `FrameWorkInitialization` and the session objects held by the `frameWorkConfig` singleton |
| `hooks.dfy` | `Hooks` | `Hooks` |
| `cart.dfy` | `Cart` | `cart` |

Objects whose fields the source updates in place are Dafny classes:

- the variable store;
- the `frameWorkConfig` session singleton (`SessionConfig`);
- `FrameWorkInitialization` (`Framework`);
- the hooks' static state (`ScenarioHooks`);
- the cart page object (`CartPage`).

Everything the harness gets from outside becomes a parameter. That covers:

- browser calls, property files and system properties;
- the clock and random draws;
- the contents of feature files.

A Java `null` becomes `Option` wherever the source checks for it.

Where the documentation and the code disagree, the model follows the code:

- A non-numeric `default_timeout` or `navigation_timeout` is not replaced by the 30000 ms default. `Integer.parseInt` throws, so the whole browser start-up fails (`FrameworkInit.Progress` stops at 0).
- A missing `env` system property is not a configuration error with a clear message. `loadProperties` calls `toLowerCase` on `null` and throws on the null reference (`LoadResult.EnvMissing`). `getEnvironment`, by contrast, defaults to `"alpha"`.

## Model

| member | source | states |
|---|---|---|
| JavaText.TrimStart | src/main/java/utilze/playwright.java:719 | the result is a suffix, and starts with a non-whitespace character or is empty; every removed character is at most U+0020 |
| JavaText.TrimEnd | src/main/java/utilze/playwright.java:719 | the result is a prefix, and ends with a non-whitespace character or is empty; every removed character is at most U+0020 |
| JavaText.Trim | src/test/java/hooks/Hooks.java:210 | a trimmed string neither starts nor ends with a character up to U+0020 and is no longer than the input |
| JavaText.TrimKeepsChars | src/main/java/Initialization/FrameWorkInitialization.java:151 | trimming introduces no character that was not in the input |
| JavaText.TrimUntrimmed | src/main/java/Initialization/FrameWorkInitialization.java:266-267 | a string with nothing to strip at either end is its own trim |
| JavaText.TrimPadded | src/main/java/Initialization/FrameWorkInitialization.java:266-267 | blanks on either side of a string with solid ends are exactly what trim removes |
| JavaText.TrimIdempotent | src/main/java/Initialization/FrameWorkInitialization.java:151 | trimming twice is trimming once |
| JavaText.ToLower | src/main/java/Initialization/FrameWorkInitialization.java:231 | lower-casing keeps the length and maps each character on its own |
| JavaText.ToLowerIdempotent | src/main/java/pages/DemoBlaze_cart/cart.java:34 | lower-casing twice is lower-casing once |
| JavaText.RemoveChar | src/main/java/utilze/playwright.java:723 | `replace("\"", "")` leaves no quote and keeps every other character |
| JavaText.RemoveCharAppend | src/main/java/utilze/playwright.java:723 | removing a character from a concatenation removes it from each part and keeps their order |
| JavaText.RemoveCharAbsent | src/main/java/utilze/playwright.java:723 | a string without the character is returned unchanged |
| JavaText.ReplaceChar | src/main/java/utilze/playwright.java:723 | `replace("\\", "/")` keeps the length and changes exactly the backslashes |
| JavaText.IndexOf | src/main/java/utilze/playwright.java:720 | the index of the first occurrence: the character is there and not earlier |
| JavaText.SplitAll | src/main/java/Initialization/FrameWorkInitialization.java:260 | a regex split before trailing empties are dropped: at least one piece, and no piece holds a separator |
| JavaText.DropTrailingEmpty | src/main/java/Initialization/FrameWorkInitialization.java:260 | String.split's rule: the result is a prefix without a trailing empty piece, and only empty pieces were dropped |
| JavaText.JavaSplit | src/main/java/Initialization/FrameWorkInitialization.java:149 | no piece contains a separator |
| JavaText.SplitAllFree | src/main/java/Initialization/FrameWorkInitialization.java:260 | a string without a separator splits into itself |
| JavaText.SplitAllAt | src/main/java/Initialization/FrameWorkInitialization.java:260 | the first separator ends the first piece |
| JavaText.SplitAllSeparators | src/main/java/Initialization/FrameWorkInitialization.java:260 | a run of k separators gives k + 1 empty pieces |
| JavaText.DropTrailingEmptyPadding | src/main/java/Initialization/FrameWorkInitialization.java:260 | appending empty pieces after a non-empty last piece changes nothing once trailing empties are dropped |
| JavaText.SplitAllPair | src/main/java/Initialization/FrameWorkInitialization.java:260 | "a<sep>b" followed by separators splits into a, b and one empty piece per trailing separator |
| JavaText.SplitPair | src/main/java/Initialization/FrameWorkInitialization.java:260 | String.split on "a<sep>b" followed by separators gives exactly [a, b] |
| JavaText.SplitAllJoin | src/main/java/Initialization/FrameWorkInitialization.java:149 | splitting pieces joined by a separator gives the pieces back, empty ones included |
| JavaText.JavaSplitJoin | src/main/java/Initialization/FrameWorkInitialization.java:149 | String.split inverts the join when the last piece is non-empty |
| JavaText.NatToString | src/test/java/hooks/Hooks.java:378-380 | the decimal form is non-empty and all digits, with a leading zero only for the number 0 |
| JavaText.DigitsValueOfNatToString | src/test/java/hooks/Hooks.java:378-380 | reading back a printed number gives the number |
| JavaText.DigitsValueBound | src/main/java/utilze/playwright.java:648-657 | k digits denote a value below 10^k |
| JavaText.ParseInt | src/main/java/Initialization/FrameWorkInitialization.java:266-267 | a value Integer.parseInt accepts always lies in the 32-bit int range |
| JavaText.ParseIntOfNatToString | src/main/java/Initialization/FrameWorkInitialization.java:266-267 | parseInt reads a printed number back exactly when it fits in an int |
| PlaywrightUtil.VariableStore.GetVariable | src/main/java/utilze/playwright.java:46-50 | a stored key gives its value; an absent key reads as null |
| PlaywrightUtil.VariableStore.SetVariable | src/main/java/utilze/playwright.java:36-38 | the key now maps to the value; every other key reads as before |
| PlaywrightUtil.VariableStore.GetVariableAsString | src/main/java/utilze/playwright.java:57-60 | null or absent gives ""; a string gives itself; a number gives its decimal form |
| PlaywrightUtil.FirstSettled | src/main/java/utilze/playwright.java:567-584 | the first attempt that is not a PlaywrightException, with every earlier one such an exception |
| PlaywrightUtil.Navigation | src/main/java/utilze/playwright.java:551-592 | the specification of navigateTo: at most maxRetries calls (none for an invalid URL or a non-positive count), one wait after each retried failure and none after the last call; a navigation succeeds only on a valid URL, with its last call loading and every earlier call a PlaywrightException |
| PlaywrightUtil.NavigateTo | src/main/java/utilze/playwright.java:559-591 | the retry loop behaves as the Navigation specification: invalid URL, success, an uncaught exception, or failure after maxRetries calls |
| PlaywrightUtil.NavigateOnce | src/main/java/utilze/playwright.java:551-553 | one call at most and no wait |
| PlaywrightUtil.NavigationCounts | src/main/java/utilze/playwright.java:567-584 | never more than maxRetries calls, and exactly one wait between consecutive calls |
| PlaywrightUtil.SuccessAfterFailures | src/main/java/utilze/playwright.java:567-584 | k retried failures, then a success: k + 1 calls and k waits |
| PlaywrightUtil.AllAttemptsFail | src/main/java/utilze/playwright.java:586-591 | when every call fails, the error wraps the last failure after maxRetries calls and maxRetries - 1 waits |
| PlaywrightUtil.OnlyPlaywrightFailuresRetried | src/main/java/utilze/playwright.java:574 | the run propagates an exception exactly when a non-Playwright exception comes first within the budget |
| PlaywrightUtil.Translate | src/main/java/utilze/playwright.java:216-226 | success stays success; a timeout or a PlaywrightException becomes an AssertionError; nothing else is caught |
| PlaywrightUtil.Fill | src/main/java/utilze/playwright.java:209-212 | a null text is refused with its message and the page is not touched; otherwise the page's outcome is translated |
| PlaywrightUtil.SelectByValue | src/main/java/utilze/playwright.java:600-603 | a null value is refused with its message and the page is not touched; otherwise the page's outcome is translated |
| PlaywrightUtil.UploadFile | src/main/java/utilze/playwright.java:524-545 | an empty or null path is refused first, then a path naming no file; the page is used exactly when both checks pass |
| PlaywrightUtil.IsVisibleSafe | src/main/java/utilze/playwright.java:375-382 | visible exactly when the query answered true |
| PlaywrightUtil.GetTextSafe | src/main/java/utilze/playwright.java:388-395 | an exception reads as ""; an answer, null included, passes through |
| PlaywrightUtil.GetAttributeSafe | src/main/java/utilze/playwright.java:401-409 | an exception reads as null; an answer passes through |
| PlaywrightUtil.EntryValue | src/main/java/utilze/playwright.java:720-723 | the path after the first '=' holds no quote and no backslash |
| PlaywrightUtil.EntryValueAfterFirstEquals | src/main/java/utilze/playwright.java:720-723 | only the text after the first '=' counts: it is trimmed, unquoted and has '\\' turned into '/' |
| PlaywrightUtil.EntryValueRoundTrip | src/main/java/utilze/playwright.java:707-723 | an entry written `key = "path"` gives back exactly the path, even when the path holds '=' |
| PlaywrightUtil.EntryValueBackslashes | src/main/java/utilze/playwright.java:723 | an unquoted entry `key=path` gives the path with every '\\' turned into '/' |
| PlaywrightUtil.PathForIsFirstEntry | src/main/java/utilze/playwright.java:716-725 | the lookup returns the value of the first line whose trimmed form starts with the keyword and that has an '=' |
| PlaywrightUtil.PathFor | src/main/java/utilze/playwright.java:712-733 | a path found holds no quote and no backslash; PathForIsFirstEntry and PathForNoEntry prove which line it comes from |
| PlaywrightUtil.PathForNoEntry | src/main/java/utilze/playwright.java:732 | with no such line, the keyword is not found |
| PlaywrightUtil.PrefixKeyMatches | src/main/java/utilze/playwright.java:719 | the match is on a prefix: a line for a longer key also matches |
| PlaywrightUtil.GetFilePath | src/main/java/utilze/playwright.java:712-734 | the loop returns the first matching entry, KeywordNotFound without one, and ConfigUnreadable when the file cannot be read |
| PlaywrightUtil.GenerateUniqueString | src/main/java/utilze/playwright.java:625-634 | an invalid range is refused; otherwise the result is the UUID prefix of length min(min + draw, 32), between min(minLength, 32) and min(maxLength, 32) |
| PlaywrightUtil.GenerateRandomEmail | src/main/java/utilze/playwright.java:640-642 | "test_", then the first 8 + choice characters of the UUID text, then "@test.com": 22 to 26 characters long |
| PlaywrightUtil.GenerateRandomNumber | src/main/java/utilze/playwright.java:648-657 | 1 to 18 digits are accepted, and the result is exactly the drawn digits in order; anything else is refused |
| PlaywrightUtil.GeneratedNumberFitsLong | src/main/java/utilze/playwright.java:649 | any string of at most 18 digits denotes a number below Long.MAX_VALUE |
| FrameworkInit.GetProperty | src/main/java/Initialization/FrameWorkInitialization.java:75 | Properties.getProperty with a default: the stored value if present, otherwise the default |
| FrameworkInit.EnvFilePath | src/main/java/Initialization/FrameWorkInitialization.java:44-46 | the environment file is src/main/resources/ + the lower-cased `env` + .properties |
| FrameworkInit.EnvFilePathIgnoresCase | src/main/java/Initialization/FrameWorkInitialization.java:44-45 | `env` names differing only in case select the same file |
| FrameworkInit.GetEnvironment | src/main/java/Initialization/FrameWorkInitialization.java:362-364 | the `env` system property, or "alpha" when it is absent |
| FrameworkInit.ParseViewportSize | src/main/java/Initialization/FrameWorkInitialization.java:254-281 | a size other than 1280x800 comes only from a value that splits into two pieces whose trimmed texts parse to that size; two such pieces that parse to at least 100 always give their size |
| FrameworkInit.ViewportOfSides | src/main/java/Initialization/FrameWorkInitialization.java:266-276 | two sides whose trimmed texts parse to at least 100 give that size; a size other than the default comes only from such sides |
| FrameworkInit.ViewportPartCount | src/main/java/Initialization/FrameWorkInitialization.java:260-264 | a value that does not split into exactly two pieces gives 1280x800 |
| FrameworkInit.ViewportOfParsedSides | src/main/java/Initialization/FrameWorkInitialization.java:260-276 | for any two separator-free sides around one separator, the size is what they parse to when both are at least 100, and 1280x800 otherwise |
| FrameworkInit.ViewportPaddedSides | src/main/java/Initialization/FrameWorkInitialization.java:266-267 | blanks around either number are trimmed away before parsing |
| FrameworkInit.ViewportSignedAndZeroLed | src/main/java/Initialization/FrameWorkInitialization.java:266-267 | a '+' sign and a leading zero are read as Integer.parseInt reads them |
| FrameworkInit.ViewportRoundTrip | src/main/java/Initialization/FrameWorkInitialization.java:260-276 | "<w>,<h>" or "<w>x<h>" with both sides from 100 up gives exactly w by h, even with trailing separators |
| FrameworkInit.ViewportTooSmall | src/main/java/Initialization/FrameWorkInitialization.java:270-273 | a side below 100 gives 1280x800 |
| FrameworkInit.ViewportWithoutSeparator | src/main/java/Initialization/FrameWorkInitialization.java:261-264 | a value with neither ',' nor 'x' gives 1280x800 |
| FrameworkInit.ViewportUpperCaseX | src/main/java/Initialization/FrameWorkInitialization.java:260 | an upper-case 'X' is not a separator, so "<w>X<h>" gives 1280x800 |
| FrameworkInit.BrowserName | src/main/java/Initialization/FrameWorkInitialization.java:73-75 | with neither the system property nor BrowserName set, the browser is "chrome" |
| FrameworkInit.ParseBoolean | src/main/java/Initialization/FrameWorkInitialization.java:79-80 | Boolean.parseBoolean is true exactly for a non-null value that spells "true" ignoring case |
| FrameworkInit.ParseBooleanExamples | src/main/java/Initialization/FrameWorkInitialization.java:79-80 | "TRUE" and "tRuE" are true; "yes", "1", " true", "false" and null are false |
| FrameworkInit.OverridesWin | src/main/java/Initialization/FrameWorkInitialization.java:73-80 | a system property decides alone, whatever the property file says |
| FrameworkInit.Headless | src/main/java/Initialization/FrameWorkInitialization.java:78-80 | with no `headless` system property and no Headless_status, the browser is headed; headless mode needs one of the two; OverridesWin and FileThenDefault prove the priority |
| FrameworkInit.FileThenDefault | src/main/java/Initialization/FrameWorkInitialization.java:75-80 | without a system property the file decides; without either, headless is false |
| FrameworkInit.HeadlessOverrideExample | src/main/java/Initialization/FrameWorkInitialization.java:78-80 | -Dheadless=true wins over Headless_status=false |
| FrameworkInit.GetBrowserType | src/main/java/Initialization/FrameWorkInitialization.java:228-249 | firefox selects Firefox; webkit or safari selects WebKit; edge selects the msedge channel; chromium uses no channel; anything else is Chrome |
| FrameworkInit.BrowserTypeIgnoresCase | src/main/java/Initialization/FrameWorkInitialization.java:231 | names differing only in case select the same engine and channel |
| FrameworkInit.TrimEach | src/main/java/Initialization/FrameWorkInitialization.java:150-152 | each piece trimmed, in order |
| FrameworkInit.WindowArg | src/main/java/Initialization/FrameWorkInitialization.java:142-144 | a --window-size argument carrying the size exactly when a size is given, and nothing otherwise |
| FrameworkInit.CustomArgs | src/main/java/Initialization/FrameWorkInitialization.java:147-153 | no argValue, or an empty one, adds nothing; otherwise one argument per comma-separated piece; CustomArgsClean proves each is trimmed and comma-free |
| FrameworkInit.CustomArgsClean | src/main/java/Initialization/FrameWorkInitialization.java:147-153 | no custom argument contains a comma or has anything left to trim |
| FrameworkInit.AppendTrimmed | src/main/java/Initialization/FrameWorkInitialization.java:150-152 | the loop appends every piece trimmed, in order |
| FrameworkInit.CreateLaunchOptions | src/main/java/Initialization/FrameWorkInitialization.java:134-163 | headless as given and no channel yet; the arguments are the window size, then argValue's pieces, then the three stability flags |
| FrameworkInit.LaunchArgsShape | src/main/java/Initialization/FrameWorkInitialization.java:141-158 | the three stability flags always close the list; a set window size opens it; with neither setting they are the whole list |
| FrameworkInit.CustomArgsFromEntries | src/main/java/Initialization/FrameWorkInitialization.java:147-153 | argValue "a, b ,c" gives the trimmed entries back, in order |
| FrameworkInit.CreateContextOptions | src/main/java/Initialization/FrameWorkInitialization.java:185-225 | fails exactly when both coordinates are set and do not parse; otherwise locale, viewport, user agent, geolocation with its permission, time zone, downloads and video directory are each set exactly when their property says so |
| FrameworkInit.Progress | src/main/java/Initialization/FrameWorkInitialization.java:68-127 | each start-up stage is reached exactly when the one before it was and its own step succeeds: timeouts and launch, then coordinates and context, then tracing, then the page |
| FrameworkInit.SetupReadyConditions | src/main/java/Initialization/FrameWorkInitialization.java:286-301 | setUp succeeds exactly when both files are readable, all four start-up stages succeed, a URL is set and navigation completes |
| FrameworkInit.SetupOutcome | src/main/java/Initialization/FrameWorkInitialization.java:286-309 | a ready setup had its properties loaded and a non-empty URL; a missing URL is reported only after all four browser stages succeeded; SetupReadyConditions gives the converse |
| FrameworkInit.SetupWithoutEnv | src/main/java/Initialization/FrameWorkInitialization.java:44 | with no `env` property, setUp fails while loading, before any browser exists |
| FrameworkInit.SetupWithoutUrl | src/main/java/Initialization/FrameWorkInitialization.java:293-296 | a missing URL is reported only once the browser session exists |
| FrameworkInit.Framework.LoadProperties | src/main/java/Initialization/FrameWorkInitialization.java:38-53 | the browser file is read first, then the `env` file; the result is the first failure, and each property set grows only once its file has been read |
| FrameworkInit.LoadOutcome | src/main/java/Initialization/FrameWorkInitialization.java:38-53 | loading succeeds exactly when the browser file, the `env` property and its environment file are all present; `env` is reported missing exactly when the browser file was read and `env` is null; an unreadable outcome names a file that is absent |
| FrameworkInit.Framework.InitializeBrowser | src/main/java/Initialization/FrameWorkInitialization.java:68-127 | browser, context and page are stored exactly up to the first failing stage; on success the result holds the resolved launch options, engine, context options, tracing flag and timeouts |
| FrameworkInit.Framework.TearDown | src/main/java/Initialization/FrameWorkInitialization.java:316-324 | one scenario cleanup is requested and its failure is only logged; the stored session objects and the navigation are left as they were |
| FrameworkInit.Framework.ShutdownAll | src/main/java/Initialization/FrameWorkInitialization.java:330-338 | one full cleanup is requested and its failure is only logged; the stored session objects and the navigation are left as they were |
| FrameworkInit.Framework.SetUp | src/main/java/Initialization/FrameWorkInitialization.java:286-308 | the first failing stage decides the error and tearDown runs exactly once before it is rethrown; browser, context and page are stored exactly as far as start-up got, and the environment properties exactly when loading succeeded; a successful setup navigates to the URL and runs no cleanup |
| Hooks.PassRateBounds | src/test/java/hooks/Hooks.java:140 | the pass rate lies between 0 and 100; it is 100 exactly when every scenario passed, and 0 when none did |
| Hooks.PassRate | src/test/java/hooks/Hooks.java:140 | 0 for an empty suite; otherwise the rate is the whole part of passed * 100 / total: rate * total <= passed * 100 < (rate + 1) * total |
| Hooks.FormatTimeRoundTrip | src/test/java/hooks/Hooks.java:375-381 | formatTime loses only the milliseconds: reading its text back gives millis / 1000 |
| Hooks.FormatTime | src/test/java/hooks/Hooks.java:375-381 | the text always ends in "s"; FormatTimeRoundTrip and FormatTimeMinutes prove what it says |
| Hooks.FormatTimeMinutes | src/test/java/hooks/Hooks.java:377-380 | the text has a minutes part exactly from one minute on |
| Hooks.Sanitize | src/test/java/hooks/Hooks.java:383-385 | same length; allowed characters (letters, digits, '-', '_') are kept and every other character becomes '_' |
| Hooks.SanitizeFixpoint | src/test/java/hooks/Hooks.java:383-385 | a name is unchanged exactly when it has only allowed characters |
| Hooks.SanitizeIdempotent | src/test/java/hooks/Hooks.java:383-385 | sanitizing twice is sanitizing once |
| Hooks.TracePathConfined | src/test/java/hooks/Hooks.java:116 | a trace path starts with target/traces/ and ends in .zip, and the name part has no '/' or '.' |
| Hooks.TracePath | src/test/java/hooks/Hooks.java:116 | "target/traces/" + the sanitized scenario name + ".zip", 18 characters longer than the name |
| Hooks.WhitespaceTokens | src/test/java/hooks/Hooks.java:220 | no token contains whitespace |
| Hooks.TagsAmong | src/test/java/hooks/Hooks.java:221-225 | exactly the tokens that start with '@' |
| Hooks.FeatureTags | src/test/java/hooks/Hooks.java:209-227 | every feature-level tag starts with '@' and contains no whitespace |
| Hooks.FeatureTagsMembers | src/test/java/hooks/Hooks.java:209-227 | a tag is collected exactly when it is an '@' token of an '@' line with no "Feature:" line at or above it |
| Hooks.FeatureTagsStopAtFeature | src/test/java/hooks/Hooks.java:213-215 | nothing after the first "Feature:" line matters |
| Hooks.AddTags | src/test/java/hooks/Hooks.java:221-225 | the inner loop adds exactly the line's '@' tokens |
| Hooks.ParseFeatureTags | src/test/java/hooks/Hooks.java:209-227 | the loop collects exactly the tags of the lines above the first "Feature:" line |
| Hooks.CacheIsStable | src/test/java/hooks/Hooks.java:191-193 | once a file has been read, later lookups give the same set whatever the file holds then, and the cache no longer changes |
| Hooks.FeatureLevelTags | src/test/java/hooks/Hooks.java:189-238 | a cached set is returned as it is; otherwise every tag starts with '@', and a file that was not read gives no tags |
| Hooks.CacheAfter | src/test/java/hooks/Hooks.java:189-238 | existing entries are never changed; one entry for the URI is added exactly when the file was read |
| Hooks.MissingFileNotCached | src/test/java/hooks/Hooks.java:201-204 | a file that is not found gives no tags and leaves no cache entry |
| Hooks.FilterOut | src/test/java/hooks/Hooks.java:172-174 | each tag keeps its count unless it is a feature tag, in which case it disappears |
| Hooks.FilterOutAppend | src/test/java/hooks/Hooks.java:172-174 | filtering keeps order: it distributes over concatenation |
| Hooks.FilterOutNothing | src/test/java/hooks/Hooks.java:172-174 | filtering by the empty set changes nothing |
| Hooks.UntaggedFeatureShowsAll | src/test/java/hooks/Hooks.java:160-183 | a scenario whose feature has no feature-level tags shows all its tags |
| Hooks.ScenarioOnlyTags | src/test/java/hooks/Hooks.java:160-183 | never more tags than the scenario has, each at most as often; with a URI, no feature-level tag is shown |
| Hooks.ScenarioHooks.constructor | src/test/java/hooks/Hooks.java:31-43 | all counters are zero and the cache is empty |
| Hooks.ScenarioHooks.GetFeatureLevelTags | src/test/java/hooks/Hooks.java:189-238 | the cached set if there is one; otherwise the file's tags, cached only when the file was read |
| Hooks.ScenarioHooks.GetScenarioOnlyTags | src/test/java/hooks/Hooks.java:160-183 | with no tags or no URI, all tags; otherwise the tags minus the feature-level ones, in order |
| Hooks.ScenarioHooks.Setup | src/test/java/hooks/Hooks.java:72-93 | the scenario is counted; the tags shown are the scenario's own; a fresh framework runs setUp, whose failure is rethrown; on success the session holds the driver's browser, context and page, and on failure they are stored as far as start-up got |
| Hooks.ScenarioHooks.Teardown | src/test/java/hooks/Hooks.java:97-127 | exactly one of passed/failed goes up; a trace is saved exactly for a failed scenario with a context and tracing on; cleanup runs whenever a framework exists |
| Hooks.ScenarioHooks.AfterAll | src/test/java/hooks/Hooks.java:131-152 | the summary holds the counters, the formatted time and a pass rate from 0 to 100; one full shutdown is requested |
| Cart.PositionIndex | src/main/java/pages/DemoBlaze_cart/cart.java:33-39 | "second" gives 2 and "third" gives 3, in any case; every other word gives 1 |
| Cart.PositionIgnoresCase | src/main/java/pages/DemoBlaze_cart/cart.java:34 | words differing only in case select the same laptop |
| Cart.LaptopLocatorDefault | src/main/java/pages/DemoBlaze_cart/cart.java:38-41 | an unknown word clicks the first laptop, as "first" does |
| Cart.LaptopLocator | src/main/java/pages/DemoBlaze_cart/cart.java:41 | the LAPTOP_ITEM_OPTION locator with the digit of the chosen index, 1 to 3, in its brackets |
| Cart.RowLocatorInjective | src/main/java/pages/DemoBlaze_cart/cart.java:101-102 | different product names give different row locators |
| Cart.RowLocator | src/main/java/pages/DemoBlaze_cart/cart.java:101-102 | the CART_PRODUCT_Details locator with the product name between its quotes, exactly 40 characters longer than the name |
| Cart.AfterDialogs | src/main/java/pages/DemoBlaze_cart/cart.java:58-62 | the last dialog's message wins; with no dialog the field is unchanged |
| Cart.Poll | src/main/java/pages/DemoBlaze_cart/cart.java:68-73 | at most ten waits; a message that is already present stops the polling at once |
| Cart.PollWithoutDialogs | src/main/java/pages/DemoBlaze_cart/cart.java:68-73 | with no dialog at all, the polling waits ten times and still sees nothing |
| Cart.PollEmptyMeansAllWaits | src/main/java/pages/DemoBlaze_cart/cart.java:68-77 | a message that is still empty means all ten waits were made |
| Cart.PopupVerdict | src/main/java/pages/DemoBlaze_cart/cart.java:75-81 | an empty message is "no popup"; the check passes exactly when the message equals the expected text |
| Cart.PopupCaseSensitive | src/main/java/pages/DemoBlaze_cart/cart.java:78 | the comparison is exact: a difference in case is a mismatch |
| Cart.CartPage.constructor | src/main/java/pages/DemoBlaze_cart/cart.java:14 | no dialog message has been captured yet |
| Cart.CartPage.OnDialog | src/main/java/pages/DemoBlaze_cart/cart.java:58-62 | the handler stores the dialog's message |
| Cart.CartPage.ClickAddToCart | src/main/java/pages/DemoBlaze_cart/cart.java:56-64 | after the click, the field holds the last dialog's message |
| Cart.CartPage.DialogsDuringWait | src/main/java/pages/DemoBlaze_cart/cart.java:72 | the dialogs arriving during one wait leave the last one's message in the field, or the field unchanged when none arrives |
| Cart.CartPage.VerifyPopupText | src/main/java/pages/DemoBlaze_cart/cart.java:66-82 | the loop behaves as Poll and then as PopupVerdict: at most ten waits, none if a message is already present, and all ten before "no popup" |
| Cart.CartPage.MemorizeProductDetails | src/main/java/pages/DemoBlaze_cart/cart.java:50-54 | the header's text, or null, is stored under "productName"; reading that key as a string gives the text or "" |
| Cart.CartPage.ClickDeleteProduct | src/main/java/pages/DemoBlaze_cart/cart.java:100-105 | the Delete link of the row named by the memorized product |
| Cart.CartPage.MemorizedRow | src/main/java/pages/DemoBlaze_cart/cart.java:94-95 | the row locator of the memorized product name; a name never stored gives the locator for "" |

## Left out

- Browser, context, page and Playwright calls are not modelled. Only their outcome enters, as a parameter: success or the kind of exception, the value a query returned, the objects the driver created.
- File input is not modelled. A property file is a map that is present or absent, `FilePaths.txt` is a list of lines or a read failure, and a feature file is `NotFound`, `Unreadable` or its lines.
- `getFeatureFilePath`, which resolves a scenario URI to a file, is not modelled. Its result comes in as the `FeatureFile` parameter.
- `slow_motion` is left out of the launch options. It is parsed as a `double`, and floating point is outside the model.
- The geolocation coordinates are not modelled as numbers. Whether `Double.parseDouble` accepts them is a boolean parameter.
- `System.currentTimeMillis`, `Random` and `UUID` are parameters. They are a duration, the drawn integers and the 32 hexadecimal characters.
- `FrameWorkConfig`'s `cleanupScenario` and `cleanupAll` are not part of this model: its session fields are modelled as `SessionConfig`, but its cleanup methods are only counted, and their failure is a parameter.
- `FrameworkInit.Framework.TearDown`, `FrameworkInit.Framework.ShutdownAll`: the session objects are left as they were. Closing them is the work of `cleanupScenario` and `cleanupAll`, whose effect on the singleton's fields is not modelled.
- Logging, `System.out` output, screenshots (`captureFailureArtifacts`, `captureScreenshotOnError`), report generation and directory creation are left out. Each of them catches its own exceptions and influences no decision modelled here.
- `Settings.Url` and the `config` reader classes are not part of this model. The URL is a parameter of setup.
- Java `Error` and `Exception` are not told apart. Every failure the source rethrows becomes a result value, as does every failure it catches.
- Concurrency is left out. Cucumber runs the hooks sequentially here.
- The counters and the tag cache are static fields, shared by all scenarios. `FM` is an instance field (Hooks.java line 26), and Cucumber creates a new `Hooks` object for each scenario. The model keeps all of them in one `ScenarioHooks` object. Setup always assigns `fm` before teardown reads it, so sharing it changes no modelled outcome.
- `JavaText.ToLower`: only ASCII letters are mapped. Java's locale-sensitive, full-Unicode lower-casing is not modelled.
- `JavaText.ParseInt`: only ASCII digits are accepted. `Integer.parseInt` also accepts other Unicode decimal digits.
- `Hooks.WhitespaceTokens`: `split("\\s+")` merges a run of whitespace into one separator. The model splits on every whitespace character, so it can yield extra empty tokens. An empty token never starts with '@', so the tag sets are the same.
- `Hooks.PassRate`, `Hooks.PassRateBounds`: `passedTests * 100` is computed in 32-bit `int` and wraps above 21,474,836 passed scenarios. The model uses unbounded integers.
- `Hooks.FormatTimeRoundTrip`: stated for non-negative durations only. For negative durations the model truncates toward zero, as Java's `/` and `%` do, and prints negative numbers.
- `Hooks.ScenarioHooks.Teardown`: the counters are unbounded, whereas the source's `int` counters would wrap after 2^31 scenarios.
- `Cart.CartPage.ClickAddToCart`: every call registers another `onDialog` handler. All of them write the same field, so the model keeps one handler. When the messages arrive during the click and during the waits of `verifyPopupText` is a parameter of each call.
- `PlaywrightUtil.NavigateTo`: `waitForTimeout(1000)` runs inside the catch block (playwright.java line 581), so an exception it throws would escape the retry loop. The model treats the wait as always completing.
- `PlaywrightUtil.UploadFile`: `Paths.get` runs outside the try (playwright.java line 529), so an invalid path string throws `InvalidPathException` unchanged. The model has no invalid path strings: a path either names a file or does not.
- `Cart.CartPage.MemorizeProductDetails`: the header is read with the throwing `getText` (cart.java line 51), so a failed query aborts the step before anything is stored. The model covers only a query that answers, with text or null.
- `Cart.CartPage.ClickAddToCart`, `Cart.CartPage.VerifyPopupText`: the click (cart.java line 63) and each `waitForTimeout(500)` (cart.java line 72) can throw, which would end the step early. The model treats the click and every wait as completing.
- `PlaywrightUtil.NavigateTo`: the model requires at least `maxRetries` attempt outcomes. These are the browser's answers, not a demand on callers.
