/**
 * Configuration resolution and the setup/teardown policy of
 * FrameWorkInitialization: where each setting comes from, how the window
 * size is parsed, which engine and channel a browser name selects, the
 * ordered launch arguments, the conditional context options, and the rule
 * that a failed setup cleans up before it rethrows while teardown never
 * throws. The browser driver, the property files and the system
 * properties are parameters.
 */
module FrameworkInit {
  import opened JavaText

  /** A loaded java.util.Properties. */
  type Props = map<string, string>

  const DefaultBrowser: string := "chrome"
  const DefaultLocale: string := "en-US"
  const DefaultWindowSize: string := "1280,800"
  const BrowserConfigPath: string := "src/main/java/config/BrowserConfig.properties"

  /** Properties.getProperty(key, default). */
  function GetProperty(prop: Props, key: string, default: string): (v: string)
    ensures key in prop ==> v == prop[key]
    ensures key !in prop ==> v == default
  {
    if key in prop then prop[key] else default
  }

  /** Properties.getProperty(key) is set and not empty. */
  predicate IsSet(prop: Props, key: string) {
    key in prop && prop[key] != ""
  }

  // ============================================================ environment

  /** The environment property file: the lower-cased `env` name under src/main/resources. */
  function EnvFilePath(env: string): (path: string)
    ensures StartsWith(path, "src/main/resources/") && EndsWith(path, ".properties")
    ensures |path| == |env| + 30 && path[19..|path| - 11] == ToLower(env)
  {
    var path := "src/main/resources/" + ToLower(env) + ".properties";
    assert path[..19] == "src/main/resources/";
    assert path[|path| - 11..] == ".properties";
    assert path[19..|path| - 11] == ToLower(env);
    path
  }

  /** The file name does not depend on the case of `env`. */
  lemma EnvFilePathIgnoresCase(a: string, b: string)
    requires EqualsIgnoreCase(a, b)
    ensures EnvFilePath(a) == EnvFilePath(b)
  {
  }

  /** getEnvironment(): the `env` system property, "alpha" when it is absent. */
  function GetEnvironment(env: Option<string>): (name: string)
    ensures env.Some? ==> name == env.value
    ensures env.None? ==> name == "alpha"
  {
    if env.Some? then env.value else "alpha"
  }

  datatype LoadResult =
    | PropertiesLoaded
    | PropertiesUnreadable(path: string)  // IOException, rethrown as IOException
    | EnvMissing                          // toLowerCase on a null `env` throws

  /** What loadProperties reports, given the `env` system property and the readable files. */
  function LoadOutcome(env: Option<string>, files: map<string, Props>): (r: LoadResult)
    ensures r == PropertiesLoaded <==>
      BrowserConfigPath in files && env.Some? && EnvFilePath(env.value) in files
    ensures r == EnvMissing <==> BrowserConfigPath in files && env.None?
    ensures r.PropertiesUnreadable? ==> r.path !in files
  {
    if BrowserConfigPath !in files then PropertiesUnreadable(BrowserConfigPath)
    else if env.None? then EnvMissing
    else if EnvFilePath(env.value) !in files then PropertiesUnreadable(EnvFilePath(env.value))
    else PropertiesLoaded
  }

  // =============================================================== viewport

  datatype Viewport = Viewport(width: int, height: int)

  const DefaultViewport: Viewport := Viewport(1280, 800)
  const ViewportSeparators: set<char> := {',', 'x'}

  /**
   * parseViewportSize: "<w>,<h>" or "<w>x<h>" (split on the class [,x]),
   * each side trimmed and parsed as an int, both at least 100; anything
   * else gives 1280x800.
   */
  function ParseViewportSize(windowSize: Option<string>): (v: Viewport)
    ensures v == DefaultViewport || (100 <= v.width <= IntMax && 100 <= v.height <= IntMax)
    ensures v != DefaultViewport ==>
      && windowSize.Some?
      && var parts := JavaSplit(windowSize.value, ViewportSeparators);
      && |parts| == 2
      && ParseInt(Trim(parts[0])) == Some(v.width) && ParseInt(Trim(parts[1])) == Some(v.height)
    ensures windowSize.Some? ==>
      var parts := JavaSplit(windowSize.value, ViewportSeparators);
      |parts| == 2 ==>
        var w, h := ParseInt(Trim(parts[0])), ParseInt(Trim(parts[1]));
        w.Some? && h.Some? && w.value >= 100 && h.value >= 100 ==> v == Viewport(w.value, h.value)
  {
    if windowSize.None? || windowSize.value == "" then DefaultViewport
    else
      var parts := JavaSplit(windowSize.value, ViewportSeparators);
      if |parts| != 2 then DefaultViewport else ViewportOfSides(parts[0], parts[1])
  }

  /** Both sides trimmed and parsed; a side that does not parse or is below 100 gives the default. */
  function ViewportOfSides(width: string, height: string): (v: Viewport)
    ensures v == DefaultViewport || (100 <= v.width <= IntMax && 100 <= v.height <= IntMax)
    ensures v != DefaultViewport ==> ParseInt(Trim(width)) == Some(v.width) && ParseInt(Trim(height)) == Some(v.height)
    ensures var w, h := ParseInt(Trim(width)), ParseInt(Trim(height));
      w.Some? && h.Some? && w.value >= 100 && h.value >= 100 ==> v == Viewport(w.value, h.value)
  {
    match (ParseInt(Trim(width)), ParseInt(Trim(height)))
    case (Some(w), Some(h)) =>
      if w < 100 || h < 100 then DefaultViewport else Viewport(w, h)
    case _ => DefaultViewport
  }

  lemma DigitsFree(s: string)
    requires AllDigits(s)
    ensures Free(s, ViewportSeparators)
  {
    forall i | 0 <= i < |s| ensures s[i] !in ViewportSeparators {
      assert IsDigit(s[i]);
    }
  }

  lemma NatToStringFree(n: nat)
    ensures Free(NatToString(n), ViewportSeparators)
    ensures Trim(NatToString(n)) == NatToString(n)
  {
    var s := NatToString(n);
    DigitsFree(s);
    assert IsDigit(s[0]) && IsDigit(s[|s| - 1]);
    TrimUntrimmed(s);
  }

  /** The two pieces of "<w><sep><h>" followed by any run of separators are "<w>" and "<h>". */
  lemma SplitWindowSize(w: nat, h: nat, sep: char, trailing: string)
    requires sep in ViewportSeparators
    requires forall i :: 0 <= i < |trailing| ==> trailing[i] in ViewportSeparators
    ensures JavaSplit(NatToString(w) + [sep] + NatToString(h) + trailing, ViewportSeparators)
         == [NatToString(w), NatToString(h)]
  {
    NatToStringFree(w);
    NatToStringFree(h);
    SplitPair(NatToString(w), NatToString(h), sep, trailing, ViewportSeparators);
  }

  /** Any value that does not split into exactly two pieces gives the default size. */
  lemma ViewportPartCount(s: string)
    requires |JavaSplit(s, ViewportSeparators)| != 2
    ensures ParseViewportSize(Some(s)) == DefaultViewport
  {
  }

  /** Two sides that split apart cleanly are parsed on their own. */
  lemma ViewportOfSplit(s: string, a: string, b: string)
    requires s != "" && JavaSplit(s, ViewportSeparators) == [a, b]
    ensures ParseViewportSize(Some(s)) == ViewportOfSides(a, b)
  {
  }

  lemma ViewportOfNumbers(w: nat, h: nat)
    ensures ViewportOfSides(NatToString(w), NatToString(h))
         == if w <= IntMax && h <= IntMax && 100 <= w && 100 <= h then Viewport(w, h) else DefaultViewport
  {
    NatToStringFree(w);
    NatToStringFree(h);
    ParseIntOfNatToString(w);
    ParseIntOfNatToString(h);
  }

  /** "<w>x<h>" and "<w>,<h>" with both sides from 100 up give exactly (w, h), trailing separators or not. */
  lemma ViewportRoundTrip(w: nat, h: nat, sep: char, trailing: string)
    requires 100 <= w <= IntMax && 100 <= h <= IntMax
    requires sep in ViewportSeparators
    requires forall i :: 0 <= i < |trailing| ==> trailing[i] in ViewportSeparators
    ensures ParseViewportSize(Some(NatToString(w) + [sep] + NatToString(h) + trailing)) == Viewport(w, h)
  {
    SplitWindowSize(w, h, sep, trailing);
    ViewportOfSplit(NatToString(w) + [sep] + NatToString(h) + trailing, NatToString(w), NatToString(h));
    ViewportOfNumbers(w, h);
  }

  /**
   * Any two separator-free sides around one separator: the size is what
   * their trimmed texts parse to when both are at least 100, and the
   * default otherwise. Padding, a sign and leading zeros are allowed.
   */
  lemma ViewportOfParsedSides(s: string, a: string, b: string, sep: char, w: int, h: int)
    requires s == a + [sep] + b
    requires Free(a, ViewportSeparators) && Free(b, ViewportSeparators) && sep in ViewportSeparators
    requires ParseInt(Trim(a)) == Some(w) && ParseInt(Trim(b)) == Some(h)
    ensures ParseViewportSize(Some(s)) == if w >= 100 && h >= 100 then Viewport(w, h) else DefaultViewport
  {
    assert Trim(b) != [];
    SplitPair(a, b, sep, [], ViewportSeparators);
    assert s + [] == s;
    ViewportOfSplit(s, a, b);
  }

  lemma BlankFree(s: string)
    requires Blank(s)
    ensures Free(s, ViewportSeparators)
  {
    forall i | 0 <= i < |s| ensures s[i] !in ViewportSeparators {
      assert IsTrimmable(s[i]);
    }
  }

  /** A side written as a number with blanks around it: free of separators, and trim leaves the number. */
  lemma PaddedSide(pre: string, n: nat, post: string)
    requires Blank(pre) && Blank(post)
    ensures Free(pre + NatToString(n) + post, ViewportSeparators)
    ensures Trim(pre + NatToString(n) + post) == NatToString(n)
  {
    var d := NatToString(n);
    NatToStringFree(n);
    BlankFree(pre);
    BlankFree(post);
    FreeConcat(pre, d, ViewportSeparators);
    FreeConcat(pre + d, post, ViewportSeparators);
    assert IsDigit(d[0]) && IsDigit(d[|d| - 1]);
    TrimPadded(pre, d, post);
  }

  /** Blanks around either side are trimmed away before the side is parsed. */
  lemma ViewportPaddedSides(w: nat, h: nat, sep: char, p1: string, p2: string, p3: string, p4: string)
    requires 100 <= w <= IntMax && 100 <= h <= IntMax
    requires sep in ViewportSeparators
    requires Blank(p1) && Blank(p2) && Blank(p3) && Blank(p4)
    ensures ParseViewportSize(Some((p1 + NatToString(w) + p2) + [sep] + (p3 + NatToString(h) + p4))) == Viewport(w, h)
  {
    var a := p1 + NatToString(w) + p2;
    var b := p3 + NatToString(h) + p4;
    PaddedSide(p1, w, p2);
    PaddedSide(p3, h, p4);
    ParseIntOfNatToString(w);
    ParseIntOfNatToString(h);
    ViewportOfParsedSides(a + [sep] + b, a, b, sep, w, h);
  }

  /** A side written with a '+' sign or a leading zero is free of separators and parses to the number. */
  lemma PrefixedSide(c: char, n: nat)
    requires c == '+' || c == '0'
    ensures Free([c] + NatToString(n), ViewportSeparators)
    ensures ParseInt(Trim([c] + NatToString(n))) == ParseInt(NatToString(n))
  {
    var d := NatToString(n);
    var a := [c] + d;
    NatToStringFree(n);
    ParseIntPrefixed(c, d);
    assert Free([c], ViewportSeparators);
    FreeConcat([c], d, ViewportSeparators);
    assert a[|a| - 1] == d[|d| - 1] && IsDigit(d[|d| - 1]);
    TrimUntrimmed(a);
  }

  /** A '+' sign on the width and a leading zero on the height are accepted, as Integer.parseInt accepts them. */
  lemma ViewportSignedAndZeroLed(w: nat, h: nat, sep: char)
    requires 100 <= w <= IntMax && 100 <= h <= IntMax
    requires sep in ViewportSeparators
    ensures ParseViewportSize(Some(("+" + NatToString(w)) + [sep] + ("0" + NatToString(h)))) == Viewport(w, h)
  {
    PrefixedSide('+', w);
    PrefixedSide('0', h);
    ParseIntOfNatToString(w);
    ParseIntOfNatToString(h);
    var a, b := "+" + NatToString(w), "0" + NatToString(h);
    ViewportOfParsedSides(a + [sep] + b, a, b, sep, w, h);
  }

  /** A side below 100 gives the default size. */
  lemma ViewportTooSmall(w: nat, h: nat, sep: char)
    requires w < 100 || h < 100
    requires sep in ViewportSeparators
    ensures ParseViewportSize(Some(NatToString(w) + [sep] + NatToString(h))) == DefaultViewport
  {
    SplitWindowSize(w, h, sep, []);
    assert NatToString(w) + [sep] + NatToString(h) + [] == NatToString(w) + [sep] + NatToString(h);
    ViewportOfSplit(NatToString(w) + [sep] + NatToString(h), NatToString(w), NatToString(h));
    ViewportOfNumbers(w, h);
  }

  /** A value with no separator at all gives the default size. */
  lemma ViewportWithoutSeparator(s: string)
    requires Free(s, ViewportSeparators)
    ensures ParseViewportSize(Some(s)) == DefaultViewport
  {
  }

  lemma SidesAroundUpperXFree(w: nat, h: nat)
    ensures Free(NatToString(w) + "X" + NatToString(h), ViewportSeparators)
  {
    NatToStringFree(w);
    NatToStringFree(h);
    FreeAround(NatToString(w), 'X', NatToString(h), ViewportSeparators);
  }

  /** An upper-case 'X' is not a separator: "<w>X<h>" gives the default size. */
  lemma ViewportUpperCaseX(w: nat, h: nat)
    ensures ParseViewportSize(Some(NatToString(w) + "X" + NatToString(h))) == DefaultViewport
  {
    SidesAroundUpperXFree(w, h);
    ViewportWithoutSeparator(NatToString(w) + "X" + NatToString(h));
  }

  // ============================================= browser name and headless

  /** Priority for the browser name: the `browser` system property, then BrowserName, then "chrome". */
  function BrowserName(browserOverride: Option<string>, prop: Props): (name: string)
    ensures browserOverride.None? && "BrowserName" !in prop ==> name == DefaultBrowser
  {
    if browserOverride.Some? then browserOverride.value
    else GetProperty(prop, "BrowserName", DefaultBrowser)
  }

  /** Boolean.parseBoolean: true only for "true" in any case; null is false. */
  function ParseBoolean(s: Option<string>): (b: bool)
    ensures b <==> s.Some? && |s.value| == 4 && forall i :: 0 <= i < 4 ==> LowerChar(s.value[i]) == "true"[i]
  {
    assert ToLower("true") == "true";
    s.Some? && EqualsIgnoreCase(s.value, "true")
  }

  /** Any mix of cases spells true; every other word, a padded "true" and null are false. */
  lemma ParseBooleanExamples()
    ensures ParseBoolean(Some("TRUE")) && ParseBoolean(Some("True")) && ParseBoolean(Some("tRuE"))
    ensures !ParseBoolean(Some("yes")) && !ParseBoolean(Some("1")) && !ParseBoolean(Some(" true"))
    ensures !ParseBoolean(Some("false")) && !ParseBoolean(None)
  {
    assert "yes"[0] != 't' && "false"[0] != 't';
    assert LowerChar(" true"[0]) != "true"[0];
  }

  /** Priority for headless: the `headless` system property, then Headless_status, then false. */
  function Headless(headlessOverride: Option<string>, prop: Props): (headless: bool)
    ensures headlessOverride.None? && "Headless_status" !in prop ==> !headless
    ensures headless ==> (headlessOverride.Some? || "Headless_status" in prop)
  {
    if headlessOverride.Some? then ParseBoolean(headlessOverride)
    else ParseBoolean(Some(GetProperty(prop, "Headless_status", "false")))
  }

  /** A system property, when present, decides alone: the property files do not matter. */
  lemma OverridesWin(browser: string, headless: string, p1: Props, p2: Props)
    ensures BrowserName(Some(browser), p1) == BrowserName(Some(browser), p2) == browser
    ensures Headless(Some(headless), p1) == Headless(Some(headless), p2) == ParseBoolean(Some(headless))
  {
  }

  /** With no system property, the file decides; with neither, the defaults apply. */
  lemma FileThenDefault(prop: Props)
    ensures "BrowserName" in prop ==> BrowserName(None, prop) == prop["BrowserName"]
    ensures "Headless_status" in prop ==> Headless(None, prop) == ParseBoolean(Some(prop["Headless_status"]))
    ensures "Headless_status" !in prop ==> !Headless(None, prop)
  {
  }

  /** -Dheadless=true wins over Headless_status=false. */
  lemma HeadlessOverrideExample()
    ensures Headless(Some("true"), map["Headless_status" := "false"])
  {
    assert ToLower("true") == "true";
  }

  // =========================================================== browser type

  datatype Engine = Chromium | Firefox | Webkit

  datatype BrowserType = BrowserType(engine: Engine, channel: Option<string>)

  /** getBrowserType: the lower-cased name picks the engine and, for Chromium, the channel. */
  function GetBrowserType(browserName: string): (t: BrowserType)
    ensures var n := ToLower(browserName);
      && (t.engine == Firefox <==> n == "firefox")
      && (t.engine == Webkit <==> n == "webkit" || n == "safari")
      && (t.channel == Some("msedge") <==> n == "edge")
      && (t.channel.None? <==> n == "chromium" || n == "firefox" || n == "webkit" || n == "safari")
      && (t.channel.Some? ==> t.engine == Chromium && t.channel.value in {"chrome", "msedge"})
  {
    var n := ToLower(browserName);
    if n == "chrome" then BrowserType(Chromium, Some("chrome"))
    else if n == "chromium" then BrowserType(Chromium, None)
    else if n == "firefox" then BrowserType(Firefox, None)
    else if n == "edge" then BrowserType(Chromium, Some("msedge"))
    else if n == "webkit" || n == "safari" then BrowserType(Webkit, None)
    else BrowserType(Chromium, Some("chrome"))
  }

  /** The choice ignores case: "Firefox", "FIREFOX" and "firefox" pick the same browser. */
  lemma BrowserTypeIgnoresCase(a: string, b: string)
    requires EqualsIgnoreCase(a, b)
    ensures GetBrowserType(a) == GetBrowserType(b)
  {
  }

  // ========================================================= launch options

  const StabilityFlags: seq<string> :=
    ["--disable-blink-features=AutomationControlled", "--no-sandbox", "--disable-dev-shm-usage"]

  /** The launch options this model keeps (slow motion is left out). */
  datatype LaunchOptions = LaunchOptions(headless: bool, args: seq<string>, channel: Option<string>)

  function WindowArg(windowSize: string): (args: seq<string>)
    ensures args == [] <==> windowSize == ""
    ensures |args| <= 1
    ensures forall a :: a in args ==> StartsWith(a, "--window-size=") && a[14..] == windowSize
  {
    if windowSize != "" then ["--window-size=" + windowSize] else []
  }

  /** Every piece trimmed, in order. */
  function TrimEach(parts: seq<string>): (r: seq<string>)
    ensures |r| == |parts|
    ensures forall i :: 0 <= i < |parts| ==> r[i] == Trim(parts[i])
  {
    seq(|parts|, i requires 0 <= i < |parts| => Trim(parts[i]))
  }

  /** The comma-separated pieces of argValue, each trimmed. */
  function CustomArgs(prop: Props): (args: seq<string>)
    ensures !IsSet(prop, "argValue") ==> args == []
    ensures IsSet(prop, "argValue") ==> |args| == |JavaSplit(prop["argValue"], {','})|
  {
    if IsSet(prop, "argValue") then TrimEach(JavaSplit(prop["argValue"], {','})) else []
  }

  /** No custom argument has anything left to trim or contains a comma. */
  lemma CustomArgsClean(prop: Props)
    ensures forall a :: a in CustomArgs(prop) ==> Trim(a) == a && ',' !in a
  {
    var args := CustomArgs(prop);
    forall a | a in args ensures Trim(a) == a && ',' !in a {
      var parts := JavaSplit(prop["argValue"], {','});
      var i :| 0 <= i < |args| && args[i] == a;
      TrimIdempotent(parts[i]);
      assert parts[i] in parts;
      TrimKeepsChars(parts[i]);
      assert Free(parts[i], {','});
    }
  }

  /** The loop over argValue's pieces: each trimmed piece appended in order. */
  method AppendTrimmed(args: seq<string>, pieces: seq<string>) returns (r: seq<string>)
    ensures r == args + TrimEach(pieces)
  {
    r := args;
    ghost var trimmed := TrimEach(pieces);
    for i := 0 to |pieces|
      invariant r == args + trimmed[..i]
    {
      var t := Trim(pieces[i]);
      assert trimmed[i] == t;
      assert trimmed[..i + 1] == trimmed[..i] + [t];
      r := r + [t];
    }
    assert trimmed[..|pieces|] == trimmed;
  }

  /** createLaunchOptions: window size first, then argValue's pieces in order, then the three fixed flags. */
  method CreateLaunchOptions(isHeadless: bool, windowSize: string, prop: Props) returns (options: LaunchOptions)
    ensures options.headless == isHeadless && options.channel.None?
    ensures options.args == WindowArg(windowSize) + CustomArgs(prop) + StabilityFlags
  {
    var args := WindowArg(windowSize);
    if IsSet(prop, "argValue") {
      var customArgs := JavaSplit(prop["argValue"], {','});
      args := AppendTrimmed(args, customArgs);
    }
    args := args + StabilityFlags;
    options := LaunchOptions(isHeadless, args, None);
  }

  /** The three fixed flags always close the argument list, and the window size, when set, opens it. */
  lemma LaunchArgsShape(windowSize: string, prop: Props)
    ensures var args := WindowArg(windowSize) + CustomArgs(prop) + StabilityFlags;
      && |args| >= 3 && args[|args| - 3..] == StabilityFlags
      && (windowSize != "" ==> args[0] == "--window-size=" + windowSize)
      && (windowSize == "" && !IsSet(prop, "argValue") ==> args == StabilityFlags)
  {
  }

  /** argValue "a, b ,c" gives the pieces trimmed and in order. */
  lemma CustomArgsFromEntries(prop: Props, entries: seq<string>)
    requires |entries| >= 1 && (|entries| == 1 || entries[|entries| - 1] != "")
    requires forall e :: e in entries ==> ',' !in e
    requires "argValue" in prop && prop["argValue"] == Join(entries, ',') && prop["argValue"] != ""
    ensures CustomArgs(prop) == TrimEach(entries)
  {
    forall e | e in entries ensures Free(e, {','}) {
    }
    JavaSplitJoin(entries, ',', {','});
  }

  // ======================================================== context options

  datatype ContextOptions = ContextOptions(
    locale: string,
    viewport: Viewport,
    userAgent: Option<string>,
    geolocation: Option<(string, string)>,  // latitude and longitude text
    permissions: seq<string>,
    timezone: Option<string>,
    acceptDownloads: bool,
    recordVideoDir: Option<string>)

  datatype ContextBuild =
    | Built(options: ContextOptions)
    | BadCoordinates    // NumberFormatException from Double.parseDouble

  predicate HasGeolocation(prop: Props) {
    "geolocation_latitude" in prop && "geolocation_longitude" in prop
  }

  predicate RecordVideo(prop: Props) {
    "record_video" in prop && EqualsIgnoreCase(prop["record_video"], "true")
  }

  predicate TracingEnabled(prop: Props) {
    EqualsIgnoreCase(GetProperty(prop, "enable_tracing", "false"), "true")
  }

  /**
   * createBrowserContext's options: `coordinatesParse` says whether
   * Double.parseDouble accepts both geolocation values.
   */
  method CreateContextOptions(locale: string, windowSize: string, prop: Props, coordinatesParse: bool)
    returns (b: ContextBuild)
    ensures b.BadCoordinates? <==> HasGeolocation(prop) && !coordinatesParse
    ensures b.Built? ==> var o := b.options;
      && o.locale == locale
      && o.viewport == ParseViewportSize(Some(windowSize))
      && o.userAgent == (if IsSet(prop, "user_agent") then Some(prop["user_agent"]) else None)
      && o.geolocation == (if HasGeolocation(prop)
                           then Some((prop["geolocation_latitude"], prop["geolocation_longitude"]))
                           else None)
      && o.permissions == (if HasGeolocation(prop) then ["geolocation"] else [])
      && o.timezone == (if IsSet(prop, "timezone") then Some(prop["timezone"]) else None)
      && o.acceptDownloads
      && o.recordVideoDir == (if RecordVideo(prop) then Some("videos/") else None)
  {
    var o := ContextOptions(locale, ParseViewportSize(Some(windowSize)), None, None, [], None, false, None);
    if IsSet(prop, "user_agent") {
      o := o.(userAgent := Some(prop["user_agent"]));
    }
    if HasGeolocation(prop) {
      if !coordinatesParse {
        return BadCoordinates;
      }
      o := o.(geolocation := Some((prop["geolocation_latitude"], prop["geolocation_longitude"])),
              permissions := ["geolocation"]);
    }
    if IsSet(prop, "timezone") {
      o := o.(timezone := Some(prop["timezone"]));
    }
    o := o.(acceptDownloads := true);
    if RecordVideo(prop) {
      o := o.(recordVideoDir := Some("videos/"));
    }
    return Built(o);
  }

  // ======================================================= session lifecycle

  /** What the browser driver does at each provisioning step; None: that call throws. */
  datatype Driver = Driver(
    launch: Option<nat>,       // the launched browser
    coordinatesParse: bool,
    newContext: Option<nat>,   // the created context
    tracingStarts: bool,
    newPage: Option<nat>)      // the created page

  /** Both timeout properties parse with Integer.parseInt (their defaults always do). */
  predicate TimeoutsParse(prop: Props) {
    && ParseInt(GetProperty(prop, "default_timeout", "30000")).Some?
    && ParseInt(GetProperty(prop, "navigation_timeout", "30000")).Some?
  }

  /**
   * How far initializeBrowser gets: 0 = nothing stored, 1 = browser stored,
   * 2 = context stored, 3 = tracing started or not wanted, 4 = page stored.
   */
  function Progress(prop: Props, driver: Driver): (p: nat)
    ensures p >= 1 <==> TimeoutsParse(prop) && driver.launch.Some?
    ensures p >= 2 <==> p >= 1 && (HasGeolocation(prop) ==> driver.coordinatesParse) && driver.newContext.Some?
    ensures p >= 3 <==> p >= 2 && (TracingEnabled(prop) ==> driver.tracingStarts)
    ensures p >= 4 <==> p >= 3 && driver.newPage.Some?
    ensures p <= 4
  {
    if !TimeoutsParse(prop) || driver.launch.None? then 0
    else if (HasGeolocation(prop) && !driver.coordinatesParse) || driver.newContext.None? then 1
    else if TracingEnabled(prop) && !driver.tracingStarts then 2
    else if driver.newPage.None? then 3
    else 4
  }

  datatype InitResult =
    | Initialized(launch: LaunchOptions, engine: Engine, context: ContextOptions,
                  tracing: bool, defaultTimeout: int, navigationTimeout: int)
    | InitFailed    // RuntimeException "Browser initialization failed"

  datatype SetupError =
    | LoadFailed(load: LoadResult)
    | InitializationFailed
    | MissingUrl            // IllegalStateException
    | NavigationError       // the page's navigate or waitForLoadState threw

  datatype SetupResult = Ready | SetupFailed(error: SetupError)

  /** How a cleanup ended; neither outcome is an exception. */
  datatype CleanupLog = CleanedUp | CleanupWarning

  /** Everything setUp depends on that lies outside this model. */
  datatype SetupEnv = SetupEnv(
    env: Option<string>,              // the `env` system property
    files: map<string, Props>,        // the readable property files
    url: Option<string>,              // Settings.Url
    browserOverride: Option<string>,  // the `browser` system property
    headlessOverride: Option<string>, // the `headless` system property
    driver: Driver,
    navigationSucceeds: bool,
    cleanupSucceeds: bool)

  /**
   * The outcome of setUp on a framework whose browser properties were
   * `base` before loading: the first stage that fails decides the error.
   */
  function SetupOutcome(base: Props, e: SetupEnv): (r: SetupResult)
    ensures r.Ready? ==> LoadOutcome(e.env, e.files) == PropertiesLoaded && e.url.Some? && e.url.value != ""
    ensures r == SetupFailed(MissingUrl) ==>
      BrowserConfigPath in e.files && Progress(base + e.files[BrowserConfigPath], e.driver) == 4
  {
    var load := LoadOutcome(e.env, e.files);
    if load != PropertiesLoaded then SetupFailed(LoadFailed(load))
    else if Progress(base + e.files[BrowserConfigPath], e.driver) < 4 then SetupFailed(InitializationFailed)
    else if e.url.None? || e.url.value == "" then SetupFailed(MissingUrl)
    else if !e.navigationSucceeds then SetupFailed(NavigationError)
    else Ready
  }

  /** A setup succeeds only with every file readable, a full browser session, a URL and a navigation that completes. */
  lemma SetupReadyConditions(base: Props, e: SetupEnv)
    ensures SetupOutcome(base, e).Ready? <==>
      && BrowserConfigPath in e.files && e.env.Some? && EnvFilePath(e.env.value) in e.files
      && Progress(base + e.files[BrowserConfigPath], e.driver) == 4
      && e.url.Some? && e.url.value != "" && e.navigationSucceeds
  {
  }

  /** Without an `env` system property, setup fails while loading, before any browser exists. */
  lemma SetupWithoutEnv(base: Props, e: SetupEnv)
    requires e.env.None? && BrowserConfigPath in e.files
    ensures SetupOutcome(base, e) == SetupFailed(LoadFailed(EnvMissing))
  {
  }

  /** A missing URL is reported only once the browser session exists. */
  lemma SetupWithoutUrl(base: Props, e: SetupEnv)
    requires e.url.None? || e.url.value == ""
    requires LoadOutcome(e.env, e.files) == PropertiesLoaded
    requires Progress(base + e.files[BrowserConfigPath], e.driver) == 4
    ensures SetupOutcome(base, e) == SetupFailed(MissingUrl)
  {
  }

  /** The process-wide frameWorkConfig singleton: the session objects it holds. */
  class SessionConfig {
    var browser: Option<nat>
    var context: Option<nat>
    var page: Option<nat>
    var navigatedTo: Option<string>
    /** cleanupScenario() and cleanupAll() calls made on it. */
    var scenarioCleanups: nat
    var fullShutdowns: nat

    constructor ()
      ensures browser.None? && context.None? && page.None? && navigatedTo.None?
      ensures scenarioCleanups == 0 && fullShutdowns == 0
    {
      browser, context, page, navigatedTo := None, None, None, None;
      scenarioCleanups, fullShutdowns := 0, 0;
    }
  }

  class Framework {
    const config: SessionConfig
    var prop: Props
    var envProperties: Props

    constructor (config: SessionConfig)
      ensures this.config == config && prop == map[] && envProperties == map[]
    {
      this.config := config;
      prop, envProperties := map[], map[];
    }

    /** loadProperties: the browser file first, then the environment file named by `env`. */
    method LoadProperties(env: Option<string>, files: map<string, Props>) returns (r: LoadResult)
      modifies this
      ensures r == LoadOutcome(env, files)
      ensures prop == if BrowserConfigPath in files then old(prop) + files[BrowserConfigPath] else old(prop)
      ensures envProperties == if r.PropertiesLoaded? then old(envProperties) + files[EnvFilePath(env.value)]
                               else old(envProperties)
    {
      if BrowserConfigPath !in files {
        return PropertiesUnreadable(BrowserConfigPath);
      }
      prop := prop + files[BrowserConfigPath];
      if env.None? {
        return EnvMissing;
      }
      var envFile := EnvFilePath(env.value);
      if envFile !in files {
        return PropertiesUnreadable(envFile);
      }
      envProperties := envProperties + files[envFile];
      return PropertiesLoaded;
    }

    /**
     * initializeBrowser: resolves the settings, launches, creates the
     * context, starts tracing when enabled and creates the page, storing
     * each object in the singleton as soon as it exists. A failure at any
     * step leaves the later fields as they were.
     */
    method InitializeBrowser(browserOverride: Option<string>, headlessOverride: Option<string>, driver: Driver)
      returns (r: InitResult)
      modifies config
      ensures var p := Progress(prop, driver);
        && (r.Initialized? <==> p == 4)
        && config.browser == (if p >= 1 then driver.launch else old(config.browser))
        && config.context == (if p >= 2 then driver.newContext else old(config.context))
        && config.page == (if p == 4 then driver.newPage else old(config.page))
      ensures r.Initialized? ==>
        var windowSize := GetProperty(prop, "window_size", DefaultWindowSize);
        var t := GetBrowserType(BrowserName(browserOverride, prop));
        && r.launch == LaunchOptions(Headless(headlessOverride, prop),
                                     WindowArg(windowSize) + CustomArgs(prop) + StabilityFlags, t.channel)
        && r.engine == t.engine
        && r.context.locale == GetProperty(prop, "Locale", DefaultLocale)
        && r.context.viewport == ParseViewportSize(Some(windowSize))
        && r.tracing == TracingEnabled(prop)
        && Some(r.defaultTimeout) == ParseInt(GetProperty(prop, "default_timeout", "30000"))
        && Some(r.navigationTimeout) == ParseInt(GetProperty(prop, "navigation_timeout", "30000"))
      ensures config.navigatedTo == old(config.navigatedTo)
      ensures config.scenarioCleanups == old(config.scenarioCleanups)
      ensures config.fullShutdowns == old(config.fullShutdowns)
    {
      var browserName := BrowserName(browserOverride, prop);
      var isHeadless := Headless(headlessOverride, prop);
      var locale := GetProperty(prop, "Locale", DefaultLocale);
      var windowSize := GetProperty(prop, "window_size", DefaultWindowSize);
      var defaultTimeout := ParseInt(GetProperty(prop, "default_timeout", "30000"));
      var navigationTimeout := ParseInt(GetProperty(prop, "navigation_timeout", "30000"));
      if defaultTimeout.None? || navigationTimeout.None? {
        return InitFailed;
      }
      var launchOptions := CreateLaunchOptions(isHeadless, windowSize, prop);
      var browserType := GetBrowserType(browserName);
      launchOptions := launchOptions.(channel := browserType.channel);
      if driver.launch.None? {
        return InitFailed;
      }
      config.browser := driver.launch;
      var contextOptions := CreateContextOptions(locale, windowSize, prop, driver.coordinatesParse);
      if contextOptions.BadCoordinates? || driver.newContext.None? {
        return InitFailed;
      }
      config.context := driver.newContext;
      var tracing := TracingEnabled(prop);
      if tracing && !driver.tracingStarts {
        return InitFailed;
      }
      if driver.newPage.None? {
        return InitFailed;
      }
      config.page := driver.newPage;
      return Initialized(launchOptions, browserType.engine, contextOptions.options, tracing,
                         defaultTimeout.value, navigationTimeout.value);
    }

    /** tearDown: asks the singleton for a scenario cleanup and swallows its failure. */
    method TearDown(cleanupSucceeds: bool) returns (log: CleanupLog)
      modifies config
      ensures config.scenarioCleanups == old(config.scenarioCleanups) + 1
      ensures config.fullShutdowns == old(config.fullShutdowns)
      ensures log == if cleanupSucceeds then CleanedUp else CleanupWarning
      ensures config.browser == old(config.browser) && config.context == old(config.context)
      ensures config.page == old(config.page) && config.navigatedTo == old(config.navigatedTo)
    {
      config.scenarioCleanups := config.scenarioCleanups + 1;
      log := if cleanupSucceeds then CleanedUp else CleanupWarning;
    }

    /** shutdownAll: asks the singleton for a full cleanup and swallows its failure. */
    method ShutdownAll(cleanupSucceeds: bool) returns (log: CleanupLog)
      modifies config
      ensures config.fullShutdowns == old(config.fullShutdowns) + 1
      ensures config.scenarioCleanups == old(config.scenarioCleanups)
      ensures log == if cleanupSucceeds then CleanedUp else CleanupWarning
      ensures config.browser == old(config.browser) && config.context == old(config.context)
      ensures config.page == old(config.page) && config.navigatedTo == old(config.navigatedTo)
    {
      config.fullShutdowns := config.fullShutdowns + 1;
      log := if cleanupSucceeds then CleanedUp else CleanupWarning;
    }

    /**
     * setUp: load, initialize, check the URL, navigate. Whatever fails
     * first is the error, and tearDown runs exactly once before it is
     * rethrown; a successful setup runs no cleanup.
     */
    method SetUp(e: SetupEnv) returns (r: SetupResult)
      modifies this, config
      ensures r == SetupOutcome(old(prop), e)
      ensures prop == if BrowserConfigPath in e.files then old(prop) + e.files[BrowserConfigPath] else old(prop)
      ensures config.scenarioCleanups == old(config.scenarioCleanups) + (if r.SetupFailed? then 1 else 0)
      ensures config.fullShutdowns == old(config.fullShutdowns)
      ensures envProperties == if LoadOutcome(e.env, e.files) == PropertiesLoaded
                               then old(envProperties) + e.files[EnvFilePath(e.env.value)] else old(envProperties)
      ensures var p := if LoadOutcome(e.env, e.files) == PropertiesLoaded then Progress(prop, e.driver) else 0;
        && config.browser == (if p >= 1 then e.driver.launch else old(config.browser))
        && config.context == (if p >= 2 then e.driver.newContext else old(config.context))
        && config.page == (if p == 4 then e.driver.newPage else old(config.page))
      ensures config.navigatedTo == if r.Ready? then e.url else old(config.navigatedTo)
    {
      var load := LoadProperties(e.env, e.files);
      if !load.PropertiesLoaded? {
        var _ := TearDown(e.cleanupSucceeds);
        return SetupFailed(LoadFailed(load));
      }
      var init := InitializeBrowser(e.browserOverride, e.headlessOverride, e.driver);
      if init.InitFailed? {
        var _ := TearDown(e.cleanupSucceeds);
        return SetupFailed(InitializationFailed);
      }
      if e.url.None? || e.url.value == "" {
        var _ := TearDown(e.cleanupSucceeds);
        return SetupFailed(MissingUrl);
      }
      if !e.navigationSucceeds {
        var _ := TearDown(e.cleanupSucceeds);
        return SetupFailed(NavigationError);
      }
      config.navigatedTo := e.url;
      return Ready;
    }
  }
}
