/**
 * The scenario bookkeeping of the Cucumber hooks: suite counters and the
 * integer pass rate, duration formatting, file-name sanitising, the
 * feature-level tags read from a feature file (with a per-URI cache), the
 * scenario-only tag filter, and the teardown rule that cleanup always runs.
 * Clock readings, the feature file's contents and the browser's answers
 * are parameters.
 */
module Hooks {
  import opened JavaText
  import opened FrameworkInit

  // ================================================================ pass rate

  /** The pass rate printed after the suite: passed * 100 / total, 0 for an empty suite. */
  function PassRate(passed: nat, total: nat): (rate: int)
    ensures total == 0 ==> rate == 0
    ensures total > 0 ==> rate * total <= passed * 100 < (rate + 1) * total
  {
    if total > 0 then passed * 100 / total else 0
  }

  /** A percentage: never above 100, and exactly 100 when every scenario passed. */
  lemma PassRateBounds(passed: nat, total: nat)
    requires passed <= total
    ensures 0 <= PassRate(passed, total) <= 100
    ensures total > 0 ==> (PassRate(passed, total) == 100 <==> passed == total)
    ensures passed == 0 ==> PassRate(passed, total) == 0
  {
    if total > 0 {
      var q := passed * 100;
      MulLe(passed, total, 100);
      DivAtMost100(q, total);
      if passed == total {
        DivExactly100(total);
      }
      if q / total >= 100 {
        Div100Means(q, total);
      }
    }
  }

  lemma MulLe(a: int, b: int, c: int)
    requires a <= b && c >= 0
    ensures a * c <= b * c
  {
  }

  lemma DivAtMost100(q: nat, d: nat)
    requires d > 0 && q <= 100 * d
    ensures q / d <= 100
  {
    var r, m := q / d, q % d;
    assert q == r * d + m;
    assert (r - 100) * d <= -m;
  }

  lemma DivExactly100(d: nat)
    requires d > 0
    ensures (100 * d) / d == 100
  {
    var q := 100 * d;
    var r, m := q / d, q % d;
    assert q == r * d + m;
    assert (100 - r) * d == m;
    MulLe(100 - r, 1, d);
    MulLe(-1, 100 - r, d);
  }

  lemma Div100Means(q: nat, d: nat)
    requires d > 0 && q / d >= 100
    ensures q >= 100 * d
  {
    var r, m := q / d, q % d;
    assert q == r * d + m;
    MulLe(100, r, d);
  }

  // ============================================================ formatTime

  /** Java's long division, which truncates toward zero. */
  function JavaDiv(a: int, b: int): int
    requires b > 0
  {
    if a >= 0 then a / b else -((-a) / b)
  }

  /** formatTime: whole seconds as "<s>s" below a minute, otherwise "<m>m <s>s". */
  function FormatTime(millis: int): (t: string)
    ensures EndsWith(t, "s")
  {
    var seconds := JavaDiv(millis, 1000);
    if seconds < 60 then IntToString(seconds) + "s"
    else IntToString(seconds / 60) + "m " + IntToString(seconds % 60) + "s"
  }

  /** Reads a duration written by formatTime back as a number of seconds. */
  function ReadDuration(t: string): Option<nat> {
    if t == [] || t[|t| - 1] != 's' then None else ReadDurationBody(t[..|t| - 1])
  }

  /** "<s>" or "<m>m <s>", the text before the final 's'. */
  function ReadDurationBody(body: string): Option<nat> {
    if 'm' in body then
      var k := IndexOf(body, 'm');
      ReadMinutesAndSeconds(body[..k], body[k + 1..])
    else if body != [] && AllDigits(body) then Some(DigitsValue(body))
    else None
  }

  function ReadMinutesAndSeconds(minutes: string, rest: string): Option<nat> {
    if minutes != [] && AllDigits(minutes) && |rest| >= 2 && rest[0] == ' ' && AllDigits(rest[1..])
    then Some(DigitsValue(minutes) * 60 + DigitsValue(rest[1..]))
    else None
  }

  lemma NoLetterInDigits(s: string, c: char)
    requires AllDigits(s) && !IsDigit(c)
    ensures c !in s
  {
    forall i | 0 <= i < |s|
      ensures s[i] != c
    {
      assert IsDigit(s[i]);
    }
  }

  lemma ReadSeconds(n: nat)
    ensures ReadDuration(NatToString(n) + "s") == Some(n)
  {
    var a := NatToString(n);
    var t := a + "s";
    assert t[..|t| - 1] == a;
    NoLetterInDigits(a, 'm');
    DigitsValueOfNatToString(n);
  }

  /** In "<a>m <b>", the first 'm' is the one after the digits a. */
  lemma FirstLetterAfterDigits(a: string, b: string)
    requires AllDigits(a)
    ensures 'm' in a + "m " + b && IndexOf(a + "m " + b, 'm') == |a|
  {
    var body := a + "m " + b;
    assert body[|a|] == 'm';
    NoLetterInDigits(a, 'm');
    assert forall i :: 0 <= i < |a| ==> body[i] == a[i];
  }

  lemma MinutesLayout(a: string, b: string)
    ensures (a + "m " + b)[..|a|] == a && (a + "m " + b)[|a| + 1..] == " " + b
  {
  }

  lemma ReadSecondsPart(a: string, b: string)
    requires a != [] && b != [] && AllDigits(a) && AllDigits(b)
    ensures ReadMinutesAndSeconds(a, " " + b) == Some(DigitsValue(a) * 60 + DigitsValue(b))
  {
    assert (" " + b)[1..] == b;
  }

  lemma ReadBodyParts(body: string, a: string, b: string)
    requires a != [] && b != [] && AllDigits(a) && AllDigits(b)
    requires 'm' in body && IndexOf(body, 'm') == |a| && body[..|a|] == a && body[|a| + 1..] == " " + b
    ensures ReadDurationBody(body) == Some(DigitsValue(a) * 60 + DigitsValue(b))
  {
    ReadSecondsPart(a, b);
  }

  lemma ReadDurationOfBody(body: string)
    ensures ReadDuration(body + "s") == ReadDurationBody(body)
  {
    var t := body + "s";
    assert t[..|t| - 1] == body;
  }

  lemma ReadDigitMinutes(a: string, b: string)
    requires a != [] && b != [] && AllDigits(a) && AllDigits(b)
    ensures ReadDuration(a + "m " + b + "s") == Some(DigitsValue(a) * 60 + DigitsValue(b))
  {
    FirstLetterAfterDigits(a, b);
    MinutesLayout(a, b);
    ReadBodyParts(a + "m " + b, a, b);
    ReadDurationOfBody(a + "m " + b);
  }

  lemma ReadMinutes(minutes: nat, seconds: nat)
    ensures ReadDuration(NatToString(minutes) + "m " + NatToString(seconds) + "s") == Some(minutes * 60 + seconds)
  {
    ReadDigitMinutes(NatToString(minutes), NatToString(seconds));
    DigitsValueOfNatToString(minutes);
    DigitsValueOfNatToString(seconds);
  }

  /** For a non-negative duration, formatTime loses only the milliseconds. */
  lemma FormatTimeRoundTrip(millis: nat)
    ensures ReadDuration(FormatTime(millis)) == Some(millis / 1000)
  {
    var seconds := millis / 1000;
    FormatTimeLayout(millis);
    if seconds < 60 {
      ReadSeconds(seconds);
    } else {
      ReadMinutes(seconds / 60, seconds % 60);
    }
  }

  lemma FormatTimeLayout(millis: nat)
    ensures millis / 1000 < 60 ==> FormatTime(millis) == NatToString(millis / 1000) + "s"
    ensures millis / 1000 >= 60 ==>
      FormatTime(millis) == NatToString(millis / 1000 / 60) + "m " + NatToString(millis / 1000 % 60) + "s"
  {
    assert JavaDiv(millis, 1000) == millis / 1000;
  }

  /** Minutes appear exactly from one minute on. */
  lemma FormatTimeMinutes(millis: nat)
    ensures 'm' in FormatTime(millis) <==> millis >= 60000
  {
    var seconds := millis / 1000;
    var t := FormatTime(millis);
    if seconds < 60 {
      var a := NatToString(seconds);
      NoLetterInDigits(a, 'm');
      assert t == a + "s";
      forall i | 0 <= i < |t|
        ensures t[i] != 'm'
      {
        if i < |a| {
          assert t[i] == a[i];
        }
      }
    } else {
      var a := NatToString(seconds / 60);
      assert t[|a|] == 'm';
    }
  }

  // ============================================================== sanitize

  /** The characters the pattern [^a-zA-Z0-9-_] leaves alone. */
  predicate IsNameChar(c: char) {
    ('a' <= c <= 'z') || ('A' <= c <= 'Z') || ('0' <= c <= '9') || c == '-' || c == '_'
  }

  /** sanitize: every other character becomes '_'. */
  function Sanitize(name: string): (r: string)
    ensures |r| == |name|
    ensures forall i :: 0 <= i < |r| ==> IsNameChar(r[i])
    ensures forall i :: 0 <= i < |r| && IsNameChar(name[i]) ==> r[i] == name[i]
    ensures forall i :: 0 <= i < |r| && !IsNameChar(name[i]) ==> r[i] == '_'
  {
    seq(|name|, i requires 0 <= i < |name| => if IsNameChar(name[i]) then name[i] else '_')
  }

  /** A name made only of allowed characters is left as it is, and only such a name. */
  lemma SanitizeFixpoint(name: string)
    ensures Sanitize(name) == name <==> forall i :: 0 <= i < |name| ==> IsNameChar(name[i])
  {
    if forall i :: 0 <= i < |name| ==> IsNameChar(name[i]) {
      assert Sanitize(name) == name;
    }
  }

  lemma SanitizeIdempotent(name: string)
    ensures Sanitize(Sanitize(name)) == Sanitize(name)
  {
    SanitizeFixpoint(Sanitize(name));
  }

  /** Where a failed scenario's trace goes. */
  function TracePath(scenarioName: string): (path: string)
    ensures |path| == |scenarioName| + 18
    ensures path[..14] == "target/traces/" && path[|path| - 4..] == ".zip"
    ensures path[14..|path| - 4] == Sanitize(scenarioName)
  {
    "target/traces/" + Sanitize(scenarioName) + ".zip"
  }

  /** Whatever the scenario is called, its trace lands directly inside target/traces. */
  lemma TracePathConfined(scenarioName: string)
    ensures var p := TracePath(scenarioName);
      && StartsWith(p, "target/traces/") && EndsWith(p, ".zip")
      && '/' !in Sanitize(scenarioName) && '.' !in Sanitize(scenarioName)
  {
    var p := TracePath(scenarioName);
    var n := Sanitize(scenarioName);
    assert p[..14] == "target/traces/";
    assert p[|p| - 4..] == ".zip";
    assert '/' !in n && '.' !in n by {
      forall i | 0 <= i < |n| ensures n[i] != '/' && n[i] != '.' {
        assert IsNameChar(n[i]);
      }
    }
  }

  // ========================================================== feature tags

  /** The characters of Java's \s class. */
  const JavaWhitespace: set<char> := {' ', '\t', '\n', '\U{000B}', '\U{000C}', '\r'}

  /**
   * The pieces of a line between whitespace characters. split("\\s+") merges
   * runs of whitespace, so it produces no empty pieces inside the line; the
   * extra empty pieces here never start with '@' and so change no tag set.
   */
  function WhitespaceTokens(line: string): (tokens: seq<string>)
    ensures forall t :: t in tokens ==> Free(t, JavaWhitespace)
  {
    SplitAll(line, JavaWhitespace)
  }

  /** The tokens that start with '@'. */
  function TagsAmong(tokens: seq<string>): (tags: set<string>)
    ensures forall t :: t in tags <==> t in tokens && StartsWith(t, "@")
  {
    if tokens == [] then {}
    else
      var last := tokens[|tokens| - 1];
      assert forall t :: t in tokens <==> t in tokens[..|tokens| - 1] || t == last;
      TagsAmong(tokens[..|tokens| - 1]) + (if StartsWith(last, "@") then {last} else {})
  }

  /** The tags a trimmed line contributes: its '@' tokens, when the line itself starts with '@'. */
  function LineTags(trimmed: string): set<string> {
    if StartsWith(trimmed, "@") then TagsAmong(WhitespaceTokens(trimmed)) else {}
  }

  predicate IsFeatureLine(line: string) {
    StartsWith(Trim(line), "Feature:")
  }

  /** The feature-level tags: those on the lines above the first "Feature:" line. */
  function FeatureTags(lines: seq<string>): (tags: set<string>)
    ensures forall t :: t in tags ==> StartsWith(t, "@") && Free(t, JavaWhitespace)
  {
    if lines == [] || IsFeatureLine(lines[0]) then {}
    else LineTags(Trim(lines[0])) + FeatureTags(lines[1..])
  }

  /** A line whose trimmed form starts with '@' and carries `t` among its '@' tokens. */
  predicate TagLine(line: string, t: string) {
    StartsWith(Trim(line), "@") && t in WhitespaceTokens(Trim(line)) && StartsWith(t, "@")
  }

  /** No line up to and including line `i` is a "Feature:" line. */
  predicate NoFeatureUpTo(lines: seq<string>, i: int) {
    forall j :: 0 <= j <= i && j < |lines| ==> !IsFeatureLine(lines[j])
  }

  lemma NoFeatureUpToStep(lines: seq<string>, k: nat)
    requires lines != [] && !IsFeatureLine(lines[0]) && k < |lines[1..]|
    ensures NoFeatureUpTo(lines, k + 1) <==> NoFeatureUpTo(lines[1..], k)
  {
    var rest := lines[1..];
    if NoFeatureUpTo(rest, k) {
      forall j | 0 <= j <= k + 1 && j < |lines| ensures !IsFeatureLine(lines[j]) {
        if j > 0 {
          assert lines[j] == rest[j - 1];
        }
      }
    }
    if NoFeatureUpTo(lines, k + 1) {
      forall j | 0 <= j <= k && j < |rest| ensures !IsFeatureLine(rest[j]) {
        assert rest[j] == lines[j + 1];
      }
    }
  }

  /**
   * Exactly the '@' tokens of the '@' lines that come before any
   * "Feature:" line are collected.
   */
  lemma {:induction false} FeatureTagsMembers(lines: seq<string>, t: string)
    ensures t in FeatureTags(lines) <==>
      exists i :: 0 <= i < |lines| && NoFeatureUpTo(lines, i) && TagLine(lines[i], t)
  {
    if lines == [] {
    } else if IsFeatureLine(lines[0]) {
      forall i | 0 <= i < |lines| ensures !NoFeatureUpTo(lines, i) {
        assert IsFeatureLine(lines[0]);
      }
    } else {
      var rest := lines[1..];
      FeatureTagsMembers(rest, t);
      assert t in LineTags(Trim(lines[0])) <==> TagLine(lines[0], t);
      assert NoFeatureUpTo(lines, 0);
      if t in FeatureTags(lines) && !TagLine(lines[0], t) {
        var k :| 0 <= k < |rest| && NoFeatureUpTo(rest, k) && TagLine(rest[k], t);
        NoFeatureUpToStep(lines, k);
        assert lines[k + 1] == rest[k];
      } else if t !in FeatureTags(lines) {
        forall i | 0 < i < |lines| && NoFeatureUpTo(lines, i) ensures !TagLine(lines[i], t) {
          NoFeatureUpToStep(lines, i - 1);
          assert rest[i - 1] == lines[i];
        }
      }
    }
  }

  /** Nothing after the first "Feature:" line matters. */
  lemma {:induction false} FeatureTagsStopAtFeature(before: seq<string>, featureLine: string, after: seq<string>)
    requires IsFeatureLine(featureLine)
    ensures FeatureTags(before + [featureLine] + after) == FeatureTags(before + [featureLine])
  {
    if before == [] {
      assert (before + [featureLine] + after)[0] == featureLine;
      assert (before + [featureLine])[0] == featureLine;
    } else {
      assert (before + [featureLine] + after)[1..] == before[1..] + [featureLine] + after;
      assert (before + [featureLine])[1..] == before[1..] + [featureLine];
      FeatureTagsStopAtFeature(before[1..], featureLine, after);
    }
  }

  /** The inner loop of getFeatureLevelTags: adds the line's '@' tokens. */
  method AddTags(featureTags: set<string>, tokens: seq<string>) returns (r: set<string>)
    ensures r == featureTags + TagsAmong(tokens)
  {
    r := featureTags;
    for j := 0 to |tokens|
      invariant r == featureTags + TagsAmong(tokens[..j])
    {
      assert tokens[..j + 1][..j] == tokens[..j];
      if StartsWith(tokens[j], "@") {
        r := r + {tokens[j]};
      }
    }
    assert tokens[..|tokens|] == tokens;
  }

  /** One line of the file, seen from position i. */
  lemma FeatureTagsFrom(lines: seq<string>, i: nat)
    requires i < |lines|
    ensures IsFeatureLine(lines[i]) ==> FeatureTags(lines[i..]) == {}
    ensures !IsFeatureLine(lines[i]) ==>
      FeatureTags(lines[i..]) == LineTags(Trim(lines[i])) + FeatureTags(lines[i + 1..])
  {
    assert lines[i..][0] == lines[i];
    assert lines[i..][1..] == lines[i + 1..];
  }

  /** The loop of getFeatureLevelTags over the file's lines, stopping at the feature line. */
  method ParseFeatureTags(lines: seq<string>) returns (featureTags: set<string>)
    ensures featureTags == FeatureTags(lines)
  {
    featureTags := {};
    var i := 0;
    while i < |lines|
      invariant 0 <= i <= |lines|
      invariant featureTags + FeatureTags(lines[i..]) == FeatureTags(lines)
    {
      FeatureTagsFrom(lines, i);
      var trimmed := Trim(lines[i]);
      if StartsWith(trimmed, "Feature:") {
        break;
      }
      if StartsWith(trimmed, "@") {
        featureTags := AddTags(featureTags, WhitespaceTokens(trimmed));
      }
      i := i + 1;
    }
    assert i == |lines| ==> lines[i..] == [];
  }

  /** What reading a feature file gives. */
  datatype FeatureFile =
    | NotFound                      // no path resolves, or the file does not exist
    | Unreadable                    // readAllLines throws
    | Lines(lines: seq<string>)

  /** The feature-level tags for a URI: the cached set if there is one, else the file's. */
  function FeatureLevelTags(cache: map<string, set<string>>, uri: string, file: FeatureFile): (tags: set<string>)
    ensures uri in cache ==> tags == cache[uri]
    ensures uri !in cache ==> forall t :: t in tags ==> StartsWith(t, "@")
    ensures uri !in cache && !file.Lines? ==> tags == {}
  {
    if uri in cache then cache[uri]
    else if file.Lines? then FeatureTags(file.lines)
    else {}
  }

  /** Only a file that was read is cached, and a cached entry is never replaced. */
  function CacheAfter(cache: map<string, set<string>>, uri: string, file: FeatureFile): (after: map<string, set<string>>)
    ensures after.Keys == if file.Lines? then cache.Keys + {uri} else cache.Keys
    ensures forall k :: k in cache ==> after[k] == cache[k]
  {
    if uri !in cache && file.Lines? then cache[uri := FeatureTags(file.lines)] else cache
  }

  /** Once a file has been read, later lookups return the same set whatever the file holds by then. */
  lemma CacheIsStable(cache: map<string, set<string>>, uri: string, first: FeatureFile, later: FeatureFile)
    requires first.Lines?
    ensures var c := CacheAfter(cache, uri, first);
      && FeatureLevelTags(c, uri, later) == FeatureLevelTags(cache, uri, first)
      && CacheAfter(c, uri, later) == c
  {
  }

  /** A file that cannot be found or read gives no tags and leaves no entry behind. */
  lemma MissingFileNotCached(cache: map<string, set<string>>, uri: string, file: FeatureFile)
    requires !file.Lines? && uri !in cache
    ensures FeatureLevelTags(cache, uri, file) == {} && CacheAfter(cache, uri, file) == cache
  {
  }

  // ===================================================== scenario-only tags

  /** The tags not in `exclude`, in their original order. */
  function FilterOut(tags: seq<string>, exclude: set<string>): (r: seq<string>)
    ensures |r| <= |tags|
    ensures forall t :: multiset(r)[t] == if t in exclude then 0 else multiset(tags)[t]
  {
    if tags == [] then []
    else
      var rest := FilterOut(tags[1..], exclude);
      assert tags == [tags[0]] + tags[1..];
      if tags[0] in exclude then rest else [tags[0]] + rest
  }

  /** Filtering keeps order: it distributes over concatenation. */
  lemma {:induction false} FilterOutAppend(a: seq<string>, b: seq<string>, exclude: set<string>)
    ensures FilterOut(a + b, exclude) == FilterOut(a, exclude) + FilterOut(b, exclude)
  {
    if a != [] {
      assert (a + b)[0] == a[0] && (a + b)[1..] == a[1..] + b;
      FilterOutAppend(a[1..], b, exclude);
    } else {
      assert a + b == b;
    }
  }

  /** getScenarioOnlyTags: no tags, or no URI to read, shows every tag; otherwise the feature's own are removed. */
  function ScenarioOnlyTags(allTags: seq<string>, uri: Option<string>, cache: map<string, set<string>>,
                            file: FeatureFile): (shown: seq<string>)
    ensures |shown| <= |allTags|
    ensures forall t :: multiset(shown)[t] <= multiset(allTags)[t]
    ensures uri.Some? ==> forall t :: t in FeatureLevelTags(cache, uri.value, file) ==> t !in shown
  {
    if allTags == [] || uri.None? then allTags
    else FilterOut(allTags, FeatureLevelTags(cache, uri.value, file))
  }

  /** The lookup's effect on the cache. */
  function CacheAfterScenarioTags(allTags: seq<string>, uri: Option<string>, cache: map<string, set<string>>,
                                  file: FeatureFile): map<string, set<string>> {
    if allTags == [] || uri.None? then cache else CacheAfter(cache, uri.value, file)
  }

  /** A scenario in a feature file without feature-level tags shows all its tags. */
  lemma UntaggedFeatureShowsAll(allTags: seq<string>, uri: string, cache: map<string, set<string>>, file: FeatureFile)
    requires FeatureLevelTags(cache, uri, file) == {}
    ensures ScenarioOnlyTags(allTags, Some(uri), cache, file) == allTags
  {
    FilterOutNothing(allTags);
  }

  lemma {:induction false} FilterOutNothing(tags: seq<string>)
    ensures FilterOut(tags, {}) == tags
  {
    if tags != [] {
      FilterOutNothing(tags[1..]);
      assert [tags[0]] + tags[1..] == tags;
    }
  }

  // ============================================================ the hooks

  /** A fresh framework object starts from empty properties, so loading a file gives exactly that file. */
  lemma EmptyUnion(m: Props)
    ensures map[] + m == m
  {
  }

  /** How the trace step of teardown ended. */
  datatype TraceOutcome =
    | NoTrace
    | TraceSaved(path: string)
    | TraceStopFailed(path: string)   // tracing().stop threw; the error is logged

  /** The line printed by afterAll. */
  datatype Summary = Summary(total: nat, passed: nat, failed: nat, duration: string, passRate: int)

  /**
   * The hooks' state: the static counters and feature-tag cache shared by
   * every scenario, and the framework object of the current scenario.
   */
  class ScenarioHooks {
    var totalTests: nat
    var passedTests: nat
    var failedTests: nat
    var featureTagsCache: map<string, set<string>>
    var fm: Framework?
    /** The session singleton every framework object shares. */
    const config: SessionConfig
    /** Between a scenario's setup and its teardown. */
    ghost var inScenario: bool

    /** Every finished scenario was counted once as passed or failed. */
    ghost predicate Valid()
      reads this, fm
    {
      && (fm != null ==> fm.config == config)
      && passedTests + failedTests + (if inScenario then 1 else 0) == totalTests
    }

    constructor (config: SessionConfig)
      ensures Valid() && !inScenario && this.config == config
      ensures totalTests == 0 && passedTests == 0 && failedTests == 0
      ensures featureTagsCache == map[] && fm == null
    {
      this.config := config;
      totalTests, passedTests, failedTests := 0, 0, 0;
      featureTagsCache := map[];
      fm := null;
      inScenario := false;
    }

    /** getFeatureLevelTags: the cache first, else the file, caching only a file that was read. */
    method GetFeatureLevelTags(uri: string, file: FeatureFile) returns (tags: set<string>)
      modifies this
      ensures tags == FeatureLevelTags(old(featureTagsCache), uri, file)
      ensures featureTagsCache == CacheAfter(old(featureTagsCache), uri, file)
      ensures totalTests == old(totalTests) && passedTests == old(passedTests) && failedTests == old(failedTests)
      ensures fm == old(fm) && inScenario == old(inScenario)
    {
      if uri in featureTagsCache {
        return featureTagsCache[uri];
      }
      match file
      case NotFound =>
        return {};
      case Unreadable =>
        return {};
      case Lines(lines) =>
        tags := ParseFeatureTags(lines);
        featureTagsCache := featureTagsCache[uri := tags];
    }

    /** getScenarioOnlyTags: the scenario's tags without the feature-level ones, in order. */
    method GetScenarioOnlyTags(allTags: seq<string>, uri: Option<string>, file: FeatureFile)
      returns (tags: seq<string>)
      modifies this
      ensures tags == ScenarioOnlyTags(allTags, uri, old(featureTagsCache), file)
      ensures featureTagsCache == CacheAfterScenarioTags(allTags, uri, old(featureTagsCache), file)
      ensures totalTests == old(totalTests) && passedTests == old(passedTests) && failedTests == old(failedTests)
      ensures fm == old(fm) && inScenario == old(inScenario)
    {
      if allTags == [] {
        return allTags;
      }
      if uri.None? {
        return allTags;
      }
      var featureTags := GetFeatureLevelTags(uri.value, file);
      tags := FilterOut(allTags, featureTags);
    }

    /**
     * setup: counts the scenario, computes the tags to show, then creates
     * a framework object and runs its setUp, whose failure is rethrown.
     */
    method Setup(allTags: seq<string>, uri: Option<string>, file: FeatureFile, e: SetupEnv)
      returns (shownTags: seq<string>, r: SetupResult)
      requires Valid() && !inScenario
      modifies this, config
      ensures Valid() && inScenario
      ensures totalTests == old(totalTests) + 1
      ensures passedTests == old(passedTests) && failedTests == old(failedTests)
      ensures shownTags == ScenarioOnlyTags(allTags, uri, old(featureTagsCache), file)
      ensures featureTagsCache == CacheAfterScenarioTags(allTags, uri, old(featureTagsCache), file)
      ensures fm != null && fresh(fm)
      ensures fm.prop == if BrowserConfigPath in e.files then e.files[BrowserConfigPath] else map[]
      ensures r == SetupOutcome(map[], e)
      ensures config.scenarioCleanups == old(config.scenarioCleanups) + (if r.SetupFailed? then 1 else 0)
      ensures config.fullShutdowns == old(config.fullShutdowns)
      ensures fm.envProperties == if LoadOutcome(e.env, e.files) == PropertiesLoaded
                                  then e.files[EnvFilePath(e.env.value)] else map[]
      ensures var p := if LoadOutcome(e.env, e.files) == PropertiesLoaded then Progress(fm.prop, e.driver) else 0;
        && config.browser == (if p >= 1 then e.driver.launch else old(config.browser))
        && config.context == (if p >= 2 then e.driver.newContext else old(config.context))
        && config.page == (if p == 4 then e.driver.newPage else old(config.page))
      ensures config.navigatedTo == if r.Ready? then e.url else old(config.navigatedTo)
      ensures r.Ready? ==> && config.browser == e.driver.launch && config.context == e.driver.newContext
                           && config.page == e.driver.newPage
    {
      totalTests := totalTests + 1;
      inScenario := true;
      shownTags := GetScenarioOnlyTags(allTags, uri, file);
      fm := new Framework(config);
      r := fm.SetUp(e);
      if BrowserConfigPath in e.files {
        EmptyUnion(e.files[BrowserConfigPath]);
      }
      if e.env.Some? && EnvFilePath(e.env.value) in e.files {
        EmptyUnion(e.files[EnvFilePath(e.env.value)]);
      }
    }

    /**
     * teardown: exactly one of the pass and fail counters goes up; a failed
     * scenario's trace is saved when a context exists and tracing is on;
     * cleanup runs last in every case, and only acts with a framework object.
     */
    method Teardown(isFailed: bool, scenarioName: string, traceStops: bool, cleanupSucceeds: bool)
      returns (trace: TraceOutcome)
      requires Valid() && inScenario
      modifies this, config
      ensures Valid() && !inScenario
      ensures failedTests == old(failedTests) + (if isFailed then 1 else 0)
      ensures passedTests == old(passedTests) + (if isFailed then 0 else 1)
      ensures totalTests == old(totalTests) && fm == old(fm)
      ensures featureTagsCache == old(featureTagsCache)
      ensures trace != NoTrace <==>
        isFailed && fm != null && old(config.context).Some? && TracingEnabled(fm.prop)
      ensures trace != NoTrace ==> trace.path == TracePath(scenarioName)
      ensures trace.TraceSaved? <==> trace != NoTrace && traceStops
      ensures config.scenarioCleanups == old(config.scenarioCleanups) + (if fm != null then 1 else 0)
      ensures config.fullShutdowns == old(config.fullShutdowns)
    {
      if isFailed {
        failedTests := failedTests + 1;
      } else {
        passedTests := passedTests + 1;
      }
      inScenario := false;
      trace := NoTrace;
      if isFailed && fm != null && fm.config.context.Some? {
        if TracingEnabled(fm.prop) {
          var tracePath := TracePath(scenarioName);
          trace := if traceStops then TraceSaved(tracePath) else TraceStopFailed(tracePath);
        }
      }
      if fm != null {
        var _ := fm.TearDown(cleanupSucceeds);
      }
    }

    /** afterAll: the summary with its pass rate, then a full shutdown whose failure is only logged. */
    method AfterAll(totalTime: int, cleanupSucceeds: bool) returns (summary: Summary)
      requires Valid()
      modifies config
      ensures summary == Summary(totalTests, passedTests, failedTests, FormatTime(totalTime),
                                 PassRate(passedTests, totalTests))
      ensures 0 <= summary.passRate <= 100
      ensures config.fullShutdowns == old(config.fullShutdowns) + 1
      ensures config.scenarioCleanups == old(config.scenarioCleanups)
    {
      PassRateBounds(passedTests, totalTests);
      summary := Summary(totalTests, passedTests, failedTests, FormatTime(totalTime),
                         PassRate(passedTests, totalTests));
      var shutdown := new Framework(config);
      var _ := shutdown.ShutdownAll(cleanupSucceeds);
    }
  }
}
