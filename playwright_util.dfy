/**
 * The decision logic of the action-utility layer (class `playwright`): the
 * process-wide variable store, the bounded-retry navigation loop, the
 * argument checks that run before the page is touched, the "safe" queries,
 * the keyword-to-path lookup and the bounds of the random generators.
 * What the browser does is a parameter: the outcome of each page call.
 */
module PlaywrightUtil {
  import opened JavaText

  // ========================================================= variable store

  /** A stored value: Java null, a string, or a boxed integer. */
  datatype Value = Null | Text(text: string) | Number(number: int)

  /** Object.toString of a non-null stored value. */
  function ValueToString(v: Value): string
    requires !v.Null?
  {
    match v
    case Text(s) => s
    case Number(n) => IntToString(n)
  }

  /** The static `variables` map shared by every page object. */
  class VariableStore {
    var variables: map<string, Value>

    constructor ()
      ensures variables == map[]
    {
      variables := map[];
    }

    /** Map.get: an absent key reads as null, like a key stored with null. */
    function GetVariable(key: string): (v: Value)
      reads this
      ensures key in variables ==> v == variables[key]
      ensures key !in variables ==> v == Null
    {
      if key in variables then variables[key] else Null
    }

    method SetVariable(key: string, value: Value)
      modifies this
      ensures variables == old(variables)[key := value]
      ensures GetVariable(key) == value
      ensures forall k :: k != key ==> GetVariable(k) == old(GetVariable(k))
    {
      variables := variables[key := value];
    }

    /** The value's string form, or "" for an absent key or a null value. */
    function GetVariableAsString(key: string): (s: string)
      reads this
      ensures GetVariable(key) == Null ==> s == ""
      ensures GetVariable(key).Text? ==> s == GetVariable(key).text
      ensures GetVariable(key).Number? ==> s == IntToString(GetVariable(key).number)
    {
      var v := GetVariable(key);
      if v.Null? then "" else ValueToString(v)
    }
  }

  // ====================================================== retried navigation

  /** What one call of page.navigate does. */
  datatype Attempt =
    | Loaded
    | PlaywrightFailure(message: string)   // a PlaywrightException (TimeoutError included)
    | OtherFailure(message: string)        // any other exception: not caught by the loop

  datatype NavResult =
    | Navigated
    | InvalidUrl                           // IllegalArgumentException, before any attempt
    | NavigationFailed(cause: Option<string>)  // AssertionError wrapping the last failure
    | Propagated(message: string)          // an exception the loop does not catch

  /** The result, the number of navigate calls and the number of 1000 ms waits. */
  datatype NavRun = NavRun(result: NavResult, tries: nat, waits: nat)

  /** The index of the first attempt the loop does not retry, or |attempts| if none. */
  function FirstSettled(attempts: seq<Attempt>): (k: nat)
    ensures k <= |attempts|
    ensures forall i :: 0 <= i < k ==> attempts[i].PlaywrightFailure?
    ensures k < |attempts| ==> !attempts[k].PlaywrightFailure?
  {
    if attempts == [] || !attempts[0].PlaywrightFailure? then 0
    else 1 + FirstSettled(attempts[1..])
  }

  /**
   * What navigateTo(url, maxRetries) does when the i-th navigate call behaves
   * as attempts[i]: the first maxRetries calls are made until one is not a
   * PlaywrightException, with a wait after every retried failure.
   */
  function Navigation(url: Option<string>, maxRetries: int, attempts: seq<Attempt>): (run: NavRun)
    requires maxRetries <= |attempts|
    ensures run.tries <= (if maxRetries > 0 then maxRetries else 0)
    ensures run.tries > 0 ==> run.waits == run.tries - 1
    ensures run.tries == 0 ==> run.waits == 0 && !run.result.Navigated?
    ensures run.result.Navigated? ==>
      && url.Some? && url.value != "" && attempts[run.tries - 1].Loaded?
      && forall i :: 0 <= i < run.tries - 1 ==> attempts[i].PlaywrightFailure?
  {
    if url.None? || url.value == "" then NavRun(InvalidUrl, 0, 0)
    else if maxRetries <= 0 then NavRun(NavigationFailed(None), 0, 0)
    else
      var k := FirstSettled(attempts[..maxRetries]);
      if k < maxRetries then
        NavRun(if attempts[k].Loaded? then Navigated else Propagated(attempts[k].message), k + 1, k)
      else
        NavRun(NavigationFailed(Some(attempts[maxRetries - 1].message)), maxRetries, maxRetries - 1)
  }

  /** navigateTo(url, maxRetries): the retry loop, proved to behave as Navigation. */
  method NavigateTo(url: Option<string>, maxRetries: int, attempts: seq<Attempt>)
    returns (r: NavResult, tries: nat, waits: nat)
    requires maxRetries <= |attempts|
    ensures NavRun(r, tries, waits) == Navigation(url, maxRetries, attempts)
  {
    if url.None? || url.value == "" {
      return InvalidUrl, 0, 0;
    }
    var attempt: nat := 0;
    var lastFailure: Option<string> := None;
    waits := 0;
    while attempt < maxRetries
      invariant attempt == 0 || attempt <= maxRetries
      invariant forall i :: 0 <= i < attempt ==> attempts[i].PlaywrightFailure?
      invariant lastFailure == if attempt == 0 then None else Some(attempts[attempt - 1].message)
      invariant waits == if attempt < maxRetries then attempt else if attempt == 0 then 0 else attempt - 1
    {
      attempt := attempt + 1;
      match attempts[attempt - 1]
      case Loaded =>
        assert FirstSettled(attempts[..maxRetries]) == attempt - 1;
        return Navigated, attempt, waits;
      case OtherFailure(m) =>
        assert FirstSettled(attempts[..maxRetries]) == attempt - 1;
        return Propagated(m), attempt, waits;
      case PlaywrightFailure(m) =>
        lastFailure := Some(m);
        if attempt < maxRetries {
          waits := waits + 1;
        }
    }
    if maxRetries > 0 {
      assert FirstSettled(attempts[..maxRetries]) == maxRetries;
    }
    return NavigationFailed(lastFailure), attempt, waits;
  }

  /** navigateTo(url): a single attempt. */
  method NavigateOnce(url: Option<string>, attempts: seq<Attempt>)
    returns (r: NavResult, tries: nat, waits: nat)
    requires 1 <= |attempts|
    ensures NavRun(r, tries, waits) == Navigation(url, 1, attempts)
    ensures tries <= 1 && waits == 0
  {
    r, tries, waits := NavigateTo(url, 1, attempts);
  }

  /** Never more than maxRetries calls, and exactly one wait between consecutive calls. */
  lemma NavigationCounts(url: Option<string>, maxRetries: int, attempts: seq<Attempt>)
    requires maxRetries <= |attempts|
    ensures var run := Navigation(url, maxRetries, attempts);
      && (run.tries == 0 || run.tries <= maxRetries)
      && run.waits == if run.tries == 0 then 0 else run.tries - 1
  {
  }

  /** k retried failures followed by a success: k + 1 calls and k waits. */
  lemma {:induction false} SuccessAfterFailures(url: string, maxRetries: int, attempts: seq<Attempt>, k: nat)
    requires url != "" && k < maxRetries <= |attempts|
    requires forall i :: 0 <= i < k ==> attempts[i].PlaywrightFailure?
    requires attempts[k].Loaded?
    ensures Navigation(Some(url), maxRetries, attempts) == NavRun(Navigated, k + 1, k)
  {
    var p := attempts[..maxRetries];
    assert forall i :: 0 <= i < maxRetries ==> p[i] == attempts[i];
  }

  /** Every attempt fails with a PlaywrightException: maxRetries calls, maxRetries - 1 waits, last cause wrapped. */
  lemma {:induction false} AllAttemptsFail(url: string, maxRetries: int, attempts: seq<Attempt>)
    requires url != "" && 0 < maxRetries <= |attempts|
    requires forall i :: 0 <= i < maxRetries ==> attempts[i].PlaywrightFailure?
    ensures Navigation(Some(url), maxRetries, attempts)
         == NavRun(NavigationFailed(Some(attempts[maxRetries - 1].message)), maxRetries, maxRetries - 1)
  {
    var p := attempts[..maxRetries];
    assert forall i :: 0 <= i < maxRetries ==> p[i] == attempts[i];
  }

  /**
   * Only a PlaywrightException is retried: the run ends in Propagated exactly
   * when the first attempt that is not one, within the budget, is another exception.
   */
  lemma OnlyPlaywrightFailuresRetried(url: string, maxRetries: int, attempts: seq<Attempt>)
    requires url != "" && maxRetries <= |attempts|
    ensures Navigation(Some(url), maxRetries, attempts).result.Propagated?
        <==> exists k :: 0 <= k < maxRetries && attempts[k].OtherFailure?
               && forall i :: 0 <= i < k ==> attempts[i].PlaywrightFailure?
  {
    if maxRetries > 0 {
      var p := attempts[..maxRetries];
      assert forall i :: 0 <= i < maxRetries ==> p[i] == attempts[i];
    }
  }

  // ======================================================== argument checks

  /** What a single page call does. */
  datatype PageOutcome = Succeeded | TimedOut | PlaywrightError | OtherError

  datatype ActionResult =
    | Done
    | IllegalArgument(reason: string)  // rejected before the page is used
    | ActionFailed                     // AssertionError wrapping a PlaywrightException
    | Escaped                          // an exception the action does not catch

  /** The action's result and whether the page was called at all. */
  datatype Action = Action(result: ActionResult, pageUsed: bool)

  /** The shared catch clauses: a PlaywrightException (TimeoutError included) becomes an AssertionError. */
  function Translate(page: PageOutcome): (r: ActionResult)
    ensures r.Done? <==> page.Succeeded?
    ensures r.ActionFailed? <==> page.TimedOut? || page.PlaywrightError?
    ensures !r.IllegalArgument?
  {
    match page
    case Succeeded => Done
    case TimedOut => ActionFailed
    case PlaywrightError => ActionFailed
    case OtherError => Escaped
  }

  /** fill(locator, text): a null text is refused before the page is used. */
  function Fill(locator: string, text: Option<string>, page: PageOutcome): (a: Action)
    ensures a.pageUsed <==> text.Some?
    ensures text.None? ==> a.result == IllegalArgument("Text cannot be null for locator: " + locator)
    ensures text.Some? ==> a.result == Translate(page)
  {
    if text.None? then Action(IllegalArgument("Text cannot be null for locator: " + locator), false)
    else Action(Translate(page), true)
  }

  /** selectByValue(locator, value): a null value is refused before the page is used. */
  function SelectByValue(locator: string, value: Option<string>, page: PageOutcome): (a: Action)
    ensures a.pageUsed <==> value.Some?
    ensures value.None? ==> a.result == IllegalArgument("Value cannot be null for: " + locator)
    ensures value.Some? ==> a.result == Translate(page)
  {
    if value.None? then Action(IllegalArgument("Value cannot be null for: " + locator), false)
    else Action(Translate(page), true)
  }

  /**
   * uploadFile(locator, filePath): a null or empty path, then a path naming
   * no existing file, are refused before the page is used.
   */
  function UploadFile(filePath: Option<string>, fileExists: bool, page: PageOutcome): (a: Action)
    ensures a.pageUsed <==> filePath.Some? && filePath.value != "" && fileExists
    ensures (filePath.None? || filePath.value == "") ==>
      a.result == IllegalArgument("File path cannot be null or empty")
    ensures filePath.Some? && filePath.value != "" && !fileExists ==>
      a.result == IllegalArgument("File does not exist: " + filePath.value)
    ensures a.pageUsed ==> a.result == Translate(page)
  {
    if filePath.None? || filePath.value == "" then
      Action(IllegalArgument("File path cannot be null or empty"), false)
    else if !fileExists then
      Action(IllegalArgument("File does not exist: " + filePath.value), false)
    else
      Action(Translate(page), true)
  }

  // ========================================================== safe queries

  /** What a page query returned, or that it threw. */
  datatype Query<T> = Answered(answer: T) | Threw(message: string)

  /** isVisibleSafe: any exception reads as "not visible". */
  function IsVisibleSafe(q: Query<bool>): (visible: bool)
    ensures visible <==> q.Answered? && q.answer
  {
    match q
    case Answered(b) => b
    case Threw(_) => false
  }

  /** getTextSafe: any exception reads as ""; a null textContent passes through as null. */
  function GetTextSafe(q: Query<Option<string>>): (text: Option<string>)
    ensures q.Threw? ==> text == Some("")
    ensures q.Answered? ==> text == q.answer
  {
    match q
    case Answered(t) => t
    case Threw(_) => Some("")
  }

  /** getAttributeSafe: any exception reads as null. */
  function GetAttributeSafe(q: Query<Option<string>>): (value: Option<string>)
    ensures q.Threw? ==> value.None?
    ensures q.Answered? ==> value == q.answer
  {
    match q
    case Answered(v) => v
    case Threw(_) => None
  }

  // ================================================== keyword -> path lookup

  /** A line of the lookup file that names `keyword`: its trimmed form starts with it and it has an '='. */
  predicate IsEntryFor(line: string, keyword: string) {
    StartsWith(Trim(line), keyword) && '=' in line
  }

  /** The path of an entry: the text after the first '=', trimmed, unquoted, with '\' turned into '/'. */
  function EntryValue(line: string): (path: string)
    requires '=' in line
    ensures '"' !in path && '\\' !in path
  {
    var raw := Trim(line[IndexOf(line, '=') + 1..]);
    ReplaceChar(RemoveChar(raw, '"'), '\\', '/')
  }

  /** The first '=' splits the line: everything before it is key text, everything after it is value. */
  lemma EntryValueAfterFirstEquals(before: string, after: string)
    requires '=' !in before
    ensures EntryValue(before + "=" + after) == ReplaceChar(RemoveChar(Trim(after), '"'), '\\', '/')
  {
    var line := before + "=" + after;
    assert line[|before|] == '=';
    assert forall i :: 0 <= i < |before| ==> line[i] == before[i];
    assert IndexOf(line, '=') == |before|;
    assert line[|before| + 1..] == after;
  }

  /** Removing the quotes around a quote-free path gives the path. */
  lemma RemoveSurroundingQuotes(path: string)
    requires '"' !in path
    ensures RemoveChar("\"" + path + "\"", '"') == path
  {
    var q: string := ['"'];
    assert RemoveChar(q, '"') == [];
    RemoveCharAppend(q + path, q, '"');
    RemoveCharAppend(q, path, '"');
    RemoveCharAbsent(path, '"');
  }

  /** A value written ` "path"` loses its blank and its quotes, and nothing else. */
  lemma UnquotedValue(path: string)
    requires '"' !in path && '\\' !in path
    ensures ReplaceChar(RemoveChar(Trim([' '] + ("\"" + path + "\"")), '"'), '\\', '/') == path
  {
    var quoted := "\"" + path + "\"";
    assert Trim([' '] + quoted) == quoted by {
      assert TrimStart([' '] + quoted) == TrimStart(quoted) == quoted;
    }
    RemoveSurroundingQuotes(path);
    assert ReplaceChar(path, '\\', '/') == path;
  }

  /**
   * The documented entry format `keyword = "path"` gives the path back
   * unchanged, whatever the key and however many '=' the path holds.
   */
  lemma EntryValueRoundTrip(key: string, path: string)
    requires '=' !in key && '"' !in path && '\\' !in path
    ensures EntryValue(key + " = \"" + path + "\"") == path
  {
    var quoted := "\"" + path + "\"";
    assert key + " = \"" + path + "\"" == (key + " ") + "=" + ([' '] + quoted);
    assert '=' !in key + " ";
    EntryValueAfterFirstEquals(key + " ", [' '] + quoted);
    UnquotedValue(path);
  }

  /** An unquoted Windows-style path comes back with '/' for every '\\'. */
  lemma EntryValueBackslashes(key: string, path: string)
    requires '=' !in key && '"' !in path
    requires path == [] || (!IsTrimmable(path[0]) && !IsTrimmable(path[|path| - 1]))
    ensures EntryValue(key + "=" + path) == ReplaceChar(path, '\\', '/')
  {
    EntryValueAfterFirstEquals(key, path);
    TrimUntrimmed(path);
    RemoveCharAbsent(path, '"');
  }

  /** The path of the first entry for `keyword`, if any. */
  function PathFor(lines: seq<string>, keyword: string): (path: Option<string>)
    ensures path.Some? ==> '"' !in path.value && '\\' !in path.value
  {
    if lines == [] then None
    else if IsEntryFor(lines[0], keyword) then Some(EntryValue(lines[0]))
    else PathFor(lines[1..], keyword)
  }

  /** PathFor finds exactly the first entry for the keyword. */
  lemma {:induction false} PathForIsFirstEntry(lines: seq<string>, keyword: string, i: nat)
    requires i < |lines| && IsEntryFor(lines[i], keyword)
    requires forall j :: 0 <= j < i ==> !IsEntryFor(lines[j], keyword)
    ensures PathFor(lines, keyword) == Some(EntryValue(lines[i]))
  {
    if i > 0 {
      var rest := lines[1..];
      assert !IsEntryFor(lines[0], keyword);
      forall j | 0 <= j < i - 1
        ensures !IsEntryFor(rest[j], keyword)
      {
        assert rest[j] == lines[j + 1];
      }
      PathForIsFirstEntry(rest, keyword, i - 1);
    }
  }

  /** No entry for the keyword: the lookup finds nothing. */
  lemma {:induction false} PathForNoEntry(lines: seq<string>, keyword: string)
    requires forall j :: 0 <= j < |lines| ==> !IsEntryFor(lines[j], keyword)
    ensures PathFor(lines, keyword) == None
  {
    if lines != [] {
      PathForNoEntry(lines[1..], keyword);
    }
  }

  /** A line that starts with a longer key still matches: the match is on a prefix. */
  lemma PrefixKeyMatches(key: string, more: string, value: string)
    requires key != "" && '=' !in key + more && key[0] > ' '
    ensures IsEntryFor(key + more + "=" + value, key)
  {
    var line := key + more + "=" + value;
    assert line[|key + more|] == '=';
    assert TrimStart(line) == line;
    assert Trim(line)[..|key|] == key;
  }

  datatype FileRead<T> = Read(content: T) | ReadFailed

  datatype LookupResult =
    | Found(path: string)
    | KeywordNotFound        // IllegalArgumentException
    | ConfigUnreadable       // RuntimeException wrapping the IOException

  /** getFilePath(keyword) over the lines of the lookup file. */
  method GetFilePath(keyword: string, file: FileRead<seq<string>>) returns (r: LookupResult)
    ensures file.ReadFailed? ==> r == ConfigUnreadable
    ensures file.Read? ==> r == match PathFor(file.content, keyword)
                                case Some(p) => Found(p)
                                case None => KeywordNotFound
  {
    if file.ReadFailed? {
      return ConfigUnreadable;
    }
    var lines := file.content;
    for i := 0 to |lines|
      invariant PathFor(lines[i..], keyword) == PathFor(lines, keyword)
    {
      assert lines[i..][1..] == lines[i + 1..];
      if StartsWith(Trim(lines[i]), keyword) {
        if '=' in lines[i] {
          return Found(EntryValue(lines[i]));
        }
      }
    }
    return KeywordNotFound;
  }

  // ======================================================= random generators

  datatype Generated = Generated(value: string) | InvalidRange(message: string)

  function Min(a: int, b: int): int {
    if a < b then a else b
  }

  /**
   * generateUniqueString(minLength, maxLength): `choice` is what
   * random.nextInt(maxLength - minLength + 1) returned and `hex` the 32
   * characters of a random UUID with its dashes removed.
   */
  function GenerateUniqueString(minLength: int, maxLength: int, choice: int, hex: string): (g: Generated)
    requires |hex| == 32
    requires 1 <= minLength <= maxLength ==> 0 <= choice <= maxLength - minLength
    ensures g.InvalidRange? <==> minLength < 1 || maxLength < minLength
    ensures g.Generated? ==> Min(minLength, 32) <= |g.value| <= Min(maxLength, 32)
    ensures g.Generated? ==> |g.value| == Min(minLength + choice, 32)
    ensures g.Generated? ==> g.value == hex[..|g.value|]
  {
    if minLength < 1 || maxLength < minLength then
      InvalidRange("Invalid length range: min=" + IntToString(minLength) + ", max=" + IntToString(maxLength))
    else
      var length := minLength + choice;
      Generated(hex[..Min(length, |hex|)])
  }

  /** generateRandomEmail(): "test_" + 8 to 12 random characters + "@test.com". */
  function GenerateRandomEmail(choice: int, hex: string): (email: string)
    requires |hex| == 32 && 0 <= choice <= 4
    ensures StartsWith(email, "test_") && EndsWith(email, "@test.com")
    ensures 22 <= |email| <= 26
    ensures email == "test_" + hex[..8 + choice] + "@test.com"
  {
    var g := GenerateUniqueString(8, 12, choice, hex);
    var email := "test_" + g.value + "@test.com";
    assert email[..5] == "test_";
    assert email[|email| - 9..] == "@test.com";
    email
  }

  /**
   * generateRandomNumber(digits): `draws[i]` is what the i-th
   * random.nextInt(10) returned.
   */
  method GenerateRandomNumber(digits: int, draws: seq<int>) returns (g: Generated)
    requires forall i :: 0 <= i < |draws| ==> 0 <= draws[i] < 10
    requires 1 <= digits <= 18 ==> digits <= |draws|
    ensures g.InvalidRange? <==> digits < 1 || digits > 18
    ensures g.Generated? ==> |g.value| == digits && AllDigits(g.value)
    ensures g.Generated? ==> forall i :: 0 <= i < digits ==> g.value[i] == DigitChar(draws[i])
  {
    if digits < 1 || digits > 18 {
      return InvalidRange("Digits must be between 1 and 18");
    }
    var number := "";
    for i := 0 to digits
      invariant |number| == i
      invariant forall j :: 0 <= j < i ==> number[j] == DigitChar(draws[j])
    {
      number := number + [DigitChar(draws[i])];
    }
    return Generated(number);
  }

  /** Any string of at most eighteen digits denotes a number that fits in a Java long. */
  lemma GeneratedNumberFitsLong(s: string)
    requires AllDigits(s) && |s| <= 18
    ensures DigitsValue(s) < 0x7fff_ffff_ffff_ffff
  {
    DigitsValueBound(s);
    Pow10Monotone(|s|, 18);
    assert Pow10(6) == 1_000_000;
    assert Pow10(12) == 1_000_000_000_000;
    assert Pow10(18) == 1_000_000_000_000_000_000;
  }

  lemma {:induction false} Pow10Monotone(a: nat, b: nat)
    requires a <= b
    ensures Pow10(a) <= Pow10(b)
  {
    if a < b {
      Pow10Monotone(a, b - 1);
    }
  }
}
