/**
 * The handful of java.lang.String / java.lang.Integer operations that the
 * harness's decision logic is built from, written out so that their edge
 * cases (what `trim` strips, what `split` drops, what `parseInt` rejects)
 * are explicit.
 */
module JavaText {

  /** Java's nullable references, where the source checks for null. */
  datatype Option<T> = None | Some(value: T)

  const IntMin: int := -0x8000_0000
  const IntMax: int := 0x7fff_ffff

  // ---------------------------------------------------------------- prefixes

  predicate StartsWith(s: string, prefix: string) {
    |prefix| <= |s| && s[..|prefix|] == prefix
  }

  predicate EndsWith(s: string, suffix: string) {
    |suffix| <= |s| && s[|s| - |suffix|..] == suffix
  }

  // -------------------------------------------------------------------- trim

  /** String.trim removes every leading and trailing code point up to U+0020. */
  predicate IsTrimmable(c: char) {
    c <= ' '
  }

  /** Nothing but characters that trim removes. */
  predicate Blank(s: string) {
    forall i :: 0 <= i < |s| ==> IsTrimmable(s[i])
  }

  function TrimStart(s: string): (r: string)
    ensures |r| <= |s| && r == s[|s| - |r|..]
    ensures r == [] || !IsTrimmable(r[0])
    ensures forall i :: 0 <= i < |s| - |r| ==> IsTrimmable(s[i])
  {
    if |s| > 0 && IsTrimmable(s[0]) then TrimStart(s[1..]) else s
  }

  function TrimEnd(s: string): (r: string)
    ensures |r| <= |s| && r == s[..|r|]
    ensures r == [] || !IsTrimmable(r[|r| - 1])
    ensures forall i :: |r| <= i < |s| ==> IsTrimmable(s[i])
  {
    if |s| > 0 && IsTrimmable(s[|s| - 1]) then TrimEnd(s[..|s| - 1]) else s
  }

  /** String.trim: the result is a slice of `s` with nothing trimmable at either end. */
  function Trim(s: string): (r: string)
    ensures r == [] || (!IsTrimmable(r[0]) && !IsTrimmable(r[|r| - 1]))
    ensures |r| <= |s|
  {
    TrimEnd(TrimStart(s))
  }

  /** Trimming removes characters and adds none. */
  lemma TrimKeepsChars(s: string)
    ensures forall c :: c in Trim(s) ==> c in s
  {
    var t := TrimStart(s);
    var r := TrimEnd(t);
    forall c | c in r ensures c in s {
      var i :| 0 <= i < |r| && r[i] == c;
      assert r[i] == t[i] == s[|s| - |t| + i];
    }
  }

  /** Trimming a string that already has nothing trimmable at its ends changes nothing. */
  lemma TrimUntrimmed(s: string)
    requires s == [] || (!IsTrimmable(s[0]) && !IsTrimmable(s[|s| - 1]))
    ensures Trim(s) == s
  {
  }

  // -------------------------------------------------------------- lower case

  /** Character.toLowerCase restricted to ASCII letters; every other code point is kept. */
  function LowerChar(c: char): char {
    if 'A' <= c <= 'Z' then (c as int + 32) as char else c
  }

  function ToLower(s: string): (r: string)
    ensures |r| == |s|
    ensures forall i :: 0 <= i < |s| ==> r[i] == LowerChar(s[i])
  {
    seq(|s|, i requires 0 <= i < |s| => LowerChar(s[i]))
  }

  lemma ToLowerIdempotent(s: string)
    ensures ToLower(ToLower(s)) == ToLower(s)
  {
  }

  /** String.equalsIgnoreCase, for the ASCII case mapping above. */
  predicate EqualsIgnoreCase(a: string, b: string) {
    ToLower(a) == ToLower(b)
  }

  // ------------------------------------------------------ replace and remove

  /** s.replace(String.valueOf(c), ""): drops every occurrence of `c`. */
  function RemoveChar(s: string, c: char): (r: string)
    ensures |r| <= |s|
    ensures forall i :: 0 <= i < |r| ==> r[i] != c
    ensures forall i :: 0 <= i < |s| && s[i] != c ==> s[i] in r
  {
    if s == [] then []
    else if s[0] == c then RemoveChar(s[1..], c)
    else [s[0]] + RemoveChar(s[1..], c)
  }

  /** Removing a character from a concatenation removes it from each part, keeping their order. */
  lemma {:induction false} RemoveCharAppend(a: string, b: string, c: char)
    ensures RemoveChar(a + b, c) == RemoveChar(a, c) + RemoveChar(b, c)
  {
    if a == [] {
      assert a + b == b;
    } else {
      assert (a + b)[0] == a[0];
      assert (a + b)[1..] == a[1..] + b;
      RemoveCharAppend(a[1..], b, c);
    }
  }

  /** A string without `c` is left exactly as it is. */
  lemma {:induction false} RemoveCharAbsent(s: string, c: char)
    requires c !in s
    ensures RemoveChar(s, c) == s
  {
    if s != [] {
      RemoveCharAbsent(s[1..], c);
      assert [s[0]] + s[1..] == s;
    }
  }

  /** s.replace(from, to) for single characters. */
  function ReplaceChar(s: string, from: char, to: char): (r: string)
    ensures |r| == |s|
    ensures forall i :: 0 <= i < |s| ==> r[i] == if s[i] == from then to else s[i]
  {
    seq(|s|, i requires 0 <= i < |s| => if s[i] == from then to else s[i])
  }

  lemma {:induction false} TrimStartPadded(pre: string, rest: string)
    requires forall i :: 0 <= i < |pre| ==> IsTrimmable(pre[i])
    requires rest == [] || !IsTrimmable(rest[0])
    ensures TrimStart(pre + rest) == rest
  {
    if pre == [] {
      assert pre + rest == rest;
    } else {
      assert (pre + rest)[0] == pre[0];
      assert (pre + rest)[1..] == pre[1..] + rest;
      TrimStartPadded(pre[1..], rest);
    }
  }

  lemma {:induction false} TrimEndPadded(rest: string, post: string)
    requires forall i :: 0 <= i < |post| ==> IsTrimmable(post[i])
    requires rest == [] || !IsTrimmable(rest[|rest| - 1])
    ensures TrimEnd(rest + post) == rest
  {
    if post == [] {
      assert rest + post == rest;
    } else {
      var t := rest + post;
      assert t[|t| - 1] == post[|post| - 1];
      assert t[..|t| - 1] == rest + post[..|post| - 1];
      TrimEndPadded(rest, post[..|post| - 1]);
    }
  }

  /** Trimmable padding on either side of a string with solid ends is exactly what trim removes. */
  lemma TrimPadded(pre: string, s: string, post: string)
    requires Blank(pre) && Blank(post)
    requires s == [] || (!IsTrimmable(s[0]) && !IsTrimmable(s[|s| - 1]))
    ensures Trim(pre + s + post) == s
  {
    if s == [] {
      TrimStartPadded(pre + post, []);
      assert pre + s + post == pre + post + [];
      assert TrimEnd([]) == [];
    } else {
      assert (s + post)[0] == s[0];
      TrimStartPadded(pre, s + post);
      assert pre + s + post == pre + (s + post);
      TrimEndPadded(s, post);
    }
  }

  /** Trim(Trim(s)) == Trim(s). */
  lemma TrimIdempotent(s: string)
    ensures Trim(Trim(s)) == Trim(s)
  {
    TrimUntrimmed(Trim(s));
  }

  /** Index of the first occurrence of `c`, for a string that contains it. */
  function IndexOf(s: string, c: char): (k: nat)
    requires c in s
    ensures k < |s| && s[k] == c
    ensures forall i :: 0 <= i < k ==> s[i] != c
  {
    if s[0] == c then 0 else 1 + IndexOf(s[1..], c)
  }

  // ------------------------------------------------------------------- split

  /** No character of `s` is a separator. */
  predicate Free(s: string, seps: set<char>) {
    forall i :: 0 <= i < |s| ==> s[i] !in seps
  }

  /**
   * Splitting at every separator, keeping every (possibly empty) piece:
   * what String.split produces before it drops trailing empty strings.
   */
  function SplitAll(s: string, seps: set<char>): (parts: seq<string>)
    ensures |parts| >= 1
    ensures forall p :: p in parts ==> Free(p, seps)
  {
    if s == [] then [""]
    else if s[0] in seps then [""] + SplitAll(s[1..], seps)
    else
      var rest := SplitAll(s[1..], seps);
      assert rest[0] in rest;
      assert Free([s[0]] + rest[0], seps);
      [[s[0]] + rest[0]] + rest[1..]
  }

  function DropTrailingEmpty(parts: seq<string>): (r: seq<string>)
    ensures |r| <= |parts| && r == parts[..|r|]
    ensures r == [] || r[|r| - 1] != ""
    ensures forall i :: |r| <= i < |parts| ==> parts[i] == ""
  {
    if parts == [] then []
    else if parts[|parts| - 1] == "" then DropTrailingEmpty(parts[..|parts| - 1])
    else parts
  }

  /**
   * s.split(regex) with a one-character class as the regex and no limit: a
   * string with no separator comes back whole; otherwise the pieces between
   * separators, with the trailing empty pieces removed.
   */
  function JavaSplit(s: string, seps: set<char>): (parts: seq<string>)
    ensures forall p :: p in parts ==> Free(p, seps)
  {
    if Free(s, seps) then [s] else DropTrailingEmpty(SplitAll(s, seps))
  }

  lemma SplitAllFree(a: string, seps: set<char>)
    requires Free(a, seps)
    ensures SplitAll(a, seps) == [a]
  {
    if a != [] {
      SplitAllFree(a[1..], seps);
      assert [a[0]] + a[1..] == a;
    }
  }

  /** A separator-free prefix followed by a separator comes off as one piece. */
  lemma {:induction false} SplitAllAt(a: string, c: char, b: string, seps: set<char>)
    requires Free(a, seps) && c in seps
    ensures SplitAll(a + [c] + b, seps) == [a] + SplitAll(b, seps)
  {
    var s := a + [c] + b;
    if a == [] {
      assert s[0] == c && s[1..] == b;
    } else {
      assert s[0] == a[0] && s[1..] == a[1..] + [c] + b;
      SplitAllAt(a[1..], c, b, seps);
      assert [a[0]] + a[1..] == a;
    }
  }

  /** A run of k separators splits into k + 1 empty pieces. */
  lemma {:induction false} SplitAllSeparators(t: string, seps: set<char>)
    requires forall i :: 0 <= i < |t| ==> t[i] in seps
    ensures SplitAll(t, seps) == seq(|t| + 1, _ => "")
  {
    if t != [] {
      SplitAllSeparators(t[1..], seps);
    }
  }

  /** Appending empty pieces after a non-empty last piece changes nothing once they are dropped. */
  lemma {:induction false} DropTrailingEmptyPadding(parts: seq<string>, k: nat)
    requires |parts| >= 1 && parts[|parts| - 1] != ""
    ensures DropTrailingEmpty(parts + seq(k, _ => "")) == parts
  {
    if k > 0 {
      var padded := parts + seq(k, _ => "");
      assert padded[..|padded| - 1] == parts + seq(k - 1, _ => "");
      DropTrailingEmptyPadding(parts, k - 1);
    } else {
      assert parts + seq(k, _ => "") == parts;
    }
  }

  lemma FreeConcat(a: string, b: string, seps: set<char>)
    requires Free(a, seps) && Free(b, seps)
    ensures Free(a + b, seps)
  {
    var s := a + b;
    forall i | 0 <= i < |s| ensures s[i] !in seps {
      if i < |a| {
        assert s[i] == a[i];
      } else {
        assert s[i] == b[i - |a|];
      }
    }
  }

  lemma FreeAround(a: string, c: char, b: string, seps: set<char>)
    requires Free(a, seps) && Free(b, seps) && c !in seps
    ensures Free(a + [c] + b, seps)
  {
    assert Free([c], seps);
    FreeConcat(a, [c], seps);
    FreeConcat(a + [c], b, seps);
  }

  /**
   * Two separator-free pieces around a separator, followed by any run of
   * separators, split back into exactly those two pieces when the second is
   * not empty.
   */
  lemma {:induction false} SplitAllPair(a: string, b: string, c: char, trailing: string, seps: set<char>)
    requires Free(a, seps) && Free(b, seps)
    requires c in seps
    requires forall i :: 0 <= i < |trailing| ==> trailing[i] in seps
    ensures SplitAll(a + [c] + b + trailing, seps) == [a, b] + seq(|trailing|, _ => "")
  {
    assert a + [c] + b + trailing == a + [c] + (b + trailing);
    SplitAllAt(a, c, b + trailing, seps);
    if trailing == [] {
      assert b + trailing == b;
      SplitAllFree(b, seps);
    } else {
      var t := trailing[1..];
      assert b + trailing == b + [trailing[0]] + t;
      SplitAllAt(b, trailing[0], t, seps);
      SplitAllSeparators(t, seps);
    }
  }

  lemma SplitPair(a: string, b: string, c: char, trailing: string, seps: set<char>)
    requires Free(a, seps) && Free(b, seps) && b != ""
    requires c in seps
    requires forall i :: 0 <= i < |trailing| ==> trailing[i] in seps
    ensures JavaSplit(a + [c] + b + trailing, seps) == [a, b]
  {
    var s := a + [c] + b + trailing;
    assert s[|a|] == c;
    SplitAllPair(a, b, c, trailing, seps);
    DropTrailingEmptyPadding([a, b], |trailing|);
  }

  /** The pieces joined with `c` between consecutive ones (the inverse of a split). */
  function Join(parts: seq<string>, c: char): string
    requires |parts| >= 1
  {
    if |parts| == 1 then parts[0] else parts[0] + [c] + Join(parts[1..], c)
  }

  lemma {:induction false} SplitAllJoin(parts: seq<string>, c: char, seps: set<char>)
    requires |parts| >= 1 && c in seps
    requires forall p :: p in parts ==> Free(p, seps)
    ensures SplitAll(Join(parts, c), seps) == parts
  {
    if |parts| == 1 {
      SplitAllFree(parts[0], seps);
    } else {
      assert parts[0] in parts;
      assert forall p :: p in parts[1..] ==> p in parts;
      SplitAllAt(parts[0], c, Join(parts[1..], c), seps);
      SplitAllJoin(parts[1..], c, seps);
      assert [parts[0]] + parts[1..] == parts;
    }
  }

  /**
   * Splitting separator-free pieces joined with a separator gives the pieces
   * back, unless the last of several is empty (split drops it).
   */
  lemma JavaSplitJoin(parts: seq<string>, c: char, seps: set<char>)
    requires |parts| >= 1 && c in seps
    requires forall p :: p in parts ==> Free(p, seps)
    requires |parts| == 1 || parts[|parts| - 1] != ""
    ensures JavaSplit(Join(parts, c), seps) == parts
  {
    if |parts| == 1 {
      assert parts[0] in parts;
    } else {
      var s := Join(parts, c);
      assert s[|parts[0]|] == c;
      SplitAllJoin(parts, c, seps);
    }
  }

  // ---------------------------------------------------------- decimal digits

  predicate IsDigit(c: char) {
    '0' <= c <= '9'
  }

  predicate AllDigits(s: string) {
    forall i :: 0 <= i < |s| ==> IsDigit(s[i])
  }

  function DigitChar(d: int): (c: char)
    requires 0 <= d < 10
    ensures IsDigit(c)
  {
    ('0' as int + d) as char
  }

  /** The value of a string of decimal digits (leading zeros allowed). */
  function DigitsValue(s: string): nat
    requires AllDigits(s)
  {
    if s == [] then 0 else DigitsValue(s[..|s| - 1]) * 10 + (s[|s| - 1] as int - '0' as int)
  }

  /** Decimal form of a natural number, without leading zeros (Long.toString). */
  function NatToString(n: nat): (r: string)
    ensures |r| >= 1 && AllDigits(r)
    ensures r[0] == '0' ==> n == 0
    decreases n
  {
    if n < 10 then [DigitChar(n)] else NatToString(n / 10) + [DigitChar(n % 10)]
  }

  /** Decimal form of an integer, with a leading minus sign when negative. */
  function IntToString(n: int): string {
    if n < 0 then "-" + NatToString(-n) else NatToString(n)
  }

  lemma {:induction false} DigitsValueOfNatToString(n: nat)
    ensures DigitsValue(NatToString(n)) == n
    decreases n
  {
    if n >= 10 {
      var s := NatToString(n);
      DigitsValueOfNatToString(n / 10);
      assert s[..|s| - 1] == NatToString(n / 10);
    }
  }

  function Pow10(k: nat): (p: nat)
    ensures p >= 1
  {
    if k == 0 then 1 else 10 * Pow10(k - 1)
  }

  /** A string of k digits denotes a number below 10^k. */
  lemma {:induction false} DigitsValueBound(s: string)
    requires AllDigits(s)
    ensures DigitsValue(s) < Pow10(|s|)
  {
    if s != [] {
      DigitsValueBound(s[..|s| - 1]);
    }
  }

  /**
   * Integer.parseInt for decimal ASCII input: an optional sign, at least one
   * digit, nothing else, and a value inside the 32-bit range.
   */
  function ParseInt(s: string): (r: Option<int>)
    ensures r.Some? ==> IntMin <= r.value <= IntMax
  {
    if s == [] then None
    else
      var digits := if s[0] == '-' || s[0] == '+' then s[1..] else s;
      if digits == [] || !AllDigits(digits) then None
      else
        var v: int := if s[0] == '-' then -(DigitsValue(digits) as int) else DigitsValue(digits);
        if IntMin <= v <= IntMax then Some(v) else None
  }

  /** A leading zero does not change the value of a digit string. */
  lemma {:induction false} DigitsValueLeadingZero(s: string)
    requires AllDigits(s)
    ensures AllDigits(['0'] + s) && DigitsValue(['0'] + s) == DigitsValue(s)
    decreases |s|
  {
    if s != [] {
      DigitsValueLeadingZero(s[..|s| - 1]);
      assert (['0'] + s)[..|s|] == ['0'] + s[..|s| - 1];
    } else {
      assert (['0'] + s)[..0] == [];
    }
  }

  /** parseInt accepts a '+' sign or a leading zero in front of digits without changing the value. */
  lemma ParseIntPrefixed(c: char, s: string)
    requires c == '+' || c == '0'
    requires s != [] && AllDigits(s)
    ensures ParseInt([c] + s) == ParseInt(s)
  {
    assert ([c] + s)[1..] == s;
    assert IsDigit(s[0]);
    DigitsValueLeadingZero(s);
  }

  /** parseInt reads back what Long.toString wrote, whenever it fits in an int. */
  lemma ParseIntOfNatToString(n: nat)
    ensures ParseInt(NatToString(n)) == if n <= IntMax then Some(n) else None
  {
    DigitsValueOfNatToString(n);
  }
}
