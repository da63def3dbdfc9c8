/** Shared vocabulary: an Option type and the string operations both halves of
    the application lean on (whitespace trimming, substring search, the loose
    e-mail pattern of the client forms, decimal printing). */
module Common {

  datatype Option<+T> = None | Some(value: T)

  /** The two runtimes whose trimming the application relies on: the
      browser's JavaScript and the server's Python. */
  datatype Language = JavaScript | Python

  /** Whitespace in the ASCII range as each language trims it. JavaScript's
      `trim` (and the `\s` of its regular expressions) knows tab, line feed,
      vertical tab, form feed, carriage return and space; Python's
      `str.strip` knows those and the four separators U+001C to U+001F. */
  predicate IsSpace(lang: Language, c: char) {
    || c == ' ' || c == '\t' || c == '\n' || c == '\r' || c == '\U{0B}' || c == '\U{0C}'
    || (lang == Python && '\U{1C}' <= c <= '\U{1F}')
  }

  predicate AllSpace(lang: Language, s: string) {
    forall i :: 0 <= i < |s| ==> IsSpace(lang, s[i])
  }

  /** Drops leading whitespace. */
  function TrimStart(lang: Language, s: string): (r: string)
    ensures |r| <= |s| && r == s[|s| - |r|..]
    ensures AllSpace(lang, s[..|s| - |r|])
    ensures r == [] || !IsSpace(lang, r[0])
  {
    if |s| > 0 && IsSpace(lang, s[0]) then
      var t := TrimStart(lang, s[1..]);
      assert s[..|s| - |t|] == s[..1] + s[1..][..|s| - 1 - |t|];
      AllSpaceJoin(lang, s[..1], s[1..][..|s| - 1 - |t|]);
      t
    else s
  }

  /** Drops trailing whitespace. */
  function TrimEnd(lang: Language, s: string): (r: string)
    ensures |r| <= |s| && r == s[..|r|]
    ensures AllSpace(lang, s[|r|..])
    ensures r == [] || !IsSpace(lang, r[|r| - 1])
  {
    if |s| > 0 && IsSpace(lang, s[|s| - 1]) then
      var t := TrimEnd(lang, s[..|s| - 1]);
      assert s[|t|..] == s[..|s| - 1][|t|..] + s[|s| - 1..];
      AllSpaceJoin(lang, s[..|s| - 1][|t|..], s[|s| - 1..]);
      t
    else s
  }

  /** `s.trim()` in JavaScript, `s.strip()` in Python: the whitespace
      around the text is cut off, and nothing is left of a blank string. */
  function Trim(lang: Language, s: string): (r: string)
    ensures |r| <= |s|
    ensures r == [] || (!IsSpace(lang, r[0]) && !IsSpace(lang, r[|r| - 1]))
    ensures r == [] <==> AllSpace(lang, s)
  {
    var a := TrimStart(lang, s);
    var r := TrimEnd(lang, a);
    if r == [] then
      assert a[|r|..] == a && s == s[..|s| - |a|] + a;
      AllSpaceJoin(lang, s[..|s| - |a|], a);
      r
    else
      assert !IsSpace(lang, s[|s| - |a|]) by { assert s[|s| - |a|] == a[0]; }
      r
  }

  lemma AllSpaceJoin(lang: Language, x: string, y: string)
    requires AllSpace(lang, x) && AllSpace(lang, y)
    ensures AllSpace(lang, x + y)
  {
    forall i | 0 <= i < |x + y| ensures IsSpace(lang, (x + y)[i]) {
      if i >= |x| {
        assert (x + y)[i] == y[i - |x|];
      }
    }
  }

  /** `!s.trim()` in the browser: the field holds nothing but whitespace
      (see BlankIsEmptyTrim). */
  predicate Blank(s: string) {
    AllSpace(JavaScript, s)
  }

  lemma {:induction false} BlankIsEmptyTrim(s: string)
    ensures Blank(s) <==> Trim(JavaScript, s) == []
  {
  }

  /** The separators U+001C to U+001F survive the browser's `trim` and not
      the server's `strip`: around a text whose ends are visible to both,
      JavaScript keeps them and Python removes them. */
  lemma SeparatorsStrippedOnlyByPython(c: char, m: string, d: char)
    requires '\U{1C}' <= c <= '\U{1F}' && '\U{1C}' <= d <= '\U{1F}'
    requires m != [] && !IsSpace(Python, m[0]) && !IsSpace(Python, m[|m| - 1])
    ensures Trim(JavaScript, [c] + m + [d]) == [c] + m + [d]
    ensures Trim(Python, [c] + m + [d]) == m
  {
    SeparatorIsPythonSpace(c);
    SeparatorIsPythonSpace(d);
    var s := [c] + m + [d];
    assert s[0] == c && s[|s| - 1] == d;
    TrimOfTrimmed(JavaScript, s);
    TrimPadded(Python, [c], m, [d]);
  }

  lemma SeparatorIsPythonSpace(c: char)
    requires '\U{1C}' <= c <= '\U{1F}'
    ensures !IsSpace(JavaScript, c) && AllSpace(Python, [c])
  {
    assert [c][0] == c;
  }

  lemma {:induction false} TrimStartOfTrimmed(lang: Language, s: string)
    requires s == [] || !IsSpace(lang, s[0])
    ensures TrimStart(lang, s) == s
  {
  }

  lemma {:induction false} TrimEndOfTrimmed(lang: Language, s: string)
    requires s == [] || !IsSpace(lang, s[|s| - 1])
    ensures TrimEnd(lang, s) == s
  {
  }

  /** Text already free of surrounding whitespace is left as it is. */
  lemma {:induction false} TrimOfTrimmed(lang: Language, s: string)
    requires s == [] || (!IsSpace(lang, s[0]) && !IsSpace(lang, s[|s| - 1]))
    ensures Trim(lang, s) == s
  {
    TrimStartOfTrimmed(lang, s);
    TrimEndOfTrimmed(lang, s);
  }

  /** Trimming twice is trimming once. */
  lemma {:induction false} TrimIdempotent(lang: Language, s: string)
    ensures Trim(lang, Trim(lang, s)) == Trim(lang, s)
  {
    TrimOfTrimmed(lang, Trim(lang, s));
  }

  /** Leading whitespace in front of a visible character is all that
      TrimStart removes. */
  lemma {:induction false} TrimStartPadded(lang: Language, pre: string, rest: string)
    requires AllSpace(lang, pre)
    requires rest == [] || !IsSpace(lang, rest[0])
    ensures TrimStart(lang, pre + rest) == rest
  {
    if pre == [] {
      assert pre + rest == rest;
      TrimStartOfTrimmed(lang, rest);
    } else {
      assert (pre + rest)[1..] == pre[1..] + rest;
      TrimStartPadded(lang, pre[1..], rest);
    }
  }

  /** Trailing whitespace behind a visible character is all that TrimEnd
      removes. */
  lemma {:induction false} TrimEndPadded(lang: Language, rest: string, post: string)
    requires AllSpace(lang, post)
    requires rest == [] || !IsSpace(lang, rest[|rest| - 1])
    ensures TrimEnd(lang, rest + post) == rest
  {
    if post == [] {
      assert rest + post == rest;
      TrimEndOfTrimmed(lang, rest);
    } else {
      var s := rest + post;
      assert s[..|s| - 1] == rest + post[..|post| - 1];
      TrimEndPadded(lang, rest, post[..|post| - 1]);
    }
  }

  /** Whitespace around text that starts and ends with a visible character
      is exactly what trimming removes. */
  lemma {:induction false} TrimPadded(lang: Language, pre: string, core: string, post: string)
    requires AllSpace(lang, pre) && AllSpace(lang, post)
    requires core != [] && !IsSpace(lang, core[0]) && !IsSpace(lang, core[|core| - 1])
    ensures Trim(lang, pre + core + post) == core
  {
    assert pre + core + post == pre + (core + post);
    TrimStartPadded(lang, pre, core + post);
    TrimEndPadded(lang, core, post);
  }

  /** Trimming keeps everything from one visible character to another:
      the stretch between them survives, character for character. */
  lemma {:induction false} TrimSpan(lang: Language, s: string, i: int, j: int)
    requires 0 <= i <= j < |s| && !IsSpace(lang, s[i]) && !IsSpace(lang, s[j])
    ensures |Trim(lang, s)| >= j - i + 1
    ensures forall k :: i <= k <= j ==> s[k] in Trim(lang, s)
  {
    var a := TrimStart(lang, s);
    var p := |s| - |a|;
    LeadingSpaces(lang, s);
    assert p <= i;
    var r := TrimEnd(lang, a);
    TrailingSpaces(lang, a);
    assert a[j - p] == s[j];
    assert j - p < |r|;
    assert Trim(lang, s) == r;
    forall k | i <= k <= j ensures s[k] in r {
      assert r[k - p] == a[k - p] == s[k];
    }
  }

  /** What TrimStart drops, character by character. */
  lemma {:induction false} LeadingSpaces(lang: Language, s: string)
    ensures forall k :: 0 <= k < |s| - |TrimStart(lang, s)| ==> IsSpace(lang, s[k])
  {
    var pre := s[..|s| - |TrimStart(lang, s)|];
    forall k | 0 <= k < |pre| ensures IsSpace(lang, s[k]) {
      assert pre[k] == s[k];
    }
  }

  /** What TrimEnd drops, character by character. */
  lemma {:induction false} TrailingSpaces(lang: Language, s: string)
    ensures forall k :: |TrimEnd(lang, s)| <= k < |s| ==> IsSpace(lang, s[k])
  {
    var n := |TrimEnd(lang, s)|;
    var post := s[n..];
    forall k | n <= k < |s| ensures IsSpace(lang, s[k]) {
      assert post[k - n] == s[k];
    }
  }

  /** `sub` occurs in `s` starting at index `i`. */
  predicate OccursAt(s: string, sub: string, i: int) {
    0 <= i <= |s| - |sub| && s[i..i + |sub|] == sub
  }

  /** `s.includes(sub)` / Python's `sub in s`. */
  predicate Contains(s: string, sub: string) {
    exists i | 0 <= i <= |s| - |sub| :: OccursAt(s, sub, i)
  }

  /** A substring cannot hold a character its host does not. */
  lemma {:induction false} ContainsNeedsChar(s: string, sub: string, c: char)
    requires c in sub && c !in s
    ensures !Contains(s, sub)
  {
    var k :| 0 <= k < |sub| && sub[k] == c;
    forall i | 0 <= i <= |s| - |sub| ensures !OccursAt(s, sub, i) {
      assert s[i..i + |sub|][k] == s[i + k];
      assert s[i + k] in s;
    }
  }

  lemma {:induction false} ContainsAt(s: string, i: int, sub: string)
    requires OccursAt(s, sub, i)
    ensures Contains(s, sub)
  {
  }

  /** One match of `\S+@\S+\.\S+` in `s`: the `@` at index `at`, the `.` at
      index `dot`, a visible character before the `@`, only visible characters
      between the two, and a visible character after the `.`. */
  predicate EmailMatchAt(s: string, at: int, dot: int) {
    && 0 < at && at + 1 < dot && dot + 1 < |s|
    && s[at] == '@' && s[dot] == '.'
    && !IsSpace(JavaScript, s[at - 1]) && !IsSpace(JavaScript, s[dot + 1])
    && forall k :: at < k < dot ==> !IsSpace(JavaScript, s[k])
  }

  /** `/\S+@\S+\.\S+/.test(s)`: the pattern is not anchored, so a match
      anywhere in the string is enough. A loose shape check, not RFC 5322. */
  predicate LooksLikeEmail(s: string) {
    exists at, dot | 0 <= at < |s| && 0 <= dot < |s| :: EmailMatchAt(s, at, dot)
  }

  /** Every `local@domain.tld` whose three parts are non-empty and free of
      whitespace matches. */
  lemma {:induction false} EmailShapeMatches(local: string, domain: string, tld: string)
    requires local != [] && domain != [] && tld != []
    requires !IsSpace(JavaScript, '@') && forall c :: c in local + domain + tld ==> !IsSpace(JavaScript, c)
    ensures LooksLikeEmail(local + "@" + domain + "." + tld)
  {
    var s := local + "@" + domain + "." + tld;
    var at := |local|;
    var dot := |local| + 1 + |domain|;
    assert s[at - 1] == local[at - 1] && s[at - 1] in local + domain + tld;
    assert s[dot + 1] == tld[0] && tld[0] in local + domain + tld;
    forall k | at < k < dot ensures !IsSpace(JavaScript, s[k]) {
      assert s[k] == domain[k - at - 1];
      assert s[k] in local + domain + tld;
    }
    assert EmailMatchAt(s, at, dot);
  }

  /** A string the pattern accepts has an `@` and is not blank. */
  lemma {:induction false} EmailMatchIsNotBlank(s: string)
    requires LooksLikeEmail(s)
    ensures '@' in s && !Blank(s)
  {
    var at, dot :| 0 <= at < |s| && 0 <= dot < |s| && EmailMatchAt(s, at, dot);
    assert s[at] == '@';
  }

  /** The check is loose: it accepts a doubled `@` and surrounding blanks,
      and rejects a bare `user@host` without a dot. */
  lemma LooseEmailExamples()
    ensures LooksLikeEmail("a@@b.c")
    ensures LooksLikeEmail(" a@b.c ")
    ensures !LooksLikeEmail("user@host")
  {
    assert EmailMatchAt("a@@b.c", 1, 4);
    assert EmailMatchAt(" a@b.c ", 2, 4);
    var s := "user@host";
    assert '.' !in s;
    forall at, dot | 0 <= at < |s| && 0 <= dot < |s| ensures !EmailMatchAt(s, at, dot) {
      assert s[dot] in s;
    }
  }

  function Digit(d: nat): char
    requires d < 10
  {
    ('0' as int + d) as char
  }

  predicate IsDigit(c: char) {
    '0' <= c <= '9'
  }

  /** The number a string of decimal digits denotes. */
  function Decimal(s: string): nat
    requires forall i :: 0 <= i < |s| ==> IsDigit(s[i])
  {
    if s == [] then 0
    else
      assert IsDigit(s[|s| - 1]);
      10 * Decimal(s[..|s| - 1]) + (s[|s| - 1] as int - '0' as int)
  }

  /** Decimal notation of a natural number, most significant digit first:
      digits only, and they denote `n`. */
  function NatToString(n: nat): (r: string)
    ensures |r| > 0 && forall i :: 0 <= i < |r| ==> IsDigit(r[i])
    ensures Decimal(r) == n
    decreases n
  {
    if n < 10 then [Digit(n)]
    else
      var p := NatToString(n / 10);
      var r := p + [Digit(n % 10)];
      assert r[..|r| - 1] == p;
      r
  }

  function IntToString(i: int): (r: string)
    ensures |r| > 0
    ensures (r[0] == '-') <==> i < 0
  {
    if i < 0 then "-" + NatToString(-i) else NatToString(i)
  }
}
