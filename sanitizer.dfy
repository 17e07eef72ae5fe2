/** `sanitizeInput` of `src/lib/security.ts`: trim, then four global
    replacements applied once each, in source order. Each replacement is a
    left-to-right scan that drops a match and resumes after it, and the
    `i` flag folds ASCII letters only. */
module Sanitizer {

  import opened Security

  // ---------------------------------------------------------------------
  // trim

  /** `trim`, front half: drop leading white space. */
  function TrimStart(s: string): (r: string)
    ensures |r| <= |s|
    ensures r != [] ==> !IsJsWhitespace(r[0])
  {
    if s != [] && IsJsWhitespace(s[0]) then TrimStart(s[1..]) else s
  }

  /** What `TrimStart` keeps is a suffix. */
  lemma {:induction false} TrimStartIsSuffix(s: string)
    ensures TrimStart(s) == s[|s| - |TrimStart(s)|..]
  {
    if s != [] && IsJsWhitespace(s[0]) {
      TrimStartIsSuffix(s[1..]);
    }
  }

  /** Everything `TrimStart` drops is white space. */
  lemma {:induction false} TrimStartDropsWhitespace(s: string)
    ensures forall i :: 0 <= i < |s| - |TrimStart(s)| ==> IsJsWhitespace(s[i])
  {
    if s != [] && IsJsWhitespace(s[0]) {
      TrimStartDropsWhitespace(s[1..]);
    }
  }

  /** `trim`, back half: drop trailing white space. */
  function TrimEnd(s: string): (r: string)
    ensures |r| <= |s|
    ensures r != [] ==> !IsJsWhitespace(r[|r| - 1])
  {
    if s != [] && IsJsWhitespace(s[|s| - 1]) then TrimEnd(s[..|s| - 1]) else s
  }

  /** What `TrimEnd` keeps is a prefix. */
  lemma {:induction false} TrimEndIsPrefix(s: string)
    ensures TrimEnd(s) == s[..|TrimEnd(s)|]
  {
    if s != [] && IsJsWhitespace(s[|s| - 1]) {
      TrimEndIsPrefix(s[..|s| - 1]);
    }
  }

  /** Everything `TrimEnd` drops is white space. */
  lemma {:induction false} TrimEndDropsWhitespace(s: string)
    ensures forall i :: |TrimEnd(s)| <= i < |s| ==> IsJsWhitespace(s[i])
  {
    if s != [] && IsJsWhitespace(s[|s| - 1]) {
      TrimEndDropsWhitespace(s[..|s| - 1]);
    }
  }

  /** No white space at either end. */
  predicate Trimmed(s: string) {
    s == [] || (!IsJsWhitespace(s[0]) && !IsJsWhitespace(s[|s| - 1]))
  }

  /** `String.prototype.trim`. */
  function Trim(s: string): (r: string)
    ensures |r| <= |s|
    ensures Trimmed(r)
  {
    var front := TrimStart(s);
    var r := TrimEnd(front);
    TrimEndIsPrefix(front);
    assert r != [] ==> r[0] == front[0];
    r
  }

  /** `trim` changes exactly the strings with white space at an end, and
      whatever it changes it shortens. */
  lemma {:induction false} TrimFixesTrimmed(s: string)
    ensures Trim(s) == s <==> Trimmed(s)
    ensures |Trim(s)| == |s| ==> Trim(s) == s
  {
    var front := TrimStart(s);
    if Trimmed(s) && s != [] {
      assert front == s;
      assert TrimEnd(s) == s;
    }
    if |Trim(s)| == |s| {
      TrimStartIsSuffix(s);
      TrimEndIsPrefix(front);
      assert |front| == |s|;
      assert front == s[0..] == s;
    }
  }

  // ---------------------------------------------------------------------
  // .replace(/[<>]/g, '')

  predicate NoAngles(s: string) {
    '<' !in s && '>' !in s
  }

  /** `.replace(/[<>]/g, '')`. */
  function StripAngles(s: string): (r: string)
    ensures |r| <= |s|
    ensures NoAngles(r)
  {
    if s == [] then []
    else if s[0] == '<' || s[0] == '>' then StripAngles(s[1..])
    else [s[0]] + StripAngles(s[1..])
  }

  /** Angle stripping keeps exactly the other characters. */
  lemma {:induction false} StripAnglesKeepsOthers(s: string)
    ensures forall c :: c in StripAngles(s) <==> c in s && c != '<' && c != '>'
  {
    if s != [] {
      StripAnglesKeepsOthers(s[1..]);
      assert s == [s[0]] + s[1..];
    }
  }

  /** Angle stripping changes exactly the strings holding an angle bracket,
      and whatever it changes it shortens. */
  lemma {:induction false} StripAnglesFixesNoAngles(s: string)
    ensures StripAngles(s) == s <==> NoAngles(s)
    ensures |StripAngles(s)| == |s| ==> StripAngles(s) == s
  {
    if s != [] {
      StripAnglesFixesNoAngles(s[1..]);
      assert s == [s[0]] + s[1..];
      if NoAngles(s) {
        assert NoAngles(s[1..]);
      }
    }
  }

  // ---------------------------------------------------------------------
  // Case-insensitive literal patterns

  /** The `i` flag without `u`: ASCII letters fold to lower case, nothing
      else changes. */
  function LowerAscii(c: char): char {
    if 'A' <= c <= 'Z' then (c as int + 32) as char else c
  }

  /** `s` begins with `pattern` (given in lower case), ignoring ASCII case. */
  predicate StartsWithFolded(s: string, pattern: string)
    ensures StartsWithFolded(s, pattern) ==> |pattern| <= |s|
  {
    pattern == [] || (s != [] && LowerAscii(s[0]) == pattern[0] && StartsWithFolded(s[1..], pattern[1..]))
  }

  /** `pattern` occurs somewhere in `s`, ignoring ASCII case. */
  predicate ContainsFolded(s: string, pattern: string) {
    s != [] && (StartsWithFolded(s, pattern) || ContainsFolded(s[1..], pattern))
  }

  /** `.replace(/pattern/gi, '')` for a literal pattern: scan left to right,
      drop each match and resume after it. */
  function RemoveFolded(s: string, pattern: string): (r: string)
    requires pattern != []
    ensures |r| <= |s|
  {
    if s == [] then []
    else if StartsWithFolded(s, pattern) then RemoveFolded(s[|pattern|..], pattern)
    else [s[0]] + RemoveFolded(s[1..], pattern)
  }

  /** The replacement changes exactly the strings holding a match, and
      whatever it changes it shortens. */
  lemma {:induction false} RemoveFoldedFixesClean(s: string, pattern: string)
    requires pattern != []
    ensures RemoveFolded(s, pattern) == s <==> !ContainsFolded(s, pattern)
    ensures |RemoveFolded(s, pattern)| == |s| ==> RemoveFolded(s, pattern) == s
  {
    if s != [] && !StartsWithFolded(s, pattern) {
      RemoveFoldedFixesClean(s[1..], pattern);
      assert s == [s[0]] + s[1..];
    }
  }

  /** The replacement only deletes characters. */
  lemma {:induction false} RemoveFoldedKeepsChars(s: string, pattern: string)
    requires pattern != []
    ensures forall c :: c in RemoveFolded(s, pattern) ==> c in s
    decreases |s|
  {
    if s != [] {
      if StartsWithFolded(s, pattern) {
        RemoveFoldedKeepsChars(s[|pattern|..], pattern);
      } else {
        RemoveFoldedKeepsChars(s[1..], pattern);
      }
    }
  }

  // ---------------------------------------------------------------------
  // .replace(/on\w+=/gi, '')

  /** The number of `\w` characters `s` begins with. */
  function WordRun(s: string): (n: nat)
    ensures n <= |s|
    ensures n < |s| ==> !IsWordChar(s[n])
  {
    if s != [] && IsWordChar(s[0]) then 1 + WordRun(s[1..]) else 0
  }

  /** The run consists of word characters only, so it is the longest one. */
  lemma {:induction false} WordRunIsWordChars(s: string)
    ensures forall i :: 0 <= i < WordRun(s) ==> IsWordChar(s[i])
  {
    if s != [] && IsWordChar(s[0]) {
      WordRunIsWordChars(s[1..]);
    }
  }

  /** The length of a match of `on\w+=` (case-insensitive) at the start of
      `s`, or 0. The greedy `\w+` can only end where the word characters
      end, since `=` is not one of them. */
  function HandlerMatch(s: string): (n: nat)
    ensures n <= |s|
    ensures n != 0 ==> n >= 4 && StartsWithFolded(s, "on") && s[n - 1] == '='
  {
    if !StartsWithFolded(s, "on") then 0
    else
      var run := WordRun(s[2..]);
      if run >= 1 && 2 + run < |s| && s[2 + run] == '=' then 3 + run else 0
  }

  predicate ContainsHandler(s: string) {
    s != [] && (HandlerMatch(s) != 0 || ContainsHandler(s[1..]))
  }

  /** `.replace(/on\w+=/gi, '')`. */
  function RemoveHandlers(s: string): (r: string)
    ensures |r| <= |s|
  {
    if s == [] then []
    else if HandlerMatch(s) != 0 then RemoveHandlers(s[HandlerMatch(s)..])
    else [s[0]] + RemoveHandlers(s[1..])
  }

  /** The replacement changes exactly the strings holding a handler, and
      whatever it changes it shortens. */
  lemma {:induction false} RemoveHandlersFixesClean(s: string)
    ensures RemoveHandlers(s) == s <==> !ContainsHandler(s)
    ensures |RemoveHandlers(s)| == |s| ==> RemoveHandlers(s) == s
  {
    if s != [] && HandlerMatch(s) == 0 {
      RemoveHandlersFixesClean(s[1..]);
      assert s == [s[0]] + s[1..];
    }
  }

  /** The replacement only deletes characters. */
  lemma {:induction false} RemoveHandlersKeepsChars(s: string)
    ensures forall c :: c in RemoveHandlers(s) ==> c in s
    decreases |s|
  {
    if s != [] {
      if HandlerMatch(s) != 0 {
        RemoveHandlersKeepsChars(s[HandlerMatch(s)..]);
      } else {
        RemoveHandlersKeepsChars(s[1..]);
      }
    }
  }

  // ---------------------------------------------------------------------
  // sanitizeInput

  const ScriptScheme: string := "javascript:"
  const DataScheme: string := "data:"

  /** `sanitizeInput`: one pass of each rewrite, in source order. */
  function SanitizeInput(input: string): (r: string)
    ensures |r| <= |input|
  {
    var trimmed := Trim(input);
    var noAngles := StripAngles(trimmed);
    var noScript := RemoveFolded(noAngles, ScriptScheme);
    var noHandlers := RemoveHandlers(noScript);
    RemoveFolded(noHandlers, DataScheme)
  }

  /** No angle bracket survives: the later rewrites only delete. */
  lemma SanitizedHasNoAngles(input: string)
    ensures NoAngles(SanitizeInput(input))
  {
    var noAngles := StripAngles(Trim(input));
    var noScript := RemoveFolded(noAngles, ScriptScheme);
    var noHandlers := RemoveHandlers(noScript);
    RemoveFoldedKeepsChars(noAngles, ScriptScheme);
    RemoveHandlersKeepsChars(noScript);
    RemoveFoldedKeepsChars(noHandlers, DataScheme);
  }

  /** Each stage keeps or shortens its input, so the sanitizer either leaves
      the input alone or returns something shorter. */
  lemma SanitizeChangesOrShortens(input: string)
    ensures |SanitizeInput(input)| == |input| ==> SanitizeInput(input) == input
  {
    var trimmed := Trim(input);
    var noAngles := StripAngles(trimmed);
    var noScript := RemoveFolded(noAngles, ScriptScheme);
    var noHandlers := RemoveHandlers(noScript);
    if |SanitizeInput(input)| == |input| {
      TrimFixesTrimmed(input);
      StripAnglesFixesNoAngles(trimmed);
      RemoveFoldedFixesClean(noAngles, ScriptScheme);
      RemoveHandlersFixesClean(noScript);
      RemoveFoldedFixesClean(noHandlers, DataScheme);
    }
  }

  /** Nothing left for any step of the sanitizer to remove. */
  predicate Clean(s: string) {
    Trimmed(s) && NoAngles(s) && !ContainsFolded(s, ScriptScheme)
    && !ContainsHandler(s) && !ContainsFolded(s, DataScheme)
  }

  /** A clean string passes through the sanitizer unchanged. */
  lemma CleanIsFixed(s: string)
    requires Clean(s)
    ensures SanitizeInput(s) == s
  {
    TrimFixesTrimmed(s);
    StripAnglesFixesNoAngles(s);
    RemoveFoldedFixesClean(s, ScriptScheme);
    RemoveHandlersFixesClean(s);
    RemoveFoldedFixesClean(s, DataScheme);
  }

  /** A string the sanitizer leaves unchanged is clean. */
  lemma FixedIsClean(s: string)
    requires SanitizeInput(s) == s
    ensures Clean(s)
  {
    var trimmed := Trim(s);
    var noAngles := StripAngles(trimmed);
    var noScript := RemoveFolded(noAngles, ScriptScheme);
    var noHandlers := RemoveHandlers(noScript);
    assert trimmed == s by {
      TrimFixesTrimmed(s);
    }
    assert noAngles == s by {
      StripAnglesFixesNoAngles(s);
    }
    assert noScript == s by {
      RemoveFoldedFixesClean(s, ScriptScheme);
    }
    assert noHandlers == s by {
      RemoveHandlersFixesClean(s);
    }
    TrimFixesTrimmed(s);
    StripAnglesFixesNoAngles(s);
    RemoveFoldedFixesClean(s, ScriptScheme);
    RemoveHandlersFixesClean(s);
    RemoveFoldedFixesClean(s, DataScheme);
  }

  // ---------------------------------------------------------------------
  // One pass is not enough

  /** A pattern longer than the string cannot occur in it. */
  lemma {:induction false} TooShortToContain(s: string, pattern: string)
    requires |s| < |pattern|
    ensures !ContainsFolded(s, pattern)
  {
    if s != [] {
      TooShortToContain(s[1..], pattern);
    }
  }

  /** A string in which the pattern's first letter never occurs, in either
      case, does not contain the pattern. */
  lemma {:induction false} MissingFirstLetter(s: string, pattern: string, upper: char)
    requires pattern != [] && 'a' <= pattern[0] <= 'z'
    requires upper as int == pattern[0] as int - 32
    requires pattern[0] !in s && upper !in s
    ensures !ContainsFolded(s, pattern)
  {
    if s != [] {
      assert s == [s[0]] + s[1..];
      MissingFirstLetter(s[1..], pattern, upper);
    }
  }

  /** Without an `o` or `O` there is no event-handler attribute. */
  lemma {:induction false} NoHandlerWithoutO(s: string)
    requires 'o' !in s && 'O' !in s
    ensures !ContainsHandler(s)
  {
    if s != [] {
      assert s == [s[0]] + s[1..];
      NoHandlerWithoutO(s[1..]);
    }
  }

  /** A position where the folded character differs from the pattern rules
      out a match. */
  lemma {:induction false} MismatchAt(s: string, pattern: string, k: nat)
    requires k < |s| && k < |pattern|
    requires forall i :: 0 <= i < k ==> LowerAscii(s[i]) == pattern[i]
    requires LowerAscii(s[k]) != pattern[k]
    ensures !StartsWithFolded(s, pattern)
  {
    if k > 0 {
      MismatchAt(s[1..], pattern[1..], k - 1);
    }
  }

  /** A lower-case pattern matches itself at the start of any extension. */
  lemma {:induction false} PatternMatchesItself(pattern: string, rest: string)
    requires forall i :: 0 <= i < |pattern| ==> LowerAscii(pattern[i]) == pattern[i]
    ensures StartsWithFolded(pattern + rest, pattern)
  {
    if pattern != [] {
      assert (pattern + rest)[1..] == pattern[1..] + rest;
      PatternMatchesItself(pattern[1..], rest);
    }
  }

  /** An input that hides `data:` around a second copy of itself. */
  const NestedDataScheme: string := "dadata:ta:"

  /** The nested input has no white space at its ends. */
  lemma NestedDataSchemeIsTrimmed()
    ensures Trim(NestedDataScheme) == NestedDataScheme
  {
    TrimFixesTrimmed(NestedDataScheme);
  }

  /** The nested input has no angle brackets. */
  lemma NestedDataSchemeHasNoAngles()
    ensures StripAngles(NestedDataScheme) == NestedDataScheme
  {
    StripAnglesFixesNoAngles(NestedDataScheme);
  }

  /** The nested input holds no `j`, so no script scheme. */
  lemma NestedDataSchemeHasNoScript()
    ensures RemoveFolded(NestedDataScheme, ScriptScheme) == NestedDataScheme
  {
    MissingFirstLetter(NestedDataScheme, ScriptScheme, 'J');
    RemoveFoldedFixesClean(NestedDataScheme, ScriptScheme);
  }

  /** The nested input holds no `o`, so no handler. */
  lemma NestedDataSchemeHasNoHandler()
    ensures RemoveHandlers(NestedDataScheme) == NestedDataScheme
  {
    NoHandlerWithoutO(NestedDataScheme);
    RemoveHandlersFixesClean(NestedDataScheme);
  }

  /** From its third character on, the nested input is `data:` followed by
      a tail too short for another match. */
  lemma NestedDataSchemeInnerMatch()
    ensures RemoveFolded(NestedDataScheme[2..], DataScheme) == NestedDataScheme[7..]
  {
    var s := NestedDataScheme;
    var tail := s[7..];
    assert s[2..] == DataScheme + tail;
    PatternMatchesItself(DataScheme, tail);
    assert s[2..][|DataScheme|..] == tail;
    TooShortToContain(tail, DataScheme);
    RemoveFoldedFixesClean(tail, DataScheme);
  }

  /** No match begins at either of the first two characters. */
  lemma NestedDataSchemeOuterMisses()
    ensures !StartsWithFolded(NestedDataScheme, DataScheme)
    ensures !StartsWithFolded(NestedDataScheme[1..], DataScheme)
  {
    MismatchAt(NestedDataScheme, DataScheme, 2);
    assert LowerAscii(NestedDataScheme[1..][0]) != DataScheme[0];
  }

  /** Two characters that start no match are kept as they are. */
  lemma KeepsTwoMisses(s: string, pattern: string)
    requires pattern != [] && |s| >= 2
    requires !StartsWithFolded(s, pattern) && !StartsWithFolded(s[1..], pattern)
    ensures RemoveFolded(s, pattern) == s[..2] + RemoveFolded(s[2..], pattern)
  {
    assert s[1..][1..] == s[2..];
  }

  /** Removing the inner `data:` leaves the outer one. */
  lemma NestedDataSchemeRemoval()
    ensures RemoveFolded(NestedDataScheme, DataScheme) == DataScheme
  {
    NestedDataSchemeInnerMatch();
    NestedDataSchemeOuterMisses();
    KeepsTwoMisses(NestedDataScheme, DataScheme);
    assert NestedDataScheme[..2] + NestedDataScheme[7..] == DataScheme;
  }

  /** The sanitizer's result follows from what each stage does. */
  lemma SanitizeByStages(s: string, r: string)
    requires Trim(s) == s && StripAngles(s) == s
    requires RemoveFolded(s, ScriptScheme) == s && RemoveHandlers(s) == s
    requires RemoveFolded(s, DataScheme) == r
    ensures SanitizeInput(s) == r
  {
  }

  /** `data:` itself is not clean. */
  lemma DataSchemeIsNotClean()
    ensures ContainsFolded(DataScheme, DataScheme)
    ensures !Clean(DataScheme)
  {
    PatternMatchesItself(DataScheme, []);
    assert DataScheme + [] == DataScheme;
  }

  /** One pass is not enough: removing the inner `data:` joins the two
      halves around it into a new one, which is returned. */
  lemma SinglePassLeavesDataScheme()
    ensures SanitizeInput(NestedDataScheme) == DataScheme
    ensures ContainsFolded(SanitizeInput(NestedDataScheme), DataScheme)
    ensures !Clean(SanitizeInput(NestedDataScheme))
  {
    NestedDataSchemeIsTrimmed();
    NestedDataSchemeHasNoAngles();
    NestedDataSchemeHasNoScript();
    NestedDataSchemeHasNoHandler();
    NestedDataSchemeRemoval();
    SanitizeByStages(NestedDataScheme, DataScheme);
    DataSchemeIsNotClean();
  }

  /** The sanitizer repeated until nothing changes: its result holds none of
      the patterns the single pass means to remove. */
  function SanitizeFully(input: string): (r: string)
    ensures Clean(r)
    ensures |r| <= |input|
    decreases |input|
  {
    var once := SanitizeInput(input);
    if once == input then
      FixedIsClean(input);
      input
    else
      SanitizeChangesOrShortens(input);
      SanitizeFully(once)
  }

  /** Clean input is returned as it is. */
  lemma SanitizeFullyKeepsClean(s: string)
    requires Clean(s)
    ensures SanitizeFully(s) == s
  {
    CleanIsFixed(s);
  }

  /** The full sanitizer is idempotent, and a second full pass finds
      nothing to do. */
  lemma SanitizeFullyIdempotent(s: string)
    ensures SanitizeFully(SanitizeFully(s)) == SanitizeFully(s)
    ensures SanitizeInput(SanitizeFully(s)) == SanitizeFully(s)
  {
    SanitizeFullyKeepsClean(SanitizeFully(s));
    CleanIsFixed(SanitizeFully(s));
  }

}
