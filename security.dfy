/** The credential and input validators of `src/lib/security.ts`: the
    password policy check, the additive strength score and the email shape
    check (the input sanitizer has its own module). Regular expressions are written
    out as predicates over character positions, with JavaScript's meaning of
    `\d`, `\s`, `\w`, `.` and the `i` flag. */
module Security {

  // ---------------------------------------------------------------------
  // Character classes

  predicate IsUpper(c: char) { 'A' <= c <= 'Z' }

  predicate IsLower(c: char) { 'a' <= c <= 'z' }

  /** `\d`: ASCII digits only. */
  predicate IsDigit(c: char) { '0' <= c <= '9' }

  /** The class `[!@#$%^&*(),.?":{}|<>]`. */
  predicate IsSpecial(c: char) {
    c == '!' || c == '@' || c == '#' || c == '$' || c == '%' || c == '^' || c == '&'
    || c == '*' || c == '(' || c == ')' || c == ',' || c == '.' || c == '?' || c == '"'
    || c == ':' || c == '{' || c == '}' || c == '|' || c == '<' || c == '>'
  }

  /** The characters `.` does not match without the `s` flag. */
  predicate IsLineTerminator(c: char) {
    c == '\n' || c == '\r' || c == '\U{2028}' || c == '\U{2029}'
  }

  /** `\s`, which is also the set `trim` strips: the ECMAScript white space
      and line terminator characters. */
  predicate IsJsWhitespace(c: char) {
    c == '\t' || c == '\U{B}' || c == '\U{C}' || c == ' ' || c == '\U{A0}'
    || c == '\U{1680}' || ('\U{2000}' <= c <= '\U{200A}') || c == '\U{202F}'
    || c == '\U{205F}' || c == '\U{3000}' || c == '\U{FEFF}' || IsLineTerminator(c)
  }

  /** `\w`: ASCII letters, digits and underscore (also under the `i` flag). */
  predicate IsWordChar(c: char) { IsUpper(c) || IsLower(c) || IsDigit(c) || c == '_' }

  /** The one-character classes the password checks test for. */
  datatype CharClass = UpperClass | LowerClass | DigitClass | SpecialClass

  predicate InClass(c: char, k: CharClass) {
    match k
    case UpperClass => IsUpper(c)
    case LowerClass => IsLower(c)
    case DigitClass => IsDigit(c)
    case SpecialClass => IsSpecial(c)
  }

  /** `/[...]/.test(s)` for a one-character class: some character of `s`
      is in the class. */
  predicate Any(s: string, k: CharClass) {
    s != [] && (InClass(s[0], k) || Any(s[1..], k))
  }

  /** `Any` is the existential reading of a regular-expression test. */
  lemma {:induction false} AnyIsSomePosition(s: string, k: CharClass)
    ensures Any(s, k) <==> exists i :: 0 <= i < |s| && InClass(s[i], k)
  {
    if s != [] {
      AnyIsSomePosition(s[1..], k);
      if exists i :: 0 <= i < |s| && InClass(s[i], k) {
        var i :| 0 <= i < |s| && InClass(s[i], k);
        if i > 0 {
          assert s[1..][i - 1] == s[i];
        }
      }
      if Any(s[1..], k) {
        var i :| 0 <= i < |s[1..]| && InClass(s[1..][i], k);
        assert s[i + 1] == s[1..][i];
      }
    }
  }

  predicate HasUpper(s: string) { Any(s, UpperClass) }

  predicate HasLower(s: string) { Any(s, LowerClass) }

  predicate HasDigit(s: string) { Any(s, DigitClass) }

  predicate HasSpecial(s: string) { Any(s, SpecialClass) }

  /** A character other than a line terminator, then the same twice more:
      one match of `(.)\1{2,}` starting at `i` (the regex needs no more). */
  predicate TripleAt(s: string, i: nat)
    requires i + 2 < |s|
  {
    !IsLineTerminator(s[i]) && s[i + 1] == s[i] && s[i + 2] == s[i]
  }

  /** Two characters other than line terminators, then the same two again:
      one match of `(.)(.)\1\2` starting at `i`. */
  predicate PairAt(s: string, i: nat)
    requires i + 3 < |s|
  {
    !IsLineTerminator(s[i]) && !IsLineTerminator(s[i + 1]) && s[i + 2] == s[i] && s[i + 3] == s[i + 1]
  }

  /** `/(.)\1{2,}/.test(s)`, scanning from the left. */
  predicate HasTripleRepeat(s: string) {
    |s| >= 3 && (TripleAt(s, 0) || HasTripleRepeat(s[1..]))
  }

  /** `/(.)(.)\1\2/.test(s)`, scanning from the left. */
  predicate HasPairRepeat(s: string) {
    |s| >= 4 && (PairAt(s, 0) || HasPairRepeat(s[1..]))
  }

  /** The scan finds a match iff one starts at some position. */
  lemma {:induction false} TripleRepeatIsSomePosition(s: string)
    ensures HasTripleRepeat(s) <==> exists i: nat :: i + 2 < |s| && TripleAt(s, i)
  {
    if |s| >= 3 {
      TripleRepeatIsSomePosition(s[1..]);
      if exists i: nat :: i + 2 < |s| && TripleAt(s, i) {
        var i: nat :| i + 2 < |s| && TripleAt(s, i);
        if i > 0 {
          assert TripleAt(s[1..], i - 1);
        }
      }
      if HasTripleRepeat(s[1..]) {
        var i: nat :| i + 2 < |s[1..]| && TripleAt(s[1..], i);
        assert TripleAt(s, i + 1);
      }
    }
  }

  lemma {:induction false} PairRepeatIsSomePosition(s: string)
    ensures HasPairRepeat(s) <==> exists i: nat :: i + 3 < |s| && PairAt(s, i)
  {
    if |s| >= 4 {
      PairRepeatIsSomePosition(s[1..]);
      if exists i: nat :: i + 3 < |s| && PairAt(s, i) {
        var i: nat :| i + 3 < |s| && PairAt(s, i);
        if i > 0 {
          assert PairAt(s[1..], i - 1);
        }
      }
      if HasPairRepeat(s[1..]) {
        var i: nat :| i + 3 < |s[1..]| && PairAt(s[1..], i);
        assert PairAt(s, i + 1);
      }
    }
  }

  // ---------------------------------------------------------------------
  // validatePassword

  /** `PASSWORD_POLICY.minLength`; the four `require*` flags are all true. */
  const MinPasswordLength: nat := 8

  /** The five policy rules, in the order they are checked. */
  datatype Rule = MinLength | Uppercase | Lowercase | Digit | SpecialChar

  const RuleOrder: seq<Rule> := [MinLength, Uppercase, Lowercase, Digit, SpecialChar]

  function Position(rule: Rule): nat {
    match rule
    case MinLength => 0
    case Uppercase => 1
    case Lowercase => 2
    case Digit => 3
    case SpecialChar => 4
  }

  /** Rules listed in strictly increasing check order. */
  predicate InCheckOrder(rules: seq<Rule>) {
    forall i, j :: 0 <= i < j < |rules| ==> Position(rules[i]) < Position(rules[j])
  }

  /** The outcome of the five tests on one password. The length is the
      number of characters. */
  datatype Verdicts = Verdicts(longEnough: bool, upper: bool, lower: bool, digit: bool, special: bool)

  function VerdictsOf(password: string): Verdicts {
    Verdicts(|password| >= MinPasswordLength, HasUpper(password), HasLower(password),
             HasDigit(password), HasSpecial(password))
  }

  predicate Holds(v: Verdicts, rule: Rule) {
    match rule
    case MinLength => v.longEnough
    case Uppercase => v.upper
    case Lowercase => v.lower
    case Digit => v.digit
    case SpecialChar => v.special
  }

  /** Whether a password satisfies one rule. */
  predicate Satisfies(password: string, rule: Rule) {
    Holds(VerdictsOf(password), rule)
  }

  const LengthMessage: string := "A senha deve ter pelo menos 8 caracteres"
  const UppercaseMessage: string := "A senha deve conter pelo menos uma letra maiúscula"
  const LowercaseMessage: string := "A senha deve conter pelo menos uma letra minúscula"
  const DigitMessage: string := "A senha deve conter pelo menos um número"
  const SpecialMessage: string := "A senha deve conter pelo menos um caractere especial"

  /** The error message pushed for a violated rule. */
  function Message(rule: Rule): string {
    match rule
    case MinLength => LengthMessage
    case Uppercase => UppercaseMessage
    case Lowercase => LowercaseMessage
    case Digit => DigitMessage
    case SpecialChar => SpecialMessage
  }

  function Messages(rules: seq<Rule>): (r: seq<string>)
    ensures |r| == |rules|
  {
    if rules == [] then [] else [Message(rules[0])] + Messages(rules[1..])
  }

  /** The violations one rule contributes: none, or that rule. */
  function Check(v: Verdicts, rule: Rule): seq<Rule> {
    if Holds(v, rule) then [] else [rule]
  }

  /** The failed rules, rule by rule in check order. */
  function Select(v: Verdicts): seq<Rule> {
    Check(v, MinLength) + Check(v, Uppercase) + Check(v, Lowercase) + Check(v, Digit) + Check(v, SpecialChar)
  }

  /** Every rule listed comes before position `n`. */
  predicate AllBefore(rules: seq<Rule>, n: nat) {
    forall x :: x in rules ==> Position(x) < n
  }

  /** Appending the verdict of a later rule keeps the list in check order. */
  lemma {:induction false} CheckKeepsOrder(rules: seq<Rule>, v: Verdicts, rule: Rule)
    requires InCheckOrder(rules) && AllBefore(rules, Position(rule))
    ensures InCheckOrder(rules + Check(v, rule))
    ensures AllBefore(rules + Check(v, rule), Position(rule) + 1)
  {
    var s := rules + Check(v, rule);
    forall i, j | 0 <= i < j < |s|
      ensures Position(s[i]) < Position(s[j])
    {
      if j >= |rules| {
        assert s[i] in rules;
      }
    }
  }

  lemma {:induction false} SelectInCheckOrder(v: Verdicts)
    ensures InCheckOrder(Select(v))
  {
    var s1 := Check(v, MinLength);
    CheckKeepsOrder([], v, MinLength);
    assert [] + s1 == s1;
    var s2 := s1 + Check(v, Uppercase);
    CheckKeepsOrder(s1, v, Uppercase);
    var s3 := s2 + Check(v, Lowercase);
    CheckKeepsOrder(s2, v, Lowercase);
    var s4 := s3 + Check(v, Digit);
    CheckKeepsOrder(s3, v, Digit);
    CheckKeepsOrder(s4, v, SpecialChar);
  }

  /** `Select` lists exactly the failed rules, each once, in check order. */
  lemma {:induction false} SelectIsExact(v: Verdicts)
    ensures forall x :: x in Select(v) <==> !Holds(v, x)
    ensures InCheckOrder(Select(v))
  {
    SelectInCheckOrder(v);
    forall x: Rule
      ensures x in Select(v) <==> !Holds(v, x)
    {
      assert x in Check(v, x) <==> !Holds(v, x);
    }
  }

  /** The rules a password violates, in check order. */
  function Violated(password: string): seq<Rule> {
    Select(VerdictsOf(password))
  }

  /** `Violated` lists exactly the violated rules, each once, in check order. */
  lemma {:induction false} ViolatedIsExact(password: string)
    ensures forall x :: x in Violated(password) <==> !Satisfies(password, x)
    ensures InCheckOrder(Violated(password))
  {
    SelectIsExact(VerdictsOf(password));
  }

  function Indicator(b: bool): nat { if b then 1 else 0 }

  /** The number of errors is the number of violated rules. */
  lemma {:induction false} ErrorCountIsViolationCount(password: string)
    ensures |Violated(password)| ==
      Indicator(!Satisfies(password, MinLength)) + Indicator(!Satisfies(password, Uppercase))
      + Indicator(!Satisfies(password, Lowercase)) + Indicator(!Satisfies(password, Digit))
      + Indicator(!Satisfies(password, SpecialChar))
  {
  }

  lemma {:induction false} MessagesAppend(a: seq<Rule>, b: seq<Rule>)
    ensures Messages(a + b) == Messages(a) + Messages(b)
  {
    if a == [] {
      assert a + b == b;
    } else {
      var head := [Message(a[0])];
      assert (a + b)[0] == a[0] && (a + b)[1..] == a[1..] + b;
      MessagesAppend(a[1..], b);
      calc {
        Messages(a + b);
        head + Messages(a[1..] + b);
        head + (Messages(a[1..]) + Messages(b));
        (head + Messages(a[1..])) + Messages(b);
      }
    }
  }

  /** Pushing the message of one more rule keeps the errors in step with
      the rules they report. */
  lemma {:induction false} PushMessage(errors: seq<string>, reported: seq<Rule>, rule: Rule)
    requires errors == Messages(reported)
    ensures errors + [Message(rule)] == Messages(reported + [rule])
  {
    MessagesAppend(reported, [rule]);
  }

  /** A password is accepted (no error messages) iff it satisfies every rule. */
  lemma {:induction false} AcceptedIffAllRulesHold(password: string)
    ensures Messages(Violated(password)) == [] <==> forall rule :: Satisfies(password, rule)
    ensures Messages(Violated(password)) == [] ==> |password| >= MinPasswordLength
  {
    ViolatedIsExact(password);
    if Violated(password) != [] {
      assert Violated(password)[0] in Violated(password);
    }
  }

  /** `validatePassword`. */
  method ValidatePassword(password: string) returns (isValid: bool, errors: seq<string>)
    ensures errors == Messages(Violated(password))
    ensures isValid <==> errors == []
  {
    ghost var v := VerdictsOf(password);
    ghost var reported: seq<Rule> := [];
    errors := [];
    if |password| < MinPasswordLength {
      PushMessage(errors, reported, MinLength);
      errors, reported := errors + [Message(MinLength)], reported + [MinLength];
    }
    ghost var r1 := reported;
    assert r1 == Check(v, MinLength);
    if !HasUpper(password) {
      PushMessage(errors, reported, Uppercase);
      errors, reported := errors + [Message(Uppercase)], reported + [Uppercase];
    }
    ghost var r2 := reported;
    assert r2 == r1 + Check(v, Uppercase);
    if !HasLower(password) {
      PushMessage(errors, reported, Lowercase);
      errors, reported := errors + [Message(Lowercase)], reported + [Lowercase];
    }
    ghost var r3 := reported;
    assert r3 == r2 + Check(v, Lowercase);
    if !HasDigit(password) {
      PushMessage(errors, reported, Digit);
      errors, reported := errors + [Message(Digit)], reported + [Digit];
    }
    ghost var r4 := reported;
    assert r4 == r3 + Check(v, Digit);
    if !HasSpecial(password) {
      PushMessage(errors, reported, SpecialChar);
      errors, reported := errors + [Message(SpecialChar)], reported + [SpecialChar];
    }
    assert reported == r4 + Check(v, SpecialChar);
    isValid := |errors| == 0;
  }

  // ---------------------------------------------------------------------
  // calculatePasswordStrength

  /** `points` when the criterion is met, nothing otherwise. */
  function Award(met: bool, points: nat): nat {
    if met then points else 0
  }

  /** The additive score: 20 for at least 8 characters, 10 more each for at
      least 12 and at least 16, 10 for each of the four character classes,
      and 10 for each repetition pattern that is absent. */
  function StrengthScore(password: string): nat {
    Award(|password| >= 8, 20) + Award(|password| >= 12, 10) + Award(|password| >= 16, 10)
    + Award(HasLower(password), 10) + Award(HasUpper(password), 10)
    + Award(HasDigit(password), 10) + Award(HasSpecial(password), 10)
    + Award(!HasTripleRepeat(password), 10) + Award(!HasPairRepeat(password), 10)
  }

  /** Every award is 0, 10 or 20, and they add up to at most 100. */
  lemma StrengthScoreRange(password: string)
    ensures 0 <= StrengthScore(password) <= 100
    ensures StrengthScore(password) % 10 == 0
  {
  }

  datatype Level = VeryWeak | Weak | Medium | Strong | VeryStrong

  /** The levels in increasing order. */
  function LevelRank(level: Level): nat {
    match level
    case VeryWeak => 0
    case Weak => 1
    case Medium => 2
    case Strong => 3
    case VeryStrong => 4
  }

  /** The level thresholds 30, 50, 70 and 90. */
  function LevelOf(score: int): Level {
    if score < 30 then VeryWeak
    else if score < 50 then Weak
    else if score < 70 then Medium
    else if score < 90 then Strong
    else VeryStrong
  }

  const VeryWeakFeedback: string := "Sua senha é muito fraca. Considere usar uma senha mais complexa."
  const WeakFeedback: string := "Sua senha pode ser melhorada. Adicione mais variedade de caracteres."
  const MediumFeedback: string := "Sua senha é moderada. Considere adicionar caracteres especiais."
  const StrongFeedback: string := "Sua senha é boa, mas pode ser ainda melhor."
  const VeryStrongFeedback: string := "Excelente! Sua senha é muito forte."

  /** The messages for a score: every threshold the score is below adds its
      message, and a score of 90 or more gets only the last one. */
  function FeedbackFor(score: int): seq<string> {
    (if score < 30 then [VeryWeakFeedback] else [])
    + (if score < 50 then [WeakFeedback] else [])
    + (if score < 70 then [MediumFeedback] else [])
    + (if score < 90 then [StrongFeedback] else [])
    + (if score >= 90 then [VeryStrongFeedback] else [])
  }

  /** `calculatePasswordStrength`. */
  method CalculatePasswordStrength(password: string) returns (score: int, level: Level, feedback: seq<string>)
    ensures score == StrengthScore(password)
    ensures level == LevelOf(score)
    ensures feedback == FeedbackFor(score)
  {
    score := 0;
    ghost var before0 := score;
    if |password| >= 8 { score := score + 20; }
    assert score == before0 + Award(|password| >= 8, 20);
    ghost var before1 := score;
    if |password| >= 12 { score := score + 10; }
    assert score == before1 + Award(|password| >= 12, 10);
    ghost var before2 := score;
    if |password| >= 16 { score := score + 10; }
    assert score == before2 + Award(|password| >= 16, 10);
    ghost var before3 := score;
    if HasLower(password) { score := score + 10; }
    assert score == before3 + Award(HasLower(password), 10);
    ghost var before4 := score;
    if HasUpper(password) { score := score + 10; }
    assert score == before4 + Award(HasUpper(password), 10);
    ghost var before5 := score;
    if HasDigit(password) { score := score + 10; }
    assert score == before5 + Award(HasDigit(password), 10);
    ghost var before6 := score;
    if HasSpecial(password) { score := score + 10; }
    assert score == before6 + Award(HasSpecial(password), 10);
    ghost var before7 := score;
    if !HasTripleRepeat(password) { score := score + 10; }
    assert score == before7 + Award(!HasTripleRepeat(password), 10);
    ghost var before8 := score;
    if !HasPairRepeat(password) { score := score + 10; }
    assert score == before8 + Award(!HasPairRepeat(password), 10);
    level, feedback := RateScore(score);
  }

  /** The second half of `calculatePasswordStrength`: the level chain and
      the feedback pushes, which read only the score. */
  method RateScore(score: int) returns (level: Level, feedback: seq<string>)
    ensures level == LevelOf(score)
    ensures feedback == FeedbackFor(score)
  {
    if score < 30 { level := VeryWeak; }
    else if score < 50 { level := Weak; }
    else if score < 70 { level := Medium; }
    else if score < 90 { level := Strong; }
    else { level := VeryStrong; }

    feedback := [];
    if score < 30 { feedback := feedback + [VeryWeakFeedback]; }
    if score < 50 { feedback := feedback + [WeakFeedback]; }
    if score < 70 { feedback := feedback + [MediumFeedback]; }
    if score < 90 { feedback := feedback + [StrongFeedback]; }
    if score >= 90 { feedback := feedback + [VeryStrongFeedback]; }
  }

  /** A higher score never gets a lower level. */
  lemma LevelIsMonotone(s: int, t: int)
    requires s <= t
    ensures LevelRank(LevelOf(s)) <= LevelRank(LevelOf(t))
  {
  }

  /** The feedback is never empty: 4 messages below 30, 3 below 50, 2 below
      70 and 1 from 70 on; from `Weak` up that is one message per level
      still above. */
  lemma FeedbackCount(score: int)
    ensures |FeedbackFor(score)| ==
      if score < 30 then 4 else if score < 50 then 3 else if score < 70 then 2 else 1
    ensures FeedbackFor(score) != []
    ensures LevelOf(score) != VeryStrong ==> |FeedbackFor(score)| == 4 - LevelRank(LevelOf(score))
  {
  }

  /** A password the policy accepts scores at least 60 (length and the four
      classes), so it is rated medium or better. */
  lemma {:induction false} AcceptedPasswordIsAtLeastMedium(password: string)
    requires Messages(Violated(password)) == []
    ensures StrengthScore(password) >= 60
    ensures LevelRank(LevelOf(StrengthScore(password))) >= LevelRank(Medium)
  {
    AcceptedIffAllRulesHold(password);
    assert Satisfies(password, Uppercase) && Satisfies(password, Lowercase);
    assert Satisfies(password, Digit) && Satisfies(password, SpecialChar);
  }

  /** A run of four equal characters costs both repetition awards. */
  lemma {:induction false} FourOfAKindHitsBothPatterns(password: string, i: nat)
    requires i + 3 < |password| && !IsLineTerminator(password[i])
    requires password[i + 1] == password[i] && password[i + 2] == password[i] && password[i + 3] == password[i]
    ensures HasTripleRepeat(password) && HasPairRepeat(password)
    ensures StrengthScore(password) <= 80
  {
    assert TripleAt(password, i) && PairAt(password, i);
    TripleRepeatIsSomePosition(password);
    PairRepeatIsSomePosition(password);
  }

  // ---------------------------------------------------------------------
  // validateEmail

  /** A non-empty run of `[^\s@]` covering positions `lo` to `hi - 1`. */
  predicate Segment(s: string, lo: nat, hi: nat)
    requires lo <= hi <= |s|
  {
    lo < hi && forall i :: lo <= i < hi ==> !IsJsWhitespace(s[i]) && s[i] != '@'
  }

  /** `/^[^\s@]+@[^\s@]+\.[^\s@]+$/` matches: the string splits at an `@`
      at `a` and a `.` at `d` into three non-empty segments. */
  predicate EmailRegexMatches(s: string) {
    exists a: nat, d: nat :: a < d < |s| && Segment(s, 0, a) && s[a] == '@'
      && Segment(s, a + 1, d) && s[d] == '.' && Segment(s, d + 1, |s|)
  }

  /** The shape the check accepts, stated directly: no white space, exactly
      one `@`, a non-empty local part, and a `.` in the domain that is
      neither its first nor its last character. */
  predicate EmailShape(s: string) {
    (forall i :: 0 <= i < |s| ==> !IsJsWhitespace(s[i]))
    && exists a :: 0 < a < |s| && s[a] == '@'
         && (forall i :: 0 <= i < |s| && i != a ==> s[i] != '@')
         && exists d :: a + 1 < d < |s| - 1 && s[d] == '.'
  }

  lemma ShapeOfRegexMatch(s: string, a: nat, d: nat)
    requires a < d < |s| && Segment(s, 0, a) && s[a] == '@'
    requires Segment(s, a + 1, d) && s[d] == '.' && Segment(s, d + 1, |s|)
    ensures EmailShape(s)
  {
    forall i | 0 <= i < |s|
      ensures !IsJsWhitespace(s[i]) && (i != a ==> s[i] != '@')
    {
      if i < a {
      } else if i == a {
      } else if i < d {
      } else if i == d {
      } else {
      }
    }
  }

  lemma RegexMatchOfShape(s: string)
    requires EmailShape(s)
    ensures EmailRegexMatches(s)
  {
    var a :| 0 < a < |s| && s[a] == '@'
      && (forall i :: 0 <= i < |s| && i != a ==> s[i] != '@')
      && exists d :: a + 1 < d < |s| - 1 && s[d] == '.';
    var d :| a + 1 < d < |s| - 1 && s[d] == '.';
    assert Segment(s, 0, a) && Segment(s, a + 1, d) && Segment(s, d + 1, |s|);
  }

  /** The regular expression and the shape accept the same strings. */
  lemma RegexMatchIffShape(s: string)
    ensures EmailRegexMatches(s) <==> EmailShape(s)
  {
    if EmailRegexMatches(s) {
      var a: nat, d: nat :| a < d < |s| && Segment(s, 0, a) && s[a] == '@'
        && Segment(s, a + 1, d) && s[d] == '.' && Segment(s, d + 1, |s|);
      ShapeOfRegexMatch(s, a, d);
    }
    if EmailShape(s) {
      RegexMatchOfShape(s);
    }
  }

  /** `validateEmail`: the regular expression test, which accepts exactly
      the strings of the shape above. */
  function ValidateEmail(email: string): (r: bool)
    ensures r <==> EmailShape(email)
  {
    RegexMatchIffShape(email);
    EmailRegexMatches(email)
  }

  /** A minimal address passes. */
  lemma MinimalEmailAccepted()
    ensures ValidateEmail("a@b.c")
  {
    var s := "a@b.c";
    assert forall i :: 0 <= i < |s| && i != 1 ==> s[i] != '@';
    assert s[1] == '@' && s[3] == '.';
  }

  /** A domain that begins with its only dot fails. */
  lemma DotFirstInDomainRejected()
    ensures !ValidateEmail("a@.com")
  {
  }

  /** A second `@` fails. */
  lemma TwoAtSignsRejected()
    ensures !ValidateEmail("a@b@c.d")
  {
    var s := "a@b@c.d";
    forall a | 0 < a < |s| && s[a] == '@'
      ensures exists i :: 0 <= i < |s| && i != a && s[i] == '@'
    {
      if a == 1 {
        assert s[3] == '@';
      } else {
        assert s[1] == '@';
      }
    }
  }
}
