/** The password validator. The Unicode classes and the lower-casing of strings are parameters. */
module PasswordStrength {
  import opened Wrappers

  datatype Unicode = Unicode(upper: char -> bool, lower: char -> bool, digit: char -> bool, toLower: string -> string)

  predicate AsciiUpper(c: char) { 'A' <= c <= 'Z' }

  predicate AsciiLower(c: char) { 'a' <= c <= 'z' }

  predicate AsciiDigit(c: char) { '0' <= c <= '9' }

  predicate Punctuation(c: char) {
    '!' <= c <= '/' || ':' <= c <= '@' || '[' <= c <= '`' || '{' <= c <= '~'
  }

  const PUNCTUATION_COUNT := 32

  /** The classes contain the ASCII letters and digits. */
  ghost predicate CoversAscii(u: Unicode) {
    && (forall c :: AsciiUpper(c) ==> u.upper(c))
    && (forall c :: AsciiLower(c) ==> u.lower(c))
    && (forall c :: AsciiDigit(c) ==> u.digit(c))
  }

  predicate Has(cls: char -> bool, p: string) {
    exists i :: 0 <= i < |p| && cls(p[i])
  }

  // ---- Windows ----

  predicate Ascending(p: string, i: nat, n: nat)
    requires i + n <= |p|
  {
    forall j :: i < j < i + n ==> p[j] as int == p[j - 1] as int + 1
  }

  predicate Descending(p: string, i: nat, n: nat)
    requires i + n <= |p|
  {
    forall j :: i < j < i + n ==> p[j] as int == p[j - 1] as int - 1
  }

  ghost predicate HasRun(p: string, n: nat) {
    exists i: nat :: i + n <= |p| && (Ascending(p, i, n) || Descending(p, i, n))
  }

  method HasSequentialChars(p: string, maxSeq: nat) returns (found: bool)
    ensures found <==> HasRun(p, maxSeq)
  {
    var i := 0;
    while i < |p| - maxSeq + 1
      invariant forall k: nat :: k < i && k + maxSeq <= |p| ==> !Ascending(p, k, maxSeq) && !Descending(p, k, maxSeq)
    {
      if Ascending(p, i, maxSeq) { return true; }
      if Descending(p, i, maxSeq) { return true; }
      i := i + 1;
    }
    found := false;
  }

  predicate AllEqual(p: string, i: nat, n: nat)
    requires i + n <= |p|
  {
    forall j :: i < j < i + n ==> p[j] == p[i]
  }

  ghost predicate HasRepeat(p: string, n: nat) {
    exists i: nat :: 0 < n && i + n <= |p| && AllEqual(p, i, n)
  }

  function CharsOf(s: string): set<char> {
    set c | c in s
  }

  /** A window has one distinct character exactly when it is not empty and all its characters agree. */
  lemma OneDistinct(p: string, i: nat, n: nat)
    requires i + n <= |p|
    ensures |CharsOf(p[i..i + n])| == 1 <==> n > 0 && AllEqual(p, i, n)
  {
    var w := p[i..i + n];
    if n > 0 {
      assert w[0] == p[i];
      assert forall j :: i < j < i + n ==> w[j - i] == p[j];
      if AllEqual(p, i, n) {
        assert CharsOf(w) == {p[i]};
      } else {
        var j :| i < j < i + n && p[j] != p[i];
        assert {p[i], p[j]} <= CharsOf(w);
        Smaller({p[i], p[j]}, CharsOf(w));
      }
    } else {
      assert CharsOf(w) == {};
    }
  }

  lemma Smaller<T>(a: set<T>, b: set<T>)
    requires a <= b
    ensures |a| <= |b|
  {
    assert b == a + (b - a);
  }

  method HasRepeatingChars(p: string, maxRepeat: nat) returns (found: bool)
    ensures found <==> HasRepeat(p, maxRepeat)
  {
    var i := 0;
    while i < |p| - maxRepeat + 1
      invariant forall k: nat :: k < i && k + maxRepeat <= |p| ==> !(maxRepeat > 0 && AllEqual(p, k, maxRepeat))
    {
      OneDistinct(p, i, maxRepeat);
      if |CharsOf(p[i..i + maxRepeat])| == 1 { return true; }
      i := i + 1;
    }
    found := false;
  }

  // ---- Entropy ----

  function Pow(b: nat, n: nat): nat {
    if n == 0 then 1 else b * Pow(b, n - 1)
  }

  /** The size of the character set the entropy is computed with. */
  function CharsetSize(u: Unicode, p: string): nat {
    (if Has(u.lower, p) then 26 else 0) + (if Has(u.upper, p) then 26 else 0) +
    (if Has(u.digit, p) then 10 else 0) + (if Has(Punctuation, p) then PUNCTUATION_COUNT else 0)
  }

  const MIN_ENTROPY := 40

  /** `len * log2(charset) < 40`, without the logarithm. */
  predicate EntropyIsLow(u: Unicode, p: string) {
    CharsetSize(u, p) == 0 || Pow(CharsetSize(u, p), |p|) < Pow(2, MIN_ENTROPY)
  }

  method CalculateEntropy(u: Unicode, p: string) returns (low: bool)
    ensures low <==> EntropyIsLow(u, p)
  {
    var size := 0;
    if Has(u.lower, p) { size := size + 26; }
    if Has(u.upper, p) { size := size + 26; }
    if Has(u.digit, p) { size := size + 10; }
    if Has(Punctuation, p) { size := size + PUNCTUATION_COUNT; }
    low := size == 0 || Pow(size, |p|) < Pow(2, MIN_ENTROPY);
  }

  // ---- Similarity to known texts ----

  predicate OccursAt(s: string, part: string, i: int) {
    0 <= i <= |s| - |part| && s[i..i + |part|] == part
  }

  predicate Contains(s: string, part: string) {
    exists i :: 0 <= i <= |s| - |part| && OccursAt(s, part, i)
  }

  const COMMON_PATTERNS := ["123456", "password", "qwerty", "abc123", "111111", "123123", "admin", "letmein"]

  ghost predicate HasPattern(s: string, patterns: seq<string>) {
    exists k :: 0 <= k < |patterns| && Contains(s, patterns[k])
  }

  method HasCommonPattern(s: string, patterns: seq<string>) returns (found: bool)
    ensures found <==> HasPattern(s, patterns)
  {
    for k := 0 to |patterns|
      invariant forall j :: 0 <= j < k ==> !Contains(s, patterns[j])
    {
      if Contains(s, patterns[k]) { return true; }
    }
    found := false;
  }

  /** The part of an address before its first "@". */
  function LocalPart(email: string): string {
    if email == [] || email[0] == '@' then [] else [email[0]] + LocalPart(email[1..])
  }

  // ---- The verdict ----

  datatype Issue =
    | TooShort | NoUpper | NoLower | NoDigit | NoSpecial | CommonPattern | LikeUsername | LikeEmail
    | Sequential | Repeating | LowEntropy

  datatype Strength = Strong | Good | Fair | Weak | VeryWeak

  datatype Verdict = Verdict(valid: bool, score: int, issues: seq<Issue>, strength: Strength)

  datatype Subject = Subject(password: string, username: Option<string>, email: Option<string>)

  function StrengthLabel(score: int): Strength {
    if score >= 80 then Strong else if score >= 60 then Good else if score >= 40 then Fair
    else if score >= 20 then Weak else VeryWeak
  }

  /** When an issue is raised. */
  ghost predicate Raised(issue: Issue, u: Unicode, minLength: int, s: Subject) {
    var p, lower := s.password, u.toLower(s.password);
    match issue
    case TooShort => |p| < minLength
    case NoUpper => !Has(u.upper, p)
    case NoLower => !Has(u.lower, p)
    case NoDigit => !Has(u.digit, p)
    case NoSpecial => !Has(Punctuation, p)
    case CommonPattern => HasPattern(lower, COMMON_PATTERNS)
    case LikeUsername => s.username.Some? && s.username.value != [] && Contains(lower, u.toLower(s.username.value))
    case LikeEmail => s.email.Some? && s.email.value != [] && Contains(lower, LocalPart(u.toLower(s.email.value)))
    case Sequential => HasRun(p, 3)
    case Repeating => HasRepeat(p, 3)
    case LowEntropy => EntropyIsLow(u, p)
  }

  /** What an issue costs. */
  function Penalty(issue: Issue): nat {
    match issue
    case TooShort => 30
    case CommonPattern => 20
    case LikeUsername => 20
    case LikeEmail => 20
    case Sequential => 10
    case Repeating => 10
    case _ => 15
  }

  function Penalties(issues: seq<Issue>): nat {
    if issues == [] then 0 else Penalties(issues[..|issues| - 1]) + Penalty(issues[|issues| - 1])
  }

  /** The order of the checks. */
  function Rank(issue: Issue): nat {
    match issue
    case TooShort => 0
    case NoUpper => 1
    case NoLower => 2
    case NoDigit => 3
    case NoSpecial => 4
    case CommonPattern => 5
    case LikeUsername => 6
    case LikeEmail => 7
    case Sequential => 8
    case Repeating => 9
    case LowEntropy => 10
  }

  ghost predicate InOrder(x: seq<Issue>) {
    forall a, b :: 0 <= a < b < |x| ==> Rank(x[a]) < Rank(x[b])
  }

  /** The score before any issue: a long enough password under 16 characters loses ten points. */
  function Base(minLength: int, p: string): int {
    if minLength <= |p| < 16 then 90 else 100
  }

  ghost function RaisedFor(u: Unicode, minLength: int, s: Subject): Issue -> bool {
    (issue: Issue) => Raised(issue, u, minLength, s)
  }

  /** After the first `k` checks the issues are those raised, in order, and the score has paid for each. */
  ghost predicate Checked(issues: seq<Issue>, score: int, k: nat, u: Unicode, minLength: int, s: Subject) {
    && Lists(issues, k, RaisedFor(u, minLength, s))
    && score == Base(minLength, s.password) - Penalties(issues)
  }

  lemma OneIssuePerRank(i: Issue, j: Issue)
    requires Rank(i) == Rank(j)
    ensures i == j
  {
  }

  /** The issues listed are those that `raised` holds of among the first `k` checks. */
  ghost predicate Lists(issues: seq<Issue>, k: nat, raised: Issue -> bool) {
    InOrder(issues) && forall issue :: issue in issues <==> Rank(issue) < k && raised(issue)
  }

  lemma ListsNext(issues: seq<Issue>, issue: Issue, raised: Issue -> bool)
    requires Lists(issues, Rank(issue), raised)
    ensures Lists(if raised(issue) then issues + [issue] else issues, Rank(issue) + 1, raised)
  {
    var next := if raised(issue) then issues + [issue] else issues;
    forall i ensures i in next <==> Rank(i) < Rank(issue) + 1 && raised(i) {
      if Rank(i) == Rank(issue) { OneIssuePerRank(i, issue); }
    }
    assert forall a :: 0 <= a < |issues| ==> issues[a] in issues;
  }

  lemma NextPenalty(issues: seq<Issue>, issue: Issue)
    ensures Penalties(issues + [issue]) == Penalties(issues) + Penalty(issue)
  {
    assert (issues + [issue])[..|issues|] == issues;
  }

  ghost predicate IsVerdict(v: Verdict, u: Unicode, minLength: int, s: Subject) {
    exists raw :: RawVerdict(raw, v, u, minLength, s)
  }

  ghost predicate RawVerdict(raw: int, v: Verdict, u: Unicode, minLength: int, s: Subject) {
    && Checked(v.issues, raw, 11, u, minLength, s)
    && v.valid == (v.issues == [])
    && v.score == (if raw < 0 then 0 else raw)
    && v.strength == StrengthLabel(raw)
  }

  method ValidatePasswordStrength(u: Unicode, minLength: int, s: Subject) returns (v: Verdict)
    ensures IsVerdict(v, u, minLength, s)
  {
    var issues, score := CheckCharacters(u, minLength, s);
    issues, score := CheckTexts(u, minLength, s, issues, score);
    issues, score := CheckShape(u, minLength, s, issues, score);
    var low := CalculateEntropy(u, s.password);
    issues, score := Check(LowEntropy, low, issues, score, u, minLength, s);
    v := Verdict(issues == [], if score < 0 then 0 else score, issues, StrengthLabel(score));
    assert RawVerdict(score, v, u, minLength, s);
  }

  /** One check: an issue raised is listed and paid for. */
  method Check(issue: Issue, raised: bool, before: seq<Issue>, points: int, u: Unicode, minLength: int, s: Subject)
    returns (issues: seq<Issue>, score: int)
    requires Checked(before, points, Rank(issue), u, minLength, s)
    requires raised <==> Raised(issue, u, minLength, s)
    ensures Checked(issues, score, Rank(issue) + 1, u, minLength, s)
  {
    issues, score := before, points;
    ListsNext(issues, issue, RaisedFor(u, minLength, s));
    NextPenalty(issues, issue);
    if raised {
      issues := issues + [issue];
      score := score - Penalty(issue);
    }
  }

  method CheckCharacters(u: Unicode, minLength: int, s: Subject) returns (issues: seq<Issue>, score: int)
    ensures Checked(issues, score, 5, u, minLength, s)
  {
    var p := s.password;
    issues, score := [], 100;
    if !(|p| < minLength) && |p| < 16 { score := score - 10; }
    issues, score := Check(TooShort, |p| < minLength, issues, score, u, minLength, s);
    issues, score := Check(NoUpper, !Has(u.upper, p), issues, score, u, minLength, s);
    issues, score := Check(NoLower, !Has(u.lower, p), issues, score, u, minLength, s);
    issues, score := Check(NoDigit, !Has(u.digit, p), issues, score, u, minLength, s);
    issues, score := Check(NoSpecial, !Has(Punctuation, p), issues, score, u, minLength, s);
  }

  method CheckTexts(u: Unicode, minLength: int, s: Subject, before: seq<Issue>, points: int)
    returns (issues: seq<Issue>, score: int)
    requires Checked(before, points, 5, u, minLength, s)
    ensures Checked(issues, score, 8, u, minLength, s)
  {
    var lower := u.toLower(s.password);
    var common := HasCommonPattern(lower, COMMON_PATTERNS);
    issues, score := Check(CommonPattern, common, before, points, u, minLength, s);
    var username := s.username.Some? && s.username.value != [] && Contains(lower, u.toLower(s.username.value));
    issues, score := Check(LikeUsername, username, issues, score, u, minLength, s);
    var email := s.email.Some? && s.email.value != [] && Contains(lower, LocalPart(u.toLower(s.email.value)));
    issues, score := Check(LikeEmail, email, issues, score, u, minLength, s);
  }

  method CheckShape(u: Unicode, minLength: int, s: Subject, before: seq<Issue>, points: int)
    returns (issues: seq<Issue>, score: int)
    requires Checked(before, points, 8, u, minLength, s)
    ensures Checked(issues, score, 10, u, minLength, s)
  {
    var p := s.password;
    var sequential := HasSequentialChars(p, 3);
    issues, score := Check(Sequential, sequential, before, points, u, minLength, s);
    var repeating := HasRepeatingChars(p, 3);
    issues, score := Check(Repeating, repeating, issues, score, u, minLength, s);
  }

  lemma FirstIssue(x: seq<Issue>, y: seq<Issue>)
    requires InOrder(x) && InOrder(y) && x != []
    requires forall issue :: issue in x <==> issue in y
    ensures y != [] && x[0] == y[0]
  {
    assert x[0] in y;
    assert y[0] in x;
  }

  lemma {:induction false} SameIssuesSameList(x: seq<Issue>, y: seq<Issue>)
    requires InOrder(x) && InOrder(y)
    requires forall issue :: issue in x <==> issue in y
    ensures x == y
  {
    if x != [] {
      FirstIssue(x, y);
      forall issue ensures issue in x[1..] <==> issue in y[1..] {
        assert issue in x[1..] <==> issue in x && issue != x[0];
        assert issue in y[1..] <==> issue in y && issue != y[0];
      }
      SameIssuesSameList(x[1..], y[1..]);
      assert x == [x[0]] + x[1..] && y == [y[0]] + y[1..];
    } else if y != [] {
      FirstIssue(y, x);
    }
  }

  /** The issues of a verdict are exactly those raised. */
  lemma VerdictListsRaised(v: Verdict, u: Unicode, minLength: int, s: Subject, issue: Issue)
    requires IsVerdict(v, u, minLength, s)
    ensures issue in v.issues <==> Raised(issue, u, minLength, s)
  {
    assert RaisedFor(u, minLength, s)(issue) == Raised(issue, u, minLength, s);
  }

  /** The issues raised determine the whole verdict. */
  lemma VerdictIsUnique(v: Verdict, w: Verdict, u: Unicode, minLength: int, s: Subject)
    requires IsVerdict(v, u, minLength, s) && IsVerdict(w, u, minLength, s)
    ensures v == w
  {
    SameIssuesSameList(v.issues, w.issues);
  }

  /** A valid verdict is the absence of every issue; its score is 90 or 100, and its label "strong". */
  lemma ValidVerdicts(v: Verdict, u: Unicode, minLength: int, s: Subject)
    requires IsVerdict(v, u, minLength, s)
    ensures v.valid <==> forall issue :: !Raised(issue, u, minLength, s)
    ensures v.valid ==> v.strength == Strong && v.score == if |s.password| < 16 then 90 else 100
  {
    var raw :| RawVerdict(raw, v, u, minLength, s);
    forall issue ensures issue in v.issues <==> Raised(issue, u, minLength, s) {
      VerdictListsRaised(v, u, minLength, s, issue);
    }
    if v.issues != [] {
      assert v.issues[0] in v.issues;
    } else {
      assert !Raised(TooShort, u, minLength, s);
    }
  }

  // ---- Scores ----

  function Paid(issues: seq<Issue>, issue: Issue, points: int): int {
    if issue in issues then points else 0
  }

  /** The deductions of a list of issues, by kind. */
  function Deductions(issues: seq<Issue>): int {
    Paid(issues, TooShort, 30)
    + Paid(issues, NoUpper, 15) + Paid(issues, NoLower, 15) + Paid(issues, NoDigit, 15) + Paid(issues, NoSpecial, 15)
    + Paid(issues, CommonPattern, 20) + Paid(issues, LikeUsername, 20) + Paid(issues, LikeEmail, 20)
    + Paid(issues, Sequential, 10) + Paid(issues, Repeating, 10)
    + Paid(issues, LowEntropy, 15)
  }

  lemma PaidNext(issues: seq<Issue>, last: Issue, issue: Issue, points: int)
    requires last !in issues
    ensures Paid(issues + [last], issue, points) == Paid(issues, issue, points) + (if issue == last then points else 0)
  {
  }

  lemma DeductionsNext(issues: seq<Issue>, last: Issue)
    requires last !in issues
    ensures Deductions(issues + [last]) == Deductions(issues) + Penalty(last)
  {
    PaidNext(issues, last, TooShort, 30);
    PaidNext(issues, last, NoUpper, 15);
    PaidNext(issues, last, NoLower, 15);
    PaidNext(issues, last, NoDigit, 15);
    PaidNext(issues, last, NoSpecial, 15);
    PaidNext(issues, last, CommonPattern, 20);
    PaidNext(issues, last, LikeUsername, 20);
    PaidNext(issues, last, LikeEmail, 20);
    PaidNext(issues, last, Sequential, 10);
    PaidNext(issues, last, Repeating, 10);
    PaidNext(issues, last, LowEntropy, 15);
  }

  lemma {:induction false} PenaltiesAreDeductions(issues: seq<Issue>)
    requires InOrder(issues)
    ensures Penalties(issues) == Deductions(issues)
  {
    if issues == [] {
    } else {
      var init, last := issues[..|issues| - 1], issues[|issues| - 1];
      assert issues == init + [last];
      PenaltiesAreDeductions(init);
      DeductionsNext(init, last);
    }
  }

  /** Every verdict, valid or not: the score starts from 100, or from 90 for a password that is long enough
      but has fewer than 16 characters, pays for each issue listed and stops at zero; and the label follows
      the score before that. */
  lemma ScoreIsDeducted(v: Verdict, u: Unicode, minLength: int, s: Subject)
    requires IsVerdict(v, u, minLength, s)
    ensures var raw := (if minLength <= |s.password| < 16 then 90 else 100) - Deductions(v.issues);
            && v.score == (if raw < 0 then 0 else raw)
            && (v.strength == Strong <==> v.score >= 80) && (v.strength == Good <==> 60 <= v.score < 80)
            && (v.strength == Fair <==> 40 <= v.score < 60) && (v.strength == Weak <==> 20 <= v.score < 40)
            && (v.strength == VeryWeak <==> v.score < 20)
  {
    PenaltiesAreDeductions(v.issues);
  }

  /** The part of an address that the similarity check looks for ends before its first "@". */
  lemma {:induction false} LocalPartEndsAtSign(name: string, rest: string)
    requires '@' !in name
    ensures LocalPart(name) == name && LocalPart(name + ['@'] + rest) == name
  {
    if name == [] {
    } else {
      LocalPartEndsAtSign(name[1..], rest);
      assert name == [name[0]] + name[1..];
      assert (name + ['@'] + rest)[1..] == name[1..] + ['@'] + rest;
    }
  }
}
