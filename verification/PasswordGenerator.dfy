/** The password generator and what the validator says about its output. Every random choice and
    every shuffle is left open. */
module PasswordGenerator {
  import opened PasswordStrength

  predicate Ambiguous(c: char) {
    c == '0' || c == 'O' || c == '1' || c == 'l' || c == 'I'
  }

  /** The characters from `lo` to `hi`, in order. */
  function Chars(lo: char, hi: char): (s: string)
    requires lo <= hi <= '~'
    ensures forall c :: c in s <==> lo <= c <= hi
  {
    var s := seq(hi as int - lo as int + 1, i requires 0 <= i <= hi as int - lo as int => (lo as int + i) as char);
    assert forall c :: lo <= c <= hi ==> c in s by {
      forall c | lo <= c <= hi ensures c in s { assert s[c as int - lo as int] == c; }
    }
    s
  }

  /** A password that may be drawn. */
  ghost predicate Generated(p: string, length: int, symbols: bool, unambiguous: bool) {
    && |p| == Longer(length, if symbols then 4 else 3)
    && (forall c :: c in p ==> Drawable(c, symbols, unambiguous))
    && Has(AsciiLower, p) && Has(AsciiUpper, p) && Has(AsciiDigit, p)
    && (symbols ==> Has(Punctuation, p))
  }

  function Longer(a: int, b: int): int {
    if a > b then a else b
  }

  predicate Drawable(c: char, symbols: bool, unambiguous: bool) {
    && (AsciiLower(c) || AsciiUpper(c) || AsciiDigit(c) || (symbols && Punctuation(c)))
    && (unambiguous ==> !Ambiguous(c))
  }

  method RemoveAmbiguous(chars: string) returns (kept: string)
    ensures forall c :: c in kept <==> c in chars && !Ambiguous(c)
  {
    kept := [];
    for i := 0 to |chars|
      invariant forall c :: c in kept <==> c in chars[..i] && !Ambiguous(c)
    {
      assert chars[..i + 1] == chars[..i] + [chars[i]];
      if !Ambiguous(chars[i]) { kept := kept + [chars[i]]; }
    }
    assert chars[..|chars|] == chars;
  }

  method Choice(chars: string) returns (c: char)
    requires chars != []
    ensures c in chars
  {
    var i :| 0 <= i < |chars|;
    c := chars[i];
  }

  /** Swaps from the end, each with an arbitrary earlier position. */
  method Shuffle(s: string) returns (r: string)
    ensures multiset(r) == multiset(s)
  {
    r := s;
    var i := |s| - 1;
    while i > 0
      invariant |r| == |s| && i < |s| && multiset(r) == multiset(s)
    {
      var j :| 0 <= j <= i;
      r := r[i := r[j]][j := r[i]];
      i := i - 1;
    }
  }

  /** The alphabets: lower case, upper case, digits, symbols. */
  method Alphabets(symbols: bool, unambiguous: bool)
    returns (lower: string, upper: string, digits: string, special: string)
    ensures forall c :: c in lower <==> AsciiLower(c) && (unambiguous ==> !Ambiguous(c))
    ensures forall c :: c in upper <==> AsciiUpper(c) && (unambiguous ==> !Ambiguous(c))
    ensures forall c :: c in digits <==> AsciiDigit(c) && (unambiguous ==> !Ambiguous(c))
    ensures forall c :: c in special <==> symbols && Punctuation(c)
    ensures 'a' in lower && 'A' in upper && '2' in digits
  {
    lower, upper, digits := Chars('a', 'z'), Chars('A', 'Z'), Chars('0', '9');
    special := if symbols then Chars('!', '/') + Chars(':', '@') + Chars('[', '`') + Chars('{', '~') else [];
    if unambiguous {
      lower := RemoveAmbiguous(lower);
      upper := RemoveAmbiguous(upper);
      digits := RemoveAmbiguous(digits);
    }
  }

  method GeneratePassword(length: int, symbols: bool, unambiguous: bool) returns (password: string)
    ensures Generated(password, length, symbols, unambiguous)
  {
    var lower, upper, digits, special := Alphabets(symbols, unambiguous);
    var all := lower + upper + digits + special;
    var l := Choice(lower);
    var h := Choice(upper);
    var d := Choice(digits);
    var drawn := [l, h, d];
    if symbols {
      assert '!' in special;
      var s := Choice(special);
      drawn := drawn + [s];
    }
    ghost var first := drawn;
    var k := |drawn|;
    while k < length
      invariant |first| <= k && |drawn| == k && first <= drawn && (k == |first| || k <= length)
      invariant forall c :: c in drawn ==> Drawable(c, symbols, unambiguous)
    {
      var c := Choice(all);
      drawn := drawn + [c];
      k := k + 1;
    }
    FirstCharacters(first, drawn, symbols);
    password := Shuffle(drawn);
    ShuffledIsGenerated(drawn, password, length, symbols, unambiguous);
  }

  lemma FirstCharacters(first: string, p: string, symbols: bool)
    requires |first| == (if symbols then 4 else 3) && first <= p
    requires AsciiLower(first[0]) && AsciiUpper(first[1]) && AsciiDigit(first[2])
    requires symbols ==> Punctuation(first[3])
    ensures Has(AsciiLower, p) && Has(AsciiUpper, p) && Has(AsciiDigit, p)
    ensures symbols ==> Has(Punctuation, p)
  {
    assert p[0] == first[0] && p[1] == first[1] && p[2] == first[2];
    if symbols { assert p[3] == first[3]; }
  }

  lemma HasAfterShuffle(cls: char -> bool, a: string, b: string)
    requires multiset(a) == multiset(b) && Has(cls, a)
    ensures Has(cls, b)
  {
    var i :| 0 <= i < |a| && cls(a[i]);
    assert a[i] in multiset(a);
    assert a[i] in b;
  }

  lemma ShuffledIsGenerated(a: string, b: string, length: int, symbols: bool, unambiguous: bool)
    requires Generated(a, length, symbols, unambiguous) && multiset(a) == multiset(b)
    ensures Generated(b, length, symbols, unambiguous)
  {
    assert |a| == |multiset(a)| == |multiset(b)| == |b|;
    forall c | c in b ensures c in a { assert c in multiset(b); }
    HasAfterShuffle(AsciiLower, a, b);
    HasAfterShuffle(AsciiUpper, a, b);
    HasAfterShuffle(AsciiDigit, a, b);
    if symbols { HasAfterShuffle(Punctuation, a, b); }
  }

  // ---- The validator on generated passwords ----

  lemma HasWider(narrow: char -> bool, wide: char -> bool, p: string)
    requires Has(narrow, p) && forall c :: narrow(c) ==> wide(c)
    ensures Has(wide, p)
  {
  }

  /** A generated password with symbols uses the full set of 94 characters. */
  lemma GeneratedCharset(p: string, length: int, unambiguous: bool, u: Unicode)
    requires Generated(p, length, true, unambiguous) && CoversAscii(u)
    ensures Has(u.upper, p) && Has(u.lower, p) && Has(u.digit, p) && Has(Punctuation, p)
    ensures CharsetSize(u, p) == 94
  {
    HasWider(AsciiUpper, u.upper, p);
    HasWider(AsciiLower, u.lower, p);
    HasWider(AsciiDigit, u.digit, p);
  }

  lemma Larger(b: nat, x: nat)
    requires b > 0
    ensures x <= b * x
  {
    assert b * x == x + (b - 1) * x;
  }

  lemma {:induction false} PowGrows(b: nat, n: nat, m: nat)
    requires b > 0 && n <= m
    ensures Pow(b, n) <= Pow(b, m)
  {
    if n == m {
    } else {
      PowGrows(b, n, m - 1);
      Larger(b, Pow(b, m - 1));
    }
  }

  /** 94 characters reach 40 bits from the seventh on. */
  lemma EnoughEntropy(n: nat)
    ensures Pow(94, n) < Pow(2, MIN_ENTROPY) <==> n < 7
  {
    assert Pow(2, 10) == 1024;
    assert Pow(2, 20) == 1048576;
    assert Pow(2, 30) == 1073741824;
    assert Pow(2, 40) == 1099511627776;
    assert Pow(94, 6) == 689869781056 && Pow(94, 7) == 94 * Pow(94, 6);
    if n < 7 { PowGrows(94, n, 6); } else { PowGrows(94, 7, n); }
  }

  /** With symbols and a length of at least the minimum, no length, class or entropy issue is raised
      for a minimum of seven or more; below seven characters the entropy is too low. */
  lemma GeneratedPasswordsPass(p: string, length: int, unambiguous: bool, u: Unicode, minLength: int, s: Subject)
    requires Generated(p, length, true, unambiguous) && CoversAscii(u) && s.password == p
    requires length >= minLength
    ensures !Raised(TooShort, u, minLength, s)
    ensures !Raised(NoUpper, u, minLength, s) && !Raised(NoLower, u, minLength, s)
    ensures !Raised(NoDigit, u, minLength, s) && !Raised(NoSpecial, u, minLength, s)
    ensures Raised(LowEntropy, u, minLength, s) <==> length < 7
  {
    GeneratedCharset(p, length, unambiguous, u);
    EnoughEntropy(|p|);
  }

  /** The issues that depend on more than length and character classes. */
  predicate ByChance(issue: Issue) {
    match issue
    case CommonPattern => true
    case LikeUsername => true
    case LikeEmail => true
    case Sequential => true
    case Repeating => true
    case _ => false
  }

  /** So the verdict on such a password of at least seven characters depends only on the pattern,
      similarity and window checks. */
  lemma GeneratedVerdict(p: string, length: int, unambiguous: bool, u: Unicode, minLength: int, s: Subject, v: Verdict)
    requires Generated(p, length, true, unambiguous) && CoversAscii(u) && s.password == p
    requires length >= minLength && length >= 7 && IsVerdict(v, u, minLength, s)
    ensures v.valid <==> forall issue :: ByChance(issue) ==> !Raised(issue, u, minLength, s)
  {
    ValidVerdicts(v, u, minLength, s);
    forall issue: Issue | !ByChance(issue) ensures !Raised(issue, u, minLength, s) {
      GeneratedPasswordsPass(p, length, unambiguous, u, minLength, s);
    }
  }

  /** Without symbols the validator rejects every generated password. */
  lemma GeneratedWithoutSymbolsIsRejected(p: string, length: int, unambiguous: bool, u: Unicode, minLength: int,
                                          s: Subject, v: Verdict)
    requires Generated(p, length, false, unambiguous) && s.password == p && IsVerdict(v, u, minLength, s)
    ensures !v.valid && NoSpecial in v.issues
  {
    assert forall i :: 0 <= i < |p| ==> p[i] in p;
    assert Raised(NoSpecial, u, minLength, s);
    VerdictListsRaised(v, u, minLength, s, NoSpecial);
    ValidVerdicts(v, u, minLength, s);
  }
}
