/** The profile page's password strength rule,
      /^(?=.*[A-Za-z])(?=.*\d)(?=.*[^A-Za-z0-9]).{6,10}$/
    tested with `RegExp.prototype.test` (no flags). It is modelled twice:
    `RegexTest` follows the pattern construct by construct, as a regular
    expression engine matches it at position 0, and `IsStrong` states the
    policy directly (length 6 to 10, one ASCII letter, one ASCII digit, one
    other character, no line terminator). `RegexTestIsStrong` proves that the
    two agree on every string. */
module PasswordPolicy {

  const MinLength := 6
  const MaxLength := 10

  /** The characters JavaScript's `.` does not match (without the `s` flag). */
  predicate IsLineTerminator(c: char) {
    c == '\n' || c == '\r' || c == '\U{2028}' || c == '\U{2029}'
  }

  predicate IsAsciiLetter(c: char) {
    'A' <= c <= 'Z' || 'a' <= c <= 'z'
  }

  /** `\d` without the `u` flag: the ASCII digits only. */
  predicate IsAsciiDigit(c: char) {
    '0' <= c <= '9'
  }

  /** The three character classes the lookaheads ask for. */
  datatype CharClass = Letter | Digit | NonAlphanumeric

  predicate InClass(c: char, k: CharClass) {
    match k
    case Letter => IsAsciiLetter(c)
    case Digit => IsAsciiDigit(c)
    case NonAlphanumeric => !IsAsciiLetter(c) && !IsAsciiDigit(c)
  }

  // ---------------------------------------------------------------------
  // The pattern, construct by construct

  /** `(?=.*K)` tried at the start of `s`: after some run of characters that
      `.` matches, a character of class `k` follows. */
  predicate LookaheadFinds(s: string, k: CharClass)
    decreases |s|
  {
    |s| > 0 && (InClass(s[0], k) || (!IsLineTerminator(s[0]) && LookaheadFinds(s[1..], k)))
  }

  /** `.{lo,hi}$` tried at the start of `s`: between `lo` and `hi`
      characters that `.` matches, then the end of the input. */
  predicate DotsThenEnd(s: string, lo: int, hi: int)
    decreases |s|
  {
    if |s| == 0 then lo <= 0
    else 0 < hi && !IsLineTerminator(s[0]) && DotsThenEnd(s[1..], lo - 1, hi - 1)
  }

  /** `passwordRegex.test(s)`: `^` pins the only possible match to position
      0, where the three lookaheads and the bounded repetition must all
      succeed. */
  predicate RegexTest(s: string) {
    && LookaheadFinds(s, Letter)
    && LookaheadFinds(s, Digit)
    && LookaheadFinds(s, NonAlphanumeric)
    && DotsThenEnd(s, MinLength, MaxLength)
  }

  // ---------------------------------------------------------------------
  // The policy, stated directly

  predicate Contains(s: string, k: CharClass) {
    exists i :: 0 <= i < |s| && InClass(s[i], k)
  }

  predicate SingleLine(s: string) {
    forall i :: 0 <= i < |s| ==> !IsLineTerminator(s[i])
  }

  predicate IsStrong(s: string) {
    && MinLength <= |s| <= MaxLength
    && SingleLine(s)
    && Contains(s, Letter)
    && Contains(s, Digit)
    && Contains(s, NonAlphanumeric)
  }

  // ---------------------------------------------------------------------
  // The pattern and the policy agree

  /** A lookahead that succeeds has seen a character of its class. */
  lemma {:induction false} LookaheadFindsContains(s: string, k: CharClass)
    ensures LookaheadFinds(s, k) ==> Contains(s, k)
    decreases |s|
  {
    if |s| > 0 && !InClass(s[0], k) && LookaheadFinds(s, k) {
      LookaheadFindsContains(s[1..], k);
      var i :| 0 <= i < |s[1..]| && InClass(s[1..][i], k);
      assert InClass(s[i + 1], k);
    }
  }

  /** On a single line, a lookahead finds every class the string contains. */
  lemma {:induction false} ContainsLookaheadFinds(s: string, k: CharClass)
    requires SingleLine(s) && Contains(s, k)
    ensures LookaheadFinds(s, k)
    decreases |s|
  {
    var i :| 0 <= i < |s| && InClass(s[i], k);
    if !InClass(s[0], k) {
      assert InClass(s[1..][i - 1], k);
      assert !IsLineTerminator(s[0]);
      ContainsLookaheadFinds(s[1..], k);
    }
  }

  /** `.{lo,hi}$` matches exactly the single-line strings of length
      `lo` to `hi`. */
  lemma {:induction false} DotsThenEndExactly(s: string, lo: int, hi: int)
    requires 0 <= hi
    ensures DotsThenEnd(s, lo, hi) <==> lo <= |s| <= hi && SingleLine(s)
    decreases |s|
  {
    if |s| > 0 && 0 < hi {
      DotsThenEndExactly(s[1..], lo - 1, hi - 1);
      assert SingleLine(s) <==> !IsLineTerminator(s[0]) && SingleLine(s[1..]) by {
        if !IsLineTerminator(s[0]) && SingleLine(s[1..]) {
          forall i | 0 <= i < |s| ensures !IsLineTerminator(s[i]) {
            if i > 0 { assert s[i] == s[1..][i - 1]; }
          }
        }
      }
    }
  }

  /** The regular expression accepts exactly the strong passwords. */
  lemma RegexTestIsStrong(s: string)
    ensures RegexTest(s) <==> IsStrong(s)
  {
    DotsThenEndExactly(s, MinLength, MaxLength);
    LookaheadFindsContains(s, Letter);
    LookaheadFindsContains(s, Digit);
    LookaheadFindsContains(s, NonAlphanumeric);
    if IsStrong(s) {
      ContainsLookaheadFinds(s, Letter);
      ContainsLookaheadFinds(s, Digit);
      ContainsLookaheadFinds(s, NonAlphanumeric);
    }
  }

  // ---------------------------------------------------------------------
  // What the rule rejects and accepts

  /** Five characters or fewer, or eleven or more: rejected, whatever they are. */
  lemma LengthOutOfRangeRejected(s: string)
    requires |s| < MinLength || MaxLength < |s|
    ensures !RegexTest(s)
  {
    DotsThenEndExactly(s, MinLength, MaxLength);
  }

  /** A string lacking a letter, a digit or a non-alphanumeric character
      is rejected. */
  lemma MissingClassRejected(s: string, k: CharClass)
    requires !Contains(s, k)
    ensures !RegexTest(s)
  {
    LookaheadFindsContains(s, k);
  }

  /** A line terminator anywhere is rejected, since `.` cannot consume it. */
  lemma LineTerminatorRejected(s: string, i: int)
    requires 0 <= i < |s| && IsLineTerminator(s[i])
    ensures !RegexTest(s)
  {
    DotsThenEndExactly(s, MinLength, MaxLength);
  }

  /** Six to ten characters on one line with all three classes: accepted. */
  lemma AllClassesAccepted(s: string, letter: int, digit: int, other: int)
    requires MinLength <= |s| <= MaxLength && SingleLine(s)
    requires 0 <= letter < |s| && IsAsciiLetter(s[letter])
    requires 0 <= digit < |s| && IsAsciiDigit(s[digit])
    requires 0 <= other < |s| && !IsAsciiLetter(s[other]) && !IsAsciiDigit(s[other])
    ensures RegexTest(s)
  {
    assert InClass(s[letter], Letter) && InClass(s[digit], Digit) && InClass(s[other], NonAlphanumeric);
    RegexTestIsStrong(s);
  }

  /** Worked cases: five characters, seven with all classes, twelve. */
  lemma Examples()
    ensures !RegexTest("abc12")
    ensures RegexTest("abcd12!")
    ensures RegexTest("Abc12!")
    ensures !RegexTest("abcdefghij1!")
  {
  }
}
