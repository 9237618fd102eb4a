/**
 * The field validators of the account-creation screen: phone number, date of
 * birth, image presence, non-blank field, password policy and e-mail shape.
 * Each is a total, synchronous predicate over the field's text.
 *
 * Two kinds of character test meet here. The Kotlin tests `Char.isDigit` and
 * `Char.isWhitespace` are Unicode-wide; they are kept abstract as a
 * `CharClasses` value, of which only the ASCII part is pinned down
 * (`Consistent`). The regular expressions run on java.util.regex with default
 * flags, whose `\d`, `[0-9]`, `[a-z]`, `[A-Z]`, `\S` and `.` are the ASCII and
 * line-terminator classes defined below.
 */
module Validators {
  import opened Text

  /** A picked image's content URI, as text. */
  type Uri = string

  datatype Option<+T> = None | Some(value: T)

  /** Kotlin's Unicode-wide `Char.isDigit` and `Char.isWhitespace`. */
  datatype CharClasses = CharClasses(isDigit: char -> bool, isWhitespace: char -> bool)

  predicate IsAsciiDigit(c: char) { '0' <= c <= '9' }
  predicate IsAsciiLower(c: char) { 'a' <= c <= 'z' }
  predicate IsAsciiUpper(c: char) { 'A' <= c <= 'Z' }

  /** The regex whitespace class `\s`: space, tab, LF, VT, FF, CR. */
  predicate IsRegexSpace(c: char)
  {
    c == ' ' || c == '\t' || c == '\n' || c == '\U{0B}' || c == '\U{0C}' || c == '\r'
  }

  /** The line terminators that the regex `.` does not match. */
  predicate IsLineTerminator(c: char)
  {
    c == '\n' || c == '\r' || c == '\U{85}' || c == '\U{2028}' || c == '\U{2029}'
  }

  /** The regex `.` with default flags. */
  predicate IsDot(c: char) { !IsLineTerminator(c) }

  /** The regex `\S`. */
  predicate IsNonSpace(c: char) { !IsRegexSpace(c) }

  /** The character class `[@#$%^&+!?=]` of the password pattern. */
  predicate IsPasswordSymbol(c: char) { c in "@#$%^&+!?=" }

  /** The Kotlin character tests agree with the JVM on ASCII: the digits are
      exactly '0'..'9', and the whitespace characters are exactly the regex
      `\s` characters and the four separators U+001C..U+001F. Outside ASCII
      nothing is assumed. */
  ghost predicate Consistent(k: CharClasses)
  {
    && (forall c :: c <= '\U{7F}' ==> (k.isDigit(c) <==> IsAsciiDigit(c)))
    && (forall c :: c <= '\U{7F}' ==>
          (k.isWhitespace(c) <==> IsRegexSpace(c) || '\U{1C}' <= c <= '\U{1F}'))
  }

  // ---------------------------------------------------------------------
  // Phone number, non-blank field, image presence

  /** `phoneNumber.all { it.isDigit() }` */
  predicate IsValidPhoneNumber(k: CharClasses, phoneNumber: string)
  {
    All(phoneNumber, k.isDigit)
  }

  /** `value.isNotBlank()`: not every character is whitespace (so the empty
      string is blank). */
  predicate IsValidField(k: CharClasses, value: string)
  {
    !All(value, k.isWhitespace)
  }

  /** `photoUri != null` */
  predicate IsImageSelected(photoUri: Option<Uri>)
  {
    photoUri.Some?
  }

  /** On ASCII text the phone check accepts exactly the strings of '0'..'9'. */
  lemma {:induction false} AsciiPhoneNumber(k: CharClasses, phoneNumber: string)
    requires Consistent(k)
    requires forall i :: 0 <= i < |phoneNumber| ==> phoneNumber[i] <= '\U{7F}'
    ensures IsValidPhoneNumber(k, phoneNumber) <==> All(phoneNumber, IsAsciiDigit)
    ensures IsValidPhoneNumber(k, "")
  {
    assert forall i :: 0 <= i < |phoneNumber| ==>
      (k.isDigit(phoneNumber[i]) <==> IsAsciiDigit(phoneNumber[i]));
  }

  /** On ASCII text a field is filled in exactly when it has a character
      other than the regex `\s` characters and the separators
      U+001C..U+001F; in particular the empty field is blank. */
  lemma {:induction false} AsciiFieldNonBlank(k: CharClasses, value: string)
    requires Consistent(k)
    requires forall i :: 0 <= i < |value| ==> value[i] <= '\U{7F}'
    ensures IsValidField(k, value) <==>
            exists i :: 0 <= i < |value| && !(IsRegexSpace(value[i]) || '\U{1C}' <= value[i] <= '\U{1F}')
    ensures !IsValidField(k, "")
  {
    assert forall i :: 0 <= i < |value| ==>
      (k.isWhitespace(value[i]) <==> IsRegexSpace(value[i]) || '\U{1C}' <= value[i] <= '\U{1F}');
  }

  /** Any visible ASCII character ('!'..'~') makes a field non-blank. */
  lemma {:induction false} VisibleMakesNonBlank(k: CharClasses, value: string, i: int)
    requires Consistent(k)
    requires 0 <= i < |value| && '!' <= value[i] <= '~'
    ensures IsValidField(k, value)
  {
    assert !k.isWhitespace(value[i]);
  }

  /** Spaces and tabs alone, in any number, leave a field blank. */
  lemma SpacesAndTabsBlank(k: CharClasses, value: string)
    requires Consistent(k)
    requires forall i :: 0 <= i < |value| ==> value[i] == ' ' || value[i] == '\t'
    ensures !IsValidField(k, value)
  {
  }

  // ---------------------------------------------------------------------
  // Date of birth: `date.matches("""\d{2}/\d{2}/\d{4}""".toRegex())`

  /** One position of a pattern with no alternation or variable repetition. */
  datatype Atom = Digit | Literal(c: char)

  predicate AtomMatches(a: Atom, c: char)
  {
    match a
    case Digit => IsAsciiDigit(c)
    case Literal(l) => c == l
  }

  /** `a{n}` */
  function Repeat(a: Atom, n: nat): (r: seq<Atom>)
    ensures |r| == n
    ensures forall i :: 0 <= i < n ==> r[i] == a
  {
    if n == 0 then [] else [a] + Repeat(a, n - 1)
  }

  /** The whole input matches the fixed-width pattern, atom by atom. */
  predicate FullMatch(pattern: seq<Atom>, s: string)
  {
    |s| == |pattern| && forall i :: 0 <= i < |s| ==> AtomMatches(pattern[i], s[i])
  }

  /** `\d{2}/\d{2}/\d{4}` */
  function DatePattern(): seq<Atom>
  {
    Repeat(Digit, 2) + [Literal('/')] + Repeat(Digit, 2) + [Literal('/')] + Repeat(Digit, 4)
  }

  predicate IsValidDateOfBirth(date: string)
  {
    FullMatch(DatePattern(), date)
  }

  /** The date check is a shape check only: ten characters, '/' at indices 2
      and 5, ASCII digits everywhere else. */
  lemma DateOfBirthShape(date: string)
    ensures IsValidDateOfBirth(date) <==>
            && |date| == 10
            && date[2] == '/' && date[5] == '/'
            && forall i :: 0 <= i < 10 && i != 2 && i != 5 ==> IsAsciiDigit(date[i])
  {
    var p := DatePattern();
    assert |p| == 10;
    assert forall i :: 0 <= i < 10 && i != 2 && i != 5 ==> p[i] == Digit;
    assert p[2] == Literal('/') && p[5] == Literal('/');
  }

  /** No calendar check: impossible days and months pass. */
  lemma AcceptedDateExamples()
    ensures IsValidDateOfBirth("99/99/9999")
    ensures IsValidDateOfBirth("31/02/2099")
  {
    DateOfBirthShape("99/99/9999");
    DateOfBirthShape("31/02/2099");
  }

  /** Other separators and unpadded numbers do not pass. */
  lemma RejectedDateExamples()
    ensures !IsValidDateOfBirth("1/1/2000")
    ensures !IsValidDateOfBirth("01-01-2000")
  {
    DateOfBirthShape("1/1/2000");
    DateOfBirthShape("01-01-2000");
  }

  /** A well-formed date is never blank, so leaving it out of the non-blank
      gate loses nothing. */
  lemma DateOfBirthNonBlank(k: CharClasses, date: string)
    requires Consistent(k)
    requires IsValidDateOfBirth(date)
    ensures IsValidField(k, date)
  {
    DateOfBirthShape(date);
    assert date[2] == '/' && !k.isWhitespace(date[2]);
  }

  // ---------------------------------------------------------------------
  // Password:
  // Regex("^(?=.*[0-9])(?=.*[a-z])(?=.*[A-Z])(?=.*[@#$%^&+!?=])(?=\S+$).{10,}$")
  // tested with `matches`, i.e. against the whole input.

  /** `(?=.*[cls])` at the start of `s`: a run of `.` characters followed by
      a character of `cls`. */
  predicate LookaheadDotsThen(s: string, cls: char -> bool)
  {
    exists j :: 0 <= j < |s| && cls(s[j]) && forall i :: 0 <= i < j ==> IsDot(s[i])
  }

  /** `$` without the MULTILINE flag, at index `n`: the end of input, or just
      before a final line terminator ("\r\n" counts as one). */
  predicate EndAnchor(s: string, n: int)
  {
    || n == |s|
    || (n == |s| - 2 && n >= 0 && s[n] == '\r' && s[n + 1] == '\n')
    || (n == |s| - 1 && n >= 0 && IsLineTerminator(s[n]) &&
        !(s[n] == '\n' && n > 0 && s[n - 1] == '\r'))
  }

  /** `(?=\S+$)` at the start of `s`. */
  predicate LookaheadNonSpaceToEnd(s: string)
  {
    exists n :: 1 <= n <= |s| && (forall i :: 0 <= i < n ==> IsNonSpace(s[i])) && EndAnchor(s, n)
  }

  /** The password pattern, matched against the whole input. */
  predicate IsValidPassword(password: string)
  {
    && LookaheadDotsThen(password, IsAsciiDigit)
    && LookaheadDotsThen(password, IsAsciiLower)
    && LookaheadDotsThen(password, IsAsciiUpper)
    && LookaheadDotsThen(password, IsPasswordSymbol)
    && LookaheadNonSpaceToEnd(password)
    // `.{10,}$`, anchored at both ends by `matches`
    && |password| >= 10 && All(password, IsDot)
  }

  /** The password policy in plain terms: at least ten characters, at least
      one ASCII digit, lower-case letter, upper-case letter and symbol of
      `@#$%^&+!?=`, and no ASCII whitespace or line terminator anywhere. */
  predicate MeetsPasswordPolicy(password: string)
  {
    && |password| >= 10
    && (exists i :: 0 <= i < |password| && IsAsciiDigit(password[i]))
    && (exists i :: 0 <= i < |password| && IsAsciiLower(password[i]))
    && (exists i :: 0 <= i < |password| && IsAsciiUpper(password[i]))
    && (exists i :: 0 <= i < |password| && IsPasswordSymbol(password[i]))
    && (forall i :: 0 <= i < |password| ==>
          !IsRegexSpace(password[i]) && !IsLineTerminator(password[i]))
  }

  /** When every character is a `.`, `(?=.*[cls])` holds exactly when some
      character is in `cls`. */
  lemma {:induction false} LookaheadOnDots(s: string, cls: char -> bool)
    requires All(s, IsDot)
    ensures LookaheadDotsThen(s, cls) <==> exists i :: 0 <= i < |s| && cls(s[i])
  {
    if i :| 0 <= i < |s| && cls(s[i]) {
      assert All(s[..i], IsDot);
    }
  }

  /** When no character is a line terminator, `(?=\S+$)` holds exactly when
      no character is in `\s` and the input is not empty. */
  lemma {:induction false} LookaheadNonSpaceOnDots(s: string)
    requires All(s, IsDot)
    ensures LookaheadNonSpaceToEnd(s) <==>
            |s| >= 1 && forall i :: 0 <= i < |s| ==> IsNonSpace(s[i])
  {
    if LookaheadNonSpaceToEnd(s) {
      var n :| 1 <= n <= |s| && All(s[..n], IsNonSpace) && EndAnchor(s, n);
      assert n == |s| by {
        assert n < |s| ==> IsDot(s[n]);
      }
      assert s[..n] == s;
    }
    if |s| >= 1 && forall i :: 0 <= i < |s| ==> IsNonSpace(s[i]) {
      assert s[..|s|] == s;
      assert EndAnchor(s, |s|);
    }
  }

  /** The password regex accepts exactly the passwords that meet the policy. */
  lemma PasswordPattern(password: string)
    ensures IsValidPassword(password) <==> MeetsPasswordPolicy(password)
  {
    var s := password;
    if All(s, IsDot) {
      LookaheadOnDots(s, IsAsciiDigit);
      LookaheadOnDots(s, IsAsciiLower);
      LookaheadOnDots(s, IsAsciiUpper);
      LookaheadOnDots(s, IsPasswordSymbol);
      LookaheadNonSpaceOnDots(s);
    }
  }

  /** A password that passes the policy is never blank. */
  lemma PasswordNonBlank(k: CharClasses, password: string)
    requires Consistent(k)
    requires IsValidPassword(password)
    ensures IsValidField(k, password)
  {
    PasswordPattern(password);
    var i :| 0 <= i < |password| && IsAsciiDigit(password[i]);
    assert !k.isWhitespace(password[i]);
  }

  /** Eleven characters with an upper-case letter, lower-case letters, a
      digit and a symbol, and no space. */
  lemma StrongPasswordExample()
    ensures IsValidPassword("Abcdefghi1@")
  {
    var good := "Abcdefghi1@";
    assert forall i :: 0 <= i < |good| ==> IsDot(good[i]) && IsNonSpace(good[i]);
    assert IsAsciiUpper(good[0]) && IsAsciiLower(good[1]);
    assert IsAsciiDigit(good[9]) && IsPasswordSymbol(good[10]);
    assert EndAnchor(good, |good|);
  }

  /** Ten lower-case letters are refused (no upper-case letter, digit or
      symbol); so is anything shorter than ten characters. */
  lemma WeakPasswordExamples()
    ensures !IsValidPassword("abcdefghij")
    ensures !IsValidPassword("Short1@")
  {
    var lower := "abcdefghij";
    assert forall j :: 0 <= j < |lower| ==> IsAsciiLower(lower[j]);
    assert !LookaheadDotsThen(lower, IsAsciiUpper);
  }

  /** A space anywhere is refused, even with every class present. */
  lemma SpacedPasswordExample()
    ensures !IsValidPassword("Abcdefgh 1@")
  {
    PasswordPattern("Abcdefgh 1@");
    assert IsRegexSpace(("Abcdefgh 1@")[8]);
  }

  // ---------------------------------------------------------------------
  // E-mail: `email.contains("@") && (email.contains(".com") || email.contains(".fr"))`

  predicate IsValidEmail(email: string)
  {
    Contains(email, "@") && (Contains(email, ".com") || Contains(email, ".fr"))
  }

  /** The e-mail check in terms of positions: an '@' somewhere, and ".com" or
      ".fr" starting somewhere (before, after or around the '@'). */
  lemma EmailShape(email: string)
    ensures IsValidEmail(email) <==>
            && '@' in email
            && exists i :: OccursAt(email, ".com", i) || OccursAt(email, ".fr", i)
  {
    ContainsChar(email, '@');
  }

  /** The check is loose: text may be added on either side of a valid
      address and it stays valid. */
  lemma EmailInContext(x: string, email: string, y: string)
    requires IsValidEmail(email)
    ensures IsValidEmail(x + email + y)
  {
    ContainsInContext(x, email, y, "@");
    if Contains(email, ".com") {
      ContainsInContext(x, email, y, ".com");
    } else {
      ContainsInContext(x, email, y, ".fr");
    }
  }

  /** ".com" or ".fr" may sit anywhere, even before the '@'. */
  lemma AcceptedEmailExamples()
    ensures IsValidEmail("a@b.com")
    ensures IsValidEmail("a@b.fr.evil")
    ensures IsValidEmail(".fr@x")
  {
    assert OccursAt("a@b.com", "@", 1) && OccursAt("a@b.com", ".com", 3);
    assert OccursAt("a@b.fr.evil", "@", 1) && OccursAt("a@b.fr.evil", ".fr", 3);
    assert OccursAt(".fr@x", "@", 3) && OccursAt(".fr@x", ".fr", 0);
  }

  /** No '@', or neither ".com" nor ".fr". */
  lemma RejectedEmailExamples()
    ensures !IsValidEmail("a.com")
    ensures !IsValidEmail("a@b.xyz")
  {
    ContainsChar("a.com", '@');
    ContainedCharAppears("a@b.xyz", ".com", 1);
    ContainedCharAppears("a@b.xyz", ".fr", 1);
  }

  /** A well-formed e-mail address is never blank. */
  lemma EmailNonBlank(k: CharClasses, email: string)
    requires Consistent(k)
    requires IsValidEmail(email)
    ensures IsValidField(k, email)
  {
    ContainsChar(email, '@');
    var i :| 0 <= i < |email| && email[i] == '@';
    assert !k.isWhitespace(email[i]);
  }
}
