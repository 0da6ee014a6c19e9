/** `SignInValidator` (Util/SignInValidator.swift): the sign-in form check.
    Each regular expression is matched against the whole string, as
    `NSPredicate`'s `MATCHES` does, and is restated here as a predicate on
    characters. */
module SignInValidator {
  import opened Wrappers
  import opened Text

  predicate IsAsciiLetter(c: char) {
    ('a' <= c <= 'z') || ('A' <= c <= 'Z')
  }

  predicate AllAsciiLetters(s: string) {
    forall i :: 0 <= i < |s| ==> IsAsciiLetter(s[i])
  }

  /** The first position of `ch` in `s`. */
  function IndexOf(s: string, ch: char): (r: Option<nat>)
    ensures r.None? <==> ch !in s
    ensures r.Some? ==> r.value < |s| && s[r.value] == ch && ch !in s[..r.value]
  {
    if s == [] then None
    else if s[0] == ch then Some(0)
    else
      var rest := IndexOf(s[1..], ch);
      assert s == [s[0]] + s[1..];
      if rest.None? then None
      else
        assert s[..rest.value + 1] == [s[0]] + s[1..][..rest.value];
        Some(rest.value + 1)
  }

  /** The last position of `ch` in `s`. */
  function LastIndexOf(s: string, ch: char): (r: Option<nat>)
    ensures r.None? <==> ch !in s
    ensures r.Some? ==> r.value < |s| && s[r.value] == ch && ch !in s[r.value + 1..]
  {
    if s == [] then None
    else if s[|s| - 1] == ch then Some(|s| - 1)
    else
      var rest := LastIndexOf(s[..|s| - 1], ch);
      assert s == s[..|s| - 1] + [s[|s| - 1]];
      if rest.None? then None
      else
        assert s[rest.value + 1..] == s[..|s| - 1][rest.value + 1..] + [s[|s| - 1]];
        rest
  }

  /** One way to cut `s` along the pattern `[^@]+@[^@]+\.[a-zA-Z]{2,}`. */
  predicate Cuts(s: string, a: string, b: string, c: string) {
    && s == a + "@" + b + "." + c
    && |a| >= 1 && '@' !in a
    && |b| >= 1 && '@' !in b
    && |c| >= 2 && AllAsciiLetters(c)
  }

  /** The pattern, matched against the whole string. */
  ghost predicate MatchesEmailPattern(s: string) {
    exists a: string, b: string, c: string :: Cuts(s, a, b, c)
  }

  /** `isValidEmail`: exactly one `@`, with text before it, and after it a
      non-empty run, a dot and a final run of at least two ASCII letters. */
  function IsValidEmail(s: string): (r: bool)
    ensures r ==> '@' in s && '.' in s
    ensures r ==> var dot := LastIndexOf(s, '.').value;
      |s| - (dot + 1) >= 2 && AllAsciiLetters(s[dot + 1..])
  {
    var at, dot := IndexOf(s, '@'), LastIndexOf(s, '.');
    && at.Some? && dot.Some?
    && 1 <= at.value && at.value + 2 <= dot.value
    && '@' !in s[at.value + 1..]
    && |s| - (dot.value + 1) >= 2 && AllAsciiLetters(s[dot.value + 1..])
  }

  /** The character test agrees with the pattern, in both directions. */
  lemma IsValidEmailIffPattern(s: string)
    ensures IsValidEmail(s) <==> MatchesEmailPattern(s)
  {
    if IsValidEmail(s) {
      ValidEmailCuts(s);
    }
    if MatchesEmailPattern(s) {
      var a: string, b: string, c: string :| Cuts(s, a, b, c);
      PatternPositions(s, a, b, c);
    }
  }

  /** An accepted email cuts at its first '@' and its last '.' into the
      pattern's three parts. */
  lemma ValidEmailCuts(s: string)
    requires IsValidEmail(s)
    ensures MatchesEmailPattern(s)
  {
    var at, dot := IndexOf(s, '@').value, LastIndexOf(s, '.').value;
    CutsAt(s, at, dot);
  }

  /** The three parts between a '@' with none before or after it and a
      later '.' followed by letters only. */
  lemma CutsAt(s: string, at: nat, dot: nat)
    requires 1 <= at && at + 2 <= dot < |s| && s[at] == '@' && s[dot] == '.'
    requires '@' !in s[..at] && '@' !in s[at + 1..]
    requires |s| - (dot + 1) >= 2 && AllAsciiLetters(s[dot + 1..])
    ensures Cuts(s, s[..at], s[at + 1..dot], s[dot + 1..])
  {
    var a, b, c := s[..at], s[at + 1..dot], s[dot + 1..];
    var tail := s[at + 1..];
    assert tail == b + "." + c by {
      assert tail == tail[..dot - at - 1] + [tail[dot - at - 1]] + tail[dot - at..];
    }
    assert s == a + "@" + tail by {
      assert s == s[..at] + [s[at]] + s[at + 1..];
    }
    assert '@' !in b by {
      forall i | 0 <= i < |b| ensures b[i] != '@' {
        assert b[i] == tail[i];
      }
    }
  }

  /** Any cut along the pattern puts the first '@' after `a` and the last
      '.' after `b`, so the character test accepts it. */
  lemma PatternPositions(s: string, a: string, b: string, c: string)
    requires Cuts(s, a, b, c)
    ensures IsValidEmail(s)
  {
    CutPieces(s, a, b, c);
    LettersOnly(c);
    IndexOfIs(s, '@', |a|);
    LastIndexOfIs(s, '.', |a| + 1 + |b|);
  }

  /** The pieces of `a + "@" + b + "." + c`, by position. */
  lemma CutPieces(s: string, a: string, b: string, c: string)
    requires s == a + "@" + b + "." + c
    ensures s[..|a|] == a && s[|a|] == '@'
    ensures s[|a| + 1..] == b + "." + c
    ensures s[|a| + 1 + |b|] == '.' && s[|a| + 1 + |b| + 1..] == c
  {
    assert s == a + ("@" + (b + ("." + c)));
  }

  /** A run of letters holds neither separator. */
  lemma LettersOnly(c: string)
    requires AllAsciiLetters(c)
    ensures '.' !in c && '@' !in c
  {
    assert forall i | 0 <= i < |c| :: IsAsciiLetter(c[i]);
  }

  lemma IndexOfIs(s: string, ch: char, k: nat)
    requires k < |s| && s[k] == ch && ch !in s[..k]
    ensures IndexOf(s, ch) == Some(k)
  {
  }

  lemma LastIndexOfIs(s: string, ch: char, k: nat)
    requires k < |s| && s[k] == ch && ch !in s[k + 1..]
    ensures LastIndexOf(s, ch) == Some(k)
  {
  }

  /** `isValidPassword`: the pattern `.{6,}`, at least six characters on one
      line. (Its comment asks for eight with several character classes; the
      pattern does not.) */
  function IsValidPassword(p: string): bool {
    MatchesAnyAtLeast(p, 6)
  }

  /** `validate`. */
  function Validate(email: string, password: string): (r: bool)
    ensures email == [] || password == [] ==> !r
  {
    if email == [] || password == [] then false
    else IsValidEmail(email) && IsValidPassword(password)
  }

  /** The emptiness guard adds nothing: the verdict is the two field checks. */
  lemma ValidateIsFieldChecks(email: string, password: string)
    ensures Validate(email, password) <==>
      && MatchesEmailPattern(email)
      && |password| >= 6 && (forall i :: 0 <= i < |password| ==> !IsLineTerminator(password[i]))
  {
    IsValidEmailIffPattern(email);
  }

  /** Six characters make a password, but not across a line break. */
  lemma PasswordLineBreakRejected()
    ensures Validate("a@b.co", "abcdef")
    ensures !Validate("a@b.co", "abc\ndef")
  {
    PatternPositions("a@b.co", "a", "b", "co");
    assert IsLineTerminator("abc\ndef"[3]);
  }

  /** The sign-up view's `isFormValid`: both fields filled and the password
      typed twice alike. */
  function SignUpFormValid(email: string, password: string, confirmPassword: string): (r: bool)
    ensures r <==> password == confirmPassword && |email| > 0 && |confirmPassword| > 0
  {
    email != [] && password != [] && password == confirmPassword
  }
}
