/** `UserProfileValidator` (Util/UserProfileValidator.swift): the profile form
    check. Both patterns are `.{2,}`, matched against the whole string, with
    `.` matching anything but a line terminator. */
module UserProfileValidator {
  import opened Text

  /** `isValidName`. */
  function IsValidName(name: string): bool {
    MatchesAnyAtLeast(name, 2)
  }

  /** `isValidNickname`. */
  function IsValidNickname(nickname: string): bool {
    MatchesAnyAtLeast(nickname, 2)
  }

  /** `validate`: an empty field fails the guard, and otherwise both patterns
      must match. */
  function Validate(name: string, nickname: string): (r: bool)
    ensures r <==>
      && |name| >= 2 && (forall i :: 0 <= i < |name| ==> !IsLineTerminator(name[i]))
      && |nickname| >= 2 && (forall i :: 0 <= i < |nickname| ==> !IsLineTerminator(nickname[i]))
    ensures |name| == 1 || |nickname| == 1 ==> !r
  {
    if name == [] || nickname == [] then false
    else IsValidName(name) && IsValidNickname(nickname)
  }

  /** Two characters suffice, but not across a line break. */
  lemma LineBreakRejected()
    ensures Validate("ab", "cd")
    ensures !Validate("a\nb", "cd") && !Validate("ab", "c\U{2028}d")
  {
    assert IsLineTerminator("a\nb"[1]);
    assert IsLineTerminator("c\U{2028}d"[1]);
  }
}
