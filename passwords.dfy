/** The password rules shared by the sign-up form (src/app/login/page.tsx) and
    the reset form (src/app/reset-password/page.tsx): the two entries must be
    equal, and the password must be at least six UTF-16 code units long
    (`password.length`). The equality check comes first. */
module Passwords {
  import opened Common

  const MismatchMessage := "Passwords do not match"
  const TooShortMessage := "Password must be at least 6 characters"
  const MinPasswordLength := 6

  /** The width of one character in UTF-16: two code units above U+FFFF. */
  function Utf16Width(c: char): nat {
    if c as int >= 0x1_0000 then 2 else 1
  }

  /** JavaScript's `length` of a string: its number of UTF-16 code units. */
  function Utf16Length(s: string): nat {
    if s == [] then 0 else Utf16Width(s[0]) + Utf16Length(s[1..])
  }

  /** The JavaScript length lies between the number of characters and twice it. */
  lemma {:induction false} Utf16LengthBounds(s: string)
    ensures |s| <= Utf16Length(s) <= 2 * |s|
    ensures (forall i :: 0 <= i < |s| ==> s[i] as int < 0x1_0000) ==> Utf16Length(s) == |s|
  {
    if s != [] {
      Utf16LengthBounds(s[1..]);
      assert forall i :: 1 <= i < |s| ==> s[i] == s[1..][i - 1];
    }
  }

  /** The message the form shows before any call, or none when both checks pass. */
  function PasswordProblem(password: string, confirmPassword: string): (p: Option<string>)
    ensures p == None <==> password == confirmPassword && Utf16Length(password) >= MinPasswordLength
    ensures password != confirmPassword ==> p == Some(MismatchMessage)
    ensures password == confirmPassword && Utf16Length(password) < MinPasswordLength ==> p == Some(TooShortMessage)
  {
    if password != confirmPassword then Some(MismatchMessage)
    else if Utf16Length(password) < MinPasswordLength then Some(TooShortMessage)
    else None
  }

  /** Six characters always satisfy the length rule, and fewer than three never do. */
  lemma LengthRuleInCharacters(password: string)
    ensures |password| >= 6 ==> Utf16Length(password) >= MinPasswordLength
    ensures |password| < 3 ==> Utf16Length(password) < MinPasswordLength
  {
    Utf16LengthBounds(password);
  }
}
