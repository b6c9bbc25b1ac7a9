/** The sign-in / sign-up page (src/app/login/page.tsx): the email form's
    handler with its sign-up checks, the mode toggle and the social-login
    error. The auth service is not part of this model; its answers are inputs. */
module Login {
  import opened Common
  import opened Passwords

  datatype AuthMode = SignIn | SignUp

  datatype SocialProvider = Google | Apple | Twitter | Discord

  /** The call the email form makes to the auth service, if any. */
  datatype AuthCall = NoAuthCall | SignUpCall(email: string, password: string) | SignInCall(email: string, password: string)

  const ConfirmEmailMessage := "Check your email to confirm your account!"

  /** The fixed `providerNames` map. */
  function ProviderName(p: SocialProvider): string {
    match p
    case Google => "Google"
    case Apple => "Apple"
    case Twitter => "X"
    case Discord => "Discord"
  }

  /** The message shown when a provider's sign-in fails. */
  function SocialLoginError(p: SocialProvider): (m: string)
    ensures ProviderName(p) <= m
    ensures m[|ProviderName(p)|..] == " login is not available yet. Please use email and password."
    ensures p == Twitter ==> m[..1] == "X"
  {
    ProviderName(p) + " login is not available yet. Please use email and password."
  }

  /** Each provider gets its own message (the provider names start with distinct letters). */
  lemma SocialLoginErrorsDistinct(p: SocialProvider, q: SocialProvider)
    ensures p != q ==> SocialLoginError(p) != SocialLoginError(q)
  {
    if p != q {
      var mp, mq := SocialLoginError(p), SocialLoginError(q);
      assert mp[0] != mq[0];
    }
  }

  class LoginForm {
    var email: string
    var password: string
    var confirmPassword: string
    var error: string
    var message: string
    var isLoading: bool
    var mode: AuthMode

    /** The `error` query parameter, if any, is the initial error. */
    constructor(urlError: Option<string>)
      ensures error == urlError.GetOr("") && message == ""
      ensures email == "" && password == "" && confirmPassword == ""
      ensures !isLoading && mode == SignIn
    {
      email, password, confirmPassword := "", "", "";
      error := urlError.GetOr("");
      message := "";
      isLoading := false;
      mode := SignIn;
    }

    /** The inputs' `onChange` handlers. */
    method EditFields(newEmail: string, newPassword: string, newConfirm: string)
      modifies this
      ensures email == newEmail && password == newPassword && confirmPassword == newConfirm
      ensures error == old(error) && message == old(message) && isLoading == old(isLoading) && mode == old(mode)
    {
      email, password, confirmPassword := newEmail, newPassword, newConfirm;
    }

    /** `handleEmailAuth`, given the auth service's error message (if it
        answers with one). Sign-up first checks the passwords, mismatch before
        length, and calls the service only when both pass; sign-in calls it
        straight away. A successful sign-in leaves the page loading while it
        navigates away. */
    method HandleEmailAuth(serviceError: Option<string>) returns (call: AuthCall)
      modifies this
      ensures mode == SignUp && PasswordProblem(password, confirmPassword).Some? ==>
        call == NoAuthCall && error == PasswordProblem(password, confirmPassword).value &&
        message == "" && !isLoading
      ensures mode == SignUp && PasswordProblem(password, confirmPassword).None? ==>
        call == SignUpCall(email, password) && !isLoading &&
        (serviceError.Some? ==> error == serviceError.value && message == "") &&
        (serviceError.None? ==> error == "" && message == ConfirmEmailMessage)
      ensures mode == SignIn ==>
        call == SignInCall(email, password) && message == "" &&
        (serviceError.Some? ==> error == serviceError.value && !isLoading) &&
        (serviceError.None? ==> error == "" && isLoading)
      ensures email == old(email) && password == old(password)
      ensures confirmPassword == old(confirmPassword) && mode == old(mode)
    {
      error := "";
      message := "";
      isLoading := true;
      if mode == SignUp {
        if password != confirmPassword {
          error := MismatchMessage;
          isLoading := false;
          return NoAuthCall;
        }
        if Utf16Length(password) < MinPasswordLength {
          error := TooShortMessage;
          isLoading := false;
          return NoAuthCall;
        }
        call := SignUpCall(email, password);
        if serviceError.Some? {
          error := serviceError.value;
          isLoading := false;
        } else {
          message := ConfirmEmailMessage;
          isLoading := false;
        }
      } else {
        call := SignInCall(email, password);
        if serviceError.Some? {
          error := serviceError.value;
          isLoading := false;
        }
      }
    }

    /** `handleSocialLogin`: a failure names the provider; on success the page
        stays loading while the browser leaves for the provider. */
    method HandleSocialLogin(provider: SocialProvider, failed: bool)
      modifies this
      ensures failed ==> error == SocialLoginError(provider) && !isLoading
      ensures !failed ==> error == "" && isLoading
      ensures message == ""
      ensures email == old(email) && password == old(password)
      ensures confirmPassword == old(confirmPassword) && mode == old(mode)
    {
      error := "";
      message := "";
      isLoading := true;
      if failed {
        error := SocialLoginError(provider);
        isLoading := false;
      }
    }

    /** `toggleMode`: flips between sign-in and sign-up and clears the error,
        the message and the confirmation entry; email and password stay. */
    method ToggleMode()
      modifies this
      ensures mode == (if old(mode) == SignIn then SignUp else SignIn)
      ensures mode != old(mode)
      ensures error == "" && message == "" && confirmPassword == ""
      ensures email == old(email) && password == old(password) && isLoading == old(isLoading)
    {
      mode := if mode == SignIn then SignUp else SignIn;
      error := "";
      message := "";
      confirmPassword := "";
    }
  }
}
