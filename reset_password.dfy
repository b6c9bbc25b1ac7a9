/** The password reset page (src/app/reset-password/page.tsx): the submit
    handler's checks and state updates. The auth service's `updateUser` is not
    part of this model; its answer is an input. */
module ResetPassword {
  import opened Common
  import opened Passwords

  const UpdatedMessage := "Password updated successfully! Redirecting to dashboard..."

  class ResetPasswordForm {
    var password: string
    var confirmPassword: string
    var error: string
    var message: string
    var isLoading: bool

    constructor()
      ensures password == "" && confirmPassword == "" && error == "" && message == "" && !isLoading
    {
      password, confirmPassword := "", "";
      error, message := "", "";
      isLoading := false;
    }

    /** The inputs' `onChange` handlers. */
    method EditFields(newPassword: string, newConfirm: string)
      modifies this
      ensures password == newPassword && confirmPassword == newConfirm
      ensures error == old(error) && message == old(message) && isLoading == old(isLoading)
    {
      password, confirmPassword := newPassword, newConfirm;
    }

    /** `handleSubmit`, given the error message `updateUser` answers with, if
        any. The checks run before `isLoading` is set, so a rejected entry
        leaves it as it was; the service is called only when both pass. Returns
        whether it was called. */
    method Submit(updateError: Option<string>) returns (called: bool)
      modifies this
      ensures called <==> PasswordProblem(password, confirmPassword).None?
      ensures !called ==>
        error == PasswordProblem(password, confirmPassword).value && message == "" && isLoading == old(isLoading)
      ensures called && updateError.Some? ==> error == updateError.value && message == "" && !isLoading
      ensures called && updateError.None? ==> error == "" && message == UpdatedMessage && isLoading
      ensures password == old(password) && confirmPassword == old(confirmPassword)
    {
      error := "";
      message := "";
      if password != confirmPassword {
        error := MismatchMessage;
        return false;
      }
      if Utf16Length(password) < MinPasswordLength {
        error := TooShortMessage;
        return false;
      }
      isLoading := true;
      called := true;
      if updateError.Some? {
        error := updateError.value;
        isLoading := false;
      } else {
        message := UpdatedMessage;
      }
    }
  }
}
