/**
 * The form template's validation: the name and email errors the form shows, set by a submit
 * or by leaving a field, and dropped when the user edits a field that shows one.
 */
module HelloForm {
  import opened Wrappers
  import opened Text

  const NameRequired := "Name is required"
  const EmailRequired := "Email is required"
  const InvalidEmail := "Invalid email format"

  datatype Field = NameField | EmailField

  /** handleSubmit's checks, in order: the first that fails, with its field and message. */
  function SubmitError(name: string, email: string): (e: Option<(Field, string)>)
    ensures e.None? <==> name != "" && email != "" && '@' in email
    ensures e.Some? && e.value.0 == NameField <==> name == ""
    ensures e.Some? && e.value.0 == NameField ==> e.value.1 == NameRequired
    ensures e.Some? && e.value.1 == InvalidEmail <==> name != "" && email != "" && '@' !in email
  {
    if name == "" then Some((NameField, NameRequired))
    else if email == "" then Some((EmailField, EmailRequired))
    else if '@' !in email then Some((EmailField, InvalidEmail))
    else None
  }

  /** The name field's onBlur: an error only for an empty value; an absent one counts as filled. */
  function NameBlurError(value: Option<string>): (e: Option<string>)
    ensures e.Some? <==> value == Some("")
    ensures e.Some? ==> e.value == NameRequired
  {
    if value.Some? && value.value == "" then Some(NameRequired) else None
  }

  /** The email field's onBlur: required when empty, invalid when it lacks "@". */
  function EmailBlurError(value: Option<string>): (e: Option<string>)
    ensures e == Some(EmailRequired) <==> value == Some("")
    ensures e == Some(InvalidEmail) <==> value.Some? && value.value != "" && '@' !in value.value
    ensures e.None? <==> value.None? || (value.value != "" && '@' in value.value)
  {
    if value.Some? && value.value == "" then Some(EmailRequired)
    else if value.Some? && '@' !in value.value then Some(InvalidEmail)
    else None
  }

  /** With a name filled in, leaving the email field judges it exactly as a submit would. */
  lemma BlurAgreesWithSubmit(name: string, email: string)
    requires name != ""
    ensures EmailBlurError(Some(email)).None? <==> SubmitError(name, email).None?
    ensures SubmitError(name, email).Some?
            ==> SubmitError(name, email).value == (EmailField, EmailBlurError(Some(email)).value)
  {
  }

  /** The form's two error slots. */
  class FormState {
    var nameError: Option<string>
    var emailError: Option<string>

    /** Every error shown is one of the form's messages. */
    predicate Valid()
      reads this
    {
      && (nameError.None? || nameError.value == NameRequired)
      && (emailError.None? || emailError.value == EmailRequired || emailError.value == InvalidEmail)
    }

    constructor()
      ensures nameError.None? && emailError.None?
      ensures Valid()
    {
      nameError := None;
      emailError := None;
    }

    /** dropNameErrorIfNeeded: clears the name error only when a non-empty one is shown. */
    method DropNameErrorIfNeeded()
      requires Valid()
      modifies this
      ensures Valid()
      ensures old(nameError).Some? && old(nameError).value != "" ==> nameError.None?
      ensures old(nameError).None? || old(nameError).value == "" ==> nameError == old(nameError)
      ensures emailError == old(emailError)
    {
      if nameError.Some? && |nameError.value| > 0 {
        nameError := None;
      }
    }

    /** dropEmailErrorIfNeeded: the same for the email error. */
    method DropEmailErrorIfNeeded()
      requires Valid()
      modifies this
      ensures Valid()
      ensures old(emailError).Some? && old(emailError).value != "" ==> emailError.None?
      ensures old(emailError).None? || old(emailError).value == "" ==> emailError == old(emailError)
      ensures nameError == old(nameError)
    {
      if emailError.Some? && |emailError.value| > 0 {
        emailError := None;
      }
    }

    /**
     * handleSubmit: a failing check sets its field's error and stops, leaving the other error
     * as it was; a passing submit changes no error.
     */
    method HandleSubmit(name: string, email: string) returns (submitted: bool)
      requires Valid()
      modifies this
      ensures Valid()
      ensures submitted <==> SubmitError(name, email).None?
      ensures submitted ==> nameError == old(nameError) && emailError == old(emailError)
      ensures var e := SubmitError(name, email);
              e.Some? && e.value.0 == NameField ==> nameError == Some(e.value.1) && emailError == old(emailError)
      ensures var e := SubmitError(name, email);
              e.Some? && e.value.0 == EmailField ==> emailError == Some(e.value.1) && nameError == old(nameError)
    {
      if |name| == 0 {
        nameError := Some(NameRequired);
        return false;
      }
      if |email| == 0 {
        emailError := Some(EmailRequired);
        return false;
      }
      if '@' !in email {
        emailError := Some(InvalidEmail);
        return false;
      }
      return true;
    }

    /** The name field's onBlur: an empty value sets the error, any other value drops it. */
    method NameBlur(value: Option<string>)
      requires Valid()
      modifies this
      ensures Valid()
      ensures NameBlurError(value).Some? ==> nameError == NameBlurError(value)
      ensures NameBlurError(value).None? ==> nameError.None?
      ensures emailError == old(emailError)
    {
      if value.Some? && |value.value| == 0 {
        nameError := Some(NameRequired);
      } else {
        DropNameErrorIfNeeded();
      }
    }

    /** The email field's onBlur: required, invalid, or the error dropped. */
    method EmailBlur(value: Option<string>)
      requires Valid()
      modifies this
      ensures Valid()
      ensures EmailBlurError(value).Some? ==> emailError == EmailBlurError(value)
      ensures EmailBlurError(value).None? ==> emailError.None?
      ensures nameError == old(nameError)
    {
      if value.Some? && |value.value| == 0 {
        emailError := Some(EmailRequired);
      } else if value.Some? && '@' !in value.value {
        emailError := Some(InvalidEmail);
      } else {
        DropEmailErrorIfNeeded();
      }
    }
  }
}
