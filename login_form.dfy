/**
 * The sign-in form: two fields, an error text per field that editing the
 * field clears, the required-field check that runs before any request, and
 * the greeting shown after a successful sign-in.
 */
module LoginForm {
  import opened Wrappers
  import opened ProfileTypes

  datatype LoginField = EmailField | PasswordField

  /** The error text shown under each field, if any. */
  datatype LoginErrors = LoginErrors(email: Option<string>, password: Option<string>)

  /** What the sign-in request sends. */
  datatype Credentials = Credentials(email: string, password: string)

  const EmailRequired := "Email is required"
  const PasswordRequired := "Password is required"

  /** The success message: the user's name when it is non-empty, else no name at all. */
  function WelcomeBack(fullName: Option<string>): (g: string)
    ensures fullName.Some? && fullName.value != "" ==> g == "Welcome back, " + fullName.value + "!"
    ensures fullName.None? || fullName.value == "" ==> g == "Welcome back!"
  {
    "Welcome back" + (if fullName.Some? && fullName.value != "" then ", " + fullName.value else "") + "!"
  }

  class LoginForm {
    var email: string
    var password: string
    var errors: LoginErrors

    /** An error is shown only for an empty field, and only with its own message. */
    ghost predicate Valid()
      reads this
    {
      (errors.email.Some? ==> email == "" && errors.email.value == EmailRequired)
      && (errors.password.Some? ==> password == "" && errors.password.value == PasswordRequired)
    }

    constructor ()
      ensures Valid() && email == "" && password == "" && errors == LoginErrors(None, None)
    {
      email, password := "", "";
      errors := LoginErrors(None, None);
    }

    /** Typing into a field: that field takes the text and loses its error; the other keeps both. */
    method Change(field: LoginField, text: string)
      requires Valid()
      modifies this
      ensures Valid()
      ensures field == EmailField ==>
        email == text && password == old(password) && errors == old(errors).(email := None)
      ensures field == PasswordField ==>
        password == text && email == old(email) && errors == old(errors).(password := None)
    {
      if field == EmailField {
        email := text;
        errors := errors.(email := None);
      } else {
        password := text;
        errors := errors.(password := None);
      }
    }

    /** The required-field check: an error for each empty field, and only for those. */
    method Validate() returns (next: LoginErrors)
      ensures next.email.Some? <==> email == ""
      ensures next.password.Some? <==> password == ""
      ensures next.email.Some? ==> next.email.value == EmailRequired
      ensures next.password.Some? ==> next.password.value == PasswordRequired
    {
      next := LoginErrors(None, None);
      if email == "" {
        next := next.(email := Some(EmailRequired));
      }
      if password == "" {
        next := next.(password := Some(PasswordRequired));
      }
    }

    /**
     * Submitting: with an empty field the errors are stored and no request is
     * made; otherwise the credentials are sent and, when the server accepts
     * them (`reply`), the greeting is produced. The fields never change.
     */
    method Submit(reply: Option<User>) returns (request: Option<Credentials>, greeting: Option<string>)
      requires Valid()
      modifies this
      ensures Valid()
      ensures email == old(email) && password == old(password)
      ensures (old(email) == "" || old(password) == "") ==>
        request.None? && greeting.None?
        && errors.email.Some? == (old(email) == "") && errors.password.Some? == (old(password) == "")
      ensures old(email) != "" && old(password) != "" ==>
        request == Some(Credentials(email, password)) && errors == old(errors)
        && greeting == (if reply.Some? then Some(WelcomeBack(reply.value.fullName)) else None)
    {
      var next := Validate();
      if next.email.Some? || next.password.Some? {
        errors := next;
        return None, None;
      }
      request := Some(Credentials(email, password));
      greeting := if reply.Some? then Some(WelcomeBack(reply.value.fullName)) else None;
    }
  }
}
