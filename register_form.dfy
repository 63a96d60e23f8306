/**
 * The registration form: three fields, an error text per field that editing
 * the field clears, the required-field check that runs before any request,
 * and the greeting shown once the account exists.
 */
module RegisterForm {
  import opened Wrappers
  import opened ProfileTypes

  datatype RegisterField = NameField | EmailField | PasswordField

  /** The error text shown under each field, if any. */
  datatype RegisterErrors = RegisterErrors(fullName: Option<string>, email: Option<string>, password: Option<string>)

  /** What the registration request sends. */
  datatype Registration = Registration(fullName: string, email: string, password: string)

  const NameRequired := "Name is required"
  const EmailRequired := "Email is required"
  const PasswordRequired := "Password is required"

  /** The success message names the user, or gives their email when the name is empty. */
  function WelcomeAboard(user: User): (g: string)
    ensures user.fullName.Some? && user.fullName.value != "" ==> g == "Welcome aboard, " + user.fullName.value + "!"
    ensures user.fullName.None? || user.fullName.value == "" ==> g == "Welcome aboard, " + user.email + "!"
  {
    var who := if user.fullName.Some? && user.fullName.value != "" then user.fullName.value else user.email;
    "Welcome aboard, " + who + "!"
  }

  class RegisterForm {
    var fullName: string
    var email: string
    var password: string
    var errors: RegisterErrors

    /** An error is shown only for an empty field, and only with its own message. */
    ghost predicate Valid()
      reads this
    {
      (errors.fullName.Some? ==> fullName == "" && errors.fullName.value == NameRequired)
      && (errors.email.Some? ==> email == "" && errors.email.value == EmailRequired)
      && (errors.password.Some? ==> password == "" && errors.password.value == PasswordRequired)
    }

    constructor ()
      ensures Valid() && fullName == "" && email == "" && password == ""
      ensures errors == RegisterErrors(None, None, None)
    {
      fullName, email, password := "", "", "";
      errors := RegisterErrors(None, None, None);
    }

    /** Typing into a field: that field takes the text and loses its error; the others keep both. */
    method Change(field: RegisterField, text: string)
      requires Valid()
      modifies this
      ensures Valid()
      ensures field == NameField ==>
        fullName == text && email == old(email) && password == old(password)
        && errors == old(errors).(fullName := None)
      ensures field == EmailField ==>
        email == text && fullName == old(fullName) && password == old(password)
        && errors == old(errors).(email := None)
      ensures field == PasswordField ==>
        password == text && fullName == old(fullName) && email == old(email)
        && errors == old(errors).(password := None)
    {
      match field
      case NameField =>
        fullName := text;
        errors := errors.(fullName := None);
      case EmailField =>
        email := text;
        errors := errors.(email := None);
      case PasswordField =>
        password := text;
        errors := errors.(password := None);
    }

    /** The required-field check: an error for each empty field, and only for those. */
    method Validate() returns (next: RegisterErrors)
      ensures next.fullName.Some? <==> fullName == ""
      ensures next.email.Some? <==> email == ""
      ensures next.password.Some? <==> password == ""
      ensures next.fullName.Some? ==> next.fullName.value == NameRequired
      ensures next.email.Some? ==> next.email.value == EmailRequired
      ensures next.password.Some? ==> next.password.value == PasswordRequired
    {
      next := RegisterErrors(None, None, None);
      if fullName == "" {
        next := next.(fullName := Some(NameRequired));
      }
      if email == "" {
        next := next.(email := Some(EmailRequired));
      }
      if password == "" {
        next := next.(password := Some(PasswordRequired));
      }
    }

    /**
     * Submitting: with an empty field the errors are stored and no request is
     * made; otherwise the form is sent and, when the account is created
     * (`reply`), the greeting is produced. The fields never change.
     */
    method Submit(reply: Option<User>) returns (request: Option<Registration>, greeting: Option<string>)
      requires Valid()
      modifies this
      ensures Valid()
      ensures fullName == old(fullName) && email == old(email) && password == old(password)
      ensures (old(fullName) == "" || old(email) == "" || old(password) == "") ==>
        request.None? && greeting.None?
        && errors.fullName.Some? == (old(fullName) == "")
        && errors.email.Some? == (old(email) == "")
        && errors.password.Some? == (old(password) == "")
      ensures old(fullName) != "" && old(email) != "" && old(password) != "" ==>
        request == Some(Registration(fullName, email, password)) && errors == old(errors)
        && greeting == (if reply.Some? then Some(WelcomeAboard(reply.value)) else None)
    {
      var next := Validate();
      if next.fullName.Some? || next.email.Some? || next.password.Some? {
        errors := next;
        return None, None;
      }
      request := Some(Registration(fullName, email, password));
      greeting := if reply.Some? then Some(WelcomeAboard(reply.value)) else None;
    }
  }
}
