/** The sign-up page (front/src/pages/SignUp.jsx): the form's fields, the
    checks run before anything is sent, and what a submission does to the
    session and to the page. Toast pop-ups are represented by the error
    text the page reports. */
module SignUp {
  import opened Common
  import opened Domain
  import opened FrontAuth
  import AuthRoutes

  datatype Form = Form(name: string, email: string, password: string, confirmPassword: string, role: string)

  const EmptyForm := Form("", "", "", "", "ranger")

  const MissingField := "Please fill in all fields"
  const ShortPassword := "Password must be at least 6 characters"
  const Mismatch := "Passwords do not match"
  const MinPasswordLength := 6

  /** The first failing check, in the order: an empty field, a short
      password (by `.length`, in UTF-16 code units), a confirmation that
      differs; `None` when all pass. */
  function FormError(f: Form): (r: Option<string>)
    ensures r == Some(MissingField) <==> f.name == "" || f.email == "" || f.password == "" || f.confirmPassword == ""
    ensures r == Some(ShortPassword) <==>
      f.name != "" && f.email != "" && f.password != "" && f.confirmPassword != "" && Utf16Length(f.password) < MinPasswordLength
    ensures r == Some(Mismatch) <==>
      f.name != "" && f.email != "" && f.confirmPassword != "" && Utf16Length(f.password) >= MinPasswordLength
      && f.password != f.confirmPassword
    ensures r.None? <==>
      f.name != "" && f.email != "" && Utf16Length(f.password) >= MinPasswordLength && f.password == f.confirmPassword
  {
    if f.name == "" || f.email == "" || f.password == "" || f.confirmPassword == "" then Some(MissingField)
    else if Utf16Length(f.password) < MinPasswordLength then Some(ShortPassword)
    else if f.password != f.confirmPassword then Some(Mismatch)
    else None
  }

  /** The request body `register` sends. */
  function RequestBody(f: Form): AuthRoutes.RegisterBody {
    AuthRoutes.RegisterBody(Some(f.name), Some(f.email), Some(f.password), Some(f.role))
  }

  /** A form the page lets through meets the server's password rule; the
      server still decides on the name's length, the e-mail's syntax and the
      role. */
  lemma PageChecksAgainstServer(f: Form, isEmail: string -> bool)
    requires FormError(f).None?
    ensures AuthRoutes.RegisterBodyOk(RequestBody(f), isEmail) <==>
      Utf16Length(f.name) >= 2 && isEmail(f.email) && ParseRole(f.role).Some?
  {
  }

  /** A one-letter name passes the page's checks and is refused by the
      server. */
  lemma OneLetterNamePassesOnlyThePage(isEmail: string -> bool)
    ensures FormError(Form("A", "a@b.io", "secret", "secret", "ranger")).None?
    ensures !AuthRoutes.RegisterBodyOk(RequestBody(Form("A", "a@b.io", "secret", "secret", "ranger")), isEmail)
  {
  }

  class SignUpPage {
    var form: Form
    var loading: bool
    /** Where the page sent the browser, once it has. */
    var navigatedTo: Option<string>
    var shownError: Option<string>

    constructor ()
      ensures form == EmptyForm && form.role == "ranger"
      ensures !loading && navigatedTo.None? && shownError.None?
    {
      form := EmptyForm;
      loading := false;
      navigatedTo := None;
      shownError := None;
    }

    /** Typing into a field replaces the form with one field changed. */
    method Edit(f: Form)
      modifies this
      ensures form == f && loading == old(loading) && navigatedTo == old(navigatedTo)
      ensures shownError == old(shownError)
    {
      form := f;
    }

    /** `handleSubmit`. A failing check shows its message and `register` is
        not called. Otherwise `register` is called with the four fields; on
        success the page goes to the dashboard, on failure it stays; either
        way loading ends. */
    method Submit(auth: AuthSession, reply: AuthReply, encode: FrontUser -> string)
      requires auth.Valid()
      modifies this, auth
      ensures auth.Valid() && form == old(form)
      ensures FormError(old(form)).Some? ==>
        && shownError == FormError(old(form))
        && navigatedTo == old(navigatedTo) && loading == old(loading)
        && auth.user == old(auth.user) && auth.storage == old(auth.storage)
      ensures FormError(old(form)).None? ==>
        && !loading
        && (reply.Granted? ==>
              navigatedTo == Some("/dashboard")
              && auth.user == Some(reply.user)
              && auth.storage == Stored(old(auth.storage), reply.accessToken, reply.refreshToken, encode(reply.user)))
        && (reply.Refused? ==>
              navigatedTo == old(navigatedTo)
              && auth.user == old(auth.user) && auth.storage == old(auth.storage)
              && shownError == Some(ErrorText(reply.message, "Registration failed")))
    {
      var problem := FormError(form);
      if problem.Some? {
        shownError := problem;
        return;
      }
      loading := true;
      var outcome := auth.Register(reply, encode);
      if outcome.success {
        navigatedTo := Some("/dashboard");
      } else {
        // The session's own toast reports the failure.
        shownError := outcome.error;
      }
      loading := false;
    }
  }
}
