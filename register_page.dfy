/** The registration page's form: the required-field, match and length checks, the call
    into the session, the navigation after it, and the per-field error flags. */
module RegisterPage {
  import opened JsValues
  import opened Forms
  import opened AuthContext

  /** Which check stops a submit, in the order the form runs them. */
  datatype Check = Incomplete | Mismatch | TooShort | Accepted

  /** The checks of `handleSubmit`: any empty field stops the submit silently, then a
      mismatch, then a short password; only a form passing all three reaches `register`. */
  function RegisterCheck(name: string, email: string, password: string, confirm: string)
    : (c: Check)
    ensures c == Incomplete <==> name == "" || email == "" || password == "" || confirm == ""
    ensures c == Mismatch
            <==> name != "" && email != "" && password != "" && confirm != "" && password != confirm
    ensures c == TooShort
            <==> name != "" && email != "" && password != "" && confirm != ""
                 && password == confirm && |password| < MinPasswordLength
    ensures c == Accepted
            <==> name != "" && email != "" && password != "" && confirm != ""
                 && password == confirm && |password| >= MinPasswordLength
  {
    if name == "" || email == "" || password == "" || confirm == "" then Incomplete
    else if password != confirm then Mismatch
    else if |password| < MinPasswordLength then TooShort
    else Accepted
  }

  /** The password message a check leaves: none for a missing field. */
  function CheckMessage(c: Check): string
  {
    match c
    case Mismatch => MismatchMessage
    case TooShort => TooShortMessage
    case _ => ""
  }

  /** The form's own state (`useState` hooks). */
  datatype RegisterState = RegisterState(
    name: string,
    email: string,
    password: string,
    confirmPassword: string,
    submitted: bool,
    passwordError: string)

  /** What a submit leaves: the form, the session, the request the session sent, and the
      path navigated to (`None` when the page stays). */
  datatype SubmitEffect = SubmitEffect(
    form: RegisterState, session: Session, sent: Option<Request>, navigatedTo: Option<string>)

  const Blank := RegisterState("", "", "", "", false, "")

  /** `handleSubmit`: mark the form submitted, clear the password message, run the
      checks; a form that passes them calls `register` and goes home only if it resolves. */
  function Submitted(f: RegisterState, s: Session, outcome: Outcome): SubmitEffect
  {
    var c := RegisterCheck(f.name, f.email, f.password, f.confirmPassword);
    var marked := f.(submitted := true, passwordError := CheckMessage(c));
    if c != Accepted then
      SubmitEffect(marked, s, None, None)
    else
      var e := RegisterResult(s, f.name, f.email, f.password, outcome);
      SubmitEffect(marked, e.next, e.request,
                   if e.completion.Resolved? then Some(HomePath) else None)
  }

  /** The fields' `error` and `helperText`, the two alerts, and the button. */
  datatype RegisterView = RegisterView(
    name: FieldView,
    email: FieldView,
    password: FieldView,
    confirm: FieldView,
    errorAlert: Option<string>,
    passwordAlert: Option<string>,
    submitDisabled: bool)

  function View(f: RegisterState, s: Session): RegisterView
  {
    RegisterView(
      RequiredField(f.submitted, f.name, "Name is required"),
      RequiredField(f.submitted, f.email, "Email is required"),
      RequiredField(f.submitted, f.password, "Password is required"),
      RequiredField(f.submitted, f.confirmPassword, "Please confirm your password"),
      if Truthy(s.error) then s.error else None,
      if f.passwordError != "" then Some(f.passwordError) else None,
      s.loading)
  }

  class RegisterForm {
    var name: string
    var email: string
    var password: string
    var confirmPassword: string
    var submitted: bool
    var passwordError: string

    function State(): RegisterState
      reads this
    {
      RegisterState(name, email, password, confirmPassword, submitted, passwordError)
    }

    constructor ()
      ensures State() == Blank
    {
      name, email, password, confirmPassword := "", "", "", "";
      submitted := false;
      passwordError := "";
    }

    method HandleSubmit(auth: AuthProvider, outcome: Outcome)
      returns (sent: Option<Request>, navigatedTo: Option<string>)
      modifies this, auth
      ensures SubmitEffect(State(), auth.State(), sent, navigatedTo)
              == Submitted(old(State()), old(auth.State()), outcome)
    {
      submitted := true;
      passwordError := "";
      sent, navigatedTo := None, None;

      if name == "" || email == "" || password == "" || confirmPassword == "" {
        return;
      }
      if password != confirmPassword {
        passwordError := MismatchMessage;
        return;
      }
      if |password| < MinPasswordLength {
        passwordError := TooShortMessage;
        return;
      }

      var completion;
      sent, completion := auth.Register(name, email, password, outcome);
      if completion.Resolved? {
        navigatedTo := Some(HomePath);
      }
    }
  }

  // ---- Properties of a submit ----

  /** `register` is reached exactly when the four fields are filled, the passwords match
      and are long enough; the submit always marks the form submitted and never edits
      what was typed. */
  lemma RegisterCalledOnlyWhenValid(f: RegisterState, s: Session, outcome: Outcome)
    ensures var e := Submitted(f, s, outcome);
      && (e.sent.Some? <==> RegisterCheck(f.name, f.email, f.password, f.confirmPassword) == Accepted)
      && e.form.submitted
      && e.form.(submitted := f.submitted, passwordError := f.passwordError) == f
  {
  }

  /** A submit stopped for an empty field calls nothing and shows no password message;
      a stopped submit leaves the session as it was. */
  lemma IncompleteFormIsSilent(f: RegisterState, s: Session, outcome: Outcome)
    requires RegisterCheck(f.name, f.email, f.password, f.confirmPassword) != Accepted
    ensures var e := Submitted(f, s, outcome);
      && e.session == s && e.sent == None && e.navigatedTo == None
      && (RegisterCheck(f.name, f.email, f.password, f.confirmPassword) == Incomplete
          ==> e.form.passwordError == "")
  {
  }

  /** The page goes home only after `register` resolves; a rejected registration stays
      on the page with the session's message. */
  lemma NavigatesOnlyAfterSuccess(f: RegisterState, s: Session, outcome: Outcome)
    ensures var e := Submitted(f, s, outcome);
      && (e.navigatedTo.Some? <==> e.sent.Some? && outcome.Ok?)
      && (e.navigatedTo.Some? ==> e.navigatedTo.value == HomePath && e.session.user == Some(outcome.data))
      && (e.sent.Some? && outcome.Err? ==> e.session.error.Some? && e.session.user == s.user)
  {
  }

  /** After a blocked submit the user always sees why: a flagged field (for a missing
      value) or the password alert (for a mismatch or a short password). */
  lemma BlockedSubmitIsExplained(f: RegisterState, s: Session, outcome: Outcome)
    ensures var e := Submitted(f, s, outcome); var v := View(e.form, e.session);
      e.sent == None ==>
        v.name.error || v.email.error || v.password.error || v.confirm.error || v.passwordAlert.Some?
  {
  }

  /** Each field is flagged exactly when the form has been submitted and it is empty. */
  lemma FieldFlags(f: RegisterState, s: Session)
    ensures var v := View(f, s);
      && (v.name.error <==> f.submitted && f.name == "")
      && (v.email.error <==> f.submitted && f.email == "")
      && (v.password.error <==> f.submitted && f.password == "")
      && (v.confirm.error <==> f.submitted && f.confirmPassword == "")
      && (v.submitDisabled <==> s.loading)
  {
  }

  /** While `register` is outstanding the page stays mounted (it is not guarded), its
      button is disabled, and the previous attempt's message is gone. */
  lemma ButtonDisabledWhileRegistering(f: RegisterState, s: Session, outcome: Outcome)
    requires RegisterCheck(f.name, f.email, f.password, f.confirmPassword) == Accepted
    ensures var p := InFlight(s, Register(f.name, f.email, f.password, outcome));
      && p.Some?
      && View(f.(submitted := true, passwordError := ""), p.value).submitDisabled
      && View(f.(submitted := true, passwordError := ""), p.value).errorAlert == None
  {
  }
}
