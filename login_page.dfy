/** The sign-in page's form: the required-field check, the call into the session, the
    navigation after it, and the per-field error flags and the button. */
module LoginPage {
  import opened JsValues
  import opened Forms
  import opened AuthContext

  /** The form's own state (`useState` hooks). */
  datatype LoginState = LoginState(email: string, password: string, submitted: bool)

  /** What a submit leaves: the form, the session, the request the session sent, and the
      path navigated to (`None` when the page stays). */
  datatype SubmitEffect = SubmitEffect(
    form: LoginState, session: Session, sent: Option<Request>, navigatedTo: Option<string>)

  const Blank := LoginState("", "", false)

  /** The only check: both fields are filled. */
  predicate Filled(f: LoginState)
  {
    f.email != "" && f.password != ""
  }

  /** `handleSubmit`: mark the form submitted; with both fields filled call `login`, and
      go home only if it resolves (a rejection is swallowed). */
  function Submitted(f: LoginState, s: Session, outcome: Outcome): SubmitEffect
  {
    var marked := f.(submitted := true);
    if !Filled(f) then
      SubmitEffect(marked, s, None, None)
    else
      var e := LoginResult(s, f.email, f.password, outcome);
      SubmitEffect(marked, e.next, e.request,
                   if e.completion.Resolved? then Some(HomePath) else None)
  }

  /** The fields' `error` and `helperText`, the alert, and the button. */
  datatype LoginView = LoginView(
    email: FieldView, password: FieldView, errorAlert: Option<string>, submitDisabled: bool)

  function View(f: LoginState, s: Session): LoginView
  {
    LoginView(
      RequiredField(f.submitted, f.email, "Email is required"),
      RequiredField(f.submitted, f.password, "Password is required"),
      if Truthy(s.error) then s.error else None,
      s.loading)
  }

  class LoginForm {
    var email: string
    var password: string
    var submitted: bool

    function State(): LoginState
      reads this
    {
      LoginState(email, password, submitted)
    }

    constructor ()
      ensures State() == Blank
    {
      email, password := "", "";
      submitted := false;
    }

    method HandleSubmit(auth: AuthProvider, outcome: Outcome)
      returns (sent: Option<Request>, navigatedTo: Option<string>)
      modifies this, auth
      ensures SubmitEffect(State(), auth.State(), sent, navigatedTo)
              == Submitted(old(State()), old(auth.State()), outcome)
    {
      submitted := true;
      sent, navigatedTo := None, None;

      if email == "" || password == "" {
        return;
      }

      var completion;
      sent, completion := auth.Login(email, password, outcome);
      if completion.Resolved? {
        navigatedTo := Some(HomePath);
      }
    }
  }

  // ---- Properties of a submit and of the view ----

  /** `login` is reached exactly when both fields are filled; the submit always marks the
      form submitted and leaves what was typed. */
  lemma LoginCalledOnlyWhenFilled(f: LoginState, s: Session, outcome: Outcome)
    ensures var e := Submitted(f, s, outcome);
      && (e.sent.Some? <==> Filled(f))
      && (!Filled(f) ==> e.session == s && e.navigatedTo == None)
      && e.form == f.(submitted := true)
  {
  }

  /** The page goes home only after `login` resolves; a rejection is swallowed and the
      page stays, with the session's message. */
  lemma NavigatesOnlyAfterSuccess(f: LoginState, s: Session, outcome: Outcome)
    ensures var e := Submitted(f, s, outcome);
      && (e.navigatedTo.Some? <==> Filled(f) && outcome.Ok?)
      && (e.navigatedTo.Some? ==> e.navigatedTo.value == HomePath && e.session.user == Some(outcome.data))
      && (Filled(f) && outcome.Err? ==> e.session.error.Some? && e.session.user == s.user)
  {
  }

  /** A field's flag and its helper text show exactly when the form was submitted with it
      empty, and the button is disabled exactly while the session is loading. */
  lemma FieldFlags(f: LoginState, s: Session)
    ensures var v := View(f, s);
      && (v.email.error <==> f.submitted && f.email == "")
      && (v.email.helperText != "" <==> f.submitted && f.email == "")
      && (v.password.error <==> f.submitted && f.password == "")
      && (v.password.helperText != "" <==> f.submitted && f.password == "")
      && (v.submitDisabled <==> s.loading)
  {
  }

  /** After a blocked submit at least one field is flagged. */
  lemma BlockedSubmitIsExplained(f: LoginState, s: Session, outcome: Outcome)
    ensures var e := Submitted(f, s, outcome); var v := View(e.form, e.session);
      e.sent == None ==> v.email.error || v.password.error
  {
  }

  /** While `login` is outstanding the page stays mounted (it is not guarded), its button
      is disabled, and the previous attempt's message is gone. */
  lemma ButtonDisabledWhileSigningIn(f: LoginState, s: Session, outcome: Outcome)
    requires Filled(f)
    ensures var p := InFlight(s, Login(f.email, f.password, outcome));
      && p.Some?
      && View(f.(submitted := true), p.value).submitDisabled
      && View(f.(submitted := true), p.value).errorAlert == None
  {
  }
}
