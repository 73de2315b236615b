/** The profile page's form: the password checks, the "changed fields only" payload, and
    what a submit or a cancel does to the form's own state and to the session. */
module ProfilePage {
  import opened JsValues
  import opened Forms
  import opened AuthContext
  import AppRoutes

  const UpdatedMessage := "Profile updated successfully"
  const NoChangesMessage := "No changes detected"

  /** The password checks, in the order the form runs them: a mismatch is reported before
      a short password, and an empty password (keep the current one) passes both. */
  function PasswordProblem(password: string, confirm: string): (problem: Option<string>)
    ensures problem == Some(MismatchMessage) <==> password != "" && password != confirm
    ensures problem == Some(TooShortMessage)
            <==> password != "" && password == confirm && |password| < MinPasswordLength
    ensures problem == None
            <==> password == "" || (password == confirm && |password| >= MinPasswordLength)
  {
    if password != "" && password != confirm then Some(MismatchMessage)
    else if password != "" && |password| < MinPasswordLength then Some(TooShortMessage)
    else None
  }

  /** The update payload: the name and the email when they differ from the signed-in
      user's (or there is no user), and the password when one was typed. */
  function ChangedFields(user: Option<Record>, name: string, email: string, password: string)
    : (data: Record)
    ensures "name" in data <==> Field(user, "name") != Some(name)
    ensures "email" in data <==> Field(user, "email") != Some(email)
    ensures "password" in data <==> password != ""
    ensures "name" in data ==> data["name"] == name
    ensures "email" in data ==> data["email"] == email
    ensures "password" in data ==> data["password"] == password
    ensures data.Keys <= {"name", "email", "password"}
  {
    var withName := if Field(user, "name") != Some(name) then map["name" := name] else map[];
    var withEmail := if Field(user, "email") != Some(email) then withName["email" := email] else withName;
    if password != "" then withEmail["password" := password] else withEmail
  }

  /** The payload is empty exactly when name and email are the user's and no password was
      typed; only then does the form report that nothing changed. */
  lemma NoChangesExactly(user: Option<Record>, name: string, email: string, password: string)
    ensures ChangedFields(user, name, email, password) == map[]
            <==> Field(user, "name") == Some(name) && Field(user, "email") == Some(email)
                 && password == ""
  {
  }

  /** The form's own state (`useState` hooks). */
  datatype ProfileState = ProfileState(
    name: string,
    email: string,
    password: string,
    confirmPassword: string,
    isEditing: bool,
    successMessage: string,
    passwordError: string)

  /** What a submit leaves: the form, the session, the payload handed to `updateProfile`
      (`None` when it is not called) and the request the session sent. */
  datatype SubmitEffect = SubmitEffect(
    form: ProfileState, session: Session, payload: Option<Record>, sent: Option<Request>)

  /** The state when the page mounts, from the user held at that moment. */
  function Mounted(user: Option<Record>): ProfileState
  {
    ProfileState(Or(Field(user, "name"), ""), Or(Field(user, "email"), ""), "", "", false, "", "")
  }

  /** The Cancel button: back to the user's values with no password and no password
      message, out of editing; the success notice is not touched. */
  function Cancelled(f: ProfileState, user: Option<Record>): ProfileState
  {
    f.(isEditing := false, name := Or(Field(user, "name"), ""), email := Or(Field(user, "email"), ""),
       password := "", confirmPassword := "", passwordError := "")
  }

  /** `handleSubmit`: clear both messages; stop at a password problem; stop with a notice
      when nothing changed; otherwise hand the changed fields to `updateProfile`, and on
      success leave editing with the password fields cleared. */
  function Submitted(f: ProfileState, s: Session, outcome: Outcome): SubmitEffect
  {
    var cleared := f.(successMessage := "", passwordError := "");
    var problem := PasswordProblem(f.password, f.confirmPassword);
    if problem.Some? then
      SubmitEffect(cleared.(passwordError := problem.value), s, None, None)
    else
      var data := ChangedFields(s.user, f.name, f.email, f.password);
      if data == map[] then
        SubmitEffect(cleared.(successMessage := NoChangesMessage), s, None, None)
      else
        var e := ProfileUpdateResult(s, data, outcome);
        if e.completion.Resolved? then
          SubmitEffect(cleared.(successMessage := UpdatedMessage, password := "",
                                confirmPassword := "", isEditing := false),
                       e.next, Some(data), e.request)
        else
          SubmitEffect(cleared, e.next, Some(data), e.request)
  }

  /** The form on screen once a submit has settled. `during` is what `/profile` shows while
      the submit's request is outstanding: unless that is still the page, the form the
      handler was called on is unmounted, its later writes are lost, and a fresh form
      mounts from the user the store then holds. */
  function PageAfter(f: ProfileState, s: Session, outcome: Outcome, during: AppRoutes.Screen)
    : ProfileState
  {
    var e := Submitted(f, s, outcome);
    if e.sent.Some? && during != AppRoutes.Show(AppRoutes.Page.Profile) then Mounted(e.session.user)
    else e.form
  }

  /** The page after a submit as the app renders it: `/profile` behind `ProtectedRoute`,
      with the store loading (and the user unchanged) while the request is outstanding. */
  function Rendered(f: ProfileState, s: Session, outcome: Outcome): (page: ProfileState)
    ensures Submitted(f, s, outcome).sent.Some? ==> page == Mounted(Submitted(f, s, outcome).session.user)
    ensures Submitted(f, s, outcome).sent.None? ==> page == Submitted(f, s, outcome).form
  {
    PageAfter(f, s, outcome, AppRoutes.Guard(true, s.user, AppRoutes.Page.Profile))
  }

  /** The page after a submit behind `AppRoutes.SettledGuard`: the form survives its own
      request, so what the handler wrote is what is shown. */
  function RenderedSettled(f: ProfileState, s: Session, outcome: Outcome): (page: ProfileState)
    ensures page == Submitted(f, s, outcome).form
  {
    PageAfter(f, s, outcome, AppRoutes.SettledGuard(true, s.user, AppRoutes.Page.Profile))
  }

  class ProfileForm {
    var name: string
    var email: string
    var password: string
    var confirmPassword: string
    var isEditing: bool
    var successMessage: string
    var passwordError: string

    function State(): ProfileState
      reads this
    {
      ProfileState(name, email, password, confirmPassword, isEditing, successMessage, passwordError)
    }

    constructor (user: Option<Record>)
      ensures State() == Mounted(user)
    {
      name := Or(Field(user, "name"), "");
      email := Or(Field(user, "email"), "");
      password := "";
      confirmPassword := "";
      isEditing := false;
      successMessage := "";
      passwordError := "";
    }

    /** The "Edit Profile" button. */
    method Edit()
      modifies this
      ensures State() == old(State()).(isEditing := true)
    {
      isEditing := true;
    }

    method Cancel(auth: AuthProvider)
      modifies this
      ensures State() == Cancelled(old(State()), auth.user)
    {
      isEditing := false;
      name := Or(Field(auth.user, "name"), "");
      email := Or(Field(auth.user, "email"), "");
      password := "";
      confirmPassword := "";
      passwordError := "";
    }

    method HandleSubmit(auth: AuthProvider, outcome: Outcome)
      returns (payload: Option<Record>, sent: Option<Request>)
      modifies this, auth
      ensures SubmitEffect(State(), auth.State(), payload, sent)
              == Submitted(old(State()), old(auth.State()), outcome)
    {
      successMessage := "";
      passwordError := "";
      payload, sent := None, None;

      if password != "" && password != confirmPassword {
        passwordError := MismatchMessage;
        return;
      }
      if password != "" && |password| < MinPasswordLength {
        passwordError := TooShortMessage;
        return;
      }

      var updateData: Record := map[];
      if Field(auth.user, "name") != Some(name) {
        updateData := updateData["name" := name];
      }
      if Field(auth.user, "email") != Some(email) {
        updateData := updateData["email" := email];
      }
      if password != "" {
        updateData := updateData["password" := password];
      }

      if updateData != map[] {
        var completion;
        payload := Some(updateData);
        sent, completion := auth.UpdateProfile(updateData, outcome);
        if completion.Resolved? {
          successMessage := UpdatedMessage;
          password := "";
          confirmPassword := "";
          isEditing := false;
        }
      } else {
        successMessage := NoChangesMessage;
      }
    }
  }

  /** The `/profile` route and the form it currently has mounted. */
  class ProfileRoute {
    var form: ProfileForm

    constructor (auth: AuthProvider)
      ensures form.State() == Mounted(auth.user)
    {
      form := new ProfileForm(auth.user);
    }

    /** A submit on the mounted form. When it sends a request, `ProtectedRoute` shows the
        placeholder while the store is loading, which unmounts the form; when loading
        ends, a new form mounts from the store's user. */
    method Submit(auth: AuthProvider, outcome: Outcome)
      returns (payload: Option<Record>, sent: Option<Request>)
      modifies this, form, auth
      ensures form.State() == Rendered(old(form.State()), old(auth.State()), outcome)
      ensures var e := Submitted(old(form.State()), old(auth.State()), outcome);
        auth.State() == e.session && payload == e.payload && sent == e.sent
    {
      payload, sent := form.HandleSubmit(auth, outcome);
      if sent.Some? {
        form := new ProfileForm(auth.user);
      }
    }
  }

  // ---- Properties of a submit ----

  /** Both messages are cleared first: what a submit leaves does not depend on them. */
  lemma SubmitClearsMessagesFirst(f: ProfileState, s: Session, outcome: Outcome)
    ensures Submitted(f, s, outcome) == Submitted(f.(successMessage := "", passwordError := ""), s, outcome)
  {
  }

  /** A password problem is shown and stops the submit: `updateProfile` is not called and
      the rest of the form is untouched. */
  lemma PasswordProblemStopsSubmit(f: ProfileState, s: Session, outcome: Outcome)
    requires PasswordProblem(f.password, f.confirmPassword).Some?
    ensures var e := Submitted(f, s, outcome);
      && e.form == f.(successMessage := "",
                      passwordError := PasswordProblem(f.password, f.confirmPassword).value)
      && e.session == s && e.payload == None && e.sent == None
  {
  }

  /** With valid passwords, the update is attempted exactly when something changed, and
      then with exactly the changed fields. */
  lemma UpdateCalledOnChangesOnly(f: ProfileState, s: Session, outcome: Outcome)
    requires PasswordProblem(f.password, f.confirmPassword).None?
    ensures var e := Submitted(f, s, outcome);
      && (e.payload.Some? <==> ChangedFields(s.user, f.name, f.email, f.password) != map[])
      && (e.payload.Some? ==> e.payload.value == ChangedFields(s.user, f.name, f.email, f.password))
  {
  }

  /** Nothing changed: the notice is shown, the session is not called, and the form stays
      in editing with the passwords as typed. */
  lemma NoChangesNotice(f: ProfileState, s: Session, outcome: Outcome)
    requires PasswordProblem(f.password, f.confirmPassword).None?
    requires s.user.Some? && Get(s.user.value, "name") == Some(f.name)
    requires Get(s.user.value, "email") == Some(f.email) && f.password == ""
    ensures var e := Submitted(f, s, outcome);
      && e.form == f.(successMessage := NoChangesMessage, passwordError := "")
      && e.session == s && e.payload == None && e.sent == None
  {
  }

  /** A saved change: on the form it was called on, the handler writes the success notice,
      clears both passwords and leaves editing, and the session holds the merged user. That
      form was unmounted while the request was outstanding: the page shown is a fresh form
      from the merged user, without the notice. */
  lemma SavedChangeLeavesEditing(f: ProfileState, s: Session, data: Record)
    requires PasswordProblem(f.password, f.confirmPassword).None?
    requires ChangedFields(s.user, f.name, f.email, f.password) != map[]
    requires HasCredential(s)
    ensures var e := Submitted(f, s, Ok(data));
      && e.form == f.(successMessage := UpdatedMessage, passwordError := "", password := "",
                      confirmPassword := "", isEditing := false)
      && e.session.user == Some(s.user.value + data)
      && e.sent.Some? && e.sent.value.body == e.payload.value
      && Rendered(f, s, Ok(data)) == Mounted(Some(s.user.value + data))
      && Rendered(f, s, Ok(data)).successMessage == ""
  {
  }

  /** A rejected change: on the form it was called on, the handler leaves editing on and
      the passwords as typed; the session keeps its user and carries the error. The page
      shown, though, is a fresh form from that user: out of editing, with the typed name,
      email and passwords discarded. */
  lemma FailedChangeDiscardsEdits(f: ProfileState, s: Session, message: Option<string>)
    requires PasswordProblem(f.password, f.confirmPassword).None?
    requires ChangedFields(s.user, f.name, f.email, f.password) != map[]
    requires HasCredential(s)
    ensures var e := Submitted(f, s, Err(message));
      && e.form == f.(successMessage := "", passwordError := "")
      && e.session.user == s.user && e.session.stored == s.stored
      && e.session.error.Some? && e.payload.Some?
      && Rendered(f, s, Err(message)) == Mounted(s.user)
      && !Rendered(f, s, Err(message)).isEditing && Rendered(f, s, Err(message)).password == ""
  {
  }

  /** The success notice is never shown: a user named "Ann" with a token changes the name to
      "Bea"; the handler writes "Profile updated successfully", but the page shown is a
      fresh form, out of editing, with no notice. */
  lemma SaveNoticeIsLost()
    ensures var user := map["name" := "Ann", "email" := "ann@example.com", "token" := "t"];
      var s := Session(Some(user), false, None, Some(user), None);
      var f := ProfileState("Bea", "ann@example.com", "", "", true, "", "");
      var outcome := Ok(map["name" := "Bea"]);
      && Submitted(f, s, outcome).form.successMessage == UpdatedMessage
      && Rendered(f, s, outcome).successMessage == ""
      && Rendered(f, s, outcome).name == "Bea"
      && !Rendered(f, s, outcome).isEditing
  {
  }

  /** Behind `AppRoutes.SettledGuard` the form survives its request: a saved change shows
      the success notice, out of editing with both passwords cleared; a rejected one stays
      in editing with everything as typed. */
  lemma SettledGuardShowsSaveNotice(f: ProfileState, s: Session, outcome: Outcome)
    requires PasswordProblem(f.password, f.confirmPassword).None?
    requires ChangedFields(s.user, f.name, f.email, f.password) != map[]
    requires HasCredential(s)
    ensures var page := RenderedSettled(f, s, outcome);
      && (outcome.Ok? ==> page == f.(successMessage := UpdatedMessage, passwordError := "",
                                     password := "", confirmPassword := "", isEditing := false))
      && (outcome.Err? ==> page == f.(successMessage := "", passwordError := ""))
  {
  }

  /** Every submit that does not reach the session leaves a visible reason: a password
      message or the "no changes" notice. */
  lemma BlockedSubmitIsExplained(f: ProfileState, s: Session, outcome: Outcome)
    ensures var e := Submitted(f, s, outcome);
      e.payload == None ==> e.form.passwordError != "" || e.form.successMessage == NoChangesMessage
  {
  }
}
