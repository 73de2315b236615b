/** The client-side session store (`AuthProvider`): the signed-in user, the `loading` and
    `error` flags, the durable copy of the user under the storage key `user`, and the
    `Authorization` header that the HTTP client adds to every later request.

    Each remote call is replaced by its answer, passed in as an `Outcome`; each operation
    returns the request it would send (`None` when it sends nothing) and how its promise
    settles. */
module AuthContext {
  import opened JsValues

  const LoginUrl := "/api/auth/login"
  const RegisterUrl := "/api/auth/register"
  const ProfileUrl := "/api/users/profile"

  const LoginErrorDefault := "An error occurred during login"
  const LoginFailed := "Login failed"
  const RegisterErrorDefault := "An error occurred during registration"
  const RegisterFailed := "Registration failed"
  const UpdateErrorDefault := "An error occurred while updating profile"
  const UpdateFailed := "Profile update failed"

  type Headers = map<string, string>

  datatype Verb = Post | Put

  /** A request as the HTTP client is asked to send it: verb, URL, JSON body and the
      per-request headers built by `configureAxios`. */
  datatype Request = Request(verb: Verb, url: string, body: Record, headers: Headers)

  /** The answer to a remote call: the response body, or a failure carrying the
      `message` of the server's error body when there was one. */
  datatype Outcome = Ok(data: Record) | Err(message: Option<string>)

  /** How an operation's promise settles: resolved, or rejected with an `Error` whose
      message is `reason`. */
  datatype Completion = Resolved | Rejected(reason: string)

  /** Everything the session store owns or writes. `stored` is the storage slot
      `localStorage['user']`; `authHeader` is the HTTP client's default
      `Authorization` header. */
  datatype Session = Session(
    user: Option<Record>,
    loading: bool,
    error: Option<string>,
    stored: Option<Record>,
    authHeader: Option<string>)

  /** The state an operation leaves, the request it sent, and how it settled. */
  datatype Effect = Effect(next: Session, request: Option<Request>, completion: Completion)

  /** The per-request configuration `configureAxios(token)` returns: JSON content, and a
      bearer credential exactly when a non-empty token is given. */
  function AxiosConfig(token: Option<string>): (headers: Headers)
    ensures "Content-Type" in headers && headers["Content-Type"] == "application/json"
    ensures "Authorization" in headers <==> Truthy(token)
    ensures "Authorization" in headers ==> headers["Authorization"] == "Bearer " + token.value
    ensures headers.Keys <= {"Content-Type", "Authorization"}
  {
    var base := map["Content-Type" := "application/json"];
    if Truthy(token) then base["Authorization" := "Bearer " + token.value] else base
  }

  /** `configureAxios`: builds the header object and adds the credential to it in place. */
  method ConfigureAxios(token: Option<string>) returns (headers: Headers)
    ensures headers == AxiosConfig(token)
  {
    headers := map["Content-Type" := "application/json"];
    if token.Some? && token.value != "" {
      headers := headers["Authorization" := "Bearer " + token.value];
    }
  }

  /** The store as the provider first renders it, with whatever the storage slot holds. */
  function Initial(stored: Option<Record>): Session
  {
    Session(None, true, None, stored, None)
  }

  /** The start-up effect: the stored user is taken as it is, without asking the server. */
  function Rehydrated(s: Session): Session
  {
    s.(user := if s.stored.Some? then s.stored else s.user, loading := false)
  }

  /** What a sign-in (`login` or `register`) leaves: on success the response record is
      the user, is stored and provides the default header; on failure only `error`
      changes, and the promise is rejected. */
  function SignInResult(s: Session, request: Request, outcome: Outcome,
                        errorDefault: string, failure: string): Effect
  {
    match outcome
    case Ok(data) =>
      Effect(s.(user := Some(data), loading := false, error := None, stored := Some(data),
                authHeader := Some("Bearer " + Interpolate(Get(data, "token")))),
             Some(request), Resolved)
    case Err(message) =>
      Effect(s.(loading := false, error := Some(Or(message, errorDefault))),
             Some(request), Rejected(Or(message, failure)))
  }

  function LoginRequest(email: string, password: string): Request
  {
    Request(Post, LoginUrl, map["email" := email, "password" := password], AxiosConfig(None))
  }

  function RegisterRequest(name: string, email: string, password: string): Request
  {
    Request(Post, RegisterUrl, map["name" := name, "email" := email, "password" := password],
            AxiosConfig(None))
  }

  function LoginResult(s: Session, email: string, password: string, outcome: Outcome): Effect
  {
    SignInResult(s, LoginRequest(email, password), outcome, LoginErrorDefault, LoginFailed)
  }

  function RegisterResult(s: Session, name: string, email: string, password: string,
                          outcome: Outcome): Effect
  {
    SignInResult(s, RegisterRequest(name, email, password), outcome,
                 RegisterErrorDefault, RegisterFailed)
  }

  function LoggedOut(s: Session): Session
  {
    s.(user := None, stored := None, authHeader := None)
  }

  /** A session that can be sent to the profile endpoint: a user with a non-empty token. */
  predicate HasCredential(s: Session)
  {
    s.user.Some? && Truthy(Get(s.user.value, "token"))
  }

  /** What `updateProfile(userData)` leaves. Without a credential nothing is sent and the
      generic message is shown (the thrown "must be logged in" error carries no server
      message); otherwise the response fields override the held user's. */
  function ProfileUpdateResult(s: Session, userData: Record, outcome: Outcome): Effect
  {
    if !HasCredential(s) then
      Effect(s.(loading := false, error := Some(UpdateErrorDefault)), None, Rejected(UpdateFailed))
    else
      var request := Request(Put, ProfileUrl, userData, AxiosConfig(Get(s.user.value, "token")));
      match outcome
      case Ok(data) =>
        var merged := s.user.value + data;
        Effect(s.(user := Some(merged), loading := false, error := None, stored := Some(merged)),
               Some(request), Resolved)
      case Err(message) =>
        Effect(s.(loading := false, error := Some(Or(message, UpdateErrorDefault))),
               Some(request), Rejected(Or(message, UpdateFailed)))
  }

  /** The provider's state and operations, updated step by step as the hooks are. */
  class AuthProvider {
    var user: Option<Record>
    var loading: bool
    var error: Option<string>
    var stored: Option<Record>
    var authHeader: Option<string>

    function State(): Session
      reads this
    {
      Session(user, loading, error, stored, authHeader)
    }

    /** The `useState` initial values; `storage` is what the slot holds at page load. */
    constructor (storage: Option<Record>)
      ensures State() == Initial(storage)
    {
      user := None;
      loading := true;
      error := None;
      stored := storage;
      authHeader := None;
    }

    /** The mount effect: restore a stored user, then stop loading. */
    method Rehydrate()
      modifies this
      ensures State() == Rehydrated(old(State()))
    {
      if stored.Some? {
        user := stored;
      }
      loading := false;
    }

    /** The body shared by `login` and `register`. */
    method SignIn(request: Request, outcome: Outcome, errorDefault: string, failure: string)
      returns (sent: Option<Request>, completion: Completion)
      modifies this
      ensures Effect(State(), sent, completion)
              == SignInResult(old(State()), request, outcome, errorDefault, failure)
    {
      loading := true;
      error := None;
      sent := Some(request);
      match outcome {
        case Ok(data) =>
          stored := Some(data);
          user := Some(data);
          authHeader := Some("Bearer " + Interpolate(Get(data, "token")));
          completion := Resolved;
        case Err(message) =>
          error := Some(Or(message, errorDefault));
          completion := Rejected(Or(message, failure));
      }
      loading := false;
    }

    method Login(email: string, password: string, outcome: Outcome)
      returns (sent: Option<Request>, completion: Completion)
      modifies this
      ensures Effect(State(), sent, completion) == LoginResult(old(State()), email, password, outcome)
    {
      var config := ConfigureAxios(None);
      var request := Request(Post, LoginUrl, map["email" := email, "password" := password], config);
      sent, completion := SignIn(request, outcome, LoginErrorDefault, LoginFailed);
    }

    method Register(name: string, email: string, password: string, outcome: Outcome)
      returns (sent: Option<Request>, completion: Completion)
      modifies this
      ensures Effect(State(), sent, completion)
              == RegisterResult(old(State()), name, email, password, outcome)
    {
      var config := ConfigureAxios(None);
      var request := Request(Post, RegisterUrl,
                             map["name" := name, "email" := email, "password" := password], config);
      sent, completion := SignIn(request, outcome, RegisterErrorDefault, RegisterFailed);
    }

    method Logout()
      modifies this
      ensures State() == LoggedOut(old(State()))
    {
      stored := None;
      user := None;
      authHeader := None;
    }

    method UpdateProfile(userData: Record, outcome: Outcome)
      returns (sent: Option<Request>, completion: Completion)
      modifies this
      ensures Effect(State(), sent, completion)
              == ProfileUpdateResult(old(State()), userData, outcome)
    {
      loading := true;
      error := None;
      if user.None? || !Truthy(Get(user.value, "token")) {
        // the thrown error has no server response, so the catch falls back to its defaults
        sent := None;
        error := Some(UpdateErrorDefault);
        completion := Rejected(UpdateFailed);
      } else {
        var config := ConfigureAxios(Get(user.value, "token"));
        sent := Some(Request(Put, ProfileUrl, userData, config));
        match outcome {
          case Ok(data) =>
            var updated := user.value + data;
            stored := Some(updated);
            user := Some(updated);
            completion := Resolved;
          case Err(message) =>
            error := Some(Or(message, UpdateErrorDefault));
            completion := Rejected(Or(message, UpdateFailed));
        }
      }
      loading := false;
    }
  }

  /** One call into the store, with the answer its remote call gets. */
  datatype Action =
    | Login(email: string, password: string, outcome: Outcome)
    | Register(name: string, email: string, password: string, outcome: Outcome)
    | Logout
    | UpdateProfile(userData: Record, outcome: Outcome)

  function Step(s: Session, a: Action): Effect
  {
    match a
    case Login(email, password, outcome) => LoginResult(s, email, password, outcome)
    case Register(name, email, password, outcome) => RegisterResult(s, name, email, password, outcome)
    case Logout => Effect(LoggedOut(s), None, Resolved)
    case UpdateProfile(userData, outcome) => ProfileUpdateResult(s, userData, outcome)
  }

  /** The store as rendered while the request of `a` is outstanding: the reset of `loading`
      and `error` happens before the first `await`, so it is rendered before the answer
      arrives. `None` when `a` settles without waiting: `logout`, and `updateProfile`
      without a credential, which throws before its request and ends loading in the same
      tick. */
  function InFlight(s: Session, a: Action): Option<Session>
  {
    match a
    case Logout => None
    case UpdateProfile(_, _) => if HasCredential(s) then Some(s.(loading := true, error := None)) else None
    case _ => Some(s.(loading := true, error := None))
  }

  /** The state after the calls in `actions`, one after the other. */
  function Run(s: Session, actions: seq<Action>): Session
    decreases |actions|
  {
    if actions == [] then s else Run(Step(s, actions[0]).next, actions[1..])
  }

  /** The requests the calls in `actions` send, in order. */
  function Sent(s: Session, actions: seq<Action>): seq<Request>
    decreases |actions|
  {
    if actions == [] then []
    else
      var e := Step(s, actions[0]);
      (if e.request.Some? then [e.request.value] else []) + Sent(e.next, actions[1..])
  }

  /** A settled store: storage holds exactly the user, nothing is loading, and a default
      credential is never left behind without a user. */
  ghost predicate Consistent(s: Session)
  {
    && s.stored == s.user
    && !s.loading
    && (s.authHeader.Some? ==> s.user.Some?)
  }

  // ---- Properties of single operations ----

  /** Start-up trusts the storage slot: the user is whatever it holds, loading ends, and
      no default credential is installed. */
  lemma StartupTrustsStorage(stored: Option<Record>)
    ensures var s := Rehydrated(Initial(stored));
      && s.user == stored && s.stored == stored
      && !s.loading && s.error == None && s.authHeader == None
      && Consistent(s)
  {
  }

  /** `error` and `loading` are reset when an attempt starts: what an attempt leaves does
      not depend on them, and it always ends with `loading` false. */
  lemma AttemptStartsClean(s: Session, a: Action)
    requires !a.Logout?
    ensures Step(s, a) == Step(s.(loading := true, error := None), a)
    ensures !Step(s, a).next.loading
  {
  }

  /** A successful sign-in: the response record is the user and the stored value, the
      default header carries its token, and no error is left. */
  lemma SignInSucceeds(s: Session, a: Action)
    requires (a.Login? || a.Register?) && a.outcome.Ok?
    ensures var e := Step(s, a); var data := a.outcome.data;
      && e.next.user == Some(data) && e.next.stored == Some(data)
      && e.next.authHeader == Some("Bearer " + Interpolate(Get(data, "token")))
      && e.next.error == None && !e.next.loading
      && e.completion == Resolved
      && e.request.Some? && e.request.value.verb == Post
      && "Authorization" !in e.request.value.headers
  {
  }

  /** A failed sign-in shows the server's message (or the operation's default), rejects,
      and leaves the user, the storage slot and the default header as they were: a
      session held before the attempt survives it. */
  lemma SignInFailsKeepingSession(s: Session, a: Action)
    requires (a.Login? || a.Register?) && a.outcome.Err?
    ensures var e := Step(s, a); var m := a.outcome.message;
      && e.next.user == s.user && e.next.stored == s.stored && e.next.authHeader == s.authHeader
      && e.next.error == Some(Or(m, if a.Login? then LoginErrorDefault else RegisterErrorDefault))
      && e.completion == Rejected(Or(m, if a.Login? then LoginFailed else RegisterFailed))
      && !e.next.loading
  {
  }

  /** `logout` cannot fail, sends nothing, ends the session everywhere it is kept, and
      leaves `loading` and `error` alone. */
  lemma LogoutEndsSession(s: Session)
    ensures var e := Step(s, Logout);
      && e.next.user == None && e.next.stored == None && e.next.authHeader == None
      && e.next.loading == s.loading && e.next.error == s.error
      && e.request == None && e.completion == Resolved
  {
  }

  /** `updateProfile` without a user or without a token sends nothing, shows the generic
      message, rejects, and changes nothing else. */
  lemma UpdateWithoutCredential(s: Session, userData: Record, outcome: Outcome)
    requires !HasCredential(s)
    ensures var e := Step(s, UpdateProfile(userData, outcome));
      && e.request == None
      && e.next == s.(loading := false, error := Some(UpdateErrorDefault))
      && e.completion == Rejected(UpdateFailed)
  {
  }

  /** A successful update sends the payload with the held token, then keeps every field
      of the old user the response does not name (the token among them), takes every
      field it does name, and stores the merged record. */
  lemma UpdateMergesResponse(s: Session, userData: Record, data: Record)
    requires HasCredential(s)
    ensures var e := Step(s, UpdateProfile(userData, Ok(data))); var old_user := s.user.value;
      && e.request == Some(Request(Put, ProfileUrl, userData, AxiosConfig(Get(old_user, "token"))))
      && e.request.value.headers["Authorization"] == "Bearer " + old_user["token"]
      && e.next.user.Some? && e.next.stored == e.next.user
      && e.next.user.value.Keys == old_user.Keys + data.Keys
      && (forall k :: k in data ==> e.next.user.value[k] == data[k])
      && (forall k :: k in old_user && k !in data ==> e.next.user.value[k] == old_user[k])
      && e.next.authHeader == s.authHeader
      && e.next.error == None && e.completion == Resolved
  {
  }

  /** A failed edit does not sign the user out: the user, the stored copy and the header
      stay, and only the message changes. */
  lemma FailedUpdateKeepsSession(s: Session, userData: Record, message: Option<string>)
    requires HasCredential(s)
    ensures var e := Step(s, UpdateProfile(userData, Err(message)));
      && e.next == s.(loading := false, error := Some(Or(message, UpdateErrorDefault)))
      && e.completion == Rejected(Or(message, UpdateFailed))
      && e.request.Some?
  {
  }

  /** A call waits exactly when it sends a request. While it waits the store shows
      `loading` and no error and still holds the earlier user, storage slot and header;
      the answer then settles it as `Step` gives. */
  lemma InFlightExactlyWhileSending(s: Session, a: Action)
    ensures InFlight(s, a).Some? <==> Step(s, a).request.Some?
    ensures InFlight(s, a).Some? ==> var p := InFlight(s, a).value;
      && p.loading && p.error == None
      && p.user == s.user && p.stored == s.stored && p.authHeader == s.authHeader
      && Step(p, a) == Step(s, a)
  {
  }

  // ---- Properties of sequences of operations ----

  lemma StepKeepsConsistent(s: Session, a: Action)
    requires Consistent(s)
    ensures Consistent(Step(s, a).next)
  {
  }

  /** Once started up, the store stays consistent whatever calls follow and however they
      are answered. */
  lemma {:induction false} RunKeepsConsistent(s: Session, actions: seq<Action>)
    requires Consistent(s)
    ensures Consistent(Run(s, actions))
    decreases |actions|
  {
    if actions != [] {
      StepKeepsConsistent(s, actions[0]);
      RunKeepsConsistent(Step(s, actions[0]).next, actions[1..]);
    }
  }

  /** From page load on, storage and `user` agree after every completed call sequence. */
  lemma StorageFollowsUser(stored: Option<Record>, actions: seq<Action>)
    ensures var s := Run(Rehydrated(Initial(stored)), actions);
      s.stored == s.user && !s.loading
  {
    StartupTrustsStorage(stored);
    RunKeepsConsistent(Rehydrated(Initial(stored)), actions);
  }

  /** Without a session, profile edits and logouts never reach the network and never
      create a session: only `login` and `register` can. */
  lemma {:induction false} NoSessionNoRequest(s: Session, actions: seq<Action>)
    requires s.user.None?
    requires forall i :: 0 <= i < |actions| ==> actions[i].UpdateProfile? || actions[i].Logout?
    ensures Sent(s, actions) == []
    ensures Run(s, actions).user.None?
    decreases |actions|
  {
    if actions != [] {
      NoSessionNoRequest(Step(s, actions[0]).next, actions[1..]);
    }
  }

  /** After `logout`, any run of profile edits and logouts sends nothing. */
  lemma LogoutThenNoRequest(s: Session, actions: seq<Action>)
    requires forall i :: 0 <= i < |actions| ==> actions[i].UpdateProfile? || actions[i].Logout?
    ensures Sent(s, [Logout] + actions) == []
  {
    var rest := ([Logout] + actions)[1..];
    assert rest == actions;
    NoSessionNoRequest(LoggedOut(s), actions);
  }

  /** A wrong password then the right one: the first attempt leaves its message and no
      session; the second clears the message and signs in. */
  lemma WrongThenRightPassword(s: Session, email: string, wrong: string, right: string,
                               message: string, data: Record)
    requires s.user.None? && message != ""
    ensures var first := Step(s, Login(email, wrong, Err(Some(message)))).next;
      && first.error == Some(message) && first.user.None?
      && var second := Step(first, Login(email, right, Ok(data))).next;
      && second.error == None && second.user == Some(data)
  {
  }
}
