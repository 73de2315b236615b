/** JavaScript values as the front end handles them: optional values (`undefined`/`null`),
    plain objects whose values are strings, and the truthiness tests the code writes as
    `if (x)`, `!x` and `x || fallback`. */
module JsValues {

  /** `None` stands for `undefined` or `null`. */
  datatype Option<+T> = None | Some(value: T)

  /** A plain JSON object whose values are strings: the user record the session holds,
      a server response body, a request body. Spreading (`{...a, ...b}`) is `a + b`. */
  type Record = map<string, string>

  /** `r.k`: the value under key `k`, or `undefined`. */
  function Get(r: Record, k: string): Option<string>
  {
    if k in r then Some(r[k]) else None
  }

  /** `user?.k` on a possibly-null record. */
  function Field(user: Option<Record>, k: string): Option<string>
  {
    if user.Some? then Get(user.value, k) else None
  }

  /** A string value is truthy when it is defined and not empty. */
  predicate Truthy(v: Option<string>)
  {
    v.Some? && v.value != ""
  }

  /** `v || fallback` on a string value. */
  function Or(v: Option<string>, fallback: string): string
  {
    if Truthy(v) then v.value else fallback
  }

  /** `${v}` in a template literal: an undefined value prints as "undefined". */
  function Interpolate(v: Option<string>): string
  {
    if v.Some? then v.value else "undefined"
  }
}

/** What the three form pages share: the password rule, the messages that go with it,
    and how a required text field shows that it is missing. */
module Forms {

  /** Both the profile and the registration form require at least this many characters. */
  const MinPasswordLength: nat := 6

  const MismatchMessage := "Passwords do not match"
  const TooShortMessage := "Password must be at least 6 characters"

  /** The path both forms navigate to after a successful sign-in. */
  const HomePath := "/"

  /** A text field's `error` flag and its `helperText`. */
  datatype FieldView = FieldView(error: bool, helperText: string)

  /** A required field after `submitted`: flagged exactly when the form was submitted with the
      field empty, and then, and only then, carrying its message. */
  function RequiredField(submitted: bool, value: string, message: string): (v: FieldView)
    requires message != ""
    ensures v.error <==> submitted && value == ""
    ensures v.helperText != "" <==> v.error
    ensures v.error ==> v.helperText == message
  {
    if submitted && value == "" then FieldView(true, message) else FieldView(false, "")
  }
}
