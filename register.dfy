/**
 * The registration form of src/components/Register.js: the form state, the
 * single-field update on every keystroke, the ordered input validation and the
 * validation guard in front of `POST /auth/register`.
 *
 * A snackbar message is returned as a value instead of being shown.
 */
module Register {
  import opened Common

  /** The form's three fields, as `formData` holds them. */
  datatype FormData = FormData(username: string, password: string, confirmPassword: string)

  /** The `name` attribute of the text field that changed. */
  datatype Field = Username | Password | ConfirmPassword

  /** `formData[name]`. */
  function FieldValue(form: FormData, name: Field): string
  {
    match name
    case Username => form.username
    case Password => form.password
    case ConfirmPassword => form.confirmPassword
  }

  /** `{...formData, [e.target.name]: e.target.value}`: the named field takes the
      new value and every other field keeps its own. */
  function HandleChange(formData: FormData, name: Field, value: string): (r: FormData)
    ensures FieldValue(r, name) == value
    ensures forall f :: f != name ==> FieldValue(r, f) == FieldValue(formData, f)
  {
    match name
    case Username => formData.(username := value)
    case Password => formData.(password := value)
    case ConfirmPassword => formData.(confirmPassword := value)
  }

  /** Changes to two different fields can be applied in either order. */
  lemma HandleChangeCommutes(form: FormData, a: Field, va: string, b: Field, vb: string)
    requires a != b
    ensures HandleChange(HandleChange(form, a, va), b, vb) == HandleChange(HandleChange(form, b, vb), a, va)
  {
  }

  /** A later change to the same field overrides an earlier one. */
  lemma HandleChangeLastWins(form: FormData, a: Field, v1: string, v2: string)
    ensures HandleChange(HandleChange(form, a, v1), a, v2) == HandleChange(form, a, v2)
  {
  }

  const UsernameRequired: string := "Username is a required field"
  const UsernameTooShort: string := "Username must be at least 6 characters"
  const PasswordRequired: string := "Password is a required field"
  const PasswordTooShort: string := "Password must be at least 6 characters"
  const PasswordsDiffer: string := "Passwords do not match"

  /**
   * `validateInput(data)`: the checks run in a fixed order and the first one
   * that fails gives the only message. None means the input is valid.
   */
  function ValidateInput(data: FormData): (r: Option<string>)
    ensures r.None? <==>
      |data.username| >= 6 && |data.password| >= 6 && data.password == data.confirmPassword
    ensures r == Some(UsernameRequired) <==> |data.username| == 0
    ensures r == Some(UsernameTooShort) <==> 0 < |data.username| < 6
    ensures r == Some(PasswordRequired) <==> |data.username| >= 6 && |data.password| == 0
    ensures r == Some(PasswordTooShort) <==> |data.username| >= 6 && 0 < |data.password| < 6
    ensures r == Some(PasswordsDiffer) <==>
      |data.username| >= 6 && |data.password| >= 6 && data.password != data.confirmPassword
  {
    if |data.username| == 0 then Some(UsernameRequired)
    else if |data.username| < 6 then Some(UsernameTooShort)
    else if |data.password| == 0 then Some(PasswordRequired)
    else if |data.password| < 6 then Some(PasswordTooShort)
    else if data.password != data.confirmPassword then Some(PasswordsDiffer)
    else None
  }

  /** The body of `POST /auth/register`: the confirmation is not sent. */
  datatype RegisterBody = RegisterBody(username: string, password: string)

  const Registered: string := "Registered successfully"

  /** The state of the `Register` component. */
  class RegisterPage {
    var formData: FormData
    /** True while the registration request is outstanding; the button is
        replaced by a spinner meanwhile. */
    var loading: bool

    constructor ()
      ensures formData == FormData("", "", "") && !loading
    {
      formData := FormData("", "", "");
      loading := false;
    }

    /** `handleChange(e)` for the text field named `name`. */
    method Change(name: Field, value: string)
      modifies this`formData
      ensures formData == HandleChange(old(formData), name, value)
    {
      formData := HandleChange(formData, name, value);
    }

    /** `register()` up to the request: validate, and only on success set
        `loading` and send the username and password. */
    method Register() returns (request: Option<RegisterBody>, message: Option<string>)
      modifies this`loading
      ensures request.Some? <==> ValidateInput(formData).None?
      ensures request.Some? ==>
        request.value == RegisterBody(formData.username, formData.password) && loading && message == None
      ensures request.None? ==> message == ValidateInput(formData) && loading == old(loading)
    {
      var result := ValidateInput(formData);
      if result.None? {
        loading := true;
        request := Some(RegisterBody(formData.username, formData.password));
        message := None;
      } else {
        request := None;
        message := result;
      }
    }

    /** Completion of the registration request, whose body carries `success`:
        loading ends; a successful registration is announced and leads to the
        login page; a rejection shows the server's message. */
    method RegisterSettled(outcome: Response<bool>) returns (message: Option<string>, toLogin: bool)
      modifies this`loading
      ensures !loading
      ensures outcome.Success? && outcome.data ==> message == Some(Registered) && toLogin
      ensures outcome.Success? && !outcome.data ==> message == None && !toLogin
      ensures outcome.Failure? ==> message == Some(outcome.message) && !toLogin
    {
      loading := false;
      if outcome.Success? {
        if outcome.data {
          message, toLogin := Some(Registered), true;
        } else {
          message, toLogin := None, false;
        }
      } else {
        message, toLogin := Some(outcome.message), false;
      }
    }
  }
}
