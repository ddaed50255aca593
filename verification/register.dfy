/** src/components/pages/Register.jsx: the sign-up form's submit handler. */
module Register {
  import opened Json
  import opened Http
  import opened Browser
  import opened Ui

  /** The sign-up form, `confirm_password` included. */
  datatype RegisterForm = RegisterForm(
    username: string,
    email: string,
    phone: string,
    password: string,
    confirmPassword: string)

  const RegisterPath := "/register/"
  const GenericFailure := "Registration failed. Try again."

  /** The JSON body posted: the whole form, field by field. */
  function RegisterBody(form: RegisterForm): (r: Value)
    ensures r.Obj? && |r.fields| == 5
  {
    Obj([("username", Str(form.username)), ("email", Str(form.email)), ("phone", Str(form.phone)),
         ("password", Str(form.password)), ("confirm_password", Str(form.confirmPassword))])
  }

  /** Every field of the form, the confirmation included, can be read back
      from the posted body under its own name. */
  lemma BodyCarriesEveryField(form: RegisterForm)
    ensures var fields := RegisterBody(form).fields;
            && Lookup(fields, "username") == Str(form.username)
            && Lookup(fields, "email") == Str(form.email)
            && Lookup(fields, "phone") == Str(form.phone)
            && Lookup(fields, "password") == Str(form.password)
            && Lookup(fields, "confirm_password") == Str(form.confirmPassword)
  {
    var fields := RegisterBody(form).fields;
    var f4, f3, f2, f1 := fields[..4], fields[..3], fields[..2], fields[..1];
    assert f4[..3] == f3 && f3[..2] == f2 && f2[..1] == f1;
    assert Lookup(fields, "password") == Lookup(f4, "password") == Str(form.password);
    assert Lookup(fields, "phone") == Lookup(f4, "phone") == Lookup(f3, "phone") == Str(form.phone);
    assert Lookup(fields, "email") == Lookup(f4, "email") == Lookup(f3, "email")
        == Lookup(f2, "email") == Str(form.email);
    assert Lookup(fields, "username") == Lookup(f4, "username") == Lookup(f3, "username")
        == Lookup(f2, "username") == Lookup(f1, "username") == Str(form.username);
  }

  /** The title of the failure toast (Register.jsx:36-41): with a truthy
      response body, the first element of `Object.values(body).flat()`
      (undefined when there is none); otherwise the generic message. */
  function ErrorMessage(e: Failure): (r: Value)
    ensures !(e.HttpError? && Truthy(e.response.data)) ==> r == Str(GenericFailure)
    ensures e.HttpError? && Truthy(e.response.data) && ObjectValues(e.response.data) == [] ==> r == Undefined
  {
    if e.HttpError? && Truthy(e.response.data) then FirstOf(Flat(ObjectValues(e.response.data)))
    else Str(GenericFailure)
  }

  /** For a validation error shaped `{field: [message, ...], ...}` with each
      field named once, the message shown is the first message of the first
      field. */
  lemma FirstFieldFirstMessage(status: int, fields: seq<(string, Value)>)
    requires DistinctKeys(fields)
    requires |fields| > 0 && fields[0].1.Arr? && |fields[0].1.items| > 0
    ensures ErrorMessage(HttpError(Response(status, Obj(fields)))) == fields[0].1.items[0]
  {
    ObjectValuesOfDistinct(fields);
    var vs := ObjectValues(Obj(fields));
    assert vs[0] == fields[0].1;
    assert Flat(vs) == fields[0].1.items + Flat(vs[1..]);
  }

  /** A field the body names twice shows the message of its last copy, the
      value `JSON.parse` keeps. */
  lemma RepeatedFieldShowsLast(status: int, key: string, first: string, last: string)
    ensures ErrorMessage(HttpError(Response(status, Obj([(key, Arr([Str(first)])), (key, Arr([Str(last)]))]))))
            == Str(last)
  {
    var fields := [(key, Arr([Str(first)])), (key, Arr([Str(last)]))];
    assert fields[..1] == [(key, Arr([Str(first)]))];
    assert Keys(fields[..1]) == [key];
    assert ObjectValues(Obj(fields)) == [Arr([Str(last)])];
    assert Flat([Arr([Str(last)])]) == [Str(last)];
  }

  /** A body `{detail: "..."}` shows that detail text. */
  lemma DetailMessage(status: int, detail: string)
    ensures ErrorMessage(HttpError(Response(status, Obj([("detail", Str(detail))])))) == Str(detail)
  {
    assert ObjectValues(Obj([("detail", Str(detail))])) == [Str(detail)];
  }

  /** The page's state; `window` is the router it navigates with. */
  class RegisterPage {
    const window: Window
    var form: RegisterForm
    var isLoading: bool

    constructor (window: Window)
      ensures this.window == window && form == RegisterForm("", "", "", "", "") && !isLoading
    {
      this.window := window;
      form := RegisterForm("", "", "", "", "");
      isLoading := false;
    }

    /** `handleSubmit` (Register.jsx:21-45). Differing passwords send nothing;
        otherwise the whole form is posted, and success leads to the login
        page. The token store is never written. */
    method HandleSubmit(reply: Reply<Response>) returns (calls: seq<ApiCall>, toasts: seq<Toast>)
      modifies this`isLoading, window`route
      ensures window.storage == old(window.storage) && !isLoading && form == old(form)
      ensures form.password != form.confirmPassword ==>
                calls == [] && toasts == [ErrorToast("Passwords do not match")] && window.route == old(window.route)
      ensures form.password == form.confirmPassword ==>
                && calls == [ApiCall(Post, RegisterPath, JsonBody(RegisterBody(form)))]
                && (reply.Resolved? ==> toasts == [SuccessToast("Registration successful!")] && window.route == "/login")
                && (reply.Rejected? ==> toasts == [Toast(ErrorIcon, ErrorMessage(reply.error))]
                                        && window.route == old(window.route))
    {
      isLoading := true;
      if form.password != form.confirmPassword {
        toasts := [ErrorToast("Passwords do not match")];
        isLoading := false;
        return [], toasts;
      }
      calls := [ApiCall(Post, RegisterPath, JsonBody(RegisterBody(form)))];
      if reply.Resolved? {
        toasts := [SuccessToast("Registration successful!")];
        window.Navigate("/login");
      } else {
        var title := ErrorMessage(reply.error);
        toasts := [Toast(ErrorIcon, title)];
      }
      isLoading := false;
    }
  }
}
