/**
 * The set-password form (src/page/SetPassword.jsx): when its button is
 * enabled, the order in which its checks report errors, and what each
 * server outcome does: a login on success, an error text otherwise.
 *
 * The phone number is the `userPhone` storage entry read when the form
 * renders.
 */
module SetPassword {
  import opened Js
  import opened Auth

  const MismatchText: string := "Пароли не совпадают"
  const NoPhoneText: string := "Номер телефона не найден. Попробуйте сначала."
  const BadReplyText: string := "Некорректный ответ от сервера"
  const BadDataText: string := "Некорректные данные"
  const ConnectionText: string := "Ошибка подключения к серверу"

  /** The page the form moves to after a login. The route table of
      `src/App.jsx` has no `/dashboard` route, so no page matches it. */
  const AfterLogin: string := "/dashboard"

  /** `isDisabled`: the button is enabled exactly when both fields hold the
      same non-empty text. */
  predicate IsDisabled(password: string, confirm: string)
  {
    password == "" || confirm == "" || password != confirm
  }

  lemma EnabledIffSameNonEmpty(password: string, confirm: string)
    ensures !IsDisabled(password, confirm) <==> password != "" && password == confirm
  {
  }

  /** The checks before the request: a mismatch is reported first, then a
      missing phone; None means the request is sent. */
  function Validate(password: string, confirm: string, phone: Option<string>): (e: Option<string>)
    ensures e.None? <==> password == confirm && Present(phone)
    ensures password != confirm ==> e == Some(MismatchText)
    ensures password == confirm && !Present(phone) ==> e == Some(NoPhoneText)
  {
    if password != confirm then Some(MismatchText)
    else if !Present(phone) then Some(NoPhoneText)
    else None
  }

  /** An enabled button never meets the mismatch error. */
  lemma EnabledSubmitIsNotMismatch(password: string, confirm: string, phone: Option<string>)
    requires !IsDisabled(password, confirm)
    ensures Validate(password, confirm, phone) != Some(MismatchText)
  {
  }

  /** How the request ends: a reply whose body's `payload` is given (None
      when falsy), an error reply with its HTTP status and the body's
      `message`, or no reply at all. */
  datatype Reply =
    | Success(payload: Option<map<string, Value>>)
    | HttpError(status: int, message: Value)
    | NoResponse

  /** A login with the token and the rest of the payload, or an error. */
  datatype Outcome = LoggedIn(token: Value, user: map<string, Value>) | ShowError(text: string)

  /** `const { token, ...user } = payload || {}`. */
  function Body(payload: Option<map<string, Value>>): map<string, Value>
  {
    if payload.Some? then payload.value else map[]
  }

  function TokenOf(body: map<string, Value>): Value
  {
    if "token" in body then body["token"] else Missing
  }

  /** The `try` after the request and its `catch`. The rest of the payload
      is always an object, so only a falsy token is rejected. */
  function Settle(r: Reply): (o: Outcome)
    ensures o.LoggedIn? <==> r.Success? && Truthy(TokenOf(Body(r.payload)))
    ensures o.LoggedIn? ==> o.token == TokenOf(Body(r.payload)) &&
                            o.user == Body(r.payload) - {"token"}
    ensures o.ShowError? ==> o.text != ""
  {
    match r
    case Success(payload) =>
      var body := Body(payload);
      var token := TokenOf(body);
      if !Truthy(token) then ShowError(BadReplyText) else LoggedIn(token, body - {"token"})
    case HttpError(status, message) =>
      if status == 400 then ShowError(if Truthy(message) then ToStr(message) else BadDataText)
      else ShowError(ConnectionText)
    case NoResponse => ShowError(ConnectionText)
  }

  /** A reply without a truthy token is "bad reply", even when the rest of
      the payload is empty; with one, even an otherwise empty payload logs
      in. */
  lemma MissingTokenRejected(payload: Option<map<string, Value>>)
    ensures !Truthy(TokenOf(Body(payload))) ==> Settle(Success(payload)) == ShowError(BadReplyText)
    ensures Truthy(TokenOf(Body(payload))) ==> Settle(Success(payload)).LoggedIn?
    ensures Settle(Success(Some(map["token" := Str("t")]))) == LoggedIn(Str("t"), map[])
  {
    assert map["token" := Str("t")] - {"token"} == map[];
  }

  /** A 400 shows the server's message, or the fallback when it is falsy;
      every other failure is a connection error. */
  lemma ErrorTexts(status: int, message: Value)
    ensures status == 400 && Truthy(message) ==> Settle(HttpError(status, message)) == ShowError(ToStr(message))
    ensures status == 400 && !Truthy(message) ==> Settle(HttpError(status, message)) == ShowError(BadDataText)
    ensures status != 400 ==> Settle(HttpError(status, message)) == ShowError(ConnectionText)
    ensures Settle(NoResponse) == ShowError(ConnectionText)
  {
  }

  /** The user record handed to `login`: the payload's `id`. */
  function UserOf(rest: map<string, Value>): UserRecord
  {
    UserRecord(if "id" in rest then rest["id"] else Missing)
  }

  class PasswordForm {
    var error: string

    constructor ()
      ensures error == ""
    {
      error := "";
    }

    /** `handleSubmit` up to the request: clears the error, then reports the
        first failed check; the request (phone and password) is sent only
        when both checks pass. */
    method Submit(password: string, confirm: string, phone: Option<string>)
      returns (request: Option<(string, string)>)
      modifies this
      ensures request.Some? <==> Validate(password, confirm, phone).None?
      ensures request.Some? ==> request.value == (phone.value, password) && error == ""
      ensures request.None? ==> error == Validate(password, confirm, phone).value
    {
      error := "";
      var e := Validate(password, confirm, phone);
      if e.Some? {
        error := e.value;
        return None;
      }
      request := Some((phone.value, password));
    }

    /** The rest of `handleSubmit`: on success the token and the user's JSON
        are written to storage, `login` is called and the form navigates on,
        and storage already mirrors the new session, so the persistence
        effect that follows rewrites the same entries; otherwise only the
        error is set. */
    method OnReply(r: Reply, auth: AuthProvider, stringify: UserRecord -> string)
      returns (navigateTo: Option<string>)
      modifies this, auth
      ensures match Settle(r)
              case LoggedIn(t, u) =>
                && auth.storage == old(auth.storage)[TokenKey := ToStr(t)][UserKey := stringify(UserOf(u))]
                && auth.token == Some(ToStr(t)) && auth.user == Some(UserOf(u))
                && auth.isLoading == old(auth.isLoading)
                && error == old(error) && navigateTo == Some(AfterLogin)
                && Mirrors(auth.storage, auth.Current(), stringify)
              case ShowError(m) =>
                && auth.storage == old(auth.storage) && auth.token == old(auth.token)
                && auth.user == old(auth.user) && auth.isLoading == old(auth.isLoading)
                && error == m && navigateTo == None
    {
      var o := Settle(r);
      if o.ShowError? {
        error := o.text;
        return None;
      }
      var user := UserOf(o.user);
      auth.storage := auth.storage[TokenKey := ToStr(o.token)];
      auth.storage := auth.storage[UserKey := stringify(user)];
      auth.Login(Some(user), Some(ToStr(o.token)));
      navigateTo := Some(AfterLogin);
    }
  }
}
