/** The login page script (app.js): `setMessage`, the `login` request with its
    lenient reading of the response, and the submit handler that validates the
    form, extracts the session token, stores it and reports the outcome. */
module LoginForm {
  import opened JsValues
  import opened JsStrings
  import opened Decimal

  /** What the browser supplies and this model does not implement: `JSON.parse`
      (None when it throws), `JSON.stringify`, and the formatting of numbers. */
  datatype Host = Host(
    parse: string -> Option<JsValue>,
    stringify: JsValue -> string,
    numberToString: real -> string)

  /** How the `fetch` promise settles: a response with its `ok` flag, status
      and body text, or a rejection carrying the error's message. */
  datatype Transport =
    | Reply(ok: bool, status: nat, text: string)
    | NetworkError(reason: string)

  /** The JSON body `{ email, password }` of a POST to `/auth/login`. */
  datatype Credentials = Credentials(email: string, password: string)

  /** How a call of `login` ends: it returns the data or throws an Error. */
  datatype LoginResult = Returned(data: JsValue) | Threw(message: string)

  /** How the submit handler ends once the request has settled. */
  datatype Completion = LoggedIn(token: string) | LoginFailed(message: string)

  const IncompleteFormText := "Completa correo y contraseña"
  const MissingTokenText := "Respuesta de login inválida: falta token"
  const SuccessText := "Ingreso exitoso, redirigiendo…"
  const FallbackErrorText := "No se pudo iniciar sesión"
  /** The TypeError text, in the wording of the V8 engine, of a ToString that
      finds no callable `toString` or `valueOf` returning a primitive. */
  const ConversionErrorText := "Cannot convert object to primitive value"
  const AuthTokenKey := "authToken"
  const DashboardPage := "dashboard.html"
  const EmptyObject := Object(map[])

  /** The message types the handler passes to `setMessage`; the empty
      string is its default. */
  const PlainKind := ""
  const ErrorKind := "error"
  const SuccessKind := "success"

  /** The class attribute `setMessage` gives the message element,
      `message ${type}` trimmed: "message" alone for an empty or blank type, and
      "message" and the type separated by a space for a type with no
      whitespace at its ends. */
  function MessageClass(kind: string): (r: string)
    ensures AllWhitespace(kind) ==> r == "message"
    ensures Trimmed(kind) && kind != "" ==> r == "message " + kind
  {
    TrimOfMessageClass(kind);
    Trim("message " + kind)
  }

  lemma TrimOfMessageClass(kind: string)
    ensures AllWhitespace(kind) ==> Trim("message " + kind) == "message"
    ensures Trimmed(kind) && kind != "" ==> Trim("message " + kind) == "message " + kind
  {
    if AllWhitespace(kind) {
      var word: string := "message";
      assert word + " " + kind == "message " + kind;
      TrimAfterWordBlank(word, kind);
    } else if Trimmed(kind) && kind != "" {
      TrimOfTrimmed("message " + kind);
    }
  }

  /** The classes of the three message types the form uses. */
  lemma KeywordClasses()
    ensures MessageClass(PlainKind) == "message"
    ensures MessageClass(ErrorKind) == "message " + ErrorKind
    ensures MessageClass(SuccessKind) == "message " + SuccessKind
  {
    assert AllWhitespace(PlainKind);
    assert Trimmed(ErrorKind) && Trimmed(SuccessKind);
  }

  /** Lines 34-39: the email is trimmed, the password is taken as typed, and
      the submission goes ahead only when neither is empty. */
  function Validate(emailValue: string, passwordValue: string): (r: Option<Credentials>)
    ensures r.None? <==> AllWhitespace(emailValue) || passwordValue == ""
    ensures r.Some? ==> r.value.email == Trim(emailValue) && r.value.password == passwordValue
    ensures r.Some? ==> r.value.email != "" && Trimmed(r.value.email)
  {
    TrimIsTrimmed(emailValue);
    var email := Trim(emailValue);
    if email == "" || passwordValue == "" then None else Some(Credentials(email, passwordValue))
  }

  /** Line 23: an empty body reads as `{}`, and so does a body `JSON.parse`
      rejects; otherwise the parsed value is the data. */
  function ParseBody(text: string, parse: string -> Option<JsValue>): (data: JsValue)
    ensures text == "" || parse(text).None? ==> data == EmptyObject
    ensures text != "" && parse(text).Some? ==> data == parse(text).value
    ensures data == EmptyObject || parse(text) == Some(data)
  {
    if text == "" then EmptyObject
    else match parse(text)
      case None => EmptyObject
      case Some(v) => v
  }

  /** Line 25: `data?.message || text || `Error ${status}``. */
  function ErrorDetail(data: JsValue, text: string, status: nat): (d: JsValue)
    ensures Truthy(d)
    ensures Truthy(Get(data, "message")) ==> d == Get(data, "message")
    ensures !Truthy(Get(data, "message")) && text != "" ==> d == Str(text)
    ensures !Truthy(Get(data, "message")) && text == "" ==> d == Str("Error " + NatToString(status))
  {
    OrChainIsFirstTruthy([Get(data, "message"), Str(text), Str("Error " + NatToString(status))]);
    Or(Or(Get(data, "message"), Str(text)), Str("Error " + NatToString(status)))
  }

  /** Line 26: a string detail is the message as it is; any other detail is
      put through `JSON.stringify`. */
  function DetailMessage(detail: JsValue, stringify: JsValue -> string): (m: string)
    ensures detail.Str? ==> m == detail.s
    ensures !detail.Str? ==> m == stringify(detail)
  {
    if detail.Str? then detail.s else stringify(detail)
  }

  /** Lines 13-29: `login` returns the parsed body on an ok status and throws
      an Error with the best available detail otherwise; a rejected `fetch`
      propagates its own error. */
  function Login(reply: Transport, host: Host): (r: LoginResult)
    ensures r.Returned? <==> reply.Reply? && reply.ok
    ensures r.Returned? ==> r.data == EmptyObject || host.parse(reply.text) == Some(r.data)
    ensures (reply.Reply? && !reply.ok &&
             ErrorDetail(ParseBody(reply.text, host.parse), reply.text, reply.status).Str?) ==>
      r.message != ""
    ensures reply.NetworkError? ==> r == Threw(reply.reason)
    ensures reply.Reply? && reply.ok ==> r == Returned(ParseBody(reply.text, host.parse))
    ensures reply.Reply? && !reply.ok ==>
      r == Threw(DetailMessage(ErrorDetail(ParseBody(reply.text, host.parse), reply.text, reply.status), host.stringify))
  {
    match reply
    case NetworkError(reason) => Threw(reason)
    case Reply(ok, status, text) =>
      var data := ParseBody(text, host.parse);
      if !ok then Threw(DetailMessage(ErrorDetail(data, text, status), host.stringify))
      else Returned(data)
  }

  /** Line 43: `data.access_token || data.token || data.jwt`. */
  function SelectToken(data: JsValue): JsValue {
    Or(Or(Get(data, "access_token"), Get(data, "token")), Get(data, "jwt"))
  }

  /** The three accepted field names, in priority order. */
  function TokenCandidates(data: JsValue): seq<JsValue> {
    [Get(data, "access_token"), Get(data, "token"), Get(data, "jwt")]
  }

  /** The token is the first truthy candidate; when none is truthy the chain
      yields a falsy value, which the handler rejects. */
  lemma SelectTokenIsFirstTruthy(data: JsValue)
    ensures var vs := TokenCandidates(data);
            && (Truthy(SelectToken(data)) <==> FirstTruthy(vs) < 3)
            && (FirstTruthy(vs) < 3 ==> SelectToken(data) == vs[FirstTruthy(vs)])
  {
    var vs := TokenCandidates(data);
    OrChainIsFirstTruthy(vs);
    assert vs[..2][..1] == [vs[0]];
    assert OrChain(vs) == SelectToken(data);
  }

  /** An empty `access_token` does not win: the `token` field is used. */
  lemma EmptyAccessTokenFallsThrough(data: JsValue, token: string)
    requires data.Object? && "access_token" in data.fields && data.fields["access_token"] == Str("")
    requires "token" in data.fields && data.fields["token"] == Str(token) && token != ""
    ensures SelectToken(data) == Str(token)
  {
    SelectTokenIsFirstTruthy(data);
  }

  /** The TypeError message of `data.access_token` on a nullish value, in the
      wording of the V8 engine. */
  function PropertyReadError(data: JsValue, key: string): (m: string)
    requires IsNullish(data)
    ensures m != ""
  {
    "Cannot read properties of " + (if data.Null? then "null" else "undefined")
      + " (reading '" + key + "')"
  }

  /** Line 49: the catch block shows the error's message, or a fixed text when
      that message is empty. */
  function CaughtMessage(message: string): (m: string)
    ensures m != ""
    ensures message != "" ==> m == message
    ensures message == "" ==> m == FallbackErrorText
  {
    if message != "" then message else FallbackErrorText
  }

  /** Lines 42-47, the try block: it completes with the token stored, or
      throws. It completes exactly when `login` returned non-nullish data with
      a truthy token that converts to a string, and the token stored is that
      conversion. */
  function TryBlock(result: LoginResult, numberToString: real -> string): (c: Completion)
    ensures c.LoggedIn? <==>
      && result.Returned? && !IsNullish(result.data)
      && Truthy(SelectToken(result.data)) && Stringifiable(SelectToken(result.data))
    ensures c.LoggedIn? ==> Some(c.token) == ToJsString(SelectToken(result.data), numberToString)
    ensures result.Threw? ==> c == LoginFailed(result.message)
    ensures result.Returned? && IsNullish(result.data) ==>
      c == LoginFailed(PropertyReadError(result.data, "access_token"))
    ensures result.Returned? && !IsNullish(result.data) && !Truthy(SelectToken(result.data)) ==>
      c == LoginFailed(MissingTokenText)
    ensures (result.Returned? && !IsNullish(result.data) && Truthy(SelectToken(result.data)) &&
             !Stringifiable(SelectToken(result.data))) ==>
      c == LoginFailed(ConversionErrorText)
  {
    match result
    case Threw(m) => LoginFailed(m)
    case Returned(data) =>
      if IsNullish(data) then LoginFailed(PropertyReadError(data, "access_token"))
      else
        var token := SelectToken(data);
        if !Truthy(token) then LoginFailed(MissingTokenText)
        else match ToJsString(token, numberToString)
          case None => LoginFailed(ConversionErrorText)
          case Some(stored) => LoggedIn(stored)
  }

  /** Lines 42-49: the try block followed by its catch block. The handler logs
      in exactly when the try block completes, and every failure it reports
      has a non-empty message. */
  function Settle(result: LoginResult, numberToString: real -> string): (c: Completion)
    ensures c.LoggedIn? <==>
      && result.Returned? && !IsNullish(result.data)
      && Truthy(SelectToken(result.data)) && Stringifiable(SelectToken(result.data))
    ensures c.LoggedIn? ==> Some(c.token) == ToJsString(SelectToken(result.data), numberToString)
    ensures result.Threw? ==> c == LoginFailed(CaughtMessage(result.message))
    ensures result.Returned? && IsNullish(result.data) ==>
      c == LoginFailed(PropertyReadError(result.data, "access_token"))
    ensures result.Returned? && !IsNullish(result.data) && !Truthy(SelectToken(result.data)) ==>
      c == LoginFailed(MissingTokenText)
    ensures (result.Returned? && !IsNullish(result.data) && Truthy(SelectToken(result.data)) &&
             !Stringifiable(SelectToken(result.data))) ==>
      c == LoginFailed(ConversionErrorText)
    ensures c.LoginFailed? ==> c.message != ""
  {
    match TryBlock(result, numberToString)
    case LoggedIn(token) => LoggedIn(token)
    case LoginFailed(m) => LoginFailed(CaughtMessage(m))
  }

  /** Line 23: an ok response whose body is empty or is not JSON does not make
      `login` throw; it returns `{}`, and the handler then reports the missing
      token. */
  lemma LenientBody(status: nat, text: string, host: Host)
    requires text == "" || host.parse(text).None?
    ensures Login(Reply(true, status, text), host) == Returned(EmptyObject)
    ensures Settle(Login(Reply(true, status, text), host), host.numberToString) ==
      LoginFailed(MissingTokenText)
  {
  }

  /** Line 45: a token object with its own `toString` property cannot be
      stored; `setItem` throws, and the handler reports the TypeError. */
  lemma UnconvertibleTokenFails(status: nat, text: string, host: Host, fields: map<string, JsValue>)
    requires text != "" && "toString" in fields
    requires host.parse(text) == Some(Object(map["access_token" := Object(fields)]))
    ensures Settle(Login(Reply(true, status, text), host), host.numberToString) ==
      LoginFailed(ConversionErrorText)
  {
  }

  /** A token that is a non-empty string is stored as it is, so a login with
      a string token never stores the empty string. */
  lemma StringTokenNotEmpty(result: LoginResult, numberToString: real -> string)
    requires Settle(result, numberToString).LoggedIn? && SelectToken(result.data).Str?
    ensures Settle(result, numberToString).token == SelectToken(result.data).s
    ensures Settle(result, numberToString).token != ""
  {
  }

  /** Lines 43-45 as written: an empty array is truthy, so it passes the
      token check, and its string form, the empty string, is stored as the
      session token. */
  lemma EmptyArrayTokenStoresEmpty(numberToString: real -> string)
    ensures Settle(Returned(Object(map["access_token" := Array([])])), numberToString) == LoggedIn("")
  {
    assert Stringifiable(Array([]));
  }

  /** The outcome the token check evidently intends: a token whose stored
      form is empty counts as missing. It agrees with `Settle` on every other
      outcome, and a login it reports always carries a non-empty token. */
  function IntendedSettle(result: LoginResult, numberToString: real -> string): (c: Completion)
    ensures c.LoggedIn? ==> c.token != ""
    ensures c.LoginFailed? ==> c.message != ""
    ensures Settle(result, numberToString).LoginFailed? ==> c == Settle(result, numberToString)
    ensures Settle(result, numberToString).LoggedIn? && Settle(result, numberToString).token != "" ==>
      c == Settle(result, numberToString)
    ensures Settle(result, numberToString) == LoggedIn("") ==> c == LoginFailed(MissingTokenText)
  {
    match Settle(result, numberToString)
    case LoggedIn(token) => if token == "" then LoginFailed(MissingTokenText) else LoggedIn(token)
    case LoginFailed(message) => LoginFailed(message)
  }

  /** With the intended check, the empty-array token is reported as missing. */
  lemma EmptyArrayTokenIntended(numberToString: real -> string)
    ensures IntendedSettle(Returned(Object(map["access_token" := Array([])])), numberToString) ==
      LoginFailed(MissingTokenText)
  {
    EmptyArrayTokenStoresEmpty(numberToString);
  }

  /** A non-ok response with an empty body reports its status as
      `Error <digits>`, and the digits read back as that status. */
  lemma StatusOnlyErrorMessage(status: nat, host: Host)
    ensures var c := Settle(Login(Reply(false, status, ""), host), host.numberToString);
            && c == LoginFailed("Error " + NatToString(status))
            && AllDigits(c.message[6..]) && DigitsValue(c.message[6..]) == status
  {
    var c := Settle(Login(Reply(false, status, ""), host), host.numberToString);
    assert c.message[6..] == NatToString(status);
    NatToStringRoundTrip(status);
  }

  /** A non-ok response whose body carries a string `message` shows exactly
      that message; one with a body that is not JSON shows the body text. */
  lemma ServerMessageShown(status: nat, text: string, host: Host)
    requires text != ""
    ensures var c := Settle(Login(Reply(false, status, text), host), host.numberToString);
            var data := ParseBody(text, host.parse);
            && (Get(data, "message").Str? && Truthy(Get(data, "message")) ==> c == LoginFailed(Get(data, "message").s))
            && (!Truthy(Get(data, "message")) ==> c == LoginFailed(text))
  {
  }

  /** An ok response whose body parses to `{ access_token: tok }` with a
      non-empty `tok` logs in with exactly `tok`. */
  lemma LoginRoundTrip(status: nat, text: string, host: Host, tok: string)
    requires text != "" && tok != ""
    requires host.parse(text) == Some(Object(map["access_token" := Str(tok)]))
    ensures Settle(Login(Reply(true, status, text), host), host.numberToString) == LoggedIn(tok)
  {
  }

  /** The page's observable state: the message element, the submit button,
      `localStorage`, the location, and the log of login requests sent. */
  class LoginPage {
    var messageText: string
    var messageClass: string
    var buttonDisabled: bool
    var storage: map<string, string>
    var location: string
    var sent: seq<Credentials>
    const host: Host

    /** Lines 2-6 look the elements up; their starting text, class and
        `disabled` flag come from the page's markup and are taken as given. */
    constructor (host: Host, messageText: string, messageClass: string, buttonDisabled: bool,
                 storage: map<string, string>, location: string)
      ensures this.host == host && this.storage == storage && this.location == location
      ensures this.messageText == messageText && this.messageClass == messageClass
      ensures this.buttonDisabled == buttonDisabled && sent == []
    {
      this.host := host;
      this.messageText := messageText;
      this.messageClass := messageClass;
      this.buttonDisabled := buttonDisabled;
      this.storage := storage;
      this.location := location;
      sent := [];
    }

    /** Lines 8-11. Every call passes a string, for which `text || ''` is
        `text` itself. */
    method SetMessage(text: string, kind: string)
      modifies this`messageText, this`messageClass
      ensures messageText == text && messageClass == MessageClass(kind)
    {
      messageText := text;
      messageClass := MessageClass(kind);
    }

    /** Lines 32-42, the handler up to its `await`: clear the message, validate
        the form, and either report the missing field or disable the button
        and send the request. */
    method Submit(emailValue: string, passwordValue: string) returns (request: Option<Credentials>)
      modifies this
      ensures request == Validate(emailValue, passwordValue)
      ensures storage == old(storage) && location == old(location)
      ensures request.None? ==>
        && messageText == IncompleteFormText && messageClass == MessageClass(ErrorKind)
        && buttonDisabled == old(buttonDisabled) && sent == old(sent)
      ensures request.Some? ==>
        && messageText == "" && messageClass == MessageClass(PlainKind)
        && buttonDisabled && sent == old(sent) + [request.value]
    {
      SetMessage("", PlainKind);
      var email := Trim(emailValue);
      var password := passwordValue;
      ghost var validated := Validate(emailValue, passwordValue);
      if email == "" || password == "" {
        assert validated == None;
        SetMessage(IncompleteFormText, ErrorKind);
        return None;
      }
      assert validated == Some(Credentials(email, password));
      buttonDisabled := true;
      sent := sent + [Credentials(email, password)];
      request := Some(Credentials(email, password));
    }

    /** Lines 41-47, the try block once the request has settled: store the
        token, report success and move to the dashboard, or throw. */
    method TryLogin(reply: Transport) returns (thrown: Option<string>)
      modifies this`storage, this`messageText, this`messageClass, this`location
      ensures match TryBlock(Login(reply, host), host.numberToString)
        case LoggedIn(token) =>
          && thrown == None
          && storage == old(storage)[AuthTokenKey := token]
          && messageText == SuccessText && messageClass == MessageClass(SuccessKind)
          && location == DashboardPage
        case LoginFailed(message) =>
          && thrown == Some(message)
          && storage == old(storage) && location == old(location)
          && messageText == old(messageText) && messageClass == old(messageClass)
    {
      var result := Login(reply, host);
      match result {
        case Threw(m) =>
          return Some(m);
        case Returned(data) =>
          if IsNullish(data) {
            return Some(PropertyReadError(data, "access_token"));
          }
          var token := SelectToken(data);
          if !Truthy(token) {
            return Some(MissingTokenText);
          }
          var stored := ToJsString(token, host.numberToString);
          if stored.None? {
            return Some(ConversionErrorText);
          }
          storage := storage[AuthTokenKey := stored.value];
          SetMessage(SuccessText, SuccessKind);
          location := DashboardPage;
          return None;
      }
    }

    /** Lines 41-52, the handler after the request settles: the try block,
        the catch block that reports the error, and the finally block that
        re-enables the button. */
    method Resume(reply: Transport)
      modifies this
      ensures !buttonDisabled && sent == old(sent)
      ensures match TryBlock(Login(reply, host), host.numberToString)
        case LoggedIn(token) =>
          && storage == old(storage)[AuthTokenKey := token]
          && messageText == SuccessText && messageClass == MessageClass(SuccessKind)
          && location == DashboardPage
        case LoginFailed(message) =>
          && storage == old(storage)
          && messageText == CaughtMessage(message) && messageClass == MessageClass(ErrorKind)
          && location == old(location)
    {
      ghost var attempt := TryBlock(Login(reply, host), host.numberToString);
      var thrown := TryLogin(reply);
      if thrown.Some? {
        assert attempt == LoginFailed(thrown.value);
        SetMessage(CaughtMessage(thrown.value), ErrorKind);
      } else {
        assert attempt.LoggedIn?;
      }
      buttonDisabled := false;
    }

    /** The whole handler for one submission whose request settles with
        `reply` before anything else happens on the page. */
    method HandleSubmit(emailValue: string, passwordValue: string, reply: Transport)
      modifies this
      ensures var v := Validate(emailValue, passwordValue);
        && sent == old(sent) + (if v.Some? then [v.value] else [])
        && (v.None? ==>
          && messageText == IncompleteFormText && messageClass == MessageClass(ErrorKind)
          && buttonDisabled == old(buttonDisabled)
          && storage == old(storage) && location == old(location))
        && (v.Some? ==> !buttonDisabled)
        && (v.Some? ==> match Settle(Login(reply, host), host.numberToString)
          case LoggedIn(token) =>
            && storage == old(storage)[AuthTokenKey := token]
            && messageText == SuccessText && messageClass == MessageClass(SuccessKind)
            && location == DashboardPage
          case LoginFailed(message) =>
            && storage == old(storage)
            && messageText == message && messageClass == MessageClass(ErrorKind)
            && location == old(location))
    {
      var request := Submit(emailValue, passwordValue);
      if request.Some? {
        Resume(reply);
      }
    }
  }
}
