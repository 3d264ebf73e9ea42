# Login form model

A Dafny model of the login page script `app.js`. The script has three parts:

- `setMessage` writes the text and class of the message element.
- `login` POSTs the credentials to `/auth/login` and reads the response body
  leniently. On a non-ok status it throws an Error with the best detail it has.
- The submit handler validates the form and disables the button. It then picks
  the session token out of the response, stores it in `localStorage` under
  `authToken` and moves to `dashboard.html`, or shows the error. It re-enables
  the button in every case.

The files:

- `js_values.dfy` (module `JsValues`) holds the JavaScript values a parsed body
  can contain and the language rules the script relies on. These are
  ToBoolean, `||`, optional property reads, and the string conversion that
  `localStorage.setItem` applies. A chain of `||` is proved equal to a
  first-truthy reference definition.
- `js_strings.dfy` holds two modules. `JsStrings` is `String.prototype.trim`
  with the whitespace set of ECMAScript 2023, sections 12.2 and 12.3. `Decimal`
  renders a status code in decimal and proves the rendering reads back.
- `login_form.dfy` (module `LoginForm`) models `app.js`. Its pure functions
  make the decisions: validation, body parsing, error detail, token choice and
  the final outcome. The class `LoginPage` holds the page's observable state:
  message text and class, the button's `disabled` flag, `localStorage`, the
  location, and a log of the login requests sent. `Submit` is the handler up to
  its `await`, `Resume` is the part after the request settles (its try block is
  `TryLogin`), and `HandleSubmit` runs the two back to back.

The browser's own services are parameters, bundled in `Host`:

- `JSON.parse` is a partial function. `None` means it throws.
- `JSON.stringify` is a function.
- Number formatting is a function.

How `fetch` settles is passed in as a `Transport` value: either a response
(`ok`, status, body text) or a rejection with the error's message.

## Model

| member | source | states |
|---|---|---|
| `JsStrings.LeadingWhitespace` | app.js:34 | the count is the length of the longest all-whitespace prefix: every character before it is whitespace and the one at it is not |
| `JsStrings.TrailingWhitespace` | app.js:10 | the count is the length of the longest all-whitespace suffix |
| `JsStrings.Trim` | app.js:34 | the trimmed string is no longer than the input, and is empty exactly when the input is all whitespace |
| `JsStrings.TrimIsTrimmed` | app.js:34 | the trimmed string has no whitespace at either end |
| `JsStrings.WhitespaceEndsApart` | app.js:34 | in a string that is not all whitespace, the leading and the trailing whitespace do not meet |
| `JsStrings.TrimKeepsInfix` | app.js:34 | trimming a string that is not all whitespace keeps exactly the part between its leading and trailing whitespace |
| `JsStrings.TrimOfTrimmed` | app.js:34 | a string with no whitespace at its ends is unchanged by trimming |
| `JsStrings.TrimIdempotent` | app.js:34 | trimming twice gives the same as trimming once |
| `JsStrings.TrimAfterPrefix` | app.js:10 | trimming a word that starts with a non-space followed by whitespace leaves the word without its trailing whitespace |
| `JsStrings.TrimAfterWordBlank` | app.js:10 | trimming a word, a space and blank text leaves the word |
| `JsStrings.TrailingOfWhitespaceSuffix` | app.js:10 | appending n whitespace characters adds n to the trailing whitespace count |
| `Decimal.NatToString` | app.js:25 | the status text is a non-empty run of decimal digits with no leading zero, of length one exactly for statuses below 10 |
| `Decimal.NatToStringRoundTrip` | app.js:25 | reading the digits of a rendered status back gives the same status |
| `JsValues.FirstTruthy` | app.js:43 | the index of the first truthy value in a list: all values before it are falsy and the one at it is truthy |
| `JsValues.OrChainIsFirstTruthy` | app.js:43 | a left-grouped chain of logical-or operators yields the first truthy operand, yields the last operand when none is truthy, and is truthy exactly when some operand is |
| `JsValues.FirstTruthyOfPrefix` | app.js:43 | dropping the last operand of a chain keeps the position of a truthy operand found earlier |
| `JsValues.ToJsString` | app.js:45 | the conversion `setItem` applies completes exactly when no object with an own `toString` property is reached, through array elements included. A string converts to itself, a number by the supplied formatting, a boolean, `null` and `undefined` to their names, and a convertible object to "[object Object]" |
| `LoginForm.MessageClass` | app.js:8-11 | the class is "message" for an empty or blank type, and "message", a space and the type for a type with no whitespace at its ends |
| `LoginForm.TrimOfMessageClass` | app.js:10 | trimming the class template gives those two cases |
| `LoginForm.KeywordClasses` | app.js:33-49 | the types the handler passes give the classes "message", "message" and a space followed by "error", and the same followed by "success" |
| `LoginForm.Validate` | app.js:34-39 | the submission is rejected exactly when the email is all whitespace or the password is empty; otherwise the credentials are the trimmed email and the password exactly as typed, and the email has no edge whitespace and is not empty |
| `LoginForm.ErrorDetail` | app.js:25 | the detail is always truthy; it is the body's `message` when that is truthy, else the raw text when it is not empty, else "Error " and the status digits |
| `LoginForm.Login` | app.js:13-29 | `login` returns exactly when the response is ok, so an empty or unparsable body never makes it throw; the data it returns is `{}` or what the parser produced. A rejected request throws its own error. A non-ok response with a string detail throws a non-empty message. The three outcomes are given in full |
| `LoginForm.LenientBody` | app.js:21-23 | an ok response whose body is empty or not JSON returns `{}` from `login`, and the handler then reports the missing token |
| `LoginForm.SelectTokenIsFirstTruthy` | app.js:43 | the token is truthy exactly when one of `access_token`, `token`, `jwt` is, and then it is the first truthy one in that order |
| `LoginForm.EmptyAccessTokenFallsThrough` | app.js:43 | an empty `access_token` is passed over in favour of a non-empty `token` |
| `LoginForm.PropertyReadError` | app.js:43 | reading a property of a null or undefined body raises an error with a non-empty message |
| `LoginForm.CaughtMessage` | app.js:49 | the shown error is the error's message, or the fixed fallback text when that message is empty; it is never empty |
| `LoginForm.TryBlock` | app.js:42-47 | the try block completes exactly when `login` returned non-nullish data with a truthy token that converts to a string, and then it stores that conversion. Otherwise it throws: the error `login` threw, the property-read TypeError for `null` or `undefined` data, the missing-token error for data without a token, or the TypeError for a token that does not convert |
| `LoginForm.Settle` | app.js:42-49 | the handler logs in exactly when the try block completes, and then it stores the converted token. A thrown error shows its message. Nullish data shows the property-read TypeError, data without a token the missing-token text, and an unconvertible token the conversion TypeError. Every failure has a non-empty message |
| `LoginForm.StatusOnlyErrorMessage` | app.js:24-26 | a non-ok response with an empty body shows "Error " and digits that read back as the status |
| `LoginForm.ServerMessageShown` | app.js:24-26 | a non-ok response shows the body's string `message` when there is one, and the raw body text when the body has no truthy `message` |
| `LoginForm.LoginRoundTrip` | app.js:42-46 | an ok response whose body parses to `{access_token: tok}` with a non-empty `tok` logs in with exactly `tok` |
| `LoginForm.UnconvertibleTokenFails` | app.js:45-49 | an ok response whose token is an object with an own `toString` property does not log in: `setItem` throws and the TypeError text is shown |
| `LoginForm.StringTokenNotEmpty` | app.js:43-45 | a login whose token is a string stores exactly that string, which is never empty |
| `LoginForm.EmptyArrayTokenStoresEmpty` | app.js:43-45 | as written, an ok response with `{access_token: []}` logs in and stores the empty string as the session token |
| `LoginForm.IntendedSettle` | app.js:43-45 | the intended outcome: a login always carries a non-empty token, every failure a non-empty message, and it agrees with the handler on every outcome except a login with the empty token, which it reports as a missing token |
| `LoginForm.EmptyArrayTokenIntended` | app.js:43-45 | under the intended check, `{access_token: []}` is reported as a missing token |
| `LoginForm.LoginPage.constructor` | app.js:2-6 | the page starts with the given message text and class, button flag, storage and location, and no requests sent |
| `LoginForm.LoginPage.SetMessage` | app.js:8-11 | sets the text to the given string and the class to the class of the type; nothing else changes |
| `LoginForm.LoginPage.Submit` | app.js:32-42 | clears the message. On a rejected form it shows the error text with the error class and leaves the button and log alone. Otherwise it disables the button and sends exactly the validated credentials. Storage and location are unchanged |
| `LoginForm.LoginPage.TryLogin` | app.js:41-47 | when the try block completes it adds `authToken` with the selected token to storage, shows the success text with the success class and sets the location to `dashboard.html`. When it throws, it returns the error's message and changes none of these |
| `LoginForm.LoginPage.Resume` | app.js:41-52 | re-enables the button. When the try block completes it adds `authToken` with the converted token to storage, shows the success text with the success class and sets the location to `dashboard.html`. When it throws, storage and location are unchanged and the caught message is shown with the error class |
| `LoginForm.LoginPage.HandleSubmit` | app.js:31-53 | the whole handler. A rejected form sends nothing and keeps the button and storage. An accepted one sends one request and always ends with the button enabled, and storage changes only by the token on success |

## Left out

- `fetch` itself, the URL built from `window.APP_CONFIG.API_BASE` and the
  request headers: the request is recorded as the credentials it carries, and
  the way it settles is an input.
- `JSON.parse`, `JSON.stringify` and number formatting are parameters, not
  implementations.
- Durability of `localStorage` across reloads, and exceptions from `setItem`
  other than the failed conversion of the token, for example a full quota.
- Navigation: assigning `window.location.href` is recorded as the new
  location. The page unload it triggers is not modelled.
- DOM lookup and event registration (app.js:2-6, app.js:31).
  `e.preventDefault()` has no state of its own in this model.
- Concurrency. Two submissions whose requests overlap are not modelled. The
  button flag is kept, and `HandleSubmit` assumes the request settles before
  anything else happens on the page.
- A failure of `res.text()` and a missing `window.APP_CONFIG` are not
  modelled: both would throw into the catch block.
- LoginForm.PropertyReadError: the TypeError text for reading a property of
  `null` or `undefined` depends on the JavaScript engine. The model uses V8's
  wording, and only its non-emptiness is stated.
- LoginForm.MessageClass: for a type that has leading whitespace, or that has
  trailing whitespace without being blank, the contract does not state the
  result. The handler never passes such a type.
- LoginForm.LoginPage.SetMessage: `text || ''` is modelled as the text itself.
  Every call passes a string, and for a string the two are equal.
- JsValues.Get: only own properties are modelled. None of the names the
  script reads is inherited by a JSON value.
- JsValues.ToJsString: for arrays the contract states only when the
  conversion completes, not the comma-joined text it produces.
- The TypeError text of a failed token conversion depends on the JavaScript
  engine; the model uses V8's wording.
- Strings are sequences of Unicode scalar values. JavaScript strings are
  sequences of UTF-16 code units, so a form value holding a lone surrogate
  cannot be represented. `trim` and the emptiness tests treat every other
  value the same way under both readings.
- The starting text and class of the message element and the starting state
  of the button come from the page's markup, which is not part of this model;
  the constructor takes them as parameters.
- Numbers are finite reals, so NaN, the infinities and the sign of zero are
  not represented. `JSON.parse` never produces NaN, and both zeros are falsy.
  It turns a literal such as `1e400` into an infinity and `1e-400` into zero;
  the parser and the number formatting are parameters with no constraint, so
  any outcome those values lead to can still be expressed.
- `src/api.ts` and `src/main.ts`: HTTP wrappers with fixed paths and the
  router table. Neither holds decision logic. The two-factor, registration and
  password-reset flows appear there only as one-line endpoint calls. There is
  no challenge store or flow state machine in the code to model.

## Findings

| source | as written | input that shows it | evidently intended | confidence | as-written member | corrected member |
|---|---|---|---|---|---|---|
| app.js:43-45 | `if (!token)` lets any array through, since arrays are truthy, and `setItem` stores the array's string form, which is empty for `[]`, `[null]` or `[""]` | an ok response with body `{"access_token": []}`: the page stores `authToken` as the empty string and goes to `dashboard.html` | a token whose stored form is empty is treated as missing, so a login always stores a non-empty token | not executed; from reading the code | `LoginForm.EmptyArrayTokenStoresEmpty` | `LoginForm.IntendedSettle` |

The page methods follow the code as written; `IntendedSettle` and
`EmptyArrayTokenIntended` state the corrected outcome beside it.
