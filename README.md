# zyx-nodemailer, modelled in Dafny

The repository is a thin SMTP adapter around the `nodemailer` library. A tenant
supplies five settings (`smtp_host`, `smtp_port`, `smtp_secure`, `smtp_username`,
`smtp_password`). The adapter validates them, builds a nodemailer transporter,
converts its internal message record into the flat record `sendMail` expects,
and reports the outcome. Two revisions of the emailer exist side by side:

- `lib/createEmailer.js` holds a `NodeEmailer`. Its constructor coerces the settings
  and starts a fire-and-forget `verify()`. Its `send` never throws and wraps every
  transport outcome in `{ success, message, info }`. The file also holds the
  `createEmailer` factory, which checks the settings first.
- `lib/nodeEmailer.js` holds a `NodeEmailer` with a connection lifecycle. The held
  connection is either absent or a transporter that passed `verify()`.
  `createTransport`, `connect`, `disconnect` and a lazily connecting `send` change it.

The model has these modules:

- `Js` — the JavaScript semantics the code relies on: values, truthiness, `typeof`,
  `String(v)`, `parseInt(s, 10)` and `Array.prototype.join`.
- `Transport` — nodemailer's transporter as an abstract object. Calls to `verify`,
  `sendMail` and `close` take their outcome as a parameter, and the transporter
  records each call. That record lets the contracts say what was done to it.
- `MessageFormat` — `formatAddress` and `_convertToNodemailerFormat`, as pure
  functions. `ParseAddress` is their inverse on well-formed addresses.
- `Validation` — the join-and-throw of the validator's error list. Both files use it.
- `EmailerFactory` — the rest of `lib/createEmailer.js`.
- `SmtpService` — `lib/nodeEmailer.js`. It is a class with a `Valid()` invariant:
  a held connection passed verify and is also `transport`. A failed transporter
  is never stored.
- `Agreement` — how the two revisions' transport options relate.

Each `await` is one sequential step. A thrown error or a rejected promise is the
`Err` case of `Js.Result`. JavaScript `undefined` is `Js.Option.None`. In the
one place a number is optional, the `port` of `EmailerFactory.SmtpOptions` and the
result of `Js.ParseInt`, `None` stands for NaN instead.

Four points where the code's behaviour is easy to misread:

- An address with an empty name is rendered as the bare email, by JavaScript
  truthiness. This is not just the case of an absent name.
- A missing `replyTo` or attachment `filename` becomes an explicit `undefined`. It
  is not left out of the record.
- `send` in `lib/nodeEmailer.js` does not catch anything. A failed connect or a
  failed `sendMail` reaches the caller as an error.
- `lib/nodeEmailer.js` passes `smtp_port` and `smtp_secure` to nodemailer
  unconverted. A string `"false"` reaches nodemailer as a truthy value
  (`Agreement.StringSettingsDiffer`).

## Model

| member | source | states |
|---|---|---|
| `Js.ToJsString` | lib/createEmailer.js:39 | `String(v)` for each kind of value, the conversion `parseInt` applies first; its properties are `Js.StringTrueValues` and `Js.DecimalRoundTrip` |
| `Js.ParseInt` | lib/createEmailer.js:39 | `parseInt(_, 10)` gives NaN exactly when the string does not start with a digit |
| `Js.ParseIntOfDigits` | lib/createEmailer.js:39 | a run of digits followed by nothing or by a non-digit parses to the value of the digits |
| `Js.DecimalRoundTrip` | lib/createEmailer.js:39 | `parseInt(String(n), 10) == n` for every number the model holds (safe integers up to 2^53 - 1), so a numeric port is kept |
| `Js.DecimalString` | lib/createEmailer.js:39 | `String(n)` is a non-empty string of decimal digits |
| `Js.StringTrueValues` | lib/createEmailer.js:40 | `String(v) === "true"` holds exactly for the string "true" and the boolean `true` |
| `Js.Join` | lib/createEmailer.js:136 | `parts.join(sep)`, "" for no parts; its properties are the three lemmas below |
| `Js.JoinLength` | lib/createEmailer.js:136 | the joined length is the parts' total plus one separator per gap |
| `Js.JoinContainsEach` | lib/createEmailer.js:136 | every part occurs in the joined string |
| `Js.JoinAppend` | lib/createEmailer.js:136 | joining a concatenation joins the two halves with one separator |
| `Validation.Messages` | lib/createEmailer.js:136 | `errors.map(e => e.message)`: same length, element i is the message of error i |
| `Validation.ConfigInvalid` | lib/nodeEmailer.js:40-44 | an error is raised iff the error list is non-empty; its message is "SMTP config invalid: " and the messages joined by ", " |
| `Validation.ConfigInvalidNamesEachError` | lib/createEmailer.js:135-138 | the raised message contains the message of every field error |
| `Validation.ConfigInvalidAppend` | lib/createEmailer.js:136-138 | one more field error appends ", " and its message to the raised message |
| `MessageFormat.FormatAddress` | lib/createEmailer.js:99-100 | `"name" <email>` when the name is truthy, the bare email otherwise; its inverse is stated by `MessageFormat.FormatAddressRoundTrip` |
| `MessageFormat.FormatAll` | lib/createEmailer.js:104-106 | `xs.map(formatAddress)`: same length and order, element i is `formatAddress` of input i |
| `MessageFormat.ConvertAttachment` | lib/createEmailer.js:112-115 | `path` is kept; `filename` is kept when truthy and `undefined` otherwise |
| `MessageFormat.ConvertAttachments` | lib/createEmailer.js:112-115 | the attachment list keeps its length and order, element by element |
| `MessageFormat.ConvertToNodemailerFormat` | lib/createEmailer.js:98-116 | `from` and `replyTo` are formatted, and `replyTo` is `undefined` iff absent; `to`/`cc`/`bcc` are mapped element-wise; subject, text, html and headers are copied; attachments are mapped element-wise |
| `MessageFormat.FormatAddressRoundTrip` | lib/createEmailer.js:99-100 | reading back `"name" <email>` or a bare email gives back the address, with an empty name dropped |
| `MessageFormat.FormatAddressInjective` | lib/createEmailer.js:99-100 | two well-formed addresses render alike iff they agree up to an empty name |
| `MessageFormat.UnescapedQuoteCollision` | lib/createEmailer.js:100 | a quote inside a name is not escaped, so two different addresses can render the same string |
| `EmailerFactory.SecureFlag` | lib/createEmailer.js:40 | `smtp_secure` is the string "true" or the boolean `true`; characterised by `EmailerFactory.SecureFlagMeansTrue` |
| `EmailerFactory.SecureFlagMeansTrue` | lib/createEmailer.js:40 | `secure` is set exactly when `smtp_secure` is "true" or `true`; "false", `false` and all else leave it off |
| `EmailerFactory.CoerceConfig` | lib/createEmailer.js:37-45 | the `smtpConfig` record built from the raw settings; its fields are stated by `EmailerFactory.CoerceConfigFields` |
| `EmailerFactory.CoerceConfigFields` | lib/createEmailer.js:37-45 | host, user and password are copied; port is the decimal value of a number or digit string; the secure rule |
| `EmailerFactory.PortStringCoerced` | lib/createEmailer.js:39 | the port string "587" becomes the number 587 |
| `EmailerFactory.RejectsConfig` | lib/createEmailer.js:23 | the guard `!config` or `typeof config !== "object"`; characterised by `EmailerFactory.RejectsExactlyNonObjects` |
| `EmailerFactory.RejectsExactlyNonObjects` | lib/createEmailer.js:23 | the constructor's guard refuses everything but objects, `null` included |
| `EmailerFactory.CreateTransporter` | lib/createEmailer.js:36-60 | a new transporter with the coerced options, verified once; it is returned whatever verify reports |
| `EmailerFactory.NodeEmailer.constructor` | lib/createEmailer.js:27-28 | `_config` is the config and `_transporter` the transporter built from it |
| `EmailerFactory.NodeEmailer.Send` | lib/createEmailer.js:74-90 | one `sendMail` with the converted message; `success` iff the transport succeeded; `info` is the reply or the error; `message` is the input; nothing is thrown |
| `EmailerFactory.Construct` | lib/createEmailer.js:20-29 | throws "Missing or invalid config passed to NodeEmailer." iff the config is not an object; otherwise a new emailer over that config |
| `EmailerFactory.CreateEmailer` | lib/createEmailer.js:126-149 | throws with prefix "SMTP config invalid: " iff the validator reports errors, with the joined messages; otherwise wraps a constructor failure as "Failed to create NodeEmailer: ..."; with no errors and an object as the validated settings, a new emailer over them is returned, its transporter verified once; an emailer is returned only when there are no errors |
| `SmtpService.TransportOptions` | lib/nodeEmailer.js:82-100 | host, port, secure and auth come from the config unchanged; requireTLS on, certificate checks off, logger and debug off, name "localhost" |
| `SmtpService.NodeEmailer.VerifyConfig` | lib/nodeEmailer.js:31-45 | throws "SMTP config invalid: " and the joined messages iff the validator reports errors; returns normally otherwise |
| `SmtpService.NodeEmailer.CreateTransport` | lib/nodeEmailer.js:81-112 | on a verify success the new transporter is both `connection` and `transport`; on failure it is closed, `connection` is absent and "Unable to connect to SMTP server: " and the cause is thrown; the invariant holds either way |
| `SmtpService.NodeEmailer.Connect` | lib/nodeEmailer.js:54-56 | exactly the effect of `createTransport` |
| `SmtpService.NodeEmailer.Disconnect` | lib/nodeEmailer.js:65-72 | the held transporter, if any, receives one `close`; no other transporter is touched; `connection` ends absent iff nothing failed; a failed `close` propagates and leaves the connection held |
| `SmtpService.NodeEmailer.Send` | lib/nodeEmailer.js:121-128 | connects iff there is no connection; a failed connect propagates and `sendMail` is never called; otherwise the stored connection gets one `sendMail` with the built message and its outcome is returned; the invariant is kept |
| `SmtpService.DisconnectTwice` | lib/nodeEmailer.js:65-72 | after a `disconnect` that left no connection, a second call closes nothing and succeeds; after a failed `close` the second call closes the same transporter again |
| `Agreement.TypedSettingsAgree` | lib/createEmailer.js:37-45 | with a numeric port and a boolean secure flag, both revisions give nodemailer the same host, port, security and credentials |
| `Agreement.StringSettingsDiffer` | lib/nodeEmailer.js:85-92 | with a digit-string port and secure "false", the first revision passes a number and `false`; the second passes both strings, and "false" is truthy |

## Left out

- The SMTP protocol, STARTTLS, certificate trust and DNS inside nodemailer. The
  transporter is abstract: the outcomes of `verify`, `sendMail` and `close` are
  parameters.
- `SmtpService.NodeEmailer.CreateTransport`: the `close?.()` at lib/nodeEmailer.js:107 is
  taken not to throw. Its result is not awaited, so only a synchronous throw would
  matter; that throw would replace the "Unable to connect" error and skip the reset.
- The `zyx-schema` validator and its field rules. It is a function parameter
  returning `{ validated, errors }`. Only the join-and-throw of its errors is modelled.
- The `zyx-base` base class: the fluent builder, `buildMessageObject` and templating.
  The message built from `data` is the parameter `built` of `SmtpService.NodeEmailer.Send`.
  `setConnection(x)` is taken to set `connection` to `x`. The base constructor is
  modelled as leaving no connection.
  A comment at lib/nodeEmailer.js:26 says the base constructor calls `verifyConfig`,
  but the base class is not shown, so `SmtpService.NodeEmailer.constructor` does not validate.
- `SmtpService.NodeEmailer.constructor` has no source lines of its own; it stands for the base class.
- `this.config` in `lib/nodeEmailer.js` is modelled as an object. A null or missing
  config, on which destructuring would throw, is not modelled.
- Logging through `system.log` and the `showDetails` flag of `send`; they have no
  effect on results.
- Promises and scheduling. The fire-and-forget `verify()` in `_createTransporter` is
  recorded on the transporter. Its outcome never affects construction, and the
  rethrow in its `.catch` does not reach the constructor.
- `Js.ParseInt`: models `parseInt` only for strings without leading whitespace or a
  sign; a string with those is read as NaN here, unlike in JavaScript.
- Numbers other than non-negative safe integers: a configuration number is at most
  2^53 - 1 (`Js.SafeNat`). Negative, fractional, larger and NaN numbers, arrays and
  other objects' `String` forms besides "[object Object]" are not modelled.
- `Js.DecimalRoundTrip`, `Js.DecimalString`, `Js.ParseIntOfDigits`,
  `EmailerFactory.CoerceConfigFields`: these compute with unbounded integers. They
  match JavaScript only up to 2^53 - 1: from 10^21 on `String(n)` uses exponent form,
  and `parseInt` rounds a longer run of digits to a double. Configuration numbers
  stay in that range, but a digit-string port beyond it is parsed exactly here.
- A message whose `from`, `to`, `cc`, `bcc` or `attachments` is missing. The
  JavaScript would throw while converting it; the model's record types always have them.
- `lib/x-createEmailer.js` awaits the method reference `emailer.createTransport` without
  calling it, so it does nothing worth modelling.
- `index.js` only re-exports, and it needs `lib/closeEmailer`, which is not part of
  this model.
- testnodemailer.js, x-test2.js, test.js and sample.js are manual scripts that do
  live network I/O.
