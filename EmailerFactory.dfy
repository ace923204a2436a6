/** lib/createEmailer.js: the NodeEmailer that coerces the raw SMTP settings into
    transport options, wraps every send outcome into a delivery record, and the
    `createEmailer` factory that validates the settings first. */
module EmailerFactory {
  import opened Js
  import opened Transport
  import opened MessageFormat
  import opened Validation

  /** The options `_createTransporter` hands to `nodemailer.createTransport`;
      `port` is None when `parseInt` gives NaN. */
  datatype SmtpOptions = SmtpOptions(host: JsValue, port: Option<nat>, secure: bool, auth: Auth)

  /** `{ success, message, info }`, the value `send` resolves to. */
  datatype DeliveryResult = DeliveryResult(success: bool, message: EmailMessage, info: Result<Info>)
  {
    /** `success` says which of the two `info` holds: the reply or the error. */
    predicate Consistent()
    {
      success <==> info.Ok?
    }
  }

  const InvalidConfigError := Error("Missing or invalid config passed to NodeEmailer.")
  const CreationFailedPrefix := "Failed to create NodeEmailer: "

  /** `config.smtp_secure === "true" || config.smtp_secure === true` */
  function SecureFlag(v: JsValue): bool
  {
    v == Str("true") || v == Bool(true)
  }

  /** The secure flag is set exactly for the values whose string form is "true",
      so "false", `false`, `undefined` and every other value leave it off. */
  lemma SecureFlagMeansTrue(v: JsValue)
    ensures SecureFlag(v) <==> ToJsString(v) == "true"
  {
    StringTrueValues(v);
  }

  /** The `smtpConfig` record built from the raw settings. */
  function CoerceConfig(props: map<string, JsValue>): SmtpOptions
  {
    SmtpOptions(
      Get(props, "smtp_host"),
      ParseInt(ToJsString(Get(props, "smtp_port"))),
      SecureFlag(Get(props, "smtp_secure")),
      Auth(Get(props, "smtp_username"), Get(props, "smtp_password")))
  }

  /** What the coerced options hold: the host and credentials as given, the port as the
      decimal value of a number or of a digit string, the secure flag as above. */
  lemma CoerceConfigFields(props: map<string, JsValue>)
    ensures var o := CoerceConfig(props);
      && o.host == Get(props, "smtp_host")
      && o.auth.user == Get(props, "smtp_username")
      && o.auth.pass == Get(props, "smtp_password")
      && (o.secure <==> Get(props, "smtp_secure") in {Str("true"), Bool(true)})
      && (Get(props, "smtp_port").Number? ==> o.port == Some(Get(props, "smtp_port").n))
      && (Get(props, "smtp_port").Str? && Get(props, "smtp_port").s != [] &&
          AllDigits(Get(props, "smtp_port").s) ==>
            o.port == Some(DigitsValue(Get(props, "smtp_port").s)))
  {
    var port := Get(props, "smtp_port");
    if port.Number? {
      DecimalRoundTrip(port.n);
    }
    if port.Str? && port.s != [] && AllDigits(port.s) {
      ParseIntOfDigits(port.s, "");
      assert port.s + "" == port.s;
    }
  }

  /** The numeric string "587" is coerced to the port 587. */
  lemma PortStringCoerced(props: map<string, JsValue>)
    requires Get(props, "smtp_port") == Str("587")
    ensures CoerceConfig(props).port == Some(587)
  {
    ParseIntOfDigits("587", "");
    assert "587" + "" == "587";
    assert "587"[..2] == "58" && "58"[..1] == "5" && "5"[..0] == "";
  }

  /** The constructor's guard `!config || typeof config !== "object"`. */
  predicate RejectsConfig(config: JsValue)
  {
    !Truthy(config) || TypeOf(config) != "object"
  }

  /** The guard lets through exactly the objects: `null` is refused although its
      `typeof` is "object". */
  lemma RejectsExactlyNonObjects(config: JsValue)
    ensures RejectsConfig(config) <==> !config.Object?
  {
    match config
    case Null =>
    case _ =>
  }

  /** `_createTransporter(config)`: the transporter is returned whatever the
      fire-and-forget `verify()` later reports; its outcome is only logged. */
  method CreateTransporter(props: map<string, JsValue>, verifyOutcome: Result<()>)
    returns (t: Transporter<SmtpOptions>)
    ensures fresh(t) && t.options == CoerceConfig(props)
    ensures t.calls == [VerifyCall(verifyOutcome.Ok?)]
  {
    t := new Transporter(CoerceConfig(props));
    var _ := t.Verify(verifyOutcome);
  }

  class NodeEmailer {
    const config: JsValue
    const transporter: Transporter<SmtpOptions>

    /** The body of the constructor once the guard has passed. */
    constructor (props: map<string, JsValue>, verifyOutcome: Result<()>)
      ensures config == Object(props)
      ensures fresh(transporter) && transporter.options == CoerceConfig(props)
      ensures transporter.calls == [VerifyCall(verifyOutcome.Ok?)]
    {
      var t := CreateTransporter(props, verifyOutcome);
      config := Object(props);
      transporter := t;
    }

    /** `send(message)`: one `sendMail` with the converted message; a transport failure
        is returned inside the result, never thrown. */
    method Send(message: EmailMessage, sendOutcome: Result<Info>) returns (r: DeliveryResult)
      modifies transporter
      ensures transporter.calls == old(transporter.calls) + [SendMailCall(ConvertToNodemailerFormat(message))]
      ensures r.Consistent()
      ensures r.message == message && r.info == sendOutcome
    {
      var outcome := transporter.SendMail(ConvertToNodemailerFormat(message), sendOutcome);
      match outcome
      case Ok(info) =>
        r := DeliveryResult(true, message, Ok(info));
      case Err(error) =>
        r := DeliveryResult(false, message, Err(error));
    }
  }

  /** `new NodeEmailer(config)`: throws for anything but an object. */
  method Construct(config: JsValue, verifyOutcome: Result<()>) returns (r: Result<NodeEmailer>)
    ensures r.Err? <==> !config.Object?
    ensures r.Err? ==> r.error == InvalidConfigError
    ensures r.Ok? ==> fresh(r.value) && fresh(r.value.transporter) && r.value.config == config
    ensures r.Ok? ==> r.value.transporter.options == CoerceConfig(config.props)
    ensures r.Ok? ==> r.value.transporter.calls == [VerifyCall(verifyOutcome.Ok?)]
  {
    RejectsExactlyNonObjects(config);
    if RejectsConfig(config) {
      return Err(InvalidConfigError);
    }
    var emailer := new NodeEmailer(config.props, verifyOutcome);
    r := Ok(emailer);
  }

  /** `createEmailer(tenant)`: validates the tenant's settings with `validator`, throws
      the joined validation messages when there are any, and otherwise constructs an
      emailer from the validated settings. */
  method CreateEmailer(tenant: JsValue, validator: JsValue -> SchemaResult, verifyOutcome: Result<()>)
    returns (r: Result<NodeEmailer>)
    ensures (r.Err? && InvalidConfigPrefix <= r.error.message) <==> |validator(tenant).errors| > 0
    ensures |validator(tenant).errors| > 0 ==> r == Err(ConfigInvalid(validator(tenant).errors).value)
    ensures |validator(tenant).errors| == 0 && !validator(tenant).validated.Object? ==>
              r == Err(Error(CreationFailedPrefix + InvalidConfigError.message))
    ensures |validator(tenant).errors| == 0 && validator(tenant).validated.Object? ==>
              && r.Ok? && fresh(r.value.transporter)
              && r.value.transporter.calls == [VerifyCall(verifyOutcome.Ok?)]
    ensures r.Ok? ==> |validator(tenant).errors| == 0 && fresh(r.value)
    ensures r.Ok? ==> r.value.config == validator(tenant).validated
    ensures r.Ok? ==> r.value.transporter.options == CoerceConfig(validator(tenant).validated.props)
  {
    var answer := validator(tenant);
    var invalid := ConfigInvalid(answer.errors);
    if invalid.Some? {
      return Err(invalid.value);
    }
    var created := Construct(answer.validated, verifyOutcome);
    match created
    case Ok(emailer) =>
      r := Ok(emailer);
    case Err(error) =>
      r := Err(Error(CreationFailedPrefix + error.message));
      assert r.error.message[0] != InvalidConfigPrefix[0];
  }
}
