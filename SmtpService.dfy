/** lib/nodeEmailer.js: the NodeEmailer service whose held connection is either
    absent or a transporter that passed `verify()`. `createTransport` stores a
    transporter only after a successful verify, `disconnect` closes and drops the
    held one, and `send` connects lazily. */
module SmtpService {
  import opened Js
  import opened Transport
  import opened Validation

  datatype TlsOptions = TlsOptions(rejectUnauthorized: bool)

  /** The options record `createTransport` hands to `nodemailer.createTransport`. */
  datatype ServiceOptions = ServiceOptions(
    host: JsValue,
    port: JsValue,
    secure: JsValue,
    auth: Auth,
    requireTLS: bool,
    tls: TlsOptions,
    logger: bool,
    debug: bool,
    name: string)

  const ConnectFailurePrefix := "Unable to connect to SMTP server: "

  /** The options for a configuration: the five settings passed through as they are,
      TLS upgrade required, certificate checks off, logging off, client name "localhost". */
  function TransportOptions(config: map<string, JsValue>): (o: ServiceOptions)
    ensures o.requireTLS && !o.tls.rejectUnauthorized
    ensures o.name == "localhost" && !o.logger && !o.debug
    ensures o.host == Get(config, "smtp_host") && o.port == Get(config, "smtp_port")
    ensures o.secure == Get(config, "smtp_secure")
    ensures o.auth == Auth(Get(config, "smtp_username"), Get(config, "smtp_password"))
  {
    ServiceOptions(
      Get(config, "smtp_host"),
      Get(config, "smtp_port"),
      Get(config, "smtp_secure"),
      Auth(Get(config, "smtp_username"), Get(config, "smtp_password")),
      true,
      TlsOptions(false),
      false,
      false,
      "localhost")
  }

  class NodeEmailer {
    /** `this.config`, set by the base class. */
    const config: map<string, JsValue>
    /** `this.connection`, read and written through the base class. */
    var connection: Option<Transporter<ServiceOptions>>
    /** `this.transport`: the last transporter that passed verify. */
    var transport: Option<Transporter<ServiceOptions>>

    /** The transporter this emailer holds, if any. */
    ghost function Held(): set<object>
      reads this
    {
      if connection.Some? then {connection.value} else {}
    }

    /** A held connection passed `verify()` and is `transport`. (It may have been
        closed: a `disconnect` whose `close` failed keeps it.) */
    ghost predicate Valid()
      reads this, Held()
    {
      connection.Some? ==> connection.value.PassedVerify() && transport == connection
    }

    /** A fresh emailer holds no connection. */
    constructor (config: map<string, JsValue>)
      ensures Valid()
      ensures this.config == config && connection.None? && transport.None?
    {
      this.config := config;
      connection := None;
      transport := None;
    }

    /** `verifyConfig()`: throws the joined validation messages, if there are any. */
    method VerifyConfig(validator: JsValue -> SchemaResult) returns (r: Result<()>)
      ensures r.Err? <==> |validator(Object(config)).errors| > 0
      ensures r.Err? ==> Some(r.error) == ConfigInvalid(validator(Object(config)).errors)
    {
      var invalid := ConfigInvalid(validator(Object(config)).errors);
      if invalid.Some? {
        r := Err(invalid.value);
      } else {
        r := Ok(());
      }
    }

    /** What `createTransport` leaves behind, given the outcome of `verify()`: on
        success the new transporter `t` is the connection and the transport; on failure
        `t` has been closed, the connection is absent and the error is raised. */
    twostate predicate TransportCreated(verifyOutcome: Result<()>, new r: Result<()>, new t: Transporter<ServiceOptions>)
      reads this, t
    {
      && fresh(t)
      && t.options == TransportOptions(config)
      && (verifyOutcome.Ok? ==>
            && r == Ok(())
            && t.calls == [VerifyCall(true)]
            && connection == Some(t)
            && transport == Some(t))
      && (verifyOutcome.Err? ==>
            && r == Err(Error(ConnectFailurePrefix + verifyOutcome.error.message))
            && t.calls == [VerifyCall(false), CloseCall]
            && connection.None?
            && transport == old(transport))
    }

    /** `createTransport()` */
    method CreateTransport(verifyOutcome: Result<()>) returns (r: Result<()>, ghost t: Transporter<ServiceOptions>)
      modifies this
      ensures Valid()
      ensures TransportCreated(verifyOutcome, r, t)
    {
      var transporter := new Transporter(TransportOptions(config));
      t := transporter;
      var verified := transporter.Verify(verifyOutcome);
      match verified
      case Ok(_) =>
        transport := Some(transporter);
        connection := Some(transporter);
        r := Ok(());
      case Err(error) =>
        // `transporter.close?.()` is not awaited; it is taken not to throw.
        var _ := transporter.Close(Ok(()));
        connection := None;
        r := Err(Error(ConnectFailurePrefix + error.message));
    }

    /** `connect()`: exactly the effect of `createTransport()`. */
    method Connect(verifyOutcome: Result<()>) returns (r: Result<()>, ghost t: Transporter<ServiceOptions>)
      modifies this
      ensures Valid()
      ensures TransportCreated(verifyOutcome, r, t)
    {
      r, t := CreateTransport(verifyOutcome);
    }

    /** `disconnect()`: closes the held connection, if any, and then leaves none. When
        `close` fails its error propagates and the connection stays held. */
    method Disconnect(closeOutcome: Result<()>) returns (r: Result<()>)
      requires Valid()
      modifies this, Held()
      ensures Valid()
      ensures transport == old(transport)
      ensures old(connection).None? ==> r == Ok(()) && connection.None?
      ensures old(connection).Some? ==>
                && old(connection).value.calls == old(connection.value.calls) + [CloseCall]
                && (closeOutcome.Ok? ==> r == Ok(()))
                && (closeOutcome.Err? ==> r == closeOutcome)
      ensures r.Ok? <==> connection.None?
      ensures r.Err? ==> connection == old(connection)
    {
      if connection.Some? {
        var closed := connection.value.Close(closeOutcome);
        if closed.Err? {
          return closed;
        }
      }
      connection := None;
      r := Ok(());
    }

    /** `send(data)`: connects first when there is no connection, then hands the built
        message to the connection's `sendMail`; neither error is caught. The message
        built from `data` by the base class is the parameter `built`. `connected`
        reports whether `connect()` was called, `t` is the transporter used. */
    method Send(verifyOutcome: Result<()>, built: MailRecord, sendOutcome: Result<Info>)
      returns (r: Result<Info>, ghost connected: bool, ghost t: Transporter<ServiceOptions>)
      requires Valid()
      modifies this, Held()
      ensures Valid()
      ensures connected <==> old(connection).None?
      ensures !connected ==>
                && old(connection) == Some(t)
                && connection == old(connection) && transport == old(transport)
                && t.calls == old(connection.value.calls) + [SendMailCall(built)]
                && r == sendOutcome
      ensures connected ==> fresh(t) && t.options == TransportOptions(config)
      ensures connected && verifyOutcome.Err? ==>
                && r == Err(Error(ConnectFailurePrefix + verifyOutcome.error.message))
                && t.calls == [VerifyCall(false), CloseCall]
                && connection.None? && transport == old(transport)
      ensures connected && verifyOutcome.Ok? ==>
                && r == sendOutcome
                && t.calls == [VerifyCall(true), SendMailCall(built)]
                && connection == Some(t) && transport == Some(t)
    {
      connected := connection.None?;
      if connection.None? {
        var c;
        c, t := Connect(verifyOutcome);
        if c.Err? {
          r := Err(c.error);
          return;
        }
      } else {
        t := connection.value;
      }
      r := connection.value.SendMail(built, sendOutcome);
    }
  }

  /** Calling `disconnect()` twice, with the outcomes `first` and `second` for the
      `close` calls it makes. When the first call leaves no connection, the second
      closes nothing and succeeds; only after a failed close does the second call
      close the same transporter again. */
  method DisconnectTwice(e: NodeEmailer, first: Result<()>, second: Result<()>)
    returns (r1: Result<()>, r2: Result<()>)
    requires e.Valid()
    modifies e, e.Held()
    ensures e.Valid() && e.transport == old(e.transport)
    ensures old(e.connection).None? ==> r1 == Ok(()) && r2 == Ok(()) && e.connection.None?
    ensures old(e.connection).Some? && first.Ok? ==>
              && r1 == Ok(()) && r2 == Ok(()) && e.connection.None?
              && old(e.connection).value.calls == old(e.connection.value.calls) + [CloseCall]
    ensures old(e.connection).Some? && first.Err? ==>
              && r1 == first
              && (r2.Ok? <==> second.Ok?) && (second.Err? ==> r2 == second)
              && old(e.connection).value.calls == old(e.connection.value.calls) + [CloseCall, CloseCall]
              && (e.connection.None? <==> second.Ok?)
  {
    r1 := e.Disconnect(first);
    r2 := e.Disconnect(second);
  }
}
