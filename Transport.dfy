/** The nodemailer transporter, seen from the adapter: an object built from a
    record of options whose `verify`, `sendMail` and `close` are calls into the
    SMTP engine. Their outcomes are not computed here; each call takes the
    outcome as a parameter and the transporter records the call, so that what
    the adapter did to it can be stated afterwards. */
module Transport {
  import opened Js

  /** `auth: { user, pass }` in the options record. */
  datatype Auth = Auth(user: JsValue, pass: JsValue)

  /** One attachment as `sendMail` expects it. */
  datatype MailAttachment = MailAttachment(path: string, filename: Option<string>)

  /** The flat message record `sendMail` takes: addresses already rendered as strings. */
  datatype MailRecord = MailRecord(
    from: string,
    to: seq<string>,
    cc: seq<string>,
    bcc: seq<string>,
    replyTo: Option<string>,
    subject: string,
    text: Option<string>,
    html: Option<string>,
    headers: map<string, string>,
    attachments: seq<MailAttachment>)

  /** The transport's acknowledgement of a delivered message. */
  datatype Info = Info(messageId: string, accepted: seq<string>, rejected: seq<string>)

  /** A call the adapter made on a transporter. */
  datatype Call =
    | VerifyCall(succeeded: bool)
    | SendMailCall(mail: MailRecord)
    | CloseCall

  /** What `nodemailer.createTransport(options)` returns. */
  class Transporter<O> {
    const options: O
    var calls: seq<Call>

    /** `nodemailer.createTransport(options)`: nothing has been asked of it yet. */
    constructor (options: O)
      ensures this.options == options && calls == []
    {
      this.options := options;
      calls := [];
    }

    /** Some call to `verify()` on this transporter succeeded. */
    predicate PassedVerify()
      reads this
    {
      VerifyCall(true) in calls
    }

    /** `await transporter.verify()`, with the engine's outcome given as `outcome`. */
    method Verify(outcome: Result<()>) returns (r: Result<()>)
      modifies this
      ensures calls == old(calls) + [VerifyCall(outcome.Ok?)]
      ensures r == outcome
    {
      calls := calls + [VerifyCall(outcome.Ok?)];
      r := outcome;
    }

    /** `await transporter.sendMail(mail)`, with the engine's outcome given as `outcome`. */
    method SendMail(mail: MailRecord, outcome: Result<Info>) returns (r: Result<Info>)
      modifies this
      ensures calls == old(calls) + [SendMailCall(mail)]
      ensures r == outcome
    {
      calls := calls + [SendMailCall(mail)];
      r := outcome;
    }

    /** `transporter.close()`, awaited when it returns a promise; an `Err` outcome is a
        throw or a rejected promise. The call is recorded either way. */
    method Close(outcome: Result<()>) returns (r: Result<()>)
      modifies this
      ensures calls == old(calls) + [CloseCall]
      ensures r == outcome
    {
      calls := calls + [CloseCall];
      r := outcome;
    }
  }
}
