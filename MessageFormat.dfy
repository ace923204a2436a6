/** The message formatter of lib/createEmailer.js: `formatAddress` and
    `_convertToNodemailerFormat`, which turn the internal message record into
    the flat record nodemailer's `sendMail` takes. */
module MessageFormat {
  import opened Js
  import opened Transport

  /** `{ email, name }`; `name` may be absent. */
  datatype Address = Address(email: string, name: Option<string>)

  /** `{ path, filename }`; `filename` may be absent. */
  datatype Attachment = Attachment(path: string, filename: Option<string>)

  /** The internal message record (`message._message`). */
  datatype EmailMessage = EmailMessage(
    from: Address,
    to: seq<Address>,
    cc: seq<Address>,
    bcc: seq<Address>,
    replyTo: Option<Address>,
    subject: string,
    text: Option<string>,
    html: Option<string>,
    headers: map<string, string>,
    attachments: seq<Attachment>)

  /** The name is used exactly when it is truthy: present and non-empty. */
  predicate HasName(a: Address)
  {
    TruthyString(a.name)
  }

  /** `formatAddress`: `"name" <email>` when the name is truthy, the bare email otherwise.
      Quotes inside the name are not escaped. */
  function FormatAddress(a: Address): string
  {
    if HasName(a) then "\"" + a.name.value + "\" <" + a.email + ">" else a.email
  }

  /** `out` is `xs.map(formatAddress)`: same length, same order, element by element. */
  predicate FormatsEach(out: seq<string>, xs: seq<Address>)
  {
    |out| == |xs| && forall i :: 0 <= i < |xs| ==> out[i] == FormatAddress(xs[i])
  }

  /** `xs.map(formatAddress)` */
  function FormatAll(xs: seq<Address>): (r: seq<string>)
    ensures FormatsEach(r, xs)
  {
    if xs == [] then [] else FormatAll(xs[..|xs| - 1]) + [FormatAddress(xs[|xs| - 1])]
  }

  /** `att => ({ path: att.path, filename: att.filename || undefined })` */
  function ConvertAttachment(att: Attachment): (r: MailAttachment)
    ensures r.path == att.path
    ensures r.filename.Some? <==> TruthyString(att.filename)
    ensures r.filename.Some? ==> r.filename == att.filename
  {
    MailAttachment(att.path, if TruthyString(att.filename) then att.filename else None)
  }

  /** `attachments.map(...)` with the mapping above. */
  function ConvertAttachments(xs: seq<Attachment>): (r: seq<MailAttachment>)
    ensures |r| == |xs|
    ensures forall i :: 0 <= i < |xs| ==> r[i] == ConvertAttachment(xs[i])
  {
    if xs == [] then [] else ConvertAttachments(xs[..|xs| - 1]) + [ConvertAttachment(xs[|xs| - 1])]
  }

  /** `_convertToNodemailerFormat(msg)` */
  function ConvertToNodemailerFormat(msg: EmailMessage): (r: MailRecord)
    ensures r.from == FormatAddress(msg.from)
    ensures FormatsEach(r.to, msg.to) && FormatsEach(r.cc, msg.cc) && FormatsEach(r.bcc, msg.bcc)
    ensures r.replyTo.None? <==> msg.replyTo.None?
    ensures msg.replyTo.Some? ==> r.replyTo == Some(FormatAddress(msg.replyTo.value))
    ensures r.subject == msg.subject && r.text == msg.text && r.html == msg.html
    ensures r.headers == msg.headers
    ensures |r.attachments| == |msg.attachments|
    ensures forall i :: 0 <= i < |msg.attachments| ==>
              r.attachments[i].path == msg.attachments[i].path &&
              r.attachments[i].filename == (if TruthyString(msg.attachments[i].filename)
                                            then msg.attachments[i].filename else None)
  {
    MailRecord(
      FormatAddress(msg.from),
      FormatAll(msg.to),
      FormatAll(msg.cc),
      FormatAll(msg.bcc),
      if msg.replyTo.Some? then Some(FormatAddress(msg.replyTo.value)) else None,
      msg.subject,
      msg.text,
      msg.html,
      msg.headers,
      ConvertAttachments(msg.attachments))
  }

  // Reading a formatted address back.

  /** The index of the first double quote in `s`, if any. */
  function FirstQuote(s: string): (r: Option<nat>)
    ensures r.Some? ==> r.value < |s| && s[r.value] == '"' && '"' !in s[..r.value]
    ensures r.None? ==> '"' !in s
  {
    if s == [] then None
    else if s[0] == '"' then Some(0)
    else match FirstQuote(s[1..])
      case None => None
      case Some(j) => assert s[..j + 1] == [s[0]] + s[1..][..j]; Some(j + 1)
  }

  /** Reads `"name" <email>` back into its parts; anything else is a bare email. */
  function ParseAddress(s: string): Address
  {
    if |s| > 0 && s[0] == '"' && s[|s| - 1] == '>' then
      match FirstQuote(s[1..])
      case Some(j) =>
        if 0 < j && j + 4 < |s| && s[j + 2] == ' ' && s[j + 3] == '<'
        then Address(s[j + 4..|s| - 1], Some(s[1..j + 1]))
        else Address(s, None)
      case None => Address(s, None)
    else Address(s, None)
  }

  /** An address that `formatAddress` renders unambiguously: a name holds no quote,
      and a bare email does not itself begin with one. */
  predicate WellFormedAddress(a: Address)
  {
    (a.name.Some? ==> '"' !in a.name.value) &&
    (!HasName(a) ==> a.email == [] || a.email[0] != '"')
  }

  /** The address as `formatAddress` sees it: an empty name is no name. */
  function Normalized(a: Address): Address
  {
    if HasName(a) then a else Address(a.email, None)
  }

  lemma {:induction false} FirstQuoteAfter(name: string, rest: string)
    requires '"' !in name && rest != [] && rest[0] == '"'
    ensures FirstQuote(name + rest) == Some(|name|)
  {
    if name != [] {
      assert (name + rest)[1..] == name[1..] + rest;
      FirstQuoteAfter(name[1..], rest);
    }
  }

  /** `formatAddress` loses nothing but an empty name. */
  lemma FormatAddressRoundTrip(a: Address)
    requires WellFormedAddress(a)
    ensures ParseAddress(FormatAddress(a)) == Normalized(a)
  {
    if HasName(a) {
      var n, e := a.name.value, a.email;
      var s := FormatAddress(a);
      var tail := "\" <" + e + ">";
      assert s == "\"" + (n + tail);
      assert s[1..] == n + tail;
      FirstQuoteAfter(n, tail);
      var j := |n|;
      assert s[j + 2] == ' ' && s[j + 3] == '<' && s[|s| - 1] == '>';
      assert s[j + 4..|s| - 1] == e;
      assert s[1..j + 1] == n;
    }
  }

  /** Without the quote restriction the rendering is ambiguous: two different
      addresses give the same string. */
  lemma UnescapedQuoteCollision()
    ensures var a1 := Address("e", Some("x\" <y"));
            var a2 := Address("y\" <e", Some("x"));
            a1 != a2 && FormatAddress(a1) == FormatAddress(a2)
  {
  }

  /** Two well-formed addresses render alike exactly when they agree up to an empty name. */
  lemma FormatAddressInjective(a1: Address, a2: Address)
    requires WellFormedAddress(a1) && WellFormedAddress(a2)
    ensures FormatAddress(a1) == FormatAddress(a2) <==> Normalized(a1) == Normalized(a2)
  {
    FormatAddressRoundTrip(a1);
    FormatAddressRoundTrip(a2);
  }
}
