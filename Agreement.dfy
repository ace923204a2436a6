/** How the two revisions' transport options relate. lib/createEmailer.js coerces
    the port with `parseInt` and the secure flag with a comparison;
    lib/nodeEmailer.js passes both settings through unchanged. */
module Agreement {
  import opened Js
  import opened Transport
  import EmailerFactory
  import SmtpService

  /** With a numeric port and a boolean secure flag the two revisions hand nodemailer
      the same host, port, security and credentials. */
  lemma TypedSettingsAgree(props: map<string, JsValue>, n: SafeNat, b: bool)
    requires Get(props, "smtp_port") == Number(n) && Get(props, "smtp_secure") == Bool(b)
    ensures var f := EmailerFactory.CoerceConfig(props);
            var s := SmtpService.TransportOptions(props);
            && f.host == s.host && f.auth == s.auth
            && f.port == Some(n) && s.port == Number(n)
            && f.secure == b && s.secure == Bool(b)
  {
    DecimalRoundTrip(n);
  }

  /** With a digit-string port and the string "false" as the secure flag they differ:
      the first revision passes the number and `false`, the second passes both strings. */
  lemma StringSettingsDiffer(props: map<string, JsValue>, digits: string)
    requires Get(props, "smtp_port") == Str(digits) && digits != [] && AllDigits(digits)
    requires Get(props, "smtp_secure") == Str("false")
    ensures var f := EmailerFactory.CoerceConfig(props);
            var s := SmtpService.TransportOptions(props);
            && f.port == Some(DigitsValue(digits)) && s.port == Str(digits)
            && !f.secure && s.secure == Str("false") && Truthy(s.secure)
  {
    ParseIntOfDigits(digits, "");
    assert digits + "" == digits;
  }
}
