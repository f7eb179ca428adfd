/**
  The e-mail notification (notify_ping.py, lines 58-63) and the gated attempt
  to send it (lines 79-84). Delivery over SMTP is not modelled: a sent
  notification is represented by the mail the script hands to the server.
 */
module Notifier {
  import opened Wrappers
  import opened Settings

  /** The SMTP submission port the script always connects to. */
  const SmtpPort := 587

  const Opening := "Connection to "
  const Verb := " is "
  const RestoredWord := "restored!"
  const LostWord := "lost!"

  /** The body of a notification about `address` going up (`up`) or down. */
  function MessageText(address: string, up: bool): (m: string)
    ensures |m| == |Opening| + |address| + |Verb + (if up then RestoredWord else LostWord)|
    ensures StartsWith(m, Opening)
    ensures m[|Opening|..|Opening| + |address|] == address
    ensures EndsWith(m, Verb + (if up then RestoredWord else LostWord))
  {
    Opening + address + Verb + (if up then RestoredWord else LostWord)
  }

  /** What a notification says: which address, and whether it came back up. */
  datatype Notice = Notice(address: string, up: bool)

  predicate StartsWith(s: string, prefix: string) {
    |prefix| <= |s| && s[..|prefix|] == prefix
  }

  predicate EndsWith(s: string, suffix: string) {
    |suffix| <= |s| && s[|s| - |suffix|..] == suffix
  }

  /**
    Reads a notification body back. Every string it accepts is exactly the
    message text of the notice it returns.
   */
  function ParseMessage(m: string): (r: Option<Notice>)
    ensures r.Some? ==> MessageText(r.value.address, r.value.up) == m
  {
    if !StartsWith(m, Opening) then None
    else
      var rest := m[|Opening|..];
      if EndsWith(rest, Verb + RestoredWord) then
        var address := rest[..|rest| - |Verb + RestoredWord|];
        assert m == Opening + address + Verb + RestoredWord by {
          assert rest == address + (Verb + RestoredWord);
          assert m == Opening + rest;
        }
        Some(Notice(address, true))
      else if EndsWith(rest, Verb + LostWord) then
        var address := rest[..|rest| - |Verb + LostWord|];
        assert m == Opening + address + Verb + LostWord by {
          assert rest == address + (Verb + LostWord);
          assert m == Opening + rest;
        }
        Some(Notice(address, false))
      else None
  }

  /** Every message the script composes reads back as the notice it was composed from. */
  lemma MessageRoundTrip(address: string, up: bool)
    ensures ParseMessage(MessageText(address, up)) == Some(Notice(address, up))
  {
    var m := MessageText(address, up);
    var tail := Verb + (if up then RestoredWord else LostWord);
    assert m == Opening + (address + tail);
    assert StartsWith(m, Opening);
    var rest := m[|Opening|..];
    assert rest == address + tail;
    assert rest[|rest| - |tail|..] == tail;
    assert rest[..|rest| - |tail|] == address;
    if !up {
      assert !EndsWith(rest, Verb + RestoredWord) by {
        var suffix := Verb + RestoredWord;
        if |suffix| <= |rest| {
          assert rest[|rest| - 3] == 's';
          assert suffix == " is restored!" && suffix[10] == 'e';
          assert rest[|rest| - |suffix|..][10] == rest[|rest| - 3];
        }
      }
    }
  }

  /** Distinct transitions are reported by distinct messages. */
  lemma MessageTextInjective(a1: string, up1: bool, a2: string, up2: bool)
    requires MessageText(a1, up1) == MessageText(a2, up2)
    ensures a1 == a2 && up1 == up2
  {
    MessageRoundTrip(a1, up1);
    MessageRoundTrip(a2, up2);
  }

  /** One e-mail as submitted to the SMTP server after STARTTLS and login. */
  datatype Mail = Mail(
    server: string,
    port: int,
    login: string,
    password: string,
    sender: string,
    recipient: string,
    body: string)

  /**
    The mail `send_message` submits: to the configured server on port 587,
    logged in and sent as the configured mailbox, addressed to the configured
    recipient, announcing the transition of the monitored address.
   */
  function ComposeMail(cfg: Config, up: bool): (m: Mail)
    ensures m.server == cfg.smtpaddr && m.port == SmtpPort
    ensures m.login == cfg.email && m.password == cfg.pswd
    ensures m.sender == cfg.email && m.recipient == cfg.to
    ensures ParseMessage(m.body) == Some(Notice(cfg.address, up))
  {
    MessageRoundTrip(cfg.address, up);
    Mail(cfg.smtpaddr, SmtpPort, cfg.email, cfg.pswd, cfg.email, cfg.to, MessageText(cfg.address, up))
  }

  /**
    A configuration that passed startup validation yields a fully addressed
    mail: a named server, a login and sender, a recipient, and a body that
    names the monitored address.
   */
  lemma ValidatedMailIsAddressed(a: Arguments, up: bool)
    requires Validate(a).Success?
    ensures var m := ComposeMail(Validate(a).value, up);
      m.server != "" && m.login != "" && m.password != "" && m.sender != "" && m.recipient != ""
      && ParseMessage(m.body).value.address != ""
  {
  }

  /** The result of one notification attempt. */
  datatype Outcome =
    | Sent(mail: Mail)  // the gate passed and the mail was handed to the server
    | Unsent            // the gate failed: "Unable to send email notification."

  /**
    `try_send_message`: `gate` is the fresh self-connectivity check made just
    before the attempt. The sender is invoked exactly when it passes.
   */
  function TrySend(cfg: Config, up: bool, gate: bool): (o: Outcome)
    ensures o.Sent? <==> gate
    ensures o.Sent? ==> o.mail == ComposeMail(cfg, up)
  {
    if gate then Sent(ComposeMail(cfg, up)) else Unsent
  }
}
