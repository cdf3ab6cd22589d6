/** The contact mail endpoint (`POST /api/contact`): it mails a visitor's
    message to the site's contact address over SMTP. The send is an outcome
    handed in by the caller; the handler returns its reply and the transport
    and mail it would use (None when it sends nothing). */
module Contact {
  import opened Web

  /** `{ name, email, message }`; an absent body reads like `{}`. */
  datatype Body = Body(name: string, email: string, message: string)

  /** The environment; "" is an unset variable. `smtpPort` is None when
      `SMTP_PORT` is unset or empty. */
  datatype Env = Env(
    smtpHost: string, smtpPort: Option<nat>, smtpSecure: string, smtpUser: string, smtpPass: string,
    fromEmail: string, contactEmail: string)

  datatype Auth = Auth(user: string, pass: string)
  datatype Transport = Transport(host: string, port: nat, secure: bool, auth: Option<Auth>)
  datatype Mail = Mail(from: string, to: string, subject: string, text: string, html: string)

  /** Whether `transporter.sendMail` resolved or threw. */
  datatype SendOutcome = Sent | Failed

  /** `{ ok: true }` or `{ error }`, with the HTTP status. */
  datatype ReplyBody = OkBody | ErrorBody(error: string)
  datatype Reply = Reply(status: int, body: ReplyBody)

  datatype Result = Result(reply: Reply, transport: Option<Transport>, mail: Option<Mail>)

  const DefaultPort: nat := 587

  function TransportOf(env: Env): (t: Transport)
    ensures env.smtpPort.None? ==> t.port == DefaultPort
    ensures env.smtpPort.Some? ==> t.port == env.smtpPort.value
    ensures t.secure <==> env.smtpSecure == "true"
    ensures t.auth.Some? <==> env.smtpUser != ""
  {
    Transport(env.smtpHost,
              if env.smtpPort.Some? then env.smtpPort.value else DefaultPort,
              env.smtpSecure == "true",
              if env.smtpUser != "" then Some(Auth(env.smtpUser, env.smtpPass)) else None)
  }

  /** The mail: from `FROM_EMAIL` or a no-reply address, to `CONTACT_EMAIL`
      or else `FROM_EMAIL`, the subject naming the sender or, without a name,
      the sender's address. */
  function MailOf(env: Env, b: Body): (m: Mail)
    ensures m.from == (if env.fromEmail != "" then env.fromEmail else "no-reply@example.com")
    ensures m.to == (if env.contactEmail != "" then env.contactEmail else env.fromEmail)
    ensures b.name != "" ==> m.subject == "Website contact from " + b.name
    ensures b.name == "" ==> m.subject == "Website contact from " + b.email
    ensures m.text == b.message
  {
    Mail(Or(env.fromEmail, "no-reply@example.com"),
         Or(env.contactEmail, env.fromEmail),
         "Website contact from " + Or(b.name, b.email),
         b.message,
         "<p><strong>From:</strong> " + Or(b.name, "unknown") + " &lt;" + b.email + "&gt;</p><p>" + b.message + "</p>")
  }

  /** `handler`. */
  function Handle(verb: string, body: Option<Body>, env: Env, send: SendOutcome): (r: Result)
    ensures verb != "POST" ==> r == Result(Reply(405, ErrorBody("Method not allowed")), None, None)
    ensures r.reply.status == 400 <==> verb == "POST" && (body.None? || body.value.email == "" || body.value.message == "")
    ensures r.reply.status == 400 ==> r == Result(Reply(400, ErrorBody("Missing fields")), None, None)
    ensures r.mail.Some? <==> verb == "POST" && body.Some? && body.value.email != "" && body.value.message != ""
    ensures r.mail.Some? ==> r.mail.value == MailOf(env, body.value) && r.transport == Some(TransportOf(env))
    ensures r.mail.Some? ==> (r.reply == Reply(200, OkBody) <==> send == Sent)
    ensures r.mail.Some? && send == Failed ==> r.reply == Reply(500, ErrorBody("Failed to send email"))
  {
    var b := if body.Some? then body.value else Body("", "", "");
    if verb != "POST" then Result(Reply(405, ErrorBody("Method not allowed")), None, None)
    else if b.email == "" || b.message == "" then Result(Reply(400, ErrorBody("Missing fields")), None, None)
    else
      var reply := if send == Sent then Reply(200, OkBody) else Reply(500, ErrorBody("Failed to send email"));
      Result(reply, Some(TransportOf(env)), Some(MailOf(env, b)))
  }

  /** The name is never required: a message with an address but no name is
      mailed, and the mail says the sender is unknown. */
  lemma NameOptional(env: Env, email: string, message: string)
    requires email != "" && message != ""
    ensures var r := Handle("POST", Some(Body("", email, message)), env, Sent);
      r.reply == Reply(200, OkBody) && r.mail.Some?
      && r.mail.value.html == "<p><strong>From:</strong> unknown &lt;" + email + "&gt;</p><p>" + message + "</p>"
  {
  }
}
