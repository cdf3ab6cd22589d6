/** The booking intake endpoint (`POST /api/booking`): it validates a trip
    request, then notifies the site owner by mail, the customer by mail, an
    operations chat through the Telegram Bot API and the Bitrix24 CRM, in that
    order. Every outbound call is an outcome handed in by the caller; the
    handler returns its HTTP reply and the trace of the channels it reached. */
module Booking {
  import opened Web

  // ---------------------------------------------------------------------
  // Requests, configuration, outcomes

  /** The request body. An optional field that is absent and one that is the
      empty string are both written "" (the handler only tests truthiness). */
  datatype Payload = Payload(
    name: string, phone: string, email: string,
    from: string, to: string, date: string, time: string, notes: string)

  datatype Request = Request(verb: string, body: Option<Payload>)

  /** The process environment, read once at module load; "" is an unset
      variable. `smtpPort` is `parseInt(SMTP_PORT)`, None when the variable is
      unset or does not parse. */
  datatype Config = Config(
    smtpHost: string, smtpPort: Option<int>, smtpUser: string, smtpPass: string,
    siteOwnerEmail: string, fromEmail: string, vercelUrl: string,
    telegramBotToken: string, telegramChatId: string, bitrixWebhookUrl: string)

  /** What an awaited outbound call did: it resolved (with the HTTP `ok` flag
      of its response, which this handler never reads) or it threw. */
  datatype CallOutcome = Resolved(httpOk: bool) | Threw(message: string)

  /** The outcome each outbound call would have if it were made. */
  datatype Outcomes = Outcomes(
    ownerMail: CallOutcome, customerMail: CallOutcome,
    telegram: CallOutcome, bitrix: CallOutcome)

  datatype Channel = OwnerMail | CustomerMail | Telegram | Bitrix

  /** The lead `fields` object posted to Bitrix24. */
  datatype LeadFields = LeadFields(
    title: string, name: string, phone: seq<TypedValue>, email: seq<TypedValue>, comments: string)

  datatype Transport = Transport(host: string, port: int, secure: bool, user: string, pass: string)

  /** The request an outbound call carries. */
  datatype Outbound =
    | Mail(transport: Transport, from: string, to: string, subject: string, html: string, text: string)
    | TelegramMessage(url: string, chatId: string, text: string, parseMode: string)
    | BitrixLead(url: string, fields: LeadFields, registerSonetEvent: string)

  /** One channel the handler reached: skipped for want of configuration, or
      called with a request and the outcome of that call. */
  datatype Step =
    | Skipped(channel: Channel)
    | Called(channel: Channel, sent: Outbound, outcome: CallOutcome)

  /** The JSON reply `{ ok, message? }` with its HTTP status. */
  datatype Reply = Reply(status: int, ok: bool, message: Option<string>)

  const MethodNotAllowed := Reply(405, false, Some("Method not allowed"))
  const MissingFields := Reply(400, false, Some("Missing required fields"))

  // ---------------------------------------------------------------------
  // Configuration rules

  /** `FROM_EMAIL`, else `no-reply@` followed by `VERCEL_URL` or `example.com`. */
  function FromAddress(cfg: Config): (a: string)
    ensures a != ""
    ensures cfg.fromEmail != "" ==> a == cfg.fromEmail
    ensures cfg.fromEmail == "" && cfg.vercelUrl == "" ==> a == "no-reply@example.com"
    ensures cfg.fromEmail == "" && cfg.vercelUrl != "" ==> a == "no-reply@" + cfg.vercelUrl
  {
    Or(cfg.fromEmail, "no-reply@" + Or(cfg.vercelUrl, "example.com"))
  }

  /** All four of host, port, user and password are truthy; a port of 0 is
      falsy like an unparsable one. */
  predicate SmtpConfigured(cfg: Config)
  {
    cfg.smtpHost != "" && cfg.smtpPort.Some? && cfg.smtpPort.value != 0
    && cfg.smtpUser != "" && cfg.smtpPass != ""
  }

  predicate TelegramConfigured(cfg: Config)
  {
    cfg.telegramBotToken != "" && cfg.telegramChatId != ""
  }

  predicate BitrixConfigured(cfg: Config)
  {
    cfg.bitrixWebhookUrl != ""
  }

  predicate Configured(cfg: Config, ch: Channel)
  {
    match ch
    case OwnerMail | CustomerMail => SmtpConfigured(cfg)
    case Telegram => TelegramConfigured(cfg)
    case Bitrix => BitrixConfigured(cfg)
  }

  /** The nodemailer transport: host, user and password as configured, the
      parsed port, and `secure` exactly on port 465. */
  function TransportOf(cfg: Config): (t: Transport)
    ensures t.host == cfg.smtpHost && t.user == cfg.smtpUser && t.pass == cfg.smtpPass
    ensures SmtpConfigured(cfg) ==> t.port == cfg.smtpPort.value
    ensures t.secure <==> t.port == 465
  {
    var port := if cfg.smtpPort.Some? then cfg.smtpPort.value else 0;
    Transport(cfg.smtpHost, port, port == 465, cfg.smtpUser, cfg.smtpPass)
  }

  // ---------------------------------------------------------------------
  // Validation

  /** The body is present and its five required fields are all non-empty. */
  predicate WellFormed(body: Option<Payload>)
  {
    body.Some? && var b := body.value;
    b.name != "" && b.phone != "" && b.from != "" && b.to != "" && b.date != ""
  }

  /** A POST whose body passed validation: the requests that reach the channels. */
  predicate Accepted(req: Request)
  {
    req.verb == "POST" && WellFormed(req.body)
  }

  // ---------------------------------------------------------------------
  // Message builders

  function OwnerSubject(b: Payload): string
  {
    "Новая заявка: " + b.name
  }

  /** The owner's html summary; a missing email and missing notes show as an em dash. */
  function OwnerHtml(b: Payload, vercelUrl: string): string
  {
    "\n      <h2>Новая заявка на трансфер</h2>"
    + "\n      <p><strong>Имя:</strong> " + b.name + "</p>"
    + "\n      <p><strong>Телефон:</strong> " + b.phone + "</p>"
    + "\n      <p><strong>Email:</strong> " + Or(b.email, "—") + "</p>"
    + "\n      <p><strong>Маршрут:</strong> " + b.from + " → " + b.to + "</p>"
    + "\n      <p><strong>Дата / Время:</strong> " + b.date + " " + b.time + "</p>"
    + "\n      <p><strong>Примечания:</strong> " + Or(b.notes, "—") + "</p>"
    + "\n      <hr/>"
    + "\n      <p>Отправлено с сайта: " + Or(vercelUrl, "local") + "</p>"
    + "\n    "
  }

  /** The owner's one-line plain-text summary; a missing email shows as '-'. */
  function OwnerText(b: Payload): string
  {
    "Новая заявка: " + b.name + " | " + b.phone + " | " + Or(b.email, "-")
    + " | " + b.from + " → " + b.to + " | " + b.date + " " + b.time
  }

  const CustomerSubject := "Подтверждение заявки — Bvetra"
  const CustomerText := "Ваша заявка принята."

  function CustomerHtml(b: Payload): string
  {
    "<p>Здравствуйте " + b.name + ",</p><p>Ваша заявка принята.</p>"
  }

  function TelegramText(b: Payload): string
  {
    "<b>Новая заявка</b>\nИмя: " + b.name + "\nТелефон: " + b.phone
    + "\nМаршрут: " + b.from + " → " + b.to + "\nДата: " + b.date + " " + b.time
  }

  function TelegramUrl(cfg: Config): string
  {
    "https://api.telegram.org/bot" + cfg.telegramBotToken + "/sendMessage"
  }

  /** The CRM lead built from a booking. */
  function LeadOf(b: Payload): LeadFields
  {
    LeadFields(
      "Заявка: " + b.name + " " + b.from + " → " + b.to,
      b.name,
      [Work(b.phone)],
      if b.email != "" then [Work(b.email)] else [],
      "Дата: " + b.date + " " + b.time + "\nПримечания: " + b.notes)
  }

  /** The request the handler issues on a channel. */
  function Outgoing(cfg: Config, b: Payload, ch: Channel): Outbound
  {
    match ch
    case OwnerMail =>
      Mail(TransportOf(cfg), FromAddress(cfg), cfg.siteOwnerEmail, OwnerSubject(b), OwnerHtml(b, cfg.vercelUrl), OwnerText(b))
    case CustomerMail =>
      Mail(TransportOf(cfg), FromAddress(cfg), b.email, CustomerSubject, CustomerHtml(b), CustomerText)
    case Telegram =>
      TelegramMessage(TelegramUrl(cfg), cfg.telegramChatId, TelegramText(b), "HTML")
    case Bitrix =>
      BitrixLead(cfg.bitrixWebhookUrl, LeadOf(b), "Y")
  }

  function OutcomeFor(out: Outcomes, ch: Channel): CallOutcome
  {
    match ch
    case OwnerMail => out.ownerMail
    case CustomerMail => out.customerMail
    case Telegram => out.telegram
    case Bitrix => out.bitrix
  }

  /** A step records the right channel decision: skipped exactly when the
      channel is unconfigured, and otherwise the request the channel sends and
      the outcome of that call. */
  predicate StepFaithful(cfg: Config, b: Payload, out: Outcomes, s: Step)
  {
    (s.Skipped? <==> !Configured(cfg, s.channel))
    && (s.Called? ==> s.sent == Outgoing(cfg, b, s.channel) && s.outcome == OutcomeFor(out, s.channel))
  }

  // ---------------------------------------------------------------------
  // The three notifiers

  /** `sendMail`: skips silently unless SMTP is configured; a send that throws
      is caught, so nothing ever escapes (the result has no exception part). */
  function SendMail(cfg: Config, ch: Channel, to: string, subject: string, html: string, text: string,
                    outcome: CallOutcome): (s: Step)
    ensures s.channel == ch
    ensures s.Skipped? <==> !SmtpConfigured(cfg)
    ensures s.Called? ==> s.sent.Mail? && s.sent.to == to && s.sent.from == FromAddress(cfg) && s.outcome == outcome
  {
    if !SmtpConfigured(cfg) then Skipped(ch)
    else Called(ch, Mail(TransportOf(cfg), FromAddress(cfg), to, subject, html, text), outcome)
  }

  /** What `notifyTelegram` did, and the exception it let escape, if any. */
  datatype TelegramResult = TelegramResult(step: Step, escaped: Option<string>)

  /** `notifyTelegram`: skips unless token and chat id are set; its `fetch`
      is not inside a try block, so a throw escapes to the caller. */
  function NotifyTelegram(cfg: Config, text: string, outcome: CallOutcome): (r: TelegramResult)
    ensures r.step.channel == Telegram
    ensures r.step.Skipped? <==> !TelegramConfigured(cfg)
    ensures r.escaped.Some? <==> TelegramConfigured(cfg) && outcome.Threw?
    ensures r.escaped.Some? ==> r.escaped.value == outcome.message
  {
    if !TelegramConfigured(cfg) then TelegramResult(Skipped(Telegram), None)
    else
      var step := Called(Telegram, TelegramMessage(TelegramUrl(cfg), cfg.telegramChatId, text, "HTML"), outcome);
      TelegramResult(step, if outcome.Threw? then Some(outcome.message) else None)
  }

  /** `notifyBitrix`: skips unless the webhook URL is set; a throw is caught. */
  function NotifyBitrix(cfg: Config, b: Payload, outcome: CallOutcome): (s: Step)
    ensures s.channel == Bitrix
    ensures s.Skipped? <==> !BitrixConfigured(cfg)
    ensures s.Called? ==> s.sent == BitrixLead(cfg.bitrixWebhookUrl, LeadOf(b), "Y") && s.outcome == outcome
  {
    if !BitrixConfigured(cfg) then Skipped(Bitrix)
    else Called(Bitrix, BitrixLead(cfg.bitrixWebhookUrl, LeadOf(b), "Y"), outcome)
  }

  // ---------------------------------------------------------------------
  // The handler

  /** A Telegram call is made and throws: the one exception that is not caught. */
  predicate TelegramEscapes(cfg: Config, out: Outcomes)
  {
    TelegramConfigured(cfg) && out.telegram.Threw?
  }

  function Channels(trace: seq<Step>): (cs: seq<Channel>)
    ensures |cs| == |trace|
    ensures forall i :: 0 <= i < |trace| ==> cs[i] == trace[i].channel
  {
    seq(|trace|, i requires 0 <= i < |trace| => trace[i].channel)
  }

  /** The channels an accepted request reaches, in order: the owner mail when
      an owner address is set, the customer mail when the booking has an
      email, Telegram always, and Bitrix unless Telegram threw. */
  function Planned(cfg: Config, b: Payload, out: Outcomes): seq<Channel>
  {
    (if cfg.siteOwnerEmail != "" then [OwnerMail] else [])
    + (if b.email != "" then [CustomerMail] else [])
    + [Telegram]
    + (if TelegramEscapes(cfg, out) then [] else [Bitrix])
  }

  function Rank(ch: Channel): nat
  {
    match ch
    case OwnerMail => 0
    case CustomerMail => 1
    case Telegram => 2
    case Bitrix => 3
  }

  /** The two mails, as both handlers send them. */
  method NotifyByMail(cfg: Config, b: Payload, out: Outcomes) returns (trace: seq<Step>)
    ensures Channels(trace) == (if cfg.siteOwnerEmail != "" then [OwnerMail] else [])
                               + (if b.email != "" then [CustomerMail] else [])
    ensures forall s | s in trace :: StepFaithful(cfg, b, out, s)
  {
    trace := [];
    if cfg.siteOwnerEmail != "" {
      trace := trace + [SendMail(cfg, OwnerMail, cfg.siteOwnerEmail, OwnerSubject(b),
                                 OwnerHtml(b, cfg.vercelUrl), OwnerText(b), out.ownerMail)];
    }
    if b.email != "" {
      trace := trace + [SendMail(cfg, CustomerMail, b.email, CustomerSubject,
                                 CustomerHtml(b), CustomerText, out.customerMail)];
    }
  }

  /** `handler` as written. */
  method Handle(req: Request, cfg: Config, out: Outcomes) returns (reply: Reply, trace: seq<Step>)
    ensures req.verb != "POST" ==> reply == MethodNotAllowed && trace == []
    ensures req.verb == "POST" && !WellFormed(req.body) ==> reply == MissingFields && trace == []
    ensures Accepted(req) ==> Channels(trace) == Planned(cfg, req.body.value, out)
    ensures Accepted(req) ==> forall s | s in trace :: StepFaithful(cfg, req.body.value, out, s)
    ensures reply.status == 200 <==> Accepted(req) && !TelegramEscapes(cfg, out)
    ensures reply.status == 200 ==> reply == Reply(200, true, None)
    ensures Accepted(req) && TelegramEscapes(cfg, out) ==>
              reply == Reply(500, false, Some(Or(out.telegram.message, "Server error")))
  {
    if req.verb != "POST" {
      return MethodNotAllowed, [];
    }
    if !WellFormed(req.body) {
      return MissingFields, [];
    }
    var b := req.body.value;
    trace := NotifyByMail(cfg, b, out);
    var tg := NotifyTelegram(cfg, TelegramText(b), out.telegram);
    trace := trace + [tg.step];
    if tg.escaped.Some? {
      return Reply(500, false, Some(Or(tg.escaped.value, "Server error"))), trace;
    }
    trace := trace + [NotifyBitrix(cfg, b, out.bitrix)];
    reply := Reply(200, true, None);
  }

  /** `notifyTelegram` with its `fetch` inside a try block, as the other
      notifiers have it. */
  function NotifyTelegramCaught(cfg: Config, text: string, outcome: CallOutcome): (s: Step)
    ensures s.channel == Telegram
    ensures s.Skipped? <==> !TelegramConfigured(cfg)
    ensures s.Called? ==> s.sent == TelegramMessage(TelegramUrl(cfg), cfg.telegramChatId, text, "HTML")
                          && s.outcome == outcome
  {
    NotifyTelegram(cfg, text, outcome).step
  }

  /** The channels an accepted request reaches when every channel is isolated. */
  function PlannedIsolated(cfg: Config, b: Payload): seq<Channel>
  {
    (if cfg.siteOwnerEmail != "" then [OwnerMail] else [])
    + (if b.email != "" then [CustomerMail] else [])
    + [Telegram, Bitrix]
  }

  /** `handler` with every channel isolated: an accepted request is answered
      200 `{ok:true}` whatever the channels do, and Bitrix is always reached. */
  method HandleIsolated(req: Request, cfg: Config, out: Outcomes) returns (reply: Reply, trace: seq<Step>)
    ensures req.verb != "POST" ==> reply == MethodNotAllowed && trace == []
    ensures req.verb == "POST" && !WellFormed(req.body) ==> reply == MissingFields && trace == []
    ensures Accepted(req) ==> reply == Reply(200, true, None)
    ensures Accepted(req) ==> Channels(trace) == PlannedIsolated(cfg, req.body.value)
    ensures Accepted(req) ==> forall s | s in trace :: StepFaithful(cfg, req.body.value, out, s)
  {
    if req.verb != "POST" {
      return MethodNotAllowed, [];
    }
    if !WellFormed(req.body) {
      return MissingFields, [];
    }
    var b := req.body.value;
    trace := NotifyByMail(cfg, b, out);
    trace := trace + [NotifyTelegramCaught(cfg, TelegramText(b), out.telegram)];
    trace := trace + [NotifyBitrix(cfg, b, out.bitrix)];
    reply := Reply(200, true, None);
  }

  // ---------------------------------------------------------------------
  // Properties

  /** The channels come in the fixed order owner mail, customer mail,
      Telegram, Bitrix, each at most once and each under its own condition. */
  lemma PlannedOrder(cfg: Config, b: Payload, out: Outcomes)
    ensures var p := Planned(cfg, b, out);
      && (forall i, j :: 0 <= i < j < |p| ==> Rank(p[i]) < Rank(p[j]))
      && (OwnerMail in p <==> cfg.siteOwnerEmail != "")
      && (CustomerMail in p <==> b.email != "")
      && Telegram in p
      && (Bitrix in p <==> !TelegramEscapes(cfg, out))
  {
  }

  /** Mail, Bitrix and non-OK responses never change which channels are
      reached: only a throwing Telegram call does. */
  lemma OnlyTelegramShortCircuits(cfg: Config, b: Payload, out: Outcomes, out': Outcomes)
    requires out'.telegram == out.telegram
    ensures Planned(cfg, b, out') == Planned(cfg, b, out)
    ensures !TelegramEscapes(cfg, out) ==> Planned(cfg, b, out) == PlannedIsolated(cfg, b)
  {
  }

  /** The lead posted to Bitrix24: one WORK phone, an email list that is empty
      exactly when the booking has no email, and a missing time or missing
      notes each written as empty text. */
  lemma LeadShape(b: Payload)
    ensures LeadOf(b).title == "Заявка: " + b.name + " " + b.from + " → " + b.to
    ensures LeadOf(b).phone == [Work(b.phone)]
    ensures |LeadOf(b).email| == (if b.email == "" then 0 else 1)
    ensures forall e | e in LeadOf(b).email :: e == TypedValue(b.email, "WORK")
    ensures b.time == "" ==> LeadOf(b).comments == "Дата: " + b.date + " \nПримечания: " + b.notes
    ensures b.notes == "" ==> LeadOf(b).comments == "Дата: " + b.date + " " + b.time + "\nПримечания: "
    ensures b.time == "" && b.notes == "" ==> LeadOf(b).comments == "Дата: " + b.date + " \nПримечания: "
  {
  }

  /** In the owner's summary a missing email reads as '-' in the text and as
      an em dash in the html, missing notes read as an em dash, and a missing
      site URL reads as 'local'. */
  lemma MissingFieldsRendering(b: Payload, vercelUrl: string)
    ensures b.email == "" ==> OwnerText(b) == OwnerText(b.(email := "-"))
    ensures b.email == "" ==> OwnerHtml(b, vercelUrl) == OwnerHtml(b.(email := "—"), vercelUrl)
    ensures b.notes == "" ==> OwnerHtml(b, vercelUrl) == OwnerHtml(b.(notes := "—"), vercelUrl)
    ensures vercelUrl == "" ==> OwnerHtml(b, vercelUrl) == OwnerHtml(b, "local")
  {
  }

  // ---------------------------------------------------------------------
  // Scenarios

  const ExampleConfig := Config(
    "smtp.example.com", Some(587), "mailer", "secret", "owner@example.com", "", "",
    "123:token", "-100200", "https://example.bitrix24.by/rest/1/key/")

  /** Ivan's booking without email, time or notes. */
  const Ivan := Payload("Ivan", "+375291234567", "", "Minsk", "Moscow", "2024-05-01", "", "")

  const AllDelivered := Outcomes(Resolved(true), Resolved(true), Resolved(true), Resolved(true))

  /** The booking is accepted; the owner mail and the lead are sent, the lead
      with an empty email list, and no customer mail is attempted. */
  method ScenarioIvan() returns (reply: Reply, trace: seq<Step>)
    ensures reply == Reply(200, true, None)
    ensures Channels(trace) == [OwnerMail, Telegram, Bitrix]
    ensures trace[0].Called? && trace[0].sent.Mail? && trace[0].sent.to == "owner@example.com"
    ensures trace[2] == Called(Bitrix, BitrixLead(ExampleConfig.bitrixWebhookUrl, LeadOf(Ivan), "Y"), Resolved(true))
    ensures LeadOf(Ivan).email == []
  {
    reply, trace := Handle(Request("POST", Some(Ivan)), ExampleConfig, AllDelivered);
    assert trace[0] in trace && trace[2] in trace;
  }

  /** Without a mail relay the booking is still accepted, no mail is sent and
      the lead is still created. */
  method ScenarioNoMailRelay() returns (reply: Reply, trace: seq<Step>)
    ensures reply == Reply(200, true, None)
    ensures Channels(trace) == [OwnerMail, Telegram, Bitrix]
    ensures trace[0] == Skipped(OwnerMail)
    ensures trace[2].Called?
  {
    var cfg := ExampleConfig.(smtpHost := "", smtpPort := None, smtpUser := "", smtpPass := "");
    reply, trace := Handle(Request("POST", Some(Ivan)), cfg, AllDelivered);
    assert trace[0] in trace && trace[2] in trace;
  }

  /** A booking without a date is refused with 400 and reaches no channel. */
  method ScenarioMissingDate() returns (reply: Reply, trace: seq<Step>)
    ensures reply == Reply(400, false, Some("Missing required fields")) && trace == []
  {
    reply, trace := Handle(Request("POST", Some(Ivan.(date := ""))), ExampleConfig, AllDelivered);
  }

  /** As written, a Telegram call that throws turns an accepted booking into a
      500 whose message is the exception's, and the lead is never created. */
  method ScenarioTelegramThrows() returns (reply: Reply, trace: seq<Step>)
    ensures reply == Reply(500, false, Some("fetch failed"))
    ensures Channels(trace) == [OwnerMail, Telegram] && Bitrix !in Channels(trace)
  {
    var out := AllDelivered.(telegram := Threw("fetch failed"));
    reply, trace := Handle(Request("POST", Some(Ivan)), ExampleConfig, out);
  }

  /** With Telegram isolated, the same outage still yields 200 and the lead. */
  method ScenarioTelegramThrowsIsolated() returns (reply: Reply, trace: seq<Step>)
    ensures reply == Reply(200, true, None)
    ensures Channels(trace) == [OwnerMail, Telegram, Bitrix]
  {
    var out := AllDelivered.(telegram := Threw("fetch failed"));
    reply, trace := HandleIsolated(Request("POST", Some(Ivan)), ExampleConfig, out);
  }
}
