/** The site assistant window (`ChatModal`): a message list opened with one
    system message, an input line, and `sendMessage`, which routes a text
    either to the booking endpoint (when it mentions a booking) or to the
    chat endpoint, and appends the user's message and one assistant answer.
    The request's outcome is handed in; `sendMessage` runs as one step. */
module ChatModal {
  import opened Web
  import opened ChatRouting
  import opened QuickCommandRoutes
  import Booking
  import Chat

  datatype Role = User | Assistant | System
  datatype Msg = Msg(role: Role, text: string)
  datatype Status = Connected | Connecting | Failed

  /** What `sendMessage` posts: the fixed booking payload to `/api/booking`,
      or the text with the list as it stood before the text was added to
      `/api/chat`. */
  datatype Request = BookingPost(payload: Booking.Payload) | ChatPost(message: string, history: seq<Msg>)

  /** How the request ended: answered (with `res.ok` and `json.reply`, ""
      when absent), or thrown in `fetch` or `res.json()`. */
  datatype Outcome = Answered(httpOk: bool, reply: string) | Threw

  function RoleName(r: Role): string
  {
    match r
    case User => "user"
    case Assistant => "assistant"
    case System => "system"
  }

  const SystemTextEn := "You are a premium assistant for Bvetra. Help users book transfers and answer concisely."
  const SystemTextRu := "Вы премиальный помощник Bvetra. Помогайте оформлять трансферы и отвечайте кратко."
  const ConfirmationEn := "Booking sent successfully. We will contact you shortly."
  const ConfirmationRu := "Заявка отправлена. Мы скоро свяжемся с вами."
  const BookingFailedEn := "Error sending booking."
  const BookingFailedRu := "Ошибка при отправке заявки."
  const ChatFallbackEn := "Sorry, something went wrong."
  const ChatFallbackRu := "Извините, произошла ошибка."
  const NetworkErrorEn := "Network error"
  const NetworkErrorRu := "Ошибка сети"

  function SystemMessage(isEn: bool): Msg
  {
    Msg(System, if isEn then SystemTextEn else SystemTextRu)
  }

  function Confirmation(isEn: bool): string
  {
    if isEn then ConfirmationEn else ConfirmationRu
  }

  function BookingFailed(isEn: bool): string
  {
    if isEn then BookingFailedEn else BookingFailedRu
  }

  function ChatFallback(isEn: bool): string
  {
    if isEn then ChatFallbackEn else ChatFallbackRu
  }

  function NetworkError(isEn: bool): string
  {
    if isEn then NetworkErrorEn else NetworkErrorRu
  }

  // ---------------------------------------------------------------------
  // Requests

  /** The booking the chat posts: a fixed customer and route, today's UTC
      date (`toISOString().split('T')[0]`) and the local time, both handed in. */
  function ChatBooking(today: string, now: string): Booking.Payload
  {
    Booking.Payload("Всеволод", "+375291234567", "user@example.com", "Минск", "Москва", today, now, "Оформлено через чат")
  }

  /** The booking endpoint accepts that payload whenever the date is set,
      which `toISOString` always does. */
  lemma ChatBookingAccepted(today: string, now: string)
    requires today != ""
    ensures Booking.Accepted(Booking.Request("POST", Some(ChatBooking(today, now))))
  {
  }

  /** A message as `JSON.stringify` writes it (the `id` is not modelled):
      its text goes out under `text`. */
  function WireAsWritten(m: Msg): JsonObject
  {
    [("role", RoleName(m.role)), ("text", m.text)]
  }

  /** A message in the shape the chat endpoint reads, `{ role, content }`. */
  function Wire(m: Msg): JsonObject
  {
    [("role", RoleName(m.role)), ("content", m.text)]
  }

  /** The chat request body as the component writes it. */
  function ChatBodyAsWritten(message: string, history: seq<Msg>): Chat.Body
  {
    Chat.Body(message, seq(|history|, i requires 0 <= i < |history| => WireAsWritten(history[i])))
  }

  /** The chat request body with each message under `content`. */
  function ChatBody(message: string, history: seq<Msg>): Chat.Body
  {
    Chat.Body(message, seq(|history|, i requires 0 <= i < |history| => Wire(history[i])))
  }

  /** As written, the chat endpoint forwards every earlier message with its
      role but without its content: the model sees no conversation. */
  lemma HistoryContentDropped(message: string, history: seq<Msg>)
    ensures var sent := Chat.BuildMessages(ChatBodyAsWritten(message, history).messages, message);
      |sent| == |history| + 2
      && forall i :: 0 <= i < |history| ==> sent[i + 1] == Chat.ChatMessage(Some(RoleName(history[i].role)), None)
  {
    var body := ChatBodyAsWritten(message, history);
    forall i | 0 <= i < |history|
      ensures Chat.Forward(body.messages[i]) == Chat.ChatMessage(Some(RoleName(history[i].role)), None)
    {
      var o := body.messages[i];
      assert o == [("role", RoleName(history[i].role)), ("text", history[i].text)];
      assert Get(o, "role") == Some(RoleName(history[i].role));
    }
  }

  /** With the messages sent as `{ role, content }`, the endpoint forwards
      every earlier message exactly: role and text. */
  lemma HistoryForwarded(message: string, history: seq<Msg>)
    ensures var sent := Chat.BuildMessages(ChatBody(message, history).messages, message);
      |sent| == |history| + 2
      && sent[|sent| - 1] == Chat.ChatMessage(Some("user"), Some(message))
      && forall i :: 0 <= i < |history| ==>
           sent[i + 1] == Chat.ChatMessage(Some(RoleName(history[i].role)), Some(history[i].text))
  {
    var body := ChatBody(message, history);
    forall i | 0 <= i < |history|
      ensures Chat.Forward(body.messages[i]) == Chat.ChatMessage(Some(RoleName(history[i].role)), Some(history[i].text))
    {
      var o := body.messages[i];
      assert o == [("role", RoleName(history[i].role)), ("content", history[i].text)];
      assert Get(o, "role") == Some(RoleName(history[i].role));
      assert o[1..] == [("content", history[i].text)];
      assert Get(o, "content") == Some(history[i].text);
    }
  }

  // ---------------------------------------------------------------------
  // The conversation

  /** User and assistant messages in turn, each user message answered once. */
  predicate Turns(ms: seq<Msg>)
    decreases |ms|
  {
    ms == [] || (|ms| >= 2 && ms[0].role == User && ms[1].role == Assistant && Turns(ms[2..]))
  }

  lemma {:induction false} TurnsExtend(ms: seq<Msg>, user: string, answer: string)
    requires Turns(ms)
    ensures Turns(ms + [Msg(User, user), Msg(Assistant, answer)])
    decreases |ms|
  {
    var turn := [Msg(User, user), Msg(Assistant, answer)];
    if ms == [] {
      assert (ms + turn)[2..] == [];
    } else {
      assert (ms + turn)[2..] == ms[2..] + turn;
      TurnsExtend(ms[2..], user, answer);
    }
  }

  /** The list is an optional leading system message followed by turns. */
  predicate Conversation(ms: seq<Msg>)
  {
    if |ms| > 0 && ms[0].role == System then Turns(ms[1..]) else Turns(ms)
  }

  /** Adding a user message and its answer keeps the shape. */
  lemma {:induction false} ConversationExtends(ms: seq<Msg>, user: string, answer: string)
    requires Conversation(ms)
    ensures Conversation(ms + [Msg(User, user), Msg(Assistant, answer)])
  {
    var ext := ms + [Msg(User, user), Msg(Assistant, answer)];
    if |ms| > 0 && ms[0].role == System {
      assert ext[1..] == ms[1..] + [Msg(User, user), Msg(Assistant, answer)];
      TurnsExtend(ms[1..], user, answer);
    } else {
      TurnsExtend(ms, user, answer);
      assert !(|ext| > 0 && ext[0].role == System) by {
        if ms == [] { assert ext[0].role == User; } else { assert ext[0] == ms[0]; }
      }
    }
  }

  /** The assistant message `sendMessage` appends: on the booking path the
      confirmation unless the post threw; on the chat path the reply when the
      response is OK and has one, the fallback when it does not, and the
      network error when the request threw. */
  function Answer(isEn: bool, booking: bool, outcome: Outcome): (s: string)
    ensures booking ==> s == (if outcome.Threw? then BookingFailed(isEn) else Confirmation(isEn))
    ensures !booking && outcome.Threw? ==> s == NetworkError(isEn)
    ensures !booking && outcome.Answered? ==> s == (if outcome.httpOk && outcome.reply != "" then outcome.reply else ChatFallback(isEn))
  {
    if booking then (if outcome.Threw? then BookingFailed(isEn) else Confirmation(isEn))
    else match outcome
      case Threw => NetworkError(isEn)
      case Answered(httpOk, reply) => if httpOk && reply != "" then reply else ChatFallback(isEn)
  }

  class Window {
    var open: bool
    var isEn: bool
    var messages: seq<Msg>
    var input: string
    var loading: bool
    var status: Status
    var messageCount: nat

    ghost predicate Valid()
      reads this
    {
      Conversation(messages)
    }

    constructor(open: bool, isEn: bool)
      ensures Valid()
      ensures this.open == open && this.isEn == isEn && input == "" && !loading && status == Connected
      ensures messages == (if open then [SystemMessage(isEn)] else []) && messageCount == 0
    {
      this.open := open;
      this.isEn := isEn;
      messages := if open then [SystemMessage(isEn)] else [];
      input := "";
      loading := false;
      status := Connected;
      messageCount := 0;
    }

    /** New `open` or language: when either changes and the window is open,
        the list restarts from the system message, the input is cleared, the
        status is 'connected' and the counter is zero. */
    method SetProps(open': bool, isEn': bool)
      requires Valid()
      modifies this
      ensures Valid()
      ensures open == open' && isEn == isEn' && loading == old(loading)
      ensures (open' != old(open) || isEn' != old(isEn)) && open' ==>
                messages == [SystemMessage(isEn')] && input == "" && status == Connected && messageCount == 0
      ensures !((open' != old(open) || isEn' != old(isEn)) && open') ==>
                messages == old(messages) && input == old(input) && status == old(status)
                && messageCount == old(messageCount)
    {
      var changed := open' != open || isEn' != isEn;
      open := open';
      isEn := isEn';
      if changed && open' {
        messages := [SystemMessage(isEn')];
        input := "";
        status := Connected;
        messageCount := 0;
      }
    }

    method SetInput(v: string)
      requires Valid()
      modifies this
      ensures Valid()
      ensures input == v && messages == old(messages) && loading == old(loading)
      ensures open == old(open) && isEn == old(isEn) && status == old(status) && messageCount == old(messageCount)
    {
      input := v;
    }

    /** `sendMessage(text)`. White space alone changes nothing and posts
        nothing. Otherwise the user's message and exactly one assistant
        message are appended, the input is cleared and `loading` ends false.
        A booking text posts the fixed booking and is confirmed whatever the
        answer, unless the post throws; any other text goes to the chat with
        the earlier messages, and the answer is the reply when the response
        is OK and has one, else a fallback. */
    method SendMessage(text: string, today: string, now: string, outcome: Outcome) returns (request: Option<Request>)
      requires Valid()
      modifies this
      ensures Valid()
      ensures open == old(open) && isEn == old(isEn) && status == old(status) && messageCount == old(messageCount)
      ensures RouteOf(text) == Ignored ==>
                request == None && messages == old(messages) && input == old(input) && loading == old(loading)
      ensures RouteOf(text) != Ignored ==>
                messages == old(messages) + [Msg(User, text), Msg(Assistant, Answer(isEn, RouteOf(text) == BookingPath, outcome))]
                && input == "" && !loading
      ensures RouteOf(text) == BookingPath ==> request == Some(BookingPost(ChatBooking(today, now)))
      ensures RouteOf(text) == ChatPath ==> request == Some(ChatPost(text, old(messages)))
    {
      var route := RouteOf(text);
      if route == Ignored {
        return None;
      }
      var booking := route == BookingPath;
      var answer := Answer(isEn, booking, outcome);
      request := if booking then Some(BookingPost(ChatBooking(today, now))) else Some(ChatPost(text, messages));
      ConversationExtends(messages, text, answer);
      messages := messages + [Msg(User, text), Msg(Assistant, answer)];
      input := "";
      loading := false;
    }

    /** A quick command button: the input shows the command, then the command
        is sent. The first button books; the others ask the chat. */
    method QuickCommand(i: nat, today: string, now: string, outcome: Outcome) returns (request: Option<Request>)
      requires Valid() && i < 4
      modifies this
      ensures Valid()
      ensures i == 0 ==> request == Some(BookingPost(ChatBooking(today, now)))
      ensures i > 0 ==> request == Some(ChatPost(QuickCommands(old(isEn))[i], old(messages)))
      ensures messages == old(messages) + [Msg(User, QuickCommands(old(isEn))[i]), Msg(Assistant, Answer(old(isEn), i == 0, outcome))]
      ensures input == "" && !loading && isEn == old(isEn) && open == old(open)
      ensures status == old(status) && messageCount == old(messageCount)
    {
      var command := QuickCommands(isEn)[i];
      SetInput(command);
      QuickCommandRoute(isEn, i);
      request := SendMessage(command, today, now, outcome);
    }
  }

  /** Opening the window, asking about prices, then booking: the list holds
      the system message and two answered turns, and only the question went
      to the chat. */
  method ScenarioAskThenBook() returns (asked: Option<Request>, booked: Option<Request>, shown: seq<Msg>)
    ensures asked == Some(ChatPost("Pricing info", [SystemMessage(true)]))
    ensures booked == Some(BookingPost(ChatBooking("2025-05-01", "10:00:00")))
    ensures |shown| == 5 && shown[2] == Msg(Assistant, "From 30 EUR")
  {
    var w := new Window(false, true);
    w.SetProps(true, true);
    assert RouteOf("Pricing info") == ChatPath by { QuickCommandRoute(true, 3); }
    asked := w.SendMessage("Pricing info", "2025-05-01", "10:00:00", Answered(true, "From 30 EUR"));
    booked := w.QuickCommand(0, "2025-05-01", "10:00:00", Answered(false, ""));
    shown := w.messages;
  }
}
