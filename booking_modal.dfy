/** The transfer booking dialog (`BookingModal`): eight text fields, a consent
    box, and the loading, success and error state of one submission to
    `/api/booking`. The submission is split at its `await`: `Submit` runs the
    required-field guard and issues the request; `Settle` receives the
    answer; `TimerFires` is the delayed close after a success. `open` is the
    parent's prop; `onClose` is counted, since what it does is the parent's. */
module BookingModal {
  import opened Web
  import Booking

  /** How the request ended: answered (HTTP status OK or not, `json.ok`, and
      `json.message`, "" when absent), or thrown in `fetch` or `res.json()`
      with the error's message. */
  datatype Outcome = Answered(httpOk: bool, jsonOk: bool, message: string) | Threw(message: string)

  datatype Field = Name | Phone | Email | From | To | Date | Time | Notes

  function RequiredText(isEn: bool): string
  {
    if isEn then "Please fill required fields" else "Пожалуйста, заполните обязательные поля"
  }

  /** `err.message || 'Error'` for the error the failed request ends in. */
  function FailureText(outcome: Outcome): (s: string)
    requires !(outcome.Answered? && outcome.httpOk && outcome.jsonOk)
    ensures s != ""
    ensures outcome.Answered? ==> s == Or(outcome.message, "Network error")
    ensures outcome.Threw? ==> s == Or(outcome.message, "Error")
  {
    match outcome
    case Answered(_, _, message) => Or(Or(message, "Network error"), "Error")
    case Threw(message) => Or(message, "Error")
  }

  class Modal {
    const isEn: bool
    var open: bool
    var name: string
    var phone: string
    var email: string
    var from: string
    var to: string
    var date: string
    var time: string
    var notes: string
    var agree: bool
    var loading: bool
    var success: bool
    var error: Option<string>
    /** Requests issued and not yet answered. */
    var inFlight: nat
    /** Close timers scheduled and not yet fired. */
    var pendingTimers: nat
    /** How many times `onClose` has been called. */
    var closeCalls: nat

    /** The value of one input. */
    function Get(f: Field): string
      reads this
    {
      match f
      case Name => name case Phone => phone case Email => email case From => from
      case To => to case Date => date case Time => time case Notes => notes
    }

    /** The eight fields as the payload `{ name, phone, email, from, to,
        date, time, notes }`. */
    function Payload(): Booking.Payload
      reads this
    {
      Booking.Payload(name, phone, email, from, to, date, time, notes)
    }

    /** The required-field guard of `handleSubmit`. */
    predicate Filled()
      reads this
    {
      name != "" && phone != "" && from != "" && to != "" && date != ""
    }

    /** The state the close effect leaves behind. */
    predicate Cleared()
      reads this
    {
      name == "" && phone == "" && email == "" && from == "" && to == "" && date == "" && time == "" && notes == ""
      && !agree && !loading && !success && error == None
    }

    constructor(isEn: bool, open: bool)
      ensures this.isEn == isEn && this.open == open && Cleared()
      ensures inFlight == 0 && pendingTimers == 0 && closeCalls == 0
    {
      this.isEn := isEn;
      this.open := open;
      name, phone, email, from, to, date, time, notes := "", "", "", "", "", "", "", "";
      agree, loading, success, error := false, false, false, None;
      inFlight, pendingTimers, closeCalls := 0, 0, 0;
    }

    /** Typing into one input: that field takes the value, nothing else changes. */
    method Edit(f: Field, v: string)
      modifies this
      ensures Get(f) == v && forall g :: g != f ==> Get(g) == old(Get(g))
      ensures open == old(open) && agree == old(agree) && loading == old(loading)
      ensures success == old(success) && error == old(error)
      ensures inFlight == old(inFlight) && pendingTimers == old(pendingTimers) && closeCalls == old(closeCalls)
    {
      match f {
        case Name => name := v;
        case Phone => phone := v;
        case Email => email := v;
        case From => from := v;
        case To => to := v;
        case Date => date := v;
        case Time => time := v;
        case Notes => notes := v;
      }
    }

    method SetAgree(v: bool)
      modifies this
      ensures agree == v && Payload() == old(Payload()) && open == old(open) && loading == old(loading)
      ensures success == old(success) && error == old(error)
      ensures inFlight == old(inFlight) && pendingTimers == old(pendingTimers) && closeCalls == old(closeCalls)
    {
      agree := v;
    }

    /** The close effect: all fields, the consent, `loading`, `success` and
        `error` go back to their initial values. */
    method Reset()
      modifies this
      ensures Cleared()
      ensures open == old(open) && inFlight == old(inFlight) && pendingTimers == old(pendingTimers)
      ensures closeCalls == old(closeCalls)
    {
      ClearFields();
      agree := false; loading := false; success := false; error := None;
    }

    /** The eight setters of the close effect. */
    method ClearFields()
      modifies this
      ensures name == "" && phone == "" && email == "" && from == ""
      ensures to == "" && date == "" && time == "" && notes == ""
      ensures open == old(open) && agree == old(agree) && loading == old(loading)
      ensures success == old(success) && error == old(error)
      ensures inFlight == old(inFlight) && pendingTimers == old(pendingTimers) && closeCalls == old(closeCalls)
    {
      name := ""; phone := ""; email := ""; from := "";
      to := ""; date := ""; time := ""; notes := "";
    }

    /** A new `open` prop. The close effect runs when it turns false;
        otherwise nothing but `open` changes. */
    method SetOpen(v: bool)
      modifies this
      ensures open == v
      ensures old(open) && !v ==> Cleared()
      ensures !old(open) || v ==>
                Payload() == old(Payload()) && agree == old(agree) && loading == old(loading)
                && success == old(success) && error == old(error)
      ensures inFlight == old(inFlight) && pendingTimers == old(pendingTimers) && closeCalls == old(closeCalls)
    {
      if open && !v {
        Reset();
      }
      open := v;
    }

    /** `handleSubmit` up to its `await`. The error is cleared first; with a
        required field empty the localized message is shown and nothing is
        sent; otherwise `loading` is set and the payload goes out. The payload
        sent is exactly one the booking endpoint accepts, and the one held
        back is exactly one it would refuse. */
    method Submit() returns (request: Option<Booking.Payload>)
      modifies this
      ensures request.Some? <==> old(Filled())
      ensures request.Some? ==> request == Some(old(Payload())) && Booking.Accepted(Booking.Request("POST", request))
      ensures request.None? ==> !Booking.WellFormed(Some(old(Payload())))
      ensures request.Some? ==> error == None && loading && inFlight == old(inFlight) + 1
      ensures request.None? ==> error == Some(RequiredText(isEn)) && loading == old(loading) && inFlight == old(inFlight)
      ensures Payload() == old(Payload()) && open == old(open) && agree == old(agree) && success == old(success)
      ensures pendingTimers == old(pendingTimers) && closeCalls == old(closeCalls)
    {
      error := None;
      if !Filled() {
        error := Some(RequiredText(isEn));
        return None;
      }
      loading := true;
      inFlight := inFlight + 1;
      request := Some(Payload());
    }

    /** The submit button: disabled while loading or without consent, and
        otherwise `handleSubmit`. Consent is checked only here. */
    method PressSubmit() returns (request: Option<Booking.Payload>)
      modifies this
      ensures old(loading) || !old(agree) ==>
                request == None && Payload() == old(Payload()) && error == old(error) && loading == old(loading)
                && inFlight == old(inFlight)
      ensures !old(loading) && old(agree) ==> (request.Some? <==> old(Filled()))
      ensures !old(loading) && old(agree) && !old(Filled()) ==>
                error == Some(RequiredText(isEn)) && loading == old(loading)
      ensures request.Some? ==> request == Some(old(Payload())) && loading && error == None
                                && inFlight == old(inFlight) + 1
      ensures request.None? ==> inFlight == old(inFlight)
      ensures open == old(open) && agree == old(agree) && success == old(success) && Payload() == old(Payload())
      ensures pendingTimers == old(pendingTimers) && closeCalls == old(closeCalls)
    {
      if loading || !agree {
        return None;
      }
      request := Submit();
    }

    /** The rest of `handleSubmit`, once a request has ended. On success
        `success` is set, `loading` stays set and the close timer is
        scheduled; on failure the error text is shown and `loading` is
        cleared, so the same fields can be sent again. The fields are never
        touched. */
    method Settle(outcome: Outcome)
      requires inFlight > 0
      modifies this
      ensures inFlight == old(inFlight) - 1
      ensures outcome.Answered? && outcome.httpOk && outcome.jsonOk ==>
                success && loading == old(loading) && error == old(error) && pendingTimers == old(pendingTimers) + 1
      ensures !(outcome.Answered? && outcome.httpOk && outcome.jsonOk) ==>
                error == Some(FailureText(outcome)) && !loading && success == old(success)
                && pendingTimers == old(pendingTimers)
      ensures Payload() == old(Payload()) && open == old(open) && agree == old(agree) && closeCalls == old(closeCalls)
    {
      inFlight := inFlight - 1;
      if outcome.Answered? && outcome.httpOk && outcome.jsonOk {
        success := true;
        pendingTimers := pendingTimers + 1;
      } else {
        error := Some(FailureText(outcome));
        loading := false;
      }
    }

    /** The close timer, 1600 ms after a success: `loading` is cleared and
        `onClose` is called. */
    method TimerFires()
      requires pendingTimers > 0
      modifies this
      ensures !loading && pendingTimers == old(pendingTimers) - 1 && closeCalls == old(closeCalls) + 1
      ensures Payload() == old(Payload()) && open == old(open) && agree == old(agree)
      ensures success == old(success) && error == old(error) && inFlight == old(inFlight)
    {
      loading := false;
      pendingTimers := pendingTimers - 1;
      closeCalls := closeCalls + 1;
    }
  }

  const Ivan := Booking.Payload("Иван", "+7 912 345-67-89", "", "Аэропорт", "Центр", "2025-05-01", "", "")

  /** A dialog with the five required fields filled in and consent given. */
  method FilledModal() returns (m: Modal)
    ensures fresh(m) && m.Payload() == Ivan && m.agree && !m.loading && m.open && m.error == None && !m.success
    ensures m.inFlight == 0 && m.pendingTimers == 0 && m.closeCalls == 0
  {
    m := new Modal(false, true);
    m.Edit(Name, "Иван");
    m.Edit(Phone, "+7 912 345-67-89");
    m.Edit(From, "Аэропорт");
    m.Edit(To, "Центр");
    m.Edit(Date, "2025-05-01");
    assert m.Get(Name) == "Иван" && m.Get(Phone) == "+7 912 345-67-89" && m.Get(From) == "Аэропорт";
    assert m.Get(To) == "Центр" && m.Get(Email) == "" && m.Get(Time) == "" && m.Get(Notes) == "";
    m.SetAgree(true);
  }

  /** Without consent a filled dialog sends nothing and shows no error; with
      consent the same fields go out. */
  method ScenarioConsentGate() returns (without: Option<Booking.Payload>, shown: Option<string>,
                                        with: Option<Booking.Payload>)
    ensures without == None && shown == None
    ensures with == Some(Ivan)
  {
    var m := FilledModal();
    m.SetAgree(false);
    without := m.PressSubmit();
    shown := m.error;
    m.SetAgree(true);
    with := m.PressSubmit();
  }

  /** A failed attempt shows the server's message, keeps the fields and
      re-enables the button; the retry sends the same payload. */
  method ScenarioRetry() returns (first: Option<Booking.Payload>, shown: Option<string>, retry: Option<Booking.Payload>)
    ensures first.Some? && retry == first
    ensures shown == Some("Missing required fields")
  {
    var m := FilledModal();
    first := m.PressSubmit();
    m.Settle(Answered(false, false, "Missing required fields"));
    shown := m.error;
    retry := m.PressSubmit();
  }

  /** After a success the button stays disabled, the timer asks the parent
      to close once, and closing clears the dialog. */
  method ScenarioSuccessThenClose() returns (late: Option<Booking.Payload>, closes: nat, cleared: bool)
    ensures late == None && closes == 1 && cleared
  {
    var m := FilledModal();
    var r := m.PressSubmit();
    m.Settle(Answered(true, true, ""));
    late := m.PressSubmit();
    m.TimerFires();
    closes := m.closeCalls;
    m.SetOpen(false);
    cleared := m.Cleared();
  }
}
