# bvetra lead capture, modelled in Dafny

bvetra is a Next.js website for a transfer and car-hire service that collects
leads. It has four API routes and three client components:

- **Booking intake (`POST /api/booking`).** It validates a trip request. It then
  mails the site owner and the customer, posts to an operations chat through the
  Telegram Bot API, and creates a Bitrix24 CRM lead, in that order.
- **Generic CRM lead (`POST /api/submit`).** It turns `{ type, fields }` into a
  Bitrix24 lead record and posts it to the configured webhook. The webhook URL is
  normalised to the `crm.lead.add` method.
- **Chat proxy (`POST /api/chat`).** It forwards a user message, with the
  conversation so far, to a chat-completion API and relays the first reply.
- **Contact mail (`POST /api/contact`).** It mails a visitor's message over SMTP.
- **`UnifiedForm`.** The generic lead form in three variants: modal, contact and
  vacancy. It validates fields and posts to `/api/submit`.
- **`BookingModal`.** The booking dialog. Sending is gated by a consent box, and
  the dialog closes by itself after a success.
- **`ChatModal`.** The assistant window. Each message goes either to the booking
  endpoint or to the chat endpoint, depending on keywords.

The model has one module per source file. A shared module `Web` holds the
JavaScript string and JSON rules the files rely on: `trim` and `\s`,
`includes`, and the case folding of `/…/i`.

- **API handlers.** Each handler is a function or a method. It takes the request,
  the environment (an unset variable is "") and the outcome of every outbound
  call, so `fetch`, nodemailer and the remote APIs are parameters. It returns the
  HTTP reply and the requests it would issue.
- **Booking trace.** `booking.ts` returns the handler's ordered trace of channel
  steps. Each step is skipped or called, and a called step carries the request it
  sent and that call's outcome.
- **Client components.** Each component is a class whose fields are its React
  state. Its methods are the component's events.
- **Submissions split at `await`.** A submission that awaits a response is two
  events. `Submit` issues the request and `Settle` receives the answer.
  BookingModal's delayed close is a third event, `TimerFires`. ChatModal's
  `sendMessage` runs as one step, with the outcome of its request handed in.

## Model

| member | source | states |
|---|---|---|
| Web.Value | pages/api/submit.ts:21-23 | `o[k]` of a parsed object: a non-empty value is the one stored under `k`, and a present key yields its own value |
| Web.Get | pages/api/chat.ts:23 | `m.role` / `m.content` is None exactly when no entry has the key, and otherwise is the value stored under it |
| Web.TrimStart | src/components/UnifiedForm.tsx:25 | leading white space cut: the result is a suffix, all that was cut is white space, and the result does not start with white space |
| Web.TrimEnd | src/components/UnifiedForm.tsx:25 | trailing white space cut: the result is a prefix, all that was cut is white space, and the result does not end with white space |
| Web.Trim | src/components/UnifiedForm.tsx:25 | the trimmed string neither starts nor ends with white space |
| Web.TrimEmptyIffAllSpace | src/components/ChatModal.tsx:47 | `!s.trim()` holds exactly when every character of `s` is white space |
| Web.ContainsIffOccurs | pages/api/submit.ts:30 | `includes` holds exactly when the needle occurs at some position |
| Web.ContainsInfix | pages/api/submit.ts:30 | every string contains each infix placed into it |
| Web.FoldChar | src/components/ChatModal.tsx:53 | Basic Latin capitals fold to small letters, and characters outside the folded ranges are their own fold |
| Web.FoldOnto | src/components/ChatModal.tsx:53 | only a letter and its capital fold onto that letter (for letters with no extra variant) |
| Web.NoMatch | src/components/ChatModal.tsx:53 | a word matches nowhere in a text that lacks one of its letters in both cases |
| Booking.FromAddress | pages/api/booking.ts:21 | the sender is never empty: `FROM_EMAIL` when set, else `no-reply@` with `VERCEL_URL`, falling back on `no-reply@example.com` |
| Booking.SmtpConfigured | pages/api/booking.ts:27 | host, port, user and password are all truthy; a port of 0 or one that does not parse counts as unset (the skip rule of `Booking.SendMail`) |
| Booking.TransportOf | pages/api/booking.ts:31-36 | host, user and password as configured, the parsed port whenever SMTP is configured, and `secure` exactly on port 465 |
| Booking.WellFormed | pages/api/booking.ts:92 | the body is present and name, phone, from, to and date are all non-empty (the 400 guard of `Booking.Handle`) |
| Booking.Accepted | pages/api/booking.ts:89-94 | a POST whose body passes the guard: exactly the requests `Booking.Handle` sends on to the channels |
| Booking.Outgoing | pages/api/booking.ts:96-114 | the request each channel sends: the owner mail with the html and text summaries, the customer confirmation, the HTML Telegram message to the chat, and the lead to the webhook (tied to the trace by `Booking.StepFaithful`) |
| Booking.StepFaithful | pages/api/booking.ts:26-86 | a step is skipped exactly when its channel is unconfigured, and a called step carries that channel's `Booking.Outgoing` request and its own call outcome (kept by every step of `Booking.Handle`) |
| Booking.SendMail | pages/api/booking.ts:26-48 | mail is skipped exactly when SMTP host, port, user or password is missing; otherwise it goes to the given address from `FROM_EMAIL` or the no-reply fallback, and a throw is recorded, never propagated |
| Booking.NotifyTelegram | pages/api/booking.ts:50-61 | skipped exactly when token or chat id is missing; when configured, a throwing fetch escapes with its message |
| Booking.NotifyBitrix | pages/api/booking.ts:63-86 | skipped exactly when the webhook is unset; otherwise the lead built from the booking is posted with `REGISTER_SONET_EVENT: 'Y'`, and a throw is caught |
| Booking.LeadOf | pages/api/booking.ts:73-79 | the Bitrix `fields` object built from a booking (its shape is stated by `Booking.LeadShape`) |
| Booking.OwnerHtml | pages/api/booking.ts:96-106 | the owner's html summary with the '—' and 'local' fallbacks (stated by `Booking.MissingFieldsRendering`) |
| Booking.OwnerText | pages/api/booking.ts:107 | the owner's one-line text summary with the '-' fallback for the email (stated by `Booking.MissingFieldsRendering`) |
| Booking.TelegramText | pages/api/booking.ts:112 | the Telegram message: name, phone, route, date and time |
| Booking.Planned | pages/api/booking.ts:109-114 | the channels an accepted request reaches (their order and conditions are stated by `Booking.PlannedOrder`) |
| Booking.NotifyByMail | pages/api/booking.ts:109-110 | owner mail only when `SITE_OWNER_EMAIL` is set, then customer mail only when the booking has an email; each step faithful to its configuration and outcome |
| Booking.Handle | pages/api/booking.ts:88-121 | non-POST gives 405 and missing required fields give 400, both with an empty trace; an accepted request reaches the planned channels in order, each step faithful; 200 `{ok:true}` exactly when accepted and Telegram did not throw; otherwise 500 with the error message or 'Server error' |
| Booking.NotifyTelegramCaught | pages/api/booking.ts:50-61 | the Telegram step with the fetch caught: skipped exactly when token or chat id is missing, otherwise the HTML message to the chat with its outcome; nothing escapes |
| Booking.HandleIsolated | pages/api/booking.ts:88-121 | corrected handler: the same guards, and an accepted request always gets 200 and reaches Telegram and Bitrix |
| Booking.PlannedOrder | pages/api/booking.ts:109-114 | channels come in the order owner mail, customer mail, Telegram, Bitrix, each at most once; owner mail iff the owner address is set, customer mail iff the booking has an email, Bitrix iff Telegram did not throw |
| Booking.OnlyTelegramShortCircuits | pages/api/booking.ts:113-116 | only the Telegram outcome can change which channels are reached; without a Telegram throw the plan equals the isolated one |
| Booking.LeadShape | pages/api/booking.ts:73-79 | the lead title is `Заявка: name from → to`; one WORK phone; an email list empty exactly when there is no email; a missing time and missing notes each become empty text |
| Booking.MissingFieldsRendering | pages/api/booking.ts:96-107 | in the owner summary a missing email reads '-' in the text and '—' in the html; missing notes read '—'; a missing `VERCEL_URL` reads 'local' |
| Booking.ScenarioIvan | pages/api/booking.ts:88-121 | a booking without email: 200; owner mail, Telegram and Bitrix are reached; the lead has an empty email list |
| Booking.ScenarioNoMailRelay | pages/api/booking.ts:27-30 | without SMTP the booking still gets 200, the owner mail is a skipped step, and the lead is posted |
| Booking.ScenarioMissingDate | pages/api/booking.ts:92-94 | a booking without a date gets 400 'Missing required fields' and no channel |
| Booking.ScenarioTelegramThrows | pages/api/booking.ts:56-60 | a Telegram throw gives 500 with the exception's message, and Bitrix is never reached |
| Booking.ScenarioTelegramThrowsIsolated | pages/api/booking.ts:113-114 | with Telegram isolated, the same outage gives 200, and Bitrix is reached |
| Submit.BaseFields | pages/api/submit.ts:19-24 | the first record: TITLE with the 'Site' fallback, NAME, a WORK phone list and message-else-about COMMENTS (stated by `Submit.ShippedLead`) |
| Submit.WithService | pages/api/submit.ts:26 | a set `fields.service` appends the service line to COMMENTS, else the record is unchanged (stated by `Submit.ShippedLead`) |
| Submit.Target | pages/api/submit.ts:27 | the key `CUSTOM_FIELD_MAP[k]` names: the map's own entry, else, read as JavaScript does, the string form of the `Object.prototype` property `k` (the twelve of `Submit.ObjectPrototype`), else none (stated by `Submit.CopiedKeys`, `Submit.PrototypeLookupAgrees` and `Submit.PrototypeNamesLeak`) |
| Submit.CopyMapped | pages/api/submit.ts:27 | the `forEach` copy of mapped fields, later fields over earlier ones, with the map read with or without inherited names (stated by `Submit.CopiedKeys` and `Submit.CopiedValue`) |
| Submit.LeadFor | pages/api/submit.ts:19-27 | the record posted for a body: base fields, service line, then the copy (stated by `Submit.ShippedLead`) |
| Submit.CopyStep | pages/api/submit.ts:27 | copying one more field extends the copy of the fields before it |
| Submit.BuildLeadFields | pages/api/submit.ts:19-27 | the record built and then updated in place equals the lead specified by `LeadFor`, for either way of reading the map |
| Submit.StripTrailingSlash | pages/api/submit.ts:30 | `replace(/\/$/, '')` removes one trailing slash exactly when there is one, and nothing else |
| Submit.LeadAddUrl | pages/api/submit.ts:30 | the posted URL always names `crm.lead.add`; a webhook already naming it is used unchanged |
| Submit.LeadAddUrlIdempotent | pages/api/submit.ts:30 | normalising twice equals normalising once |
| Submit.LeadAddUrlAppends | pages/api/submit.ts:30 | without the method, one trailing slash (if any) is dropped and `/crm.lead.add.json` is appended |
| Submit.Decide | pages/api/submit.ts:33-41 | 200 `{ok:true,data}` exactly when the webhook answered OK without `data.error`; otherwise 500 carrying the data or the exception |
| Submit.Handle | pages/api/submit.ts:9-41 | non-POST gives 405 with `Allow: POST` and no call; an unset webhook gives 500 and no call; a `null` or `undefined` body then throws at the destructuring, outside the try, so no call is made and the framework answers instead of the handler; otherwise the lead, with the map read as JavaScript reads it (inherited names included), goes to the normalised URL and the reply is decided from the answer |
| Submit.CopiedKeys | pages/api/submit.ts:27 | the copy removes no key, and every key it adds is the target of some field |
| Submit.CopiedValue | pages/api/submit.ts:27 | a mapped field whose target no later field shares ends up under that target |
| Submit.EmptyMapCopiesNothing | pages/api/submit.ts:27 | with own-key lookup, the shipped empty map adds no key |
| Submit.PrototypeLookupAgrees | pages/api/submit.ts:27 | both ways of reading the map copy the same when every field key is mapped or names no inherited property |
| Submit.FieldNamesNotInherited | pages/api/submit.ts:27 | the seven field names the site's forms send are not inherited properties |
| Submit.PrototypeNamesLeak | pages/api/submit.ts:27 | as written, a field named `constructor` is copied even though the map is empty |
| Submit.ShippedLead | pages/api/submit.ts:19-26 | with own-key lookup the lead has exactly TITLE, NAME, PHONE, COMMENTS; the title falls back on 'Site'; one WORK phone or none; comments are message-else-about, with the service line appended once |
| Submit.ShippedLeadAsWritten | pages/api/submit.ts:27 | when no field is named after an inherited property, the handler as written posts exactly that lead |
| Chat.Forward | pages/api/chat.ts:23 | `{role: m.role, content: m.content}`: each member is present exactly when the entry has it, and then `role` carries the entry's role and `content` its content |
| Chat.BuildMessages | pages/api/chat.ts:21-25 | the list has length `|history| + 2`, the system prompt first, each history entry forwarded as `{role, content}` in order, and the user message last |
| Chat.Handle | pages/api/chat.ts:9-51 | 405 for non-POST; 400 for a missing or empty message; 500 'OpenAI key not configured' without a call; an upstream call exactly when all guards pass; 200 exactly when the completion came back, with its content or 'Извините, нет ответа'; 500 'OpenAI error' for a non-OK answer and 500 'Server error' for a throw |
| Chat.GuardsPrecedeKey | pages/api/chat.ts:10-15 | the method and message guards answer the same whatever the key and the completion, and make no call |
| Contact.TransportOf | pages/api/contact.ts:10-15 | port 587 when unset; secure exactly when `SMTP_SECURE` is 'true'; auth exactly when `SMTP_USER` is set |
| Contact.MailOf | pages/api/contact.ts:18-24 | sender `FROM_EMAIL` or 'no-reply@example.com'; recipient `CONTACT_EMAIL` or `FROM_EMAIL`; subject names the sender, else the address; the text is the message |
| Contact.Handle | pages/api/contact.ts:4-30 | 405 for non-POST; 400 'Missing fields' exactly when a POST lacks body, email or message; a mail exactly otherwise, 200 when sent and 500 'Failed to send email' when the send throws |
| Contact.NameOptional | pages/api/contact.ts:6-23 | a message without a name is still mailed, and its html says 'unknown' |
| UnifiedForm.DefaultCategory | src/components/UnifiedForm.tsx:10 | the given category, else 'Заказать трансфер' for the modal form, else '' |
| UnifiedForm.InitialForm | src/components/UnifiedForm.tsx:9-17 | the seven fields exist; each given default is used; the category is the given one, else 'Заказать трансфер' for the modal form, else ''; the service defaults to the first option; the rest start empty |
| UnifiedForm.ResetForm | src/components/UnifiedForm.tsx:46 | after a success the category is back to its default, the service is the first option, and every other field is empty |
| UnifiedForm.PhonePattern | src/components/UnifiedForm.tsx:26 | `/^\+?[0-9\-\s()]{6,}$/`: an optional plus, then six or more digits, dashes, white space or parentheses (stated by `UnifiedForm.PhoneAccepted` and the example lemmas) |
| UnifiedForm.FieldErrors | src/components/UnifiedForm.tsx:23-29 | a name error iff the trimmed name is empty; a phone error iff the trimmed phone is empty or the phone fails the pattern; an experience error iff a vacancy has no trimmed experience; each with its own text |
| UnifiedForm.PhoneAccepted | src/components/UnifiedForm.tsx:26 | the phone passes exactly when it matches the pattern and is not all white space |
| UnifiedForm.PhoneExampleAccepted | src/components/UnifiedForm.tsx:26 | '+7 (912) 345-67-89' matches the pattern |
| UnifiedForm.PhoneExamplesRefused | src/components/UnifiedForm.tsx:26 | five digits, and a text with letters, do not match |
| UnifiedForm.PayloadType | src/components/UnifiedForm.tsx:40 | modal gives the category, else 'Modal'; contact gives 'Contact'; vacancy gives 'Vacancy' |
| UnifiedForm.PayloadOf | src/components/UnifiedForm.tsx:39-42 | the payload carries that type and all seven fields with their current values |
| UnifiedForm.PayloadKeysNotInherited | src/components/UnifiedForm.tsx:41 | no key of the payload's fields is an inherited property |
| UnifiedForm.LeadOfPayload | src/components/UnifiedForm.tsx:39-43 | the CRM lead that the endpoint as written makes from a form payload has exactly the four base keys, the form's title, name and phone, and the message-else-about comments with the service appended |
| UnifiedForm.Form.constructor | src/components/UnifiedForm.tsx:9-21 | the initial fields, no errors, not loading, no texts |
| UnifiedForm.Form.Change | src/components/UnifiedForm.tsx:32 | field `k` takes the value and error `k` is cleared; no other field or error changes |
| UnifiedForm.Form.Validate | src/components/UnifiedForm.tsx:23-30 | the errors become those of the current fields; the result is true iff there are none |
| UnifiedForm.Form.Submit | src/components/UnifiedForm.tsx:34-42 | a request exactly when validation passes, carrying the payload of the current fields, with `loading` set and the error text cleared; otherwise nothing but the errors changes |
| UnifiedForm.ScenarioExperienceRequired | src/components/UnifiedForm.tsx:27 | a vacancy reply without experience sends nothing and shows the experience error |
| UnifiedForm.Form.PressSubmit | src/components/UnifiedForm.tsx:104 | the button is disabled while `loading` is set: a press then sends nothing and changes nothing; otherwise it is `Submit`, a request exactly when validation passes |
| UnifiedForm.Form.Settle | src/components/UnifiedForm.tsx:43-47 | on success the form resets, the success text is set and `onSuccess` is called once; on a rejection or a throw the fields stay and the matching error text is set; `loading` ends false |
| BookingModal.FailureText | src/components/BookingModal.tsx:67-73 | the shown error is the server message, else 'Network error' for an answered request, else the thrown message or 'Error' |
| BookingModal.Modal.constructor | src/components/BookingModal.tsx:11-23 | all fields empty, no consent, not loading, no success, no error |
| BookingModal.Modal.Edit | src/components/BookingModal.tsx:90-97 | one input takes the value and nothing else changes |
| BookingModal.Modal.SetAgree | src/components/BookingModal.tsx:100 | only the consent changes |
| BookingModal.Modal.ClearFields | src/components/BookingModal.tsx:46 | the eight text fields become empty and nothing else changes |
| BookingModal.Modal.Reset | src/components/BookingModal.tsx:43-49 | the close effect: everything is cleared, including the consent, `loading`, `success` and `error` |
| BookingModal.Modal.SetOpen | src/components/BookingModal.tsx:43-49 | turning `open` false clears the dialog; any other change of the prop leaves the state alone |
| BookingModal.Modal.Filled | src/components/BookingModal.tsx:53 | name, phone, from, to and date are all non-empty, the guard of `handleSubmit` (stated by `BookingModal.Modal.Submit`) |
| BookingModal.Modal.Submit | src/components/BookingModal.tsx:51-66 | error cleared first; a request exactly when the five required fields are filled, carrying the eight fields, which the booking endpoint accepts; otherwise the localized required message, and `loading` is not set |
| BookingModal.Modal.PressSubmit | src/components/BookingModal.tsx:105 | disabled while loading or without consent, changing nothing; otherwise it is `Submit`: the payload goes out exactly when the required fields are filled, else the required message is shown and `loading` is unchanged |
| BookingModal.Modal.Settle | src/components/BookingModal.tsx:66-75 | on `res.ok && json.ok` success is set, `loading` stays and the close timer is scheduled; otherwise the error text is shown and `loading` cleared; the fields are kept |
| BookingModal.Modal.TimerFires | src/components/BookingModal.tsx:71 | the timer clears `loading` and calls `onClose` once |
| BookingModal.FilledModal | src/components/BookingModal.tsx:90-100 | a fresh dialog with the five required fields typed in and consent given |
| BookingModal.ScenarioConsentGate | src/components/BookingModal.tsx:105 | without consent a filled dialog sends nothing and shows no error; with consent the same fields go out |
| BookingModal.ScenarioRetry | src/components/BookingModal.tsx:72-75 | a failed attempt shows the server's message and the retry sends the same payload |
| BookingModal.ScenarioSuccessThenClose | src/components/BookingModal.tsx:68-71 | after a success the button sends nothing, the timer calls `onClose` once, and closing clears the dialog |
| ChatRouting.IsBooking | src/components/ChatModal.tsx:53 | `/бронь|заявка|transfer|book/i.test(text)`: some keyword matches at some position under the fold (stated by `ChatRouting.BookingInfix` and `ChatRouting.NotBooking`) |
| ChatRouting.RouteOf | src/components/ChatModal.tsx:47-53 | where `sendMessage` takes a text (related to `trim()` by `ChatRouting.RouteOfTrim`) |
| ChatRouting.NotBooking | src/components/ChatModal.tsx:53 | a text that lacks, in both cases, one letter of each keyword is no booking |
| ChatRouting.BookingInfix | src/components/ChatModal.tsx:53 | a text holding a word that matches a keyword under the fold is a booking, whatever surrounds it |
| ChatRouting.BookingIgnoresCase | src/components/ChatModal.tsx:53 | 'БРОНЬ', 'Transfer' and the Extended-C spelling of 'бронь' are bookings in any context |
| ChatRouting.RouteOfTrim | src/components/ChatModal.tsx:47-53 | a text is ignored iff its `trim()` is empty; otherwise it takes the booking path iff it matches the keywords |
| QuickCommandRoutes.QuickBookingCommand | src/components/ChatModal.tsx:217 | 'Create booking' and 'Оформить бронь' are bookings |
| QuickCommandRoutes.FleetCommandEn | src/components/ChatModal.tsx:218 | 'Show fleet' is no booking |
| QuickCommandRoutes.ManagerCommandEn | src/components/ChatModal.tsx:219 | 'Contact manager' is no booking |
| QuickCommandRoutes.PriceCommandEn | src/components/ChatModal.tsx:220 | 'Pricing info' is no booking |
| QuickCommandRoutes.FleetCommandRu | src/components/ChatModal.tsx:218 | 'Показать автопарк' is no booking |
| QuickCommandRoutes.ManagerCommandRu | src/components/ChatModal.tsx:219 | 'Связаться с менеджером' is no booking |
| QuickCommandRoutes.PriceCommandRu | src/components/ChatModal.tsx:220 | 'Узнать цену' is no booking |
| QuickCommandRoutes.QuickChatCommand | src/components/ChatModal.tsx:216-220 | in both languages the last three buttons are not bookings |
| QuickCommandRoutes.QuickCommandRoute | src/components/ChatModal.tsx:216-227 | in both languages the first button takes the booking path and the other three take the chat path |
| ChatModal.ChatBooking | src/components/ChatModal.tsx:56-65 | the fixed booking the chat posts, with today's date and the time handed in (stated by `ChatModal.ChatBookingAccepted`) |
| ChatModal.ChatBookingAccepted | src/components/ChatModal.tsx:56-65 | the fixed booking the chat posts passes the booking endpoint's validation whenever the date is set |
| ChatModal.WireAsWritten | src/components/ChatModal.tsx:98 | a message as the component posts it, its text under `text` (stated by `ChatModal.HistoryContentDropped`) |
| ChatModal.Wire | src/components/ChatModal.tsx:98 | the corrected message, its text under `content` as pages/api/chat.ts:23 reads it (stated by `ChatModal.HistoryForwarded`) |
| ChatModal.ChatBodyAsWritten | src/components/ChatModal.tsx:98 | the chat request body as written: the new text and every earlier message in `WireAsWritten` form (stated by `ChatModal.HistoryContentDropped`) |
| ChatModal.ChatBody | src/components/ChatModal.tsx:98 | the corrected body: the new text and every earlier message in `Wire` form (stated by `ChatModal.HistoryForwarded`) |
| ChatModal.HistoryContentDropped | src/components/ChatModal.tsx:98 | as written, the chat endpoint forwards each earlier message with its role and without its content |
| ChatModal.HistoryForwarded | src/components/ChatModal.tsx:98 | sent as `{role, content}`, each earlier message is forwarded with its role and text, followed by the new message |
| ChatModal.TurnsExtend | src/components/ChatModal.tsx:48-49 | appending a user message and an answer keeps the list in alternating turns |
| ChatModal.ConversationExtends | src/components/ChatModal.tsx:46-121 | after a `sendMessage` that does not overlap another send, the list is still an optional system message followed by answered user turns |
| ChatModal.Answer | src/components/ChatModal.tsx:71-117 | booking path: the confirmation whatever the status, else the booking error when the post throws; chat path: the reply when `res.ok` and present, else the fallback, and the network error on a throw |
| ChatModal.Window.constructor | src/components/ChatModal.tsx:14-18 | the initial state, with the system message when first rendered open |
| ChatModal.Window.SetProps | src/components/ChatModal.tsx:22-39 | a change of `open` or language while open restarts the list from exactly one system message, clears the input, sets 'connected' and zeroes the counter; otherwise nothing changes |
| ChatModal.Window.SetInput | src/components/ChatModal.tsx:184 | only the input changes |
| ChatModal.Window.SendMessage | src/components/ChatModal.tsx:46-121 | blank text changes nothing and posts nothing; otherwise exactly the user message and one assistant answer are appended, the input is cleared and `loading` ends false; a booking text posts the fixed booking and never the chat; other text posts to the chat with the earlier list |
| ChatModal.Window.QuickCommand | src/components/ChatModal.tsx:224-227 | the first button posts the booking and the others post their label to the chat; the label and its answer are appended; language, `open`, status and counter are unchanged |
| ChatModal.ScenarioAskThenBook | src/components/ChatModal.tsx:46-121 | asking about prices and then booking: only the question goes to the chat, with the system message as history, and the list holds five messages |

## Left out

- Network, SMTP and remote APIs are not modelled as such. `fetch`, nodemailer, Telegram, Bitrix24 and OpenAI are outcome parameters: resolved with an OK flag, answered non-OK, or threw with a message. Their wire formats and `JSON.stringify` are not modelled.
- Time and scheduling are not modelled as time. The 1600 ms timer is the explicit event `TimerFires`. React's batched state updates are single atomic method steps. `new Date()` (the chat booking's date and time) is a parameter.
- Some ChatModal state is not modelled, because it is presentation only: speech recognition and the transcript, `Date.now()` message ids, scrolling, `document.body.style.overflow`, and the effect that adds one to `messageCount` on every list change. The counter is modelled only as reset to zero on open.
- `ChatModal.Window.SendMessage` runs as one step: the user message, the request and the answer happen together. The source awaits in between, and nothing prevents a second send meanwhile. The input and the Send button are disabled while `loading` is set, but the quick command buttons are not, and the window can be closed and reopened while an answer is pending. Those interleavings append messages in other orders, for example `[system, user, user, assistant, assistant]` for two quick commands in a row, or `[system, assistant]` when an answer arrives after a reopen. The model does not capture them, and `ChatModal.ConversationExtends` and `Window.Valid` hold only for sends that do not overlap. The intermediate state, with only the user message appended and `loading` true, is not modelled either.
- Overlapping submissions are not modelled in `UnifiedForm.Form.Settle`. Its `requires loading` says a settle follows a send. The HTML `required` attributes of BookingModal's name, phone, from, to and date inputs (BookingModal.tsx:90-95) and the browser's native validation are not modelled (UnifiedForm's inputs carry none). Where the browser enforces them, the required-fields message of `BookingModal.Modal.Submit` is reached only when native validation does not block the form.
- The analytics `CustomEvent` in BookingModal, the `console.error` logging and all rendering (JSX, styling, localized labels that are never read back) are left out.
- `UnifiedForm.Form.Settle` does not model `onSuccess`: the parent's callback is only counted.
- `BookingModal.Modal.TimerFires` does not model `onClose`: the parent is expected to set `open` to false, which `SetOpen` models. The call itself is only counted.
- `Booking.Handle` handles the configuration as parsed values. `SMTP_PORT` through `parseInt` is an optional integer, None when unset or not a number. The process environment is read once at module load.
- `Contact.TransportOf` does not model the result of unary `+` on a non-numeric `SMTP_PORT`: an unset or empty variable gives 587, and any other port is an optional natural number.
- Which page renders which component, and with which props, is not part of this model.
- Request bodies hold strings only. A JSON member that is a number, an object or `null` is not modelled. An absent member and an empty string are both "", since the handlers only test truthiness.
- `Submit.BuildLeadFields` takes the key order of `Object.keys` as the order of the parsed entries, ignoring that JavaScript lists integer-like keys first.
- `Chat.Handle` does not model a `messages` member that is not an array. It does not model a completion whose first choice is missing: that is "", which falls back as the source does.
- `Web.FoldChar` approximates the case folding of `/…/i` for the Basic Latin capitals, the Cyrillic capitals U+0400–U+042F and the Cyrillic Extended-C letters U+1C80–U+1C86. Every other character folds to itself, which is what matters for the four keywords. White space (`\s` and `trim`) is the ECMAScript WhiteSpace and LineTerminator set, with the Zs category written out.
- `ChatRouting.RouteOf` is stated over "all white space" rather than over `trim()`. `ChatRouting.RouteOfTrim` proves the two agree.
- HTML escaping is not modelled, since the source does none. Values are pasted into the mail and Telegram html as they are.

## Findings

| source | as written | input that shows it | evidently intended | confidence | as-written member | corrected member |
|---|---|---|---|---|---|---|
| pages/api/booking.ts:56-60 | the Telegram `fetch` is not inside a try block, so a throw reaches the handler's catch | a valid booking while the Telegram API is unreachable: 500 with the fetch error, and the Bitrix lead is never created | every notifier is isolated like `sendMail` and `notifyBitrix`; the booking gets 200 and the lead is created | not executed | Booking.ScenarioTelegramThrows | Booking.HandleIsolated |
| pages/api/submit.ts:27 | `CUSTOM_FIELD_MAP[k]` also finds the properties every object inherits | a form field named `constructor`: with the empty map, a key holding the source text of `Object` is added to the lead | only keys the map itself defines are copied, so the shipped empty map copies nothing | not executed | Submit.PrototypeNamesLeak | Submit.ShippedLead |
| src/components/ChatModal.tsx:98 | the history is posted as the component's messages, whose text is under `text`, while the endpoint reads `m.content` (pages/api/chat.ts:23) | every question: the earlier messages, starting with the system message, reach the completion API with their roles and no content | each earlier message is sent as `{ role, content }`, so the model sees the conversation | not executed | ChatModal.HistoryContentDropped | ChatModal.HistoryForwarded |
