/** The CRM lead endpoint (`POST /api/submit`) behind the site's generic form:
    it turns `{ type, fields }` into a Bitrix24 lead record, posts it to the
    configured webhook (normalised to the `crm.lead.add` method) and relays
    the CRM's verdict. The webhook's answer is an outcome handed in by the
    caller. */
module Submit {
  import opened Web

  // ---------------------------------------------------------------------
  // Requests and lead records

  /** `{ type, fields }`. An absent `type` is ""; an absent `fields` reads
      exactly like `{}` in every use the handler makes of it. */
  datatype Body = Body(leadType: string, fields: JsonObject)

  /** The parsed request. `body` is None when `req.body` is `null` or
      `undefined`, which the destructuring of the body cannot read. */
  datatype Request = Request(verb: string, body: Option<Body>)

  /** A value of the lead record: text, or a list of typed values. */
  datatype LeadValue = Text(text: string) | Values(items: seq<TypedValue>)

  type Lead = map<string, LeadValue>

  /** `CUSTOM_FIELD_MAP` as shipped: no custom field is mapped. */
  const CustomFieldMap: map<string, string> := map[]

  const TitlePrefix := "Заявка с сайта — "
  const ServiceLine := "\nУслуга: "

  /** The record as first built, before `COMMENTS` is extended and custom
      fields are copied in. */
  function BaseFields(leadType: string, fields: JsonObject): Lead
  {
    var phone := Value(fields, "phone");
    map[
      "TITLE" := Text(TitlePrefix + Or(leadType, "Site")),
      "NAME" := Text(Value(fields, "name")),
      "PHONE" := Values(if phone != "" then [Work(phone)] else []),
      "COMMENTS" := Text(Or(Value(fields, "message"), Value(fields, "about")))]
  }

  /** `bitrixFields.COMMENTS || ''`. */
  function CommentText(lead: Lead): string
  {
    if "COMMENTS" in lead && lead["COMMENTS"].Text? then lead["COMMENTS"].text else ""
  }

  /** The service line appended to `COMMENTS` when `fields.service` is set. */
  function WithService(lead: Lead, fields: JsonObject): Lead
  {
    var service := Value(fields, "service");
    if service != "" then lead["COMMENTS" := Text(CommentText(lead) + ServiceLine + service)] else lead
  }

  // ---------------------------------------------------------------------
  // Copying custom fields

  /** How `CUSTOM_FIELD_MAP[k]` is read: as JavaScript does, falling back on
      the properties every object inherits from `Object.prototype`, or from
      the map's own keys only. */
  datatype PropertyRead = WithPrototype | OwnOnly

  /** The properties every object inherits from `Object.prototype`, each with
      the property key that assigning to `bitrixFields[Object.prototype[k]]`
      creates (the value converted to a string, as V8 prints it). */
  const ObjectPrototype: map<string, string> := map[
    "constructor" := "function Object() { [native code] }",
    "__proto__" := "[object Object]",
    "toString" := "function toString() { [native code] }",
    "toLocaleString" := "function toLocaleString() { [native code] }",
    "valueOf" := "function valueOf() { [native code] }",
    "hasOwnProperty" := "function hasOwnProperty() { [native code] }",
    "isPrototypeOf" := "function isPrototypeOf() { [native code] }",
    "propertyIsEnumerable" := "function propertyIsEnumerable() { [native code] }",
    "__defineGetter__" := "function __defineGetter__() { [native code] }",
    "__defineSetter__" := "function __defineSetter__() { [native code] }",
    "__lookupGetter__" := "function __lookupGetter__() { [native code] }",
    "__lookupSetter__" := "function __lookupSetter__() { [native code] }"]

  /** The field names the site's forms send are not inherited properties. */
  lemma FieldNamesNotInherited()
    ensures "category" !in ObjectPrototype && "name" !in ObjectPrototype && "phone" !in ObjectPrototype
    ensures "message" !in ObjectPrototype && "service" !in ObjectPrototype
    ensures "experience" !in ObjectPrototype && "about" !in ObjectPrototype
  {
  }

  /** The lead key a field `k` is copied to, or "" when it is not copied. */
  function Target(custom: map<string, string>, k: string, read: PropertyRead): string
  {
    if k in custom then custom[k]
    else if read == WithPrototype && k in ObjectPrototype then ObjectPrototype[k]
    else ""
  }

  /** The `forEach` over `Object.keys(fields)`: each field whose key maps to a
      target is written to that target, later fields over earlier ones. */
  function CopyMapped(lead: Lead, entries: seq<(string, string)>, custom: map<string, string>,
                      read: PropertyRead): Lead
    decreases |entries|
  {
    if entries == [] then lead
    else
      var prior := CopyMapped(lead, entries[..|entries| - 1], custom, read);
      var last := entries[|entries| - 1];
      var t := Target(custom, last.0, read);
      if t != "" then prior[t := Text(last.1)] else prior
  }

  /** The record posted for a request body, with the map read as given. */
  function LeadFor(body: Body, custom: map<string, string>, read: PropertyRead): Lead
  {
    CopyMapped(WithService(BaseFields(body.leadType, body.fields), body.fields), body.fields, custom, read)
  }

  /** Copying one more field extends the copy of the fields before it. */
  lemma CopyStep(lead: Lead, entries: seq<(string, string)>, i: nat, custom: map<string, string>,
                 read: PropertyRead)
    requires i < |entries|
    ensures var prior := CopyMapped(lead, entries[..i], custom, read);
      var t := Target(custom, entries[i].0, read);
      CopyMapped(lead, entries[..i + 1], custom, read) == if t != "" then prior[t := Text(entries[i].1)] else prior
  {
    assert entries[..i + 1][..i] == entries[..i];
  }

  /** `bitrixFields`, built and then updated in place. */
  method BuildLeadFields(body: Body, custom: map<string, string>, read: PropertyRead) returns (lead: Lead)
    ensures lead == LeadFor(body, custom, read)
  {
    var fields := body.fields;
    lead := BaseFields(body.leadType, fields);
    var service := Value(fields, "service");
    if service != "" {
      lead := lead["COMMENTS" := Text(CommentText(lead) + ServiceLine + service)];
    }
    ghost var start := lead;
    assert start == WithService(BaseFields(body.leadType, fields), fields);
    var i := 0;
    while i < |fields|
      invariant 0 <= i <= |fields|
      invariant lead == CopyMapped(start, fields[..i], custom, read)
    {
      var t := Target(custom, fields[i].0, read);
      if t != "" {
        lead := lead[t := Text(fields[i].1)];
      }
      CopyStep(start, fields, i, custom, read);
      i := i + 1;
    }
    assert fields[..|fields|] == fields;
  }

  // ---------------------------------------------------------------------
  // Webhook URL

  const LeadAddMethod := "crm.lead.add"
  const LeadAddSuffix := "/crm.lead.add.json"

  /** `replace(/\/$/, '')`: at most one trailing slash removed. */
  function StripTrailingSlash(u: string): (r: string)
    ensures u == r || u == r + "/"
    ensures u == r + "/" <==> (u != "" && u[|u| - 1] == '/')
  {
    if u != "" && u[|u| - 1] == '/' then u[..|u| - 1] else u
  }

  /** The URL the lead is posted to: the webhook itself when it already names
      `crm.lead.add`, otherwise the webhook with the method appended. */
  function LeadAddUrl(u: string): (r: string)
    ensures Contains(r, LeadAddMethod)
    ensures Contains(u, LeadAddMethod) ==> r == u
  {
    if Contains(u, LeadAddMethod) then u
    else
      var base := StripTrailingSlash(u);
      assert base + LeadAddSuffix == base + "/" + LeadAddMethod + ".json";
      ContainsInfix(base + "/", LeadAddMethod, ".json");
      base + LeadAddSuffix
  }

  // ---------------------------------------------------------------------
  // The handler

  /** What the webhook answered: an HTTP `ok` flag and the parsed body, whose
      `error` member is "" when absent; or a throw of `fetch` or `json()`. */
  datatype LeadData = LeadData(error: string, result: string)
  datatype Upstream = Answered(httpOk: bool, data: LeadData) | Threw(message: string)

  datatype ErrorBody = Message(text: string) | Rejected(data: LeadData) | Exception(message: string)

  /** The JSON reply `{ ok, error? , data? }`, its status and its `Allow` header. */
  datatype Reply = Reply(status: int, allow: Option<string>, ok: bool, error: Option<ErrorBody>, data: Option<LeadData>)

  const MethodNotAllowed := Reply(405, Some("POST"), false, Some(Message("Method not allowed")), None)
  const NotConfigured := Reply(500, None, false, Some(Message("BITRIX_WEBHOOK_URL not configured")), None)

  /** The reply once the webhook has been called. */
  function Decide(up: Upstream): (r: Reply)
    ensures r.ok <==> r.status == 200
    ensures r.status == 200 <==> up.Answered? && up.httpOk && up.data.error == ""
    ensures r.status == 200 ==> r.data == Some(up.data) && r.error == None
    ensures r.status != 200 ==> r.status == 500 && r.data == None && r.error.Some?
    ensures up.Answered? && r.status != 200 ==> r.error == Some(Rejected(up.data))
    ensures up.Threw? ==> r.error == Some(Exception(up.message))
  {
    match up
    case Threw(m) => Reply(500, None, false, Some(Exception(m)), None)
    case Answered(httpOk, data) =>
      if !httpOk || data.error != "" then Reply(500, None, false, Some(Rejected(data)), None)
      else Reply(200, None, true, None, Some(data))
  }

  /** The call posted to the CRM. */
  datatype LeadCall = LeadCall(url: string, fields: Lead, registerSonetEvent: string)

  /** How the request ends: the handler's own reply, or a TypeError thrown
      outside its try block, which the framework answers with its own 500. */
  datatype Response = Responded(reply: Reply) | Crashed

  /** `handler`, where `webhookUrl` is `BITRIX_WEBHOOK_URL` ("" when unset).
      The map is read as JavaScript reads it, inherited names included. */
  method Handle(req: Request, webhookUrl: string, up: Upstream) returns (response: Response, call: Option<LeadCall>)
    ensures req.verb != "POST" ==> response == Responded(MethodNotAllowed) && call == None
    ensures req.verb == "POST" && webhookUrl == "" ==> response == Responded(NotConfigured) && call == None
    ensures req.verb == "POST" && webhookUrl != "" && req.body.None? ==> response == Crashed && call == None
    ensures req.verb == "POST" && webhookUrl != "" && req.body.Some? ==>
              call == Some(LeadCall(LeadAddUrl(webhookUrl), LeadFor(req.body.value, CustomFieldMap, WithPrototype), "Y"))
              && response == Responded(Decide(up))
  {
    if req.verb != "POST" {
      return Responded(MethodNotAllowed), None;
    }
    if webhookUrl == "" {
      return Responded(NotConfigured), None;
    }
    if req.body.None? {
      return Crashed, None;
    }
    var lead := BuildLeadFields(req.body.value, CustomFieldMap, WithPrototype);
    call := Some(LeadCall(LeadAddUrl(webhookUrl), lead, "Y"));
    response := Responded(Decide(up));
  }

  // ---------------------------------------------------------------------
  // Properties

  /** Normalising the webhook URL a second time changes nothing. */
  lemma LeadAddUrlIdempotent(u: string)
    ensures LeadAddUrl(LeadAddUrl(u)) == LeadAddUrl(u)
  {
  }

  /** A URL without the method loses at most one trailing slash and gains
      the `/crm.lead.add.json` suffix. */
  lemma LeadAddUrlAppends(u: string)
    requires !Contains(u, LeadAddMethod)
    ensures u != "" && u[|u| - 1] == '/' ==> LeadAddUrl(u) == u[..|u| - 1] + LeadAddSuffix
    ensures (u == "" || u[|u| - 1] != '/') ==> LeadAddUrl(u) == u + LeadAddSuffix
  {
  }

  /** The copy never removes a key, and every key it adds is the target of
      some field. */
  lemma {:induction false} CopiedKeys(lead: Lead, entries: seq<(string, string)>, custom: map<string, string>,
                                      read: PropertyRead)
    ensures lead.Keys <= CopyMapped(lead, entries, custom, read).Keys
    ensures forall t :: t in CopyMapped(lead, entries, custom, read) && t !in lead ==>
              exists i :: 0 <= i < |entries| && Target(custom, entries[i].0, read) == t
    decreases |entries|
  {
    if entries != [] {
      var init := entries[..|entries| - 1];
      CopiedKeys(lead, init, custom, read);
      forall t | t in CopyMapped(lead, entries, custom, read) && t !in lead
        ensures exists i :: 0 <= i < |entries| && Target(custom, entries[i].0, read) == t
      {
        if t in CopyMapped(lead, init, custom, read) {
          var i :| 0 <= i < |init| && Target(custom, init[i].0, read) == t;
          assert entries[i] == init[i];
        } else {
          assert Target(custom, entries[|entries| - 1].0, read) == t;
        }
      }
    }
  }

  /** A field whose target no later field shares ends up in the record. */
  lemma {:induction false} CopiedValue(lead: Lead, entries: seq<(string, string)>, custom: map<string, string>,
                                       read: PropertyRead, i: nat)
    requires i < |entries| && Target(custom, entries[i].0, read) != ""
    requires forall j :: i < j < |entries| ==> Target(custom, entries[j].0, read) != Target(custom, entries[i].0, read)
    ensures var t := Target(custom, entries[i].0, read);
      t in CopyMapped(lead, entries, custom, read) && CopyMapped(lead, entries, custom, read)[t] == Text(entries[i].1)
    decreases |entries|
  {
    if i < |entries| - 1 {
      var init := entries[..|entries| - 1];
      assert init[i] == entries[i];
      CopiedValue(lead, init, custom, read, i);
    }
  }

  /** With own-key lookup, an empty map copies nothing. */
  lemma {:induction false} EmptyMapCopiesNothing(lead: Lead, entries: seq<(string, string)>)
    ensures CopyMapped(lead, entries, map[], OwnOnly) == lead
    decreases |entries|
  {
    if entries != [] {
      EmptyMapCopiesNothing(lead, entries[..|entries| - 1]);
    }
  }

  /** As written, the empty map still copies a field called `constructor`,
      under a key made from the source text of the `Object` function. */
  lemma {:induction false} PrototypeNamesLeak(lead: Lead, entries: seq<(string, string)>, i: nat)
    requires i < |entries| && entries[i].0 == "constructor"
    ensures "function Object() { [native code] }" in CopyMapped(lead, entries, map[], WithPrototype)
    decreases |entries|
  {
    var init := entries[..|entries| - 1];
    if i < |entries| - 1 {
      assert init[i] == entries[i];
      PrototypeNamesLeak(lead, init, i);
    }
  }

  /** The two ways of reading the map agree on fields whose keys are mapped
      or name no inherited property. */
  lemma {:induction false} PrototypeLookupAgrees(lead: Lead, entries: seq<(string, string)>, custom: map<string, string>)
    requires forall i :: 0 <= i < |entries| ==> entries[i].0 in custom || entries[i].0 !in ObjectPrototype
    ensures CopyMapped(lead, entries, custom, WithPrototype) == CopyMapped(lead, entries, custom, OwnOnly)
    decreases |entries|
  {
    if entries != [] {
      PrototypeLookupAgrees(lead, entries[..|entries| - 1], custom);
    }
  }

  /** The record with own-key lookup of the shipped map: exactly the four base
      keys; the title falls back on 'Site'; one WORK phone or none; the
      comments are the message, else the text about the person, with the
      service line appended once. */
  lemma ShippedLead(body: Body)
    ensures var lead := LeadFor(body, CustomFieldMap, OwnOnly);
      var message := Or(Value(body.fields, "message"), Value(body.fields, "about"));
      var service := Value(body.fields, "service");
      var phone := Value(body.fields, "phone");
      && lead.Keys == {"TITLE", "NAME", "PHONE", "COMMENTS"}
      && lead["TITLE"] == Text(TitlePrefix + (if body.leadType == "" then "Site" else body.leadType))
      && lead["NAME"] == Text(Value(body.fields, "name"))
      && lead["PHONE"] == Values(if phone == "" then [] else [TypedValue(phone, "WORK")])
      && lead["COMMENTS"] == Text(if service == "" then message else message + ServiceLine + service)
  {
    EmptyMapCopiesNothing(WithService(BaseFields(body.leadType, body.fields), body.fields), body.fields);
  }

  /** The handler as written posts that same record whenever no field is
      named after an inherited property, as with every field the site's
      forms send. */
  lemma ShippedLeadAsWritten(body: Body)
    requires forall i :: 0 <= i < |body.fields| ==> body.fields[i].0 !in ObjectPrototype
    ensures LeadFor(body, CustomFieldMap, WithPrototype) == LeadFor(body, CustomFieldMap, OwnOnly)
  {
    PrototypeLookupAgrees(WithService(BaseFields(body.leadType, body.fields), body.fields), body.fields, CustomFieldMap);
  }
}
