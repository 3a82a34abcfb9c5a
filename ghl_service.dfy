/** The CRM side of lead processing: the contact payload built from a lead
    and its company, what a CRM call yields for the worker, and the
    formatting of a CRM error response. */
module GhlService {
  import opened Wrappers
  import opened Text
  import opened Models

  const LeadTag := "old_lead_reactivation"
  const LeadSource := "Lead Reactivation System"

  /** The `customFields` object of a contact payload. */
  datatype CustomFields = CustomFields(companyName: string, ownerName: string, ownerPhone: string, ownerEmail: string)

  /** A contact payload; `notes` is `None` when the key is absent. */
  datatype Payload = Payload(
    firstName: string,
    lastName: string,
    phone: string,
    tags: seq<string>,
    customFields: CustomFields,
    source: string,
    notes: Option<string>)

  /** `t.split(maxsplit=1)` for a string t without whitespace at either end:
      no part for the empty string, the whole string when it has no
      whitespace, and otherwise the text before the first whitespace run
      and the text after it. */
  function SplitOnce(t: string): (parts: seq<string>)
    requires t == [] || (!IsSpace(t[0]) && !IsSpace(t[|t| - 1]))
    ensures |parts| <= 2 && (parts == [] <==> t == [])
    ensures forall k :: 0 <= k < |parts| ==> parts[k] != []
  {
    if t == [] then []
    else
      var i := FirstSpace(t);
      if i == |t| then [t] else [t[..i], LStrip(t[i..])]
  }

  /** The first name: the first part of the stripped name, or the name as
      given when it is blank. */
  function FirstName(name: string): string {
    var parts := SplitOnce(Strip(name));
    if parts != [] then parts[0] else name
  }

  /** The last name: the second part of the stripped name, or "". */
  function LastName(name: string): string {
    var parts := SplitOnce(Strip(name));
    if |parts| > 1 then parts[1] else ""
  }

  /** Cutting the leading whitespace off a string that starts with some
      leaves a string that, after a non-empty run of whitespace, is all of
      it. */
  lemma LStripDropsRun(tail: string) returns (gap: string)
    requires tail != [] && IsSpace(tail[0])
    ensures gap != [] && AllSpace(gap) && tail == gap + LStrip(tail)
  {
    var rest := LStrip(tail);
    gap := tail[..|tail| - |rest|];
    assert tail == gap + rest;
  }

  /** The two shapes of a split: the whole string when it has no
      whitespace, else the word before the first whitespace and the rest
      after the run that follows it. */
  lemma SplitOnceParts(t: string)
    requires t != [] && !IsSpace(t[0]) && !IsSpace(t[|t| - 1])
    ensures FirstSpace(t) == |t| ==> SplitOnce(t) == [t]
    ensures FirstSpace(t) < |t| ==> SplitOnce(t) == [t[..FirstSpace(t)], LStrip(t[FirstSpace(t)..])]
  {
  }

  /** A string is its prefix up to i joined with what follows, however
      that is split further. */
  lemma Rejoin(t: string, i: int, gap: string, rest: string)
    requires 0 <= i <= |t| && t[i..] == gap + rest
    ensures t == t[..i] + gap + rest
  {
    assert t == t[..i] + t[i..];
  }

  /** A stripped, non-empty string splits into a first word and, when it
      has whitespace, a rest that starts after the whitespace run following
      the word: word, run and rest joined give the string back. */
  lemma SplitOnceRejoins(t: string)
    requires t != [] && !IsSpace(t[0]) && !IsSpace(t[|t| - 1])
    ensures var parts := SplitOnce(t);
      && (forall k :: 0 <= k < |parts[0]| ==> !IsSpace(parts[0][k]))
      && (|parts| == 1 ==> parts[0] == t)
      && (|parts| == 2 ==>
            !IsSpace(parts[1][0]) && exists gap :: gap != [] && AllSpace(gap) && t == parts[0] + gap + parts[1])
  {
    var i := FirstSpace(t);
    var parts := SplitOnce(t);
    SplitOnceParts(t);
    var word := t[..i];
    assert parts[0] == word;
    assert forall k :: 0 <= k < |word| ==> !IsSpace(word[k]);
    if i < |t| {
      var tail := t[i..];
      var rest := LStrip(tail);
      assert parts == [word, rest];
      var gap := LStripDropsRun(tail);
      Rejoin(t, i, gap, rest);
    }
  }

  /** The names of a name that is not blank, in terms of the split of the
      stripped name. */
  lemma NamesOfSplit(name: string)
    requires !AllSpace(name)
    ensures var parts := SplitOnce(Strip(name));
      && parts != [] && FirstName(name) == parts[0]
      && LastName(name) == if |parts| > 1 then parts[1] else ""
  {
  }

  /** A name that is not blank splits into its first word, the whitespace
      after it, and the rest. */
  lemma WordsSplit(name: string)
    requires !AllSpace(name)
    ensures FirstName(name) != [] && (forall k :: 0 <= k < |FirstName(name)| ==> !IsSpace(FirstName(name)[k]))
    ensures LastName(name) == [] || !IsSpace(LastName(name)[0])
    ensures exists gap :: AllSpace(gap) && (gap == [] <==> LastName(name) == [])
                          && Strip(name) == FirstName(name) + gap + LastName(name)
  {
    var t := Strip(name);
    NamesOfSplit(name);
    SplitOnceRejoins(t);
    var first, last := FirstName(name), LastName(name);
    if |SplitOnce(t)| == 1 {
      var gap: string := [];
      assert AllSpace(gap);
      assert t == first + gap + last;
    } else {
      var gap :| gap != [] && AllSpace(gap) && t == first + gap + last;
    }
  }

  /** The first name is the stripped name's first word and the last name
      the rest after the whitespace that follows it: joined back with that
      whitespace they give the stripped name. A blank name is kept whole as
      the first name. */
  lemma NameSplit(name: string)
    ensures AllSpace(name) ==> FirstName(name) == name && LastName(name) == ""
    ensures !AllSpace(name) ==>
      && FirstName(name) != [] && (forall k :: 0 <= k < |FirstName(name)| ==> !IsSpace(FirstName(name)[k]))
      && (LastName(name) == [] || !IsSpace(LastName(name)[0]))
      && exists gap :: AllSpace(gap) && (gap == [] <==> LastName(name) == [])
                       && Strip(name) == FirstName(name) + gap + LastName(name)
  {
    if !AllSpace(name) {
      WordsSplit(name);
    }
  }

  /** `build_contact_payload(lead, company)` */
  function BuildContactPayload(lead: Lead, company: Company): (p: Payload)
    ensures p.firstName == FirstName(lead.name) && p.lastName == LastName(lead.name)
    ensures p.phone == lead.phone && p.tags == [LeadTag] && p.source == LeadSource
    ensures p.customFields == CustomFields(company.companyName, company.ownerName, company.ownerPhone, company.ownerEmail)
    ensures p.notes.Some? <==> lead.notes.Some? && lead.notes.value != []
    ensures p.notes.Some? ==> p.notes == lead.notes
  {
    Payload(
      FirstName(lead.name), LastName(lead.name), lead.phone, [LeadTag],
      CustomFields(company.companyName, company.ownerName, company.ownerPhone, company.ownerEmail),
      LeadSource,
      if lead.notes.Some? && lead.notes.value != [] then lead.notes else None)
  }

  /** The `contact` key of a CRM response body: absent, a JSON object whose
      `id` may be absent, or any other JSON value (null, a string, a number,
      a list, a boolean), named by its Python type. */
  datatype ContactField = NoContact | ContactObject(id: Option<string>) | NotAnObject(typeName: string)

  /** A decoded CRM response body: a JSON object, as far as the worker
      reads it (its `contact` key), or any other JSON value, named by its
      Python type. */
  datatype CrmBody = BodyObject(contact: ContactField) | BodyNotObject(typeName: string)

  /** What one `create_contact` call does: it returns the decoded response
      body, or raises with a message (a timeout, a refused connection, an
      error status). */
  datatype CrmCall = Responded(body: CrmBody) | Raised(message: string)

  /** The message Python gives when `.get` is called on a value of the
      named type, which has no such method. */
  function NoGetMessage(typeName: string): string {
    "'" + typeName + "' object has no attribute 'get'"
  }

  /** What the worker takes from one call, inside its `try`: the contact id
      `response.get('contact', {}).get('id')` (None when either key is
      absent), or the text of the exception. Calling `.get` on a body or a
      contact that is not an object raises inside the `try` as well, so it
      too is a failed attempt. */
  function AttemptResult(call: CrmCall): (r: Result<Option<string>, string>)
    ensures r.Err? <==> call.Raised? || call.body.BodyNotObject? || call.body.contact.NotAnObject?
    ensures call.Raised? ==> r == Err(call.message)
    ensures call.Responded? && call.body.BodyNotObject? ==> r == Err(NoGetMessage(call.body.typeName))
    ensures call.Responded? && call.body.BodyObject? && call.body.contact.NotAnObject? ==>
      r == Err(NoGetMessage(call.body.contact.typeName))
    ensures call == Responded(BodyObject(NoContact)) ==> r == Ok(None)
    ensures call.Responded? && call.body.BodyObject? && call.body.contact.ContactObject? ==> r == Ok(call.body.contact.id)
  {
    match call
    case Raised(message) => Err(message)
    case Responded(BodyNotObject(typeName)) => Err(NoGetMessage(typeName))
    case Responded(BodyObject(NoContact)) => Ok(None)
    case Responded(BodyObject(NotAnObject(typeName))) => Err(NoGetMessage(typeName))
    case Responded(BodyObject(ContactObject(id))) => Ok(id)
  }

  /** The body of an HTTP answer: JSON, decoded, or text that does not
      decode, with the decoder's message. */
  datatype ResponseBody = JsonBody(value: CrmBody) | NotJson(detail: string)

  /** How the HTTP request of `create_contact` ends: a timeout, a failed
      connection, another request error with its text, or an answer. */
  datatype HttpOutcome =
    | TimedOut
    | ConnectionFailed
    | RequestFailed(detail: string)
    | Answered(statusCode: int, text: string, body: ResponseBody)

  const TimeoutMessage := "GHL API request timed out"
  const ConnectionMessage := "Failed to connect to GHL API"
  const RequestFailedPrefix := "GHL API request failed: "

  /** `create_contact(location_id, contact_data)`, given how its request
      ends: an error status raises with the status and the text; a body
      that does not decode raises as a failed request (the decoder's error
      is a request exception); a timeout and a failed connection raise with
      their fixed messages; otherwise the decoded body is returned. */
  function CreateContact(outcome: HttpOutcome): (call: CrmCall)
    ensures call.Responded? <==> outcome.Answered? && outcome.statusCode < 400 && outcome.body.JsonBody?
    ensures call.Responded? ==> call.body == outcome.body.value
    ensures outcome.Answered? && outcome.statusCode >= 400 ==>
      call == Raised("GHL API error: " + IntToString(outcome.statusCode) + " - " + outcome.text)
    ensures outcome.Answered? && outcome.statusCode < 400 && outcome.body.NotJson? ==>
      call == Raised(RequestFailedPrefix + outcome.body.detail)
    ensures outcome == TimedOut ==> call == Raised(TimeoutMessage)
    ensures outcome == ConnectionFailed ==> call == Raised(ConnectionMessage)
    ensures outcome.RequestFailed? ==> call == Raised(RequestFailedPrefix + outcome.detail)
  {
    match outcome
    case TimedOut => Raised(TimeoutMessage)
    case ConnectionFailed => Raised(ConnectionMessage)
    case RequestFailed(detail) => Raised(RequestFailedPrefix + detail)
    case Answered(code, text, body) =>
      if code >= 400 then Raised("GHL API error: " + IntToString(code) + " - " + text)
      else
        match body
        case NotJson(detail) => Raised(RequestFailedPrefix + detail)
        case JsonBody(value) => Responded(value)
  }

  /** An attempt of the worker succeeds exactly when the CRM answers with a
      status below 400 and a JSON object whose contact is absent or an
      object; it then yields the contact's id, or None when the body has no
      contact. */
  lemma AttemptSucceeds(outcome: HttpOutcome)
    ensures AttemptResult(CreateContact(outcome)).Ok? <==>
      && outcome.Answered? && outcome.statusCode < 400 && outcome.body.JsonBody?
      && outcome.body.value.BodyObject? && !outcome.body.value.contact.NotAnObject?
    ensures AttemptResult(CreateContact(outcome)).Ok? ==>
      AttemptResult(CreateContact(outcome)).value ==
        if outcome.body.value.contact.ContactObject? then outcome.body.value.contact.id else None
  {
  }

  /** A CRM error response, as far as `handle_api_error` reads it: the
      status code, the raw text, and the JSON object of the body when it
      parses as one. */
  datatype ErrorResponse = ErrorResponse(statusCode: int, text: string, body: Option<map<string, string>>)

  const ApiErrorPrefix := "GHL API Error: "
  const StatusWord := "Status "

  /** `handle_api_error(response)`: the body's `message` when it has one,
      the raw text when it does not, and the status code when the body
      does not parse; always after the same prefix. */
  function HandleApiError(response: ErrorResponse): (r: string)
    ensures |r| >= |ApiErrorPrefix| && r[..|ApiErrorPrefix|] == ApiErrorPrefix
    ensures response.body.Some? && "message" in response.body.value ==>
      r[|ApiErrorPrefix|..] == response.body.value["message"]
    ensures response.body.Some? && "message" !in response.body.value ==> r[|ApiErrorPrefix|..] == response.text
    ensures response.body.None? ==> r[|ApiErrorPrefix|..] == StatusWord + IntToString(response.statusCode)
  {
    var detail :=
      match response.body
      case None => StatusWord + IntToString(response.statusCode)
      case Some(data) => if "message" in data then data["message"] else response.text;
    assert (ApiErrorPrefix + detail)[|ApiErrorPrefix|..] == detail;
    ApiErrorPrefix + detail
  }

  /** When the body does not parse, the status code can be read back from
      the message. */
  lemma HandleApiErrorStatusRoundTrip(response: ErrorResponse)
    requires response.body.None?
    ensures ParseInt(HandleApiError(response)[|ApiErrorPrefix| + |StatusWord|..]) == Some(response.statusCode)
  {
    var r := HandleApiError(response);
    assert r[|ApiErrorPrefix| + |StatusWord|..] == r[|ApiErrorPrefix|..][|StatusWord|..];
    ParseIntOfIntToString(response.statusCode);
  }
}
