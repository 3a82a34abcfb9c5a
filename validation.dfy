/** Input validation: a ValidationResult collects messages per field; the
    field validators and the lead and company validators fill one in. */
module Validation {
  import opened Wrappers
  import opened Text
  import opened Models

  /** The messages a validation records for each field, in order: the list
      is `errors.get(field, [])`, and a field is a key of the errors dict
      exactly when its list is not empty. */
  datatype Errors = Errors(
    name: seq<string>,
    phone: seq<string>,
    notes: seq<string>,
    companyId: seq<string>,
    companyName: seq<string>,
    ownerName: seq<string>,
    ownerEmail: seq<string>,
    ownerPhone: seq<string>,
    ghlLocationId: seq<string>,
    email: seq<string>)
  {
    /** `errors.get(field, [])` */
    function Get(field: Field): seq<string> {
      match field
      case Name => name
      case Phone => phone
      case Notes => notes
      case CompanyId => companyId
      case CompanyName => companyName
      case OwnerName => ownerName
      case OwnerEmail => ownerEmail
      case OwnerPhone => ownerPhone
      case GhlLocationId => ghlLocationId
      case Email => email
    }

    /** The same errors with field's list replaced by messages. */
    function Set(field: Field, messages: seq<string>): (r: Errors)
      ensures r.Get(field) == messages
    {
      match field
      case Name => this.(name := messages)
      case Phone => this.(phone := messages)
      case Notes => this.(notes := messages)
      case CompanyId => this.(companyId := messages)
      case CompanyName => this.(companyName := messages)
      case OwnerName => this.(ownerName := messages)
      case OwnerEmail => this.(ownerEmail := messages)
      case OwnerPhone => this.(ownerPhone := messages)
      case GhlLocationId => this.(ghlLocationId := messages)
      case Email => this.(email := messages)
    }
  }

  /** `{}` */
  const NoErrors := Errors([], [], [], [], [], [], [], [], [], [])

  /** The errors after `add_error(field, message)`: the message goes at the
      end of the field's list, which is created when absent. */
  function WithError(e: Errors, field: Field, message: string): (r: Errors)
    ensures r.Get(field) == e.Get(field) + [message]
  {
    e.Set(field, e.Get(field) + [message])
  }

  /** The errors after `add_error(field, m)` for each `m` of messages in turn. */
  function WithErrors(e: Errors, field: Field, messages: seq<string>): (r: Errors)
    ensures r.Get(field) == e.Get(field) + messages
  {
    e.Set(field, e.Get(field) + messages)
  }

  /** `add_error` touches only its own field's list. */
  lemma WithErrorKeepsOthers(e: Errors, field: Field, message: string, g: Field)
    requires g != field
    ensures WithError(e, field, message).Get(g) == e.Get(g)
  {
  }

  /** Adding several messages to one field touches no other field's list. */
  lemma WithErrorsKeepsOthers(e: Errors, field: Field, messages: seq<string>, g: Field)
    requires g != field
    ensures WithErrors(e, field, messages).Get(g) == e.Get(g)
  {
  }

  /** Adding no message changes nothing. */
  lemma WithNoErrors(e: Errors, field: Field)
    ensures WithErrors(e, field, []) == e
  {
    assert e.Get(field) + [] == e.Get(field);
  }

  /** `e.update(other)`: each field with messages in `other` takes other's
      list in place of its own. */
  function Updated(e: Errors, other: Errors): Errors
  {
    Errors(
      if other.name != [] then other.name else e.name,
      if other.phone != [] then other.phone else e.phone,
      if other.notes != [] then other.notes else e.notes,
      if other.companyId != [] then other.companyId else e.companyId,
      if other.companyName != [] then other.companyName else e.companyName,
      if other.ownerName != [] then other.ownerName else e.ownerName,
      if other.ownerEmail != [] then other.ownerEmail else e.ownerEmail,
      if other.ownerPhone != [] then other.ownerPhone else e.ownerPhone,
      if other.ghlLocationId != [] then other.ghlLocationId else e.ghlLocationId,
      if other.email != [] then other.email else e.email)
  }

  /** After an update, a field shows other's messages when it has some, and
      keeps its own otherwise. */
  lemma UpdatedGet(e: Errors, other: Errors, f: Field)
    ensures Updated(e, other).Get(f) == if other.Get(f) != [] then other.Get(f) else e.Get(f)
  {
  }

  /** The outcome of a validation: `isValid` and the messages per field. */
  class ValidationResult {
    var isValid: bool
    var errors: Errors

    /** The result is valid exactly when no message has been recorded. */
    ghost predicate Valid()
      reads this
    {
      isValid <==> errors == NoErrors
    }

    /** `ValidationResult()`: valid, no messages */
    constructor ()
      ensures Valid() && isValid && errors == NoErrors
    {
      isValid := true;
      errors := NoErrors;
    }

    /** `add_error(field, message)` */
    method AddError(field: Field, message: string)
      requires Valid()
      modifies this
      ensures Valid() && !isValid
      ensures errors == WithError(old(errors), field, message)
    {
      errors := WithError(errors, field, message);
      assert errors.Get(field) != [];
      isValid := false;
    }

    /** `errors.update(other); is_valid = False` for a non-empty `other`. */
    method Update(other: Errors)
      requires Valid() && other != NoErrors
      modifies this
      ensures Valid() && !isValid
      ensures errors == Updated(old(errors), other)
    {
      errors := Updated(errors, other);
      assert errors != NoErrors by {
        SomeFieldHasMessages(other);
        var f :| other.Get(f) != [];
        UpdatedGet(old(errors), other, f);
      }
      isValid := false;
    }
  }

  lemma SomeFieldHasMessages(e: Errors)
    requires e != NoErrors
    ensures exists f :: e.Get(f) != []
  {
    if e.name != [] { assert e.Get(Name) != []; }
    else if e.phone != [] { assert e.Get(Phone) != []; }
    else if e.notes != [] { assert e.Get(Notes) != []; }
    else if e.companyId != [] { assert e.Get(CompanyId) != []; }
    else if e.companyName != [] { assert e.Get(CompanyName) != []; }
    else if e.ownerName != [] { assert e.Get(OwnerName) != []; }
    else if e.ownerEmail != [] { assert e.Get(OwnerEmail) != []; }
    else if e.ownerPhone != [] { assert e.Get(OwnerPhone) != []; }
    else if e.ghlLocationId != [] { assert e.Get(GhlLocationId) != []; }
    else { assert e.Get(Email) != []; }
  }

  const NameEmptyTail := " cannot be empty or contain only whitespace"
  const NameEmpty := "Name" + NameEmptyTail
  const OwnerNameEmpty := "Owner name" + NameEmptyTail
  const EmailEmpty := "Email cannot be empty"
  const EmailInvalid := "Invalid email format"
  const PhoneEmpty := "Phone cannot be empty"
  const PhoneBadCharacters := "Phone can only contain digits and valid formatting characters (spaces, parentheses, hyphens, plus signs)"
  const PhoneNoDigit := "Phone must contain at least one digit"
  const CompanyIdNotInteger := "company_id must be a valid integer"

  /** `f'{field} is required'` */
  function Required(field: Field): string { FieldName(field) + " is required" }

  /** The errors of `validate_name(name)`: one message under "name" exactly
      when the name is falsy (None, 0, "") or only whitespace. */
  function ValidateName(name: Value): (e: Errors)
    requires IsText(name)
    ensures Blank(name) ==> e == NoErrors.(name := [NameEmpty])
    ensures !Blank(name) ==> e == NoErrors
  {
    if !name.Str? || name.s == [] || Strip(name.s) == [] then NoErrors.(name := [NameEmpty]) else NoErrors
  }

  predicate LocalChar(c: char) {
    IsLetter(c) || IsDigit(c) || c == '.' || c == '_' || c == '%' || c == '+' || c == '-'
  }

  predicate DomainChar(c: char) {
    IsLetter(c) || IsDigit(c) || c == '.' || c == '-'
  }

  /** s splits as local part, '@' at position a, host, '.' at position d and
      a top-level part of at least two letters, each part drawn from the
      character classes of `^[a-zA-Z0-9._%+-]+@[a-zA-Z0-9.-]+\.[a-zA-Z]{2,}$`. */
  predicate EmailSplitAt(s: string, a: int, d: int) {
    0 < a && a + 1 < d && d + 2 < |s| && s[a] == '@' && s[d] == '.'
    && (forall i :: 0 <= i < a ==> LocalChar(s[i]))
    && (forall i :: a < i < d ==> DomainChar(s[i]))
    && (forall i :: d < i < |s| ==> IsLetter(s[i]))
  }

  /** The whole of s matches the email pattern. */
  ghost predicate EmailPattern(s: string) {
    exists a, d :: EmailSplitAt(s, a, d)
  }

  /** Index of the first c in s, |s| when there is none. */
  function IndexOf(s: string, c: char): (i: nat)
    ensures i <= |s| && (i < |s| ==> s[i] == c)
    ensures forall k :: 0 <= k < i ==> s[k] != c
  {
    if s == [] || s[0] == c then 0 else 1 + IndexOf(s[1..], c)
  }

  /** Index of the last c in s, -1 when there is none. */
  function LastIndexOf(s: string, c: char): (i: int)
    ensures -1 <= i < |s| && (0 <= i ==> s[i] == c)
    ensures forall k :: i < k < |s| ==> s[k] != c
  {
    if s == [] then -1
    else if s[|s| - 1] == c then |s| - 1
    else LastIndexOf(s[..|s| - 1], c)
  }

  /** The pattern can only split at the first '@' (the local part has none)
      and at the last '.' (the top-level part has none), so matching it comes
      down to checking that one split. */
  lemma EmailPatternAtFirstAtLastDot(s: string)
    ensures EmailPattern(s) <==> EmailSplitAt(s, IndexOf(s, '@'), LastIndexOf(s, '.'))
  {
    if EmailPattern(s) {
      var a, d :| EmailSplitAt(s, a, d);
      assert IndexOf(s, '@') == a;
      assert LastIndexOf(s, '.') == d;
    }
  }

  /** A matching address holds exactly one '@'. */
  lemma EmailPatternHasOneAt(s: string)
    requires EmailPattern(s)
    ensures forall i :: 0 <= i < |s| && s[i] == '@' ==> i == IndexOf(s, '@')
  {
    EmailPatternAtFirstAtLastDot(s);
    var a := IndexOf(s, '@');
    forall i | 0 <= i < |s| && s[i] == '@'
      ensures i == a
    {
    }
  }

  /** The errors of `validate_email(email)`: "cannot be empty" for a falsy
      or blank input; otherwise "invalid format" exactly when the stripped
      address does not match the pattern. */
  function ValidateEmail(email: Value): (e: Errors)
    requires IsText(email)
    ensures Blank(email) ==> e == NoErrors.(email := [EmailEmpty])
    ensures !Blank(email) ==>
      e == if EmailPattern(Strip(email.s)) then NoErrors else NoErrors.(email := [EmailInvalid])
  {
    if !email.Str? || email.s == [] || Strip(email.s) == [] then NoErrors.(email := [EmailEmpty])
    else
      var t := Strip(email.s);
      EmailPatternAtFirstAtLastDot(t);
      if EmailSplitAt(t, IndexOf(t, '@'), LastIndexOf(t, '.')) then NoErrors
      else NoErrors.(email := [EmailInvalid])
  }

  /** A character of `[\d\s\(\)\-\+]` */
  predicate PhoneChar(c: char) {
    IsDigit(c) || IsSpace(c) || c == '(' || c == ')' || c == '-' || c == '+'
  }

  /** Some character of the phone is outside digits, whitespace and `()-+`. */
  predicate HasBadPhoneChar(phone: string) {
    exists c :: c in phone && !PhoneChar(c)
  }

  /** Some character of the phone is a digit. */
  predicate HasDigit(phone: string) {
    exists c :: c in phone && IsDigit(c)
  }

  /** The messages `validate_phone` reports for a phone that is not blank:
      the format message when some character is outside digits, whitespace
      and `()-+`, then the digit message when there is no digit at all. */
  function PhoneFormatMessages(phone: string): seq<string> {
    (if HasBadPhoneChar(phone) then [PhoneBadCharacters] else [])
    + (if HasDigit(phone) then [] else [PhoneNoDigit])
  }

  /** Stripping only drops whitespace, which the format accepts, so the
      stripped phone has a bad character exactly when the raw one does. */
  lemma StripKeepsBadPhoneChar(phone: string)
    ensures HasBadPhoneChar(Strip(phone)) <==> HasBadPhoneChar(phone)
  {
    var t := Strip(phone);
    if HasBadPhoneChar(phone) {
      var c :| c in phone && !PhoneChar(c);
      assert c in t;
    }
    if HasBadPhoneChar(t) {
      var c :| c in t && !PhoneChar(c);
      assert c in phone;
    }
  }

  /** The errors of `validate_phone(phone)`: "cannot be empty" alone for a
      falsy or blank value; otherwise the format messages, the character
      test made on the stripped phone and the digit test on the raw one. */
  function ValidatePhone(phone: Value): (e: Errors)
    requires IsText(phone)
    ensures Blank(phone) ==> e == NoErrors.(phone := [PhoneEmpty])
    ensures !Blank(phone) ==> e == NoErrors.(phone := PhoneFormatMessages(phone.s))
  {
    if !phone.Str? || phone.s == [] || Strip(phone.s) == [] then NoErrors.(phone := [PhoneEmpty])
    else
      var t := Strip(phone.s);
      StripKeepsBadPhoneChar(phone.s);
      var format := if HasBadPhoneChar(t) then [PhoneBadCharacters] else [];
      var digit := if HasDigit(phone.s) then [] else [PhoneNoDigit];
      NoErrors.(phone := format + digit)
  }

  /** Name, phone and notes of lead data, when present, are strings or
      falsy values: a truthy non-string would make `.strip()` raise. */
  predicate LeadShaped(data: Data) {
    && (Name in data ==> IsText(data[Name]))
    && (Phone in data ==> IsText(data[Phone]))
    && (Notes in data ==> IsText(data[Notes]))
  }

  /** Each field of company data, when present, is a string or a falsy
      value: a truthy non-string would make `.strip()` raise. */
  predicate CompanyShaped(data: Data) {
    && (CompanyName in data ==> IsText(data[CompanyName]))
    && (OwnerName in data ==> IsText(data[OwnerName]))
    && (OwnerEmail in data ==> IsText(data[OwnerEmail]))
    && (OwnerPhone in data ==> IsText(data[OwnerPhone]))
    && (GhlLocationId in data ==> IsText(data[GhlLocationId]))
  }

  const LeadRequiredFields: seq<Field> := [Name, Phone, CompanyId]
  const CompanyRequiredFields: seq<Field> := [CompanyName, OwnerName, OwnerEmail, OwnerPhone, GhlLocationId]

  /** The required-field test: the field is absent, or its value is falsy;
      a lead's company_id is only tested for presence. */
  predicate FieldMissing(data: Data, field: Field, forLead: bool) {
    field !in data || (!(forLead && field == CompanyId) && Falsy(data[field]))
  }

  /** The "is required" message a field gets, if any. */
  function RequiredMessage(data: Data, field: Field, forLead: bool): seq<string> {
    if FieldMissing(data, field, forLead) then [Required(field)] else []
  }

  /** The messages of the loop over the required fields. */
  function RequiredErrors(data: Data, fields: seq<Field>, forLead: bool): Errors
    decreases |fields|
  {
    if fields == [] then NoErrors
    else
      var n := |fields| - 1;
      var f := fields[n];
      WithErrors(RequiredErrors(data, fields[..n], forLead), f, RequiredMessage(data, f, forLead))
  }

  /** Checking one more field appends its "is required" message, if any. */
  lemma RequiredErrorsSnoc(data: Data, fields: seq<Field>, f: Field, forLead: bool)
    ensures RequiredErrors(data, fields + [f], forLead)
      == WithErrors(RequiredErrors(data, fields, forLead), f, RequiredMessage(data, f, forLead))
  {
    assert (fields + [f])[..|fields|] == fields;
  }

  /** The lead loop checks name, phone and company_id in turn: each missing
      one gets its "is required" message, and no other field gets any. */
  lemma LeadRequiredErrors(data: Data)
    ensures RequiredErrors(data, LeadRequiredFields, true)
      == NoErrors.(name := RequiredMessage(data, Name, true),
                   phone := RequiredMessage(data, Phone, true),
                   companyId := RequiredMessage(data, CompanyId, true))
  {
    RequiredErrorsSnoc(data, [], Name, true);
    assert [] + [Name] == [Name];
    RequiredErrorsSnoc(data, [Name], Phone, true);
    assert [Name] + [Phone] == [Name, Phone];
    RequiredErrorsSnoc(data, [Name, Phone], CompanyId, true);
    assert [Name, Phone] + [CompanyId] == LeadRequiredFields;
  }

  /** The company loop checks its five fields in turn: each missing one gets
      its "is required" message, and no other field gets any. */
  lemma CompanyRequiredErrors(data: Data)
    ensures RequiredErrors(data, CompanyRequiredFields, false)
      == NoErrors.(companyName := RequiredMessage(data, CompanyName, false),
                   ownerName := RequiredMessage(data, OwnerName, false),
                   ownerEmail := RequiredMessage(data, OwnerEmail, false),
                   ownerPhone := RequiredMessage(data, OwnerPhone, false),
                   ghlLocationId := RequiredMessage(data, GhlLocationId, false))
  {
    CompanyRequiredPrefix(data);
    var f4 := [CompanyName, OwnerName, OwnerEmail, OwnerPhone];
    RequiredErrorsSnoc(data, f4, GhlLocationId, false);
    assert f4 + [GhlLocationId] == CompanyRequiredFields;
  }

  /** The first four fields of the company loop. */
  lemma CompanyRequiredPrefix(data: Data)
    ensures RequiredErrors(data, [CompanyName, OwnerName, OwnerEmail, OwnerPhone], false)
      == NoErrors.(companyName := RequiredMessage(data, CompanyName, false),
                   ownerName := RequiredMessage(data, OwnerName, false),
                   ownerEmail := RequiredMessage(data, OwnerEmail, false),
                   ownerPhone := RequiredMessage(data, OwnerPhone, false))
  {
    CompanyRequiredTriple(data);
    var f3 := [CompanyName, OwnerName, OwnerEmail];
    RequiredErrorsSnoc(data, f3, OwnerPhone, false);
    assert f3 + [OwnerPhone] == [CompanyName, OwnerName, OwnerEmail, OwnerPhone];
  }

  /** The first three fields of the company loop. */
  lemma CompanyRequiredTriple(data: Data)
    ensures RequiredErrors(data, [CompanyName, OwnerName, OwnerEmail], false)
      == NoErrors.(companyName := RequiredMessage(data, CompanyName, false),
                   ownerName := RequiredMessage(data, OwnerName, false),
                   ownerEmail := RequiredMessage(data, OwnerEmail, false))
  {
    CompanyRequiredPair(data);
    var f2 := [CompanyName, OwnerName];
    RequiredErrorsSnoc(data, f2, OwnerEmail, false);
    assert f2 + [OwnerEmail] == [CompanyName, OwnerName, OwnerEmail];
  }

  /** The first two fields of the company loop. */
  lemma CompanyRequiredPair(data: Data)
    ensures RequiredErrors(data, [CompanyName, OwnerName], false)
      == NoErrors.(companyName := RequiredMessage(data, CompanyName, false),
                   ownerName := RequiredMessage(data, OwnerName, false))
  {
    RequiredErrorsSnoc(data, [], CompanyName, false);
    assert [] + [CompanyName] == [CompanyName];
    RequiredErrorsSnoc(data, [CompanyName], OwnerName, false);
    assert [CompanyName] + [OwnerName] == [CompanyName, OwnerName];
  }


  /** A falsy value is blank. */
  lemma FalsyTextIsBlank(v: Value)
    requires IsText(v) && Falsy(v)
    ensures Blank(v)
  {
  }

  /** `if not r.is_valid: result.errors.update(r.errors)`: any messages of
      `other` replace the lists of their fields. */
  function UpdatedIfAny(e: Errors, other: Errors): Errors {
    if other != NoErrors then Updated(e, other) else e
  }

  /** Merging the outcome of `validate_name` touches only the name field. */
  lemma UpdatedIfAnyName(e: Errors, messages: seq<string>)
    ensures UpdatedIfAny(e, NoErrors.(name := messages))
      == if messages == [] then e else e.(name := messages)
  {
    if messages == [] {
      assert NoErrors.(name := messages) == NoErrors;
    } else {
      assert NoErrors.(name := messages).Get(Name) != [];
    }
  }

  /** Merging the outcome of `validate_phone` touches only the phone field. */
  lemma UpdatedIfAnyPhone(e: Errors, messages: seq<string>)
    ensures UpdatedIfAny(e, NoErrors.(phone := messages))
      == if messages == [] then e else e.(phone := messages)
  {
    if messages == [] {
      assert NoErrors.(phone := messages) == NoErrors;
    } else {
      assert NoErrors.(phone := messages).Get(Phone) != [];
    }
  }

  /** The name step of `validate_lead_data`. */
  function MergeName(data: Data, e: Errors): Errors
    requires LeadShaped(data)
  {
    if Name in data then UpdatedIfAny(e, ValidateName(data[Name])) else e
  }

  /** The phone step of `validate_lead_data`. */
  function MergePhone(data: Data, e: Errors): Errors
    requires LeadShaped(data)
  {
    if Phone in data then UpdatedIfAny(e, ValidatePhone(data[Phone])) else e
  }

  /** The company_id step of `validate_lead_data`: `int()` must accept it. */
  function CheckCompanyId(data: Data, e: Errors): Errors {
    if CompanyId in data && PyInt(data[CompanyId]).None? then WithError(e, CompanyId, CompanyIdNotInteger) else e
  }

  /** The messages `validate_lead_data(data)` records. */
  function LeadErrors(data: Data): Errors
    requires LeadShaped(data)
  {
    CheckCompanyId(data, MergePhone(data, MergeName(data, RequiredErrors(data, LeadRequiredFields, true))))
  }

  /** The name messages of a lead: "is required" when absent, the blank
      message (which replaces "is required") when blank, none otherwise. */
  function LeadNameMessages(data: Data): seq<string>
    requires LeadShaped(data)
  {
    if Name !in data then [Required(Name)] else if Blank(data[Name]) then [NameEmpty] else []
  }

  /** The phone messages of a lead: "is required" when absent, otherwise
      those of `validate_phone`, which replace "is required". */
  function LeadPhoneMessages(data: Data): seq<string>
    requires LeadShaped(data)
  {
    if Phone !in data then [Required(Phone)] else ValidatePhone(data[Phone]).phone
  }

  /** The company_id messages of a lead: "is required" when absent, the
      integer message when `int()` rejects it; a falsy id such as 0 passes. */
  function LeadCompanyIdMessages(data: Data): seq<string> {
    if CompanyId !in data then [Required(CompanyId)]
    else if PyInt(data[CompanyId]).None? then [CompanyIdNotInteger]
    else []
  }

  /** The errors after the name step of `validate_lead_data`. */
  lemma LeadAfterName(data: Data)
    requires LeadShaped(data)
    ensures MergeName(data, RequiredErrors(data, LeadRequiredFields, true))
      == NoErrors.(name := LeadNameMessages(data),
                   phone := RequiredMessage(data, Phone, true),
                   companyId := RequiredMessage(data, CompanyId, true))
  {
    LeadRequiredErrors(data);
    var required := RequiredErrors(data, LeadRequiredFields, true);
    if Name in data {
      var v := data[Name];
      if Blank(v) {
        UpdatedIfAnyName(required, [NameEmpty]);
      } else {
        UpdatedIfAnyName(required, []);
        assert !Falsy(v);
      }
    }
  }

  /** The errors after the phone step of `validate_lead_data`. */
  lemma LeadAfterPhone(data: Data)
    requires LeadShaped(data)
    ensures MergePhone(data, MergeName(data, RequiredErrors(data, LeadRequiredFields, true)))
      == NoErrors.(name := LeadNameMessages(data),
                   phone := LeadPhoneMessages(data),
                   companyId := RequiredMessage(data, CompanyId, true))
  {
    LeadAfterName(data);
    var afterName := NoErrors.(name := LeadNameMessages(data),
                               phone := RequiredMessage(data, Phone, true),
                               companyId := RequiredMessage(data, CompanyId, true));
    if Phone in data {
      var v := data[Phone];
      UpdatedIfAnyPhone(afterName, ValidatePhone(v).phone);
      if Falsy(v) {
        FalsyTextIsBlank(v);
      }
    }
  }

  /** Every message `validate_lead_data` records, field by field: no field
      but name, phone and company_id ever gets one. */
  lemma LeadErrorsByField(data: Data)
    requires LeadShaped(data)
    ensures LeadErrors(data)
      == NoErrors.(name := LeadNameMessages(data),
                   phone := LeadPhoneMessages(data),
                   companyId := LeadCompanyIdMessages(data))
  {
    LeadAfterPhone(data);
  }

  /** A lead passes validation exactly when it has a non-blank name, a phone
      `validate_phone` accepts and a company_id `int()` accepts. */
  lemma LeadAccepted(data: Data)
    requires LeadShaped(data)
    ensures LeadErrors(data) == NoErrors <==>
      && Name in data && !Blank(data[Name])
      && Phone in data && ValidatePhone(data[Phone]) == NoErrors
      && CompanyId in data && PyInt(data[CompanyId]).Some?
  {
    LeadErrorsByField(data);
    if Phone in data {
      var v := data[Phone];
      assert ValidatePhone(v) == NoErrors.(phone := ValidatePhone(v).phone);
    }
  }

  /** `error.replace('Name', 'Owner name')` for each message in turn. */
  function OwnerNameMessages(messages: seq<string>): (r: seq<string>)
    ensures |r| == |messages|
    decreases |messages|
  {
    if messages == [] then []
    else
      var n := |messages| - 1;
      OwnerNameMessages(messages[..n]) + [Replace(messages[n], "Name", "Owner name")]
  }

  /** The blank-name message becomes the blank-owner-name message. */
  lemma OwnerNameMessage()
    ensures OwnerNameMessages([NameEmpty]) == [OwnerNameEmpty]
  {
    assert NameEmpty[..4] == "Name" && NameEmpty[4..] == NameEmptyTail;
    assert 'N' !in NameEmptyTail;
    ReplaceAbsent(NameEmptyTail, "Name", "Owner name");
    assert [NameEmpty][..0] == [];
  }

  /** The company-name step of `validate_company_data`: its message lands
      under "name", the key `validate_name` uses. */
  function MergeCompanyName(data: Data, e: Errors): Errors
    requires CompanyShaped(data)
  {
    if CompanyName in data then UpdatedIfAny(e, ValidateName(data[CompanyName])) else e
  }

  /** The owner-name step: the name messages, renamed, go to owner_name. */
  function AddOwnerNameMessages(data: Data, e: Errors): Errors
    requires CompanyShaped(data)
  {
    if OwnerName in data && ValidateName(data[OwnerName]) != NoErrors then
      WithErrors(e, OwnerName, OwnerNameMessages(ValidateName(data[OwnerName]).name))
    else e
  }

  /** The owner-email step: the email messages go to owner_email. */
  function AddOwnerEmailMessages(data: Data, e: Errors): Errors
    requires CompanyShaped(data)
  {
    if OwnerEmail in data && ValidateEmail(data[OwnerEmail]) != NoErrors then
      WithErrors(e, OwnerEmail, ValidateEmail(data[OwnerEmail]).email)
    else e
  }

  /** The owner-phone step: the phone messages go to owner_phone. */
  function AddOwnerPhoneMessages(data: Data, e: Errors): Errors
    requires CompanyShaped(data)
  {
    if OwnerPhone in data && ValidatePhone(data[OwnerPhone]) != NoErrors then
      WithErrors(e, OwnerPhone, ValidatePhone(data[OwnerPhone]).phone)
    else e
  }

  /** The messages `validate_company_data(data)` records. */
  function CompanyErrors(data: Data): Errors
    requires CompanyShaped(data)
  {
    var required := RequiredErrors(data, CompanyRequiredFields, false);
    AddOwnerPhoneMessages(data, AddOwnerEmailMessages(data, AddOwnerNameMessages(data,
      MergeCompanyName(data, required))))
  }

  /** The blank company-name message, under "name". */
  function CompanyNameMessages(data: Data): seq<string>
    requires CompanyShaped(data)
  {
    if CompanyName in data && Blank(data[CompanyName]) then [NameEmpty] else []
  }

  /** owner_name: "is required" when missing or falsy, then the blank
      owner-name message when present and blank. */
  function OwnerNameFieldMessages(data: Data): seq<string>
    requires CompanyShaped(data)
  {
    RequiredMessage(data, OwnerName, false)
    + (if OwnerName in data && Blank(data[OwnerName]) then [OwnerNameEmpty] else [])
  }

  /** owner_email: "is required" when missing or falsy, then the messages of
      `validate_email` when present. */
  function OwnerEmailFieldMessages(data: Data): seq<string>
    requires CompanyShaped(data)
  {
    RequiredMessage(data, OwnerEmail, false)
    + (if OwnerEmail in data then ValidateEmail(data[OwnerEmail]).email else [])
  }

  /** owner_phone: "is required" when missing or falsy, then the messages of
      `validate_phone` when present. */
  function OwnerPhoneFieldMessages(data: Data): seq<string>
    requires CompanyShaped(data)
  {
    RequiredMessage(data, OwnerPhone, false)
    + (if OwnerPhone in data then ValidatePhone(data[OwnerPhone]).phone else [])
  }

  /** The errors after the company-name step. */
  lemma CompanyAfterName(data: Data)
    requires CompanyShaped(data)
    ensures MergeCompanyName(data, RequiredErrors(data, CompanyRequiredFields, false))
      == NoErrors.(name := CompanyNameMessages(data),
                   companyName := RequiredMessage(data, CompanyName, false),
                   ownerName := RequiredMessage(data, OwnerName, false),
                   ownerEmail := RequiredMessage(data, OwnerEmail, false),
                   ownerPhone := RequiredMessage(data, OwnerPhone, false),
                   ghlLocationId := RequiredMessage(data, GhlLocationId, false))
  {
    CompanyRequiredErrors(data);
    var required := RequiredErrors(data, CompanyRequiredFields, false);
    if CompanyName in data {
      if Blank(data[CompanyName]) {
        UpdatedIfAnyName(required, [NameEmpty]);
      } else {
        UpdatedIfAnyName(required, []);
      }
    }
  }

  /** The owner-name step appends the renamed blank-name message when the
      owner name is present and blank, and changes nothing else. */
  lemma OwnerNameStep(data: Data, e: Errors)
    requires CompanyShaped(data)
    ensures AddOwnerNameMessages(data, e)
      == e.(ownerName := e.ownerName + if OwnerName in data && Blank(data[OwnerName]) then [OwnerNameEmpty] else [])
  {
    if OwnerName in data && Blank(data[OwnerName]) {
      OwnerNameMessage();
    } else {
      assert e.ownerName + [] == e.ownerName;
    }
  }

  /** The owner-email step appends the messages of `validate_email` when the
      email is present, and changes nothing else. */
  lemma OwnerEmailStep(data: Data, e: Errors)
    requires CompanyShaped(data)
    ensures AddOwnerEmailMessages(data, e)
      == e.(ownerEmail := e.ownerEmail + if OwnerEmail in data then ValidateEmail(data[OwnerEmail]).email else [])
  {
    if !(OwnerEmail in data && ValidateEmail(data[OwnerEmail]) != NoErrors) {
      assert e.ownerEmail + [] == e.ownerEmail;
    }
  }

  /** The owner-phone step appends the messages of `validate_phone` when the
      phone is present, and changes nothing else. */
  lemma OwnerPhoneStep(data: Data, e: Errors)
    requires CompanyShaped(data)
    ensures AddOwnerPhoneMessages(data, e)
      == e.(ownerPhone := e.ownerPhone + if OwnerPhone in data then ValidatePhone(data[OwnerPhone]).phone else [])
  {
    if !(OwnerPhone in data && ValidatePhone(data[OwnerPhone]) != NoErrors) {
      assert e.ownerPhone + [] == e.ownerPhone;
    }
  }

  /** Every message `validate_company_data` records, field by field: the
      blank company name under "name", nothing under the lead-only fields. */
  lemma CompanyErrorsByField(data: Data)
    requires CompanyShaped(data)
    ensures CompanyErrors(data)
      == NoErrors.(name := CompanyNameMessages(data),
                   companyName := RequiredMessage(data, CompanyName, false),
                   ownerName := OwnerNameFieldMessages(data),
                   ownerEmail := OwnerEmailFieldMessages(data),
                   ownerPhone := OwnerPhoneFieldMessages(data),
                   ghlLocationId := RequiredMessage(data, GhlLocationId, false))
  {
    var e1 := MergeCompanyName(data, RequiredErrors(data, CompanyRequiredFields, false));
    CompanyAfterName(data);
    var e2 := AddOwnerNameMessages(data, e1);
    OwnerNameStep(data, e1);
    var e3 := AddOwnerEmailMessages(data, e2);
    OwnerEmailStep(data, e2);
    OwnerPhoneStep(data, e3);
  }

  /** A company passes validation exactly when both names are non-blank,
      `validate_email` and `validate_phone` accept the owner's email and
      phone, and the location id is present and truthy. */
  lemma CompanyAccepted(data: Data)
    requires CompanyShaped(data)
    ensures CompanyErrors(data) == NoErrors <==>
      && CompanyName in data && !Blank(data[CompanyName])
      && OwnerName in data && !Blank(data[OwnerName])
      && OwnerEmail in data && ValidateEmail(data[OwnerEmail]) == NoErrors
      && OwnerPhone in data && ValidatePhone(data[OwnerPhone]) == NoErrors
      && GhlLocationId in data && !Falsy(data[GhlLocationId])
  {
    CompanyErrorsByField(data);
    if CompanyName in data && Falsy(data[CompanyName]) {
      FalsyTextIsBlank(data[CompanyName]);
    }
    if OwnerName in data && Falsy(data[OwnerName]) {
      FalsyTextIsBlank(data[OwnerName]);
    }
    if OwnerEmail in data {
      var v := data[OwnerEmail];
      assert ValidateEmail(v) == NoErrors.(email := ValidateEmail(v).email);
      if Falsy(v) {
        FalsyTextIsBlank(v);
      }
    }
    if OwnerPhone in data {
      var v := data[OwnerPhone];
      assert ValidatePhone(v) == NoErrors.(phone := ValidatePhone(v).phone);
      if Falsy(v) {
        FalsyTextIsBlank(v);
      }
    }
  }

  /** `for field in required_fields: if missing: add_error(field, ...)` */
  method CheckRequired(result: ValidationResult, data: Data, fields: seq<Field>, forLead: bool)
    requires result.Valid() && result.errors == NoErrors
    modifies result
    ensures result.Valid() && result.errors == RequiredErrors(data, fields, forLead)
  {
    for i := 0 to |fields|
      invariant result.Valid()
      invariant result.errors == RequiredErrors(data, fields[..i], forLead)
    {
      var field := fields[i];
      assert fields[..i + 1][..i] == fields[..i];
      if FieldMissing(data, field, forLead) {
        result.AddError(field, Required(field));
      } else {
        WithNoErrors(result.errors, field);
      }
    }
    assert fields[..|fields|] == fields;
  }

  /** `for error in messages: add_error(field, error)` */
  method AddErrors(result: ValidationResult, field: Field, messages: seq<string>)
    requires result.Valid()
    modifies result
    ensures result.Valid() && result.errors == WithErrors(old(result.errors), field, messages)
  {
    var start := result.errors;
    WithNoErrors(start, field);
    for j := 0 to |messages|
      invariant result.Valid()
      invariant result.errors == WithErrors(start, field, messages[..j])
    {
      assert messages[..j + 1] == messages[..j] + [messages[j]];
      result.AddError(field, messages[j]);
    }
    assert messages[..|messages|] == messages;
  }

  /** `for error in messages: add_error('owner_name', error.replace('Name', 'Owner name'))` */
  method AddOwnerNameErrors(result: ValidationResult, messages: seq<string>)
    requires result.Valid()
    modifies result
    ensures result.Valid() && result.errors == WithErrors(old(result.errors), OwnerName, OwnerNameMessages(messages))
  {
    var start := result.errors;
    WithNoErrors(start, OwnerName);
    for j := 0 to |messages|
      invariant result.Valid()
      invariant result.errors == WithErrors(start, OwnerName, OwnerNameMessages(messages[..j]))
    {
      assert messages[..j + 1][..j] == messages[..j];
      result.AddError(OwnerName, Replace(messages[j], "Name", "Owner name"));
    }
    assert messages[..|messages|] == messages;
  }

  /** `validate_lead_data(data)`: the required-field loop, then the name,
      phone and company_id checks. */
  method ValidateLeadData(data: Data) returns (result: ValidationResult)
    requires LeadShaped(data)
    ensures result.Valid() && result.errors == LeadErrors(data)
  {
    result := new ValidationResult();
    CheckRequired(result, data, LeadRequiredFields, true);
    if Name in data {
      var nameErrors := ValidateName(data[Name]);
      if nameErrors != NoErrors {
        result.Update(nameErrors);
      }
    }
    if Phone in data {
      var phoneErrors := ValidatePhone(data[Phone]);
      if phoneErrors != NoErrors {
        result.Update(phoneErrors);
      }
    }
    if CompanyId in data && PyInt(data[CompanyId]).None? {
      result.AddError(CompanyId, CompanyIdNotInteger);
    }
  }

  /** `validate_company_data(data)`: the required-field loop, the company
      name check, then the owner name, email and phone messages copied one
      by one into the owner's fields. */
  method ValidateCompanyData(data: Data) returns (result: ValidationResult)
    requires CompanyShaped(data)
    ensures result.Valid() && result.errors == CompanyErrors(data)
  {
    result := new ValidationResult();
    CheckRequired(result, data, CompanyRequiredFields, false);
    MergeCompanyNameStep(result, data);
    AddOwnerNameStep(result, data);
    AddOwnerEmailStep(result, data);
    AddOwnerPhoneStep(result, data);
  }

  /** The company-name step of `validate_company_data`. */
  method MergeCompanyNameStep(result: ValidationResult, data: Data)
    requires CompanyShaped(data) && result.Valid()
    modifies result
    ensures result.Valid() && result.errors == MergeCompanyName(data, old(result.errors))
  {
    if CompanyName in data {
      var nameErrors := ValidateName(data[CompanyName]);
      if nameErrors != NoErrors {
        result.Update(nameErrors);
      }
    }
  }

  /** The owner-name step of `validate_company_data`. */
  method AddOwnerNameStep(result: ValidationResult, data: Data)
    requires CompanyShaped(data) && result.Valid()
    modifies result
    ensures result.Valid() && result.errors == AddOwnerNameMessages(data, old(result.errors))
  {
    if OwnerName in data {
      var nameErrors := ValidateName(data[OwnerName]);
      if nameErrors != NoErrors {
        AddOwnerNameErrors(result, nameErrors.name);
      }
    }
  }

  /** The owner-email step of `validate_company_data`. */
  method AddOwnerEmailStep(result: ValidationResult, data: Data)
    requires CompanyShaped(data) && result.Valid()
    modifies result
    ensures result.Valid() && result.errors == AddOwnerEmailMessages(data, old(result.errors))
  {
    if OwnerEmail in data {
      var emailErrors := ValidateEmail(data[OwnerEmail]);
      if emailErrors != NoErrors {
        AddErrors(result, OwnerEmail, emailErrors.email);
      }
    }
  }

  /** The owner-phone step of `validate_company_data`. */
  method AddOwnerPhoneStep(result: ValidationResult, data: Data)
    requires CompanyShaped(data) && result.Valid()
    modifies result
    ensures result.Valid() && result.errors == AddOwnerPhoneMessages(data, old(result.errors))
  {
    if OwnerPhone in data {
      var phoneErrors := ValidatePhone(data[OwnerPhone]);
      if phoneErrors != NoErrors {
        AddErrors(result, OwnerPhone, phoneErrors.phone);
      }
    }
  }

  /** The message `validate_company_exists` records for an unknown id. */
  function CompanyMissingMessage(companyId: int): string {
    "Company with id " + IntToString(companyId) + " does not exist"
  }

  /** `validate_company_exists(company_id)`: no message exactly when a
      company with that id is stored. */
  function ValidateCompanyExists(companyId: int, companies: map<int, Company>): (e: Errors)
    ensures e == NoErrors <==> companyId in companies
    ensures companyId !in companies ==> e == NoErrors.(companyId := [CompanyMissingMessage(companyId)])
  {
    if companyId in companies then NoErrors
    else NoErrors.(companyId := [CompanyMissingMessage(companyId)])
  }
}
