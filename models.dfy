/** The values the services exchange and the rows of the three tables
    (companies, leads, processing_logs). */
module Models {
  import opened Wrappers
  import opened Text

  /** One value of submitted form, JSON or CSV data, as far as the services
      inspect it: a string, an integer, or None. */
  datatype Value = Str(s: string) | Int(n: int) | Null

  /** The field names the services read from submitted data or report
      messages under. */
  datatype Field =
    | Name | Phone | Notes | CompanyId
    | CompanyName | OwnerName | OwnerEmail | OwnerPhone | GhlLocationId
    | Email

  /** The name a field goes by in forms, JSON and messages. */
  function FieldName(f: Field): string {
    match f
    case Name => "name"
    case Phone => "phone"
    case Notes => "notes"
    case CompanyId => "company_id"
    case CompanyName => "company_name"
    case OwnerName => "owner_name"
    case OwnerEmail => "owner_email"
    case OwnerPhone => "owner_phone"
    case GhlLocationId => "ghl_location_id"
    case Email => "email"
  }

  /** Submitted data: the value of each field that is present. */
  type Data = map<Field, Value>

  /** Python's `not v` */
  predicate Falsy(v: Value) {
    v == Str("") || v == Int(0) || v == Null
  }

  /** A value a string validator accepts without raising: a string, or a
      falsy value, which `not v` turns away before `v.strip()` is reached. */
  predicate IsText(v: Value) { v.Str? || Falsy(v) }

  /** `not v or not v.strip()` for a string or a falsy value */
  predicate Blank(v: Value)
    requires IsText(v)
  {
    !v.Str? || AllSpace(v.s)
  }

  /** `str(v)` */
  function PyStr(v: Value): string {
    match v
    case Str(s) => s
    case Int(n) => IntToString(n)
    case Null => "None"
  }

  /** `int(v)`; None where Python raises */
  function PyInt(v: Value): Option<int> {
    match v
    case Int(n) => Some(n)
    case Str(s) => ParseInt(s)
    case Null => None
  }

  /** The status column of a processing log. */
  datatype Status = Pending | Processing | Success | Failed

  /** A row of processing_logs. Timestamps are abstract clock readings. */
  datatype LogRecord = LogRecord(
    id: int,
    leadId: int,
    companyId: int,
    status: Status,
    workerId: Option<string>,
    contactId: Option<string>,
    errorMessage: Option<string>,
    attemptCount: int,
    createdAt: int,
    updatedAt: int)

  /** A row of leads. */
  datatype Lead = Lead(id: int, companyId: int, name: string, phone: string, notes: Option<string>)

  /** A row of companies. */
  datatype Company = Company(
    id: int,
    companyName: string,
    ownerName: string,
    ownerPhone: string,
    ownerEmail: string,
    ghlLocationId: string)

  /** A query's `.first()` over the rows with keys lo..hi-1: the smallest
      key whose row satisfies p, or None. */
  function FindFirst<V>(m: map<int, V>, p: V -> bool, lo: int, hi: int): (k: Option<int>)
    decreases hi - lo
    ensures k.Some? ==> lo <= k.value < hi && k.value in m && p(m[k.value])
    ensures k.Some? ==> forall j :: lo <= j < k.value && j in m ==> !p(m[j])
    ensures k.None? ==> forall j :: lo <= j < hi && j in m ==> !p(m[j])
  {
    if lo >= hi then None
    else if lo in m && p(m[lo]) then Some(lo)
    else FindFirst(m, p, lo + 1, hi)
  }
}
