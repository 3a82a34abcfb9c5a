/** The bulk lead endpoint: it checks the request body and the queue's
    health, validates every submitted lead, and creates and queues the
    valid ones without fallback job ids. */
module BulkApi {
  import opened Wrappers
  import opened Models
  import opened Validation
  import opened LeadService

  /** The `leads` member of a JSON body: absent, not a list, or a list. */
  datatype LeadsField = Missing | NotAList | Items(items: seq<Data>)

  /** A request: a body that is not JSON, or a JSON object's `leads`. */
  datatype BulkRequest = NotJson | Json(leads: LeadsField)

  /** The `summary` object of a processed upload. */
  datatype BulkSummary = BulkSummary(totalSubmitted: int, valid: int, invalid: int, created: int, enqueued: int, failed: int)

  /** What the endpoint answers. */
  datatype BulkResponse =
    | BadRequest(error: string)
    | Unavailable(error: string, message: string, status: string)
    | Processed(summary: BulkSummary, invalidLeads: seq<Rejection>, jobIds: seq<string>)

  /** The HTTP status of a response. */
  function StatusCode(r: BulkResponse): (code: int)
    ensures code == 400 <==> r.BadRequest?
    ensures code == 503 <==> r.Unavailable?
    ensures code == 200 <==> r.Processed?
  {
    match r
    case BadRequest(_) => 400
    case Unavailable(_, _, _) => 503
    case Processed(_, _, _) => 200
  }

  const NotJsonError := "Content-Type must be application/json"
  const NoLeadsArray := "Request must contain a \"leads\" array"
  const EmptyLeads := "Leads array cannot be empty"
  const QueueDownResponse := Unavailable(
    "Service unavailable: Queue system is not running",
    "Bulk uploads require Redis to be running. Please contact system administrator.",
    "redis_unavailable")

  /** The lead data a request carries, when its shape is acceptable. */
  predicate ShapedRequest(request: BulkRequest) {
    request.Json? && request.leads.Items? ==> AllShaped(request.leads.items)
  }

  /** The guard answer for a request, or None when it gets past the guards. */
  function Guard(request: BulkRequest, healthy: bool): (r: Option<BulkResponse>)
    ensures r.None? <==> request.Json? && request.leads.Items? && request.leads.items != [] && healthy
    ensures r.Some? ==> StatusCode(r.value) != 200
    ensures r.Some? && StatusCode(r.value) == 503 ==> request.Json? && request.leads.Items? && request.leads.items != []
  {
    match request
    case NotJson => Some(BadRequest(NotJsonError))
    case Json(Missing) => Some(BadRequest(NoLeadsArray))
    case Json(NotAList) => Some(BadRequest(NoLeadsArray))
    case Json(Items(items)) =>
      if items == [] then Some(BadRequest(EmptyLeads))
      else if !healthy then Some(QueueDownResponse)
      else None
  }

  /** Validated items are well shaped, as the items they come from. */
  lemma AcceptedShaped(items: seq<Data>, verdicts: seq<Errors>)
    requires AllShaped(items) && |verdicts| == |items|
    ensures AllShaped(Accepted(items, verdicts))
  {
    forall d | d in Accepted(items, verdicts) ensures LeadShaped(d) {
      AcceptedSound(items, verdicts, d);
    }
  }

  /** The counters of the create-and-queue step: none when no lead is
      valid, the batch's otherwise. */
  function BulkBatch(valid: seq<Data>, companies: map<int, Company>, queue: int -> QueueReply, firstId: int): BatchSummary
    requires AllShaped(valid)
  {
    if valid != [] then Batch(CreateOutcomes(valid, companies), queue, false, firstId) else EmptySummary
  }

  /** The answer to a request that passed the guards, when lead ids are
      handed out from firstId on. */
  function BulkResult(items: seq<Data>, companies: map<int, Company>, queue: int -> QueueReply, firstId: int): BulkResponse
    requires AllShaped(items)
  {
    var verdicts := Verdicts(items);
    var valid := Accepted(items, verdicts);
    var invalid := Rejected(items, verdicts, 0);
    AcceptedShaped(items, verdicts);
    var b := BulkBatch(valid, companies, queue, firstId);
    Processed(BulkSummary(|items|, |valid|, |invalid|, b.created, b.enqueued, b.failed), invalid, b.jobIds)
  }

  /** The leads table after a request that passed the guards: the valid
      items created in order from table t. */
  function BulkStored(items: seq<Data>, companies: map<int, Company>, t: TableState): TableState
    requires AllShaped(items)
  {
    var verdicts := Verdicts(items);
    AcceptedShaped(items, verdicts);
    Stored(t, Accepted(items, verdicts), companies)
  }

  /** The summary of a processed upload adds up: every submitted lead is
      valid or invalid; every valid lead is enqueued or failed; only
      created leads are enqueued, each with one job id; each invalid entry
      names its item by index, with that item's messages, indices strictly
      increasing; and with no valid lead nothing is created. */
  lemma BulkResultCounts(items: seq<Data>, companies: map<int, Company>, queue: int -> QueueReply, firstId: int)
    requires AllShaped(items)
    ensures var r := BulkResult(items, companies, queue, firstId);
      && r.Processed?
      && r.summary.totalSubmitted == |items| == r.summary.valid + r.summary.invalid
      && r.summary.enqueued + r.summary.failed == r.summary.valid
      && r.summary.enqueued == |r.jobIds| && 0 <= r.summary.enqueued <= r.summary.created <= r.summary.valid
      && r.summary.invalid == |r.invalidLeads|
      && NameTheirItems(r.invalidLeads, items, Verdicts(items), 0)
      && PositionsIncrease(r.invalidLeads)
      && (r.summary.valid == 0 ==> r.summary.created == r.summary.enqueued == r.summary.failed == 0 && r.jobIds == [])
  {
    var verdicts := Verdicts(items);
    PartitionSizes(items, verdicts, 0);
    RejectedSound(items, verdicts, 0);
  }

  /** A valid item fails to be created only when its company does not
      exist: it passes the same validation a second time. */
  lemma ValidItemCreated(items: seq<Data>, companies: map<int, Company>, d: Data)
    requires AllShaped(items) && d in Accepted(items, Verdicts(items))
    ensures LeadShaped(d) && LeadErrors(d) == NoErrors && LeadReady(d)
    ensures CreateLeadErrors(d, companies).None? <==> LeadCompanyId(d) in companies
  {
    AcceptedSound(items, Verdicts(items), d);
    var i :| 0 <= i < |items| && items[i] == d && Verdicts(items)[i] == NoErrors;
    VerdictsAt(items, i);
    AcceptedIsReady(d);
    CreateLeadSucceeds(d, companies);
  }

  /** The validation loop of `bulk_upload`: each lead goes to the valid
      list, or to the invalid list under its index with its messages. */
  method PartitionLeads(items: seq<Data>) returns (valid: seq<Data>, invalid: seq<Rejection>)
    requires AllShaped(items)
    ensures valid == Accepted(items, Verdicts(items))
    ensures invalid == Rejected(items, Verdicts(items), 0)
  {
    valid, invalid := [], [];
    ghost var verdicts: seq<Errors> := [];
    for idx := 0 to |items|
      invariant AllShaped(items[..idx]) && verdicts == Verdicts(items[..idx])
      invariant valid == Accepted(items[..idx], verdicts)
      invariant invalid == Rejected(items[..idx], verdicts, 0)
    {
      AllShapedPrefix(items, idx + 1);
      var errors;
      valid, invalid, errors := PartitionStep(items[..idx], verdicts, items[idx], 0, valid, invalid);
      VerdictsSnoc(items, idx);
      TakeOneMore(items, idx);
      verdicts := verdicts + [errors];
    }
    assert items[..|items|] == items;
  }

  /** `bulk_upload()` with the queue's health, the leads table, the stored
      companies, and the queue's answer for each lead id: a request turned
      away by a guard creates no lead; otherwise the answer is `BulkResult`
      and the table is `BulkStored`: it grows by the created leads only. */
  method BulkUpload(request: BulkRequest, healthy: bool, leads: LeadTable, companies: map<int, Company>,
                    queue: int -> QueueReply) returns (response: BulkResponse)
    requires leads.Valid() && ShapedRequest(request)
    modifies leads
    ensures leads.Valid()
    ensures Guard(request, healthy).Some? ==> response == Guard(request, healthy).value && unchanged(leads)
    ensures Guard(request, healthy).None? ==>
      response == BulkResult(request.leads.items, companies, queue, old(leads.nextId))
      && leads.nextId == old(leads.nextId) + response.summary.created
      && TableState(leads.rows, leads.nextId) == BulkStored(request.leads.items, companies, TableState(old(leads.rows), old(leads.nextId)))
      && Grown(old(leads.rows), leads.rows, old(leads.nextId), leads.nextId)
  {
    var guard := Guard(request, healthy);
    if guard.Some? {
      return guard.value;
    }
    var items := request.leads.items;
    var valid, invalid := PartitionLeads(items);
    AcceptedShaped(items, Verdicts(items));

    var results := EmptySummary;
    if valid != [] {
      results := leads.CreateAndEnqueueLeads(valid, companies, queue, false);
    }
    response := Processed(BulkSummary(|items|, |valid|, |invalid|, results.created, results.enqueued, results.failed),
                          invalid, results.jobIds);
  }
}
