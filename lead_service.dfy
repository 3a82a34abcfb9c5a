/** Lead intake: creating a lead, queueing it for the worker, reading a CSV
    batch, and creating and queueing a batch while counting the outcomes. */
module LeadService {
  import opened Wrappers
  import opened Text
  import opened Models
  import opened Validation

  /** Data whose name and phone are strings and whose company_id `int()`
      accepts: what `create_lead` needs to build the row. */
  predicate LeadReady(data: Data) {
    && Name in data && data[Name].Str?
    && Phone in data && data[Phone].Str?
    && CompanyId in data && PyInt(data[CompanyId]).Some?
  }

  /** Lead data that passes `validate_lead_data` is ready to be stored. */
  lemma AcceptedIsReady(data: Data)
    requires LeadShaped(data) && LeadErrors(data) == NoErrors
    ensures LeadReady(data)
  {
    LeadAccepted(data);
  }

  /** `int(data['company_id'])` */
  function LeadCompanyId(data: Data): int
    requires LeadReady(data)
  {
    PyInt(data[CompanyId]).value
  }

  /** `data.get('notes', '').strip() if data.get('notes') else None`: None
      exactly when notes are absent, None or empty; blank notes become "". */
  function LeadNotes(data: Data): (notes: Option<string>)
    requires LeadShaped(data)
    ensures notes.None? <==> Notes !in data || Falsy(data[Notes])
    ensures notes.Some? ==> notes.value == Strip(data[Notes].s)
  {
    if Notes in data && data[Notes].Str? && data[Notes].s != [] then Some(Strip(data[Notes].s)) else None
  }

  /** The row `create_lead` inserts: the id it is given, the integer company
      id, the stripped name and phone, and the notes. */
  function NewLead(id: int, data: Data): (lead: Lead)
    requires LeadShaped(data) && LeadReady(data)
    ensures lead.id == id && lead.companyId == LeadCompanyId(data)
    ensures lead.name == Strip(data[Name].s) && lead.phone == Strip(data[Phone].s)
    ensures lead.notes == LeadNotes(data)
  {
    Lead(id, LeadCompanyId(data), Strip(data[Name].s), Strip(data[Phone].s), LeadNotes(data))
  }

  /** A stored lead has a non-empty name and a phone with a digit. */
  lemma NewLeadFieldsNotEmpty(id: int, data: Data)
    requires LeadShaped(data) && LeadErrors(data) == NoErrors
    ensures LeadReady(data)
    ensures NewLead(id, data).name != [] && NewLead(id, data).phone != []
    ensures HasDigit(NewLead(id, data).phone)
  {
    LeadAccepted(data);
    var p := data[Phone];
    assert ValidatePhone(p) == NoErrors;
    assert !Blank(p);
    StripKeepsDigit(p.s);
  }

  /** Stripping whitespace keeps every digit. */
  lemma StripKeepsDigit(s: string)
    requires HasDigit(s)
    ensures HasDigit(Strip(s))
  {
    var c :| c in s && IsDigit(c);
    assert c in Strip(s);
  }

  /** The errors `create_lead` returns, or None when it stores the lead:
      first the validation errors, then the missing-company error. */
  function CreateLeadErrors(data: Data, companies: map<int, Company>): (r: Option<Errors>)
    requires LeadShaped(data)
    ensures r.Some? ==> r.value != NoErrors
  {
    if LeadErrors(data) != NoErrors then Some(LeadErrors(data))
    else
      AcceptedIsReady(data);
      var e := ValidateCompanyExists(LeadCompanyId(data), companies);
      if e != NoErrors then Some(e) else None
  }

  /** `create_lead` stores a lead exactly when it passes validation and its
      company exists. */
  lemma CreateLeadSucceeds(data: Data, companies: map<int, Company>)
    requires LeadShaped(data)
    ensures CreateLeadErrors(data, companies).None? <==>
      LeadErrors(data) == NoErrors && LeadReady(data) && LeadCompanyId(data) in companies
  {
    if LeadErrors(data) == NoErrors {
      AcceptedIsReady(data);
    }
  }

  /** What the queue does with an enqueue request: a job id, or the
      exception's text. */
  datatype QueueReply = Enqueued(jobId: string) | QueueDown(reason: string)

  /** `f"test-job-{lead.id}"` */
  function FallbackJobId(leadId: int): string {
    "test-job-" + IntToString(leadId)
  }

  /** Different leads get different fallback job ids. */
  lemma FallbackJobIdInjective(a: int, b: int)
    requires FallbackJobId(a) == FallbackJobId(b)
    ensures a == b
  {
    assert FallbackJobId(a)[9..] == IntToString(a);
    assert FallbackJobId(b)[9..] == IntToString(b);
    IntToStringInjective(a, b);
  }

  /** `enqueue_lead(lead, allow_fallback)`: the queue's job id; when the
      queue is down, the fallback id if allowed, an error otherwise. */
  function EnqueueLead(leadId: int, allowFallback: bool, reply: QueueReply): (r: Result<string, string>)
    ensures r.Err? <==> reply.QueueDown? && !allowFallback
    ensures r.Err? ==> r.error == "Redis queue unavailable: " + reply.reason
    ensures r.Ok? ==> r.value == if reply.Enqueued? then reply.jobId else FallbackJobId(leadId)
  {
    match reply
    case Enqueued(jobId) => Ok(jobId)
    case QueueDown(reason) =>
      if !allowFallback then Err("Redis queue unavailable: " + reason) else Ok(FallbackJobId(leadId))
  }

  /** The counters and job ids of `create_and_enqueue_leads`. */
  datatype BatchSummary = BatchSummary(created: int, enqueued: int, failed: int, jobIds: seq<string>)

  const EmptySummary := BatchSummary(0, 0, 0, [])

  /** Every item of the batch has the shape validation reads. */
  predicate AllShaped(items: seq<Data>) {
    forall d :: d in items ==> LeadShaped(d)
  }

  /** A prefix of a well-shaped batch is well-shaped. */
  lemma AllShapedPrefix(items: seq<Data>, i: int)
    requires AllShaped(items) && 0 <= i <= |items|
    ensures AllShaped(items[..i])
  {
    assert forall k :: 0 <= k < i ==> items[..i][k] == items[k];
  }

  /** Taking one more element of a sequence appends it. */
  lemma TakeOneMore<T>(s: seq<T>, i: int)
    requires 0 <= i < |s|
    ensures s[..i + 1] == s[..i] + [s[i]] && s[..i + 1][..i] == s[..i]
  {
  }

  /** What `create_lead` answers for each lead of the batch: its errors,
      or None when it stores the lead. */
  function CreateOutcomes(leads: seq<Data>, companies: map<int, Company>): (outcomes: seq<Option<Errors>>)
    requires AllShaped(leads)
    ensures |outcomes| == |leads|
    decreases |leads|
  {
    if leads == [] then []
    else
      var n := |leads| - 1;
      AllShapedPrefix(leads, n);
      CreateOutcomes(leads[..n], companies) + [CreateLeadErrors(leads[n], companies)]
  }

  /** One more lead of the batch adds its outcome. */
  lemma CreateOutcomesSnoc(leads: seq<Data>, companies: map<int, Company>, i: int)
    requires AllShaped(leads) && 0 <= i < |leads| && AllShaped(leads[..i]) && AllShaped(leads[..i + 1])
    ensures CreateOutcomes(leads[..i + 1], companies) == CreateOutcomes(leads[..i], companies) + [CreateLeadErrors(leads[i], companies)]
  {
    TakeOneMore(leads, i);
  }

  /** The summary of `create_and_enqueue_leads` when `outcomes[i]` is what
      `create_lead` answers for the i-th lead, lead ids are handed out from
      firstId on, and `queue(id)` is the queue's answer for the lead with
      that id. Every lead is counted once, as enqueued or as failed; only
      stored leads are enqueued, each with one job id. */
  function Batch(outcomes: seq<Option<Errors>>, queue: int -> QueueReply, allowFallback: bool, firstId: int): (s: BatchSummary)
    ensures s.enqueued == |s.jobIds|
    ensures 0 <= s.enqueued <= s.created <= |outcomes|
    ensures s.enqueued + s.failed == |outcomes|
    decreases |outcomes|
  {
    if outcomes == [] then EmptySummary
    else
      var n := |outcomes| - 1;
      BatchStep(Batch(outcomes[..n], queue, allowFallback, firstId), outcomes[n].None?, queue, allowFallback, firstId)
  }

  /** The counters after one more lead: a lead not stored counts as failed;
      a stored one gets the next id and is enqueued, or counts as created
      and failed when the queue refuses it. */
  function BatchStep(s: BatchSummary, created: bool, queue: int -> QueueReply, allowFallback: bool, firstId: int): (s': BatchSummary)
    ensures s'.created == s.created + (if created then 1 else 0)
    ensures s'.enqueued + s'.failed == s.enqueued + s.failed + 1
    ensures s'.enqueued - s.enqueued == |s'.jobIds| - |s.jobIds| && s.jobIds <= s'.jobIds
    ensures !created ==> s' == s.(failed := s.failed + 1)
    ensures created && EnqueueLead(firstId + s.created, allowFallback, queue(firstId + s.created)).Ok? ==>
      s' == BatchSummary(s.created + 1, s.enqueued + 1, s.failed,
                         s.jobIds + [EnqueueLead(firstId + s.created, allowFallback, queue(firstId + s.created)).value])
    ensures created && EnqueueLead(firstId + s.created, allowFallback, queue(firstId + s.created)).Err? ==>
      s' == s.(created := s.created + 1, failed := s.failed + 1)
  {
    if !created then
      s.(failed := s.failed + 1)
    else
      var id := firstId + s.created;
      match EnqueueLead(id, allowFallback, queue(id))
      case Ok(jobId) => BatchSummary(s.created + 1, s.enqueued + 1, s.failed, s.jobIds + [jobId])
      case Err(_) => s.(created := s.created + 1, failed := s.failed + 1)
  }

  /** With the fallback allowed, every stored lead is enqueued. */
  lemma {:induction false} BatchFallbackEnqueuesAll(outcomes: seq<Option<Errors>>, queue: int -> QueueReply, firstId: int)
    ensures Batch(outcomes, queue, true, firstId).enqueued == Batch(outcomes, queue, true, firstId).created
    decreases |outcomes|
  {
    if outcomes != [] {
      BatchFallbackEnqueuesAll(outcomes[..|outcomes| - 1], queue, firstId);
    }
  }

  /** jobId is what the queue, or the fallback, gives for some lead id in
      [lo, hi). */
  ghost predicate QueuedFor(jobId: string, queue: int -> QueueReply, allowFallback: bool, lo: int, hi: int) {
    exists id :: lo <= id < hi && EnqueueLead(id, allowFallback, queue(id)) == Ok(jobId)
  }

  /** Every job id of the batch is what the queue, or the fallback, gave
      for the id of a lead the batch stored. */
  lemma {:induction false} BatchJobIdsFromQueue(outcomes: seq<Option<Errors>>, queue: int -> QueueReply, allowFallback: bool, firstId: int)
    ensures forall k :: 0 <= k < |Batch(outcomes, queue, allowFallback, firstId).jobIds| ==>
      QueuedFor(Batch(outcomes, queue, allowFallback, firstId).jobIds[k], queue, allowFallback,
                firstId, firstId + Batch(outcomes, queue, allowFallback, firstId).created)
    decreases |outcomes|
  {
    if outcomes != [] {
      var n := |outcomes| - 1;
      var s := Batch(outcomes[..n], queue, allowFallback, firstId);
      BatchJobIdsFromQueue(outcomes[..n], queue, allowFallback, firstId);
      var s' := Batch(outcomes, queue, allowFallback, firstId);
      assert s' == BatchStep(s, outcomes[n].None?, queue, allowFallback, firstId);
      forall k | 0 <= k < |s'.jobIds|
        ensures QueuedFor(s'.jobIds[k], queue, allowFallback, firstId, firstId + s'.created)
      {
        if k < |s.jobIds| {
          assert s'.jobIds[k] == s.jobIds[k];
          var id :| firstId <= id < firstId + s.created && EnqueueLead(id, allowFallback, queue(id)) == Ok(s.jobIds[k]);
          assert firstId <= id < firstId + s'.created && EnqueueLead(id, allowFallback, queue(id)) == Ok(s'.jobIds[k]);
        } else {
          var id := firstId + s.created;
          assert firstId <= id < firstId + s'.created && EnqueueLead(id, allowFallback, queue(id)) == Ok(s'.jobIds[k]);
        }
      }
    } else {
      assert Batch(outcomes, queue, allowFallback, firstId).jobIds == [];
    }
  }

  /** The number of leads `create_lead` stores. */
  function CountStored(outcomes: seq<Option<Errors>>): nat {
    if outcomes == [] then 0
    else CountStored(outcomes[..|outcomes| - 1]) + if outcomes[|outcomes| - 1].None? then 1 else 0
  }

  /** The batch's created counter counts exactly the stored leads. */
  lemma {:induction false} BatchCountsStored(outcomes: seq<Option<Errors>>, queue: int -> QueueReply, allowFallback: bool, firstId: int)
    ensures Batch(outcomes, queue, allowFallback, firstId).created == CountStored(outcomes)
    decreases |outcomes|
  {
    if outcomes != [] {
      BatchCountsStored(outcomes[..|outcomes| - 1], queue, allowFallback, firstId);
    }
  }

  /** The rows of the leads table and the id the next row gets. */
  datatype TableState = TableState(rows: map<int, Lead>, nextId: int)

  /** The table after `create_lead(d)`: the lead's row added under the next
      id when it is stored, the table as it was otherwise. */
  function AddIfStored(t: TableState, d: Data, companies: map<int, Company>): (t': TableState)
    requires LeadShaped(d)
    ensures CreateLeadErrors(d, companies).Some? ==> t' == t
    ensures CreateLeadErrors(d, companies).None? ==>
      LeadReady(d) && t' == TableState(t.rows[t.nextId := NewLead(t.nextId, d)], t.nextId + 1)
  {
    CreateLeadSucceeds(d, companies);
    if CreateLeadErrors(d, companies).None? then TableState(t.rows[t.nextId := NewLead(t.nextId, d)], t.nextId + 1)
    else t
  }

  /** The leads table after `create_lead` has run on each lead in turn. */
  function Stored(t: TableState, leads: seq<Data>, companies: map<int, Company>): TableState
    requires AllShaped(leads)
    decreases |leads|
  {
    if leads == [] then t
    else
      var n := |leads| - 1;
      AllShapedPrefix(leads, n);
      AddIfStored(Stored(t, leads[..n], companies), leads[n], companies)
  }

  /** One more lead adds its row, if it is stored, under the next id. */
  lemma StoredSnoc(t: TableState, leads: seq<Data>, companies: map<int, Company>, i: int)
    requires AllShaped(leads) && 0 <= i < |leads| && AllShaped(leads[..i]) && AllShaped(leads[..i + 1])
    ensures Stored(t, leads[..i + 1], companies) == AddIfStored(Stored(t, leads[..i], companies), leads[i], companies)
  {
    TakeOneMore(leads, i);
  }

  /** The batch leaves the next id advanced by the number of stored leads,
      and every row it adds carries its own id. */
  lemma {:induction false} StoredCounts(t: TableState, leads: seq<Data>, companies: map<int, Company>)
    requires AllShaped(leads)
    ensures Stored(t, leads, companies).nextId == t.nextId + CountStored(CreateOutcomes(leads, companies))
    ensures forall id :: id in Stored(t, leads, companies).rows && id !in t.rows ==>
      t.nextId <= id < Stored(t, leads, companies).nextId && Stored(t, leads, companies).rows[id].id == id
    decreases |leads|
  {
    if leads != [] {
      var n := |leads| - 1;
      AllShapedPrefix(leads, n);
      StoredCounts(t, leads[..n], companies);
      var outcomes := CreateOutcomes(leads, companies);
      assert outcomes[..n] == CreateOutcomes(leads[..n], companies);
      assert outcomes[n] == CreateLeadErrors(leads[n], companies);
    }
  }

  /** An item the partition rejects: its position, its data and its errors. */
  datatype Rejection = Rejection(position: int, data: Data, errors: Errors)

  /** The errors `validate_lead_data` reports for each item. */
  function Verdicts(items: seq<Data>): (vs: seq<Errors>)
    requires AllShaped(items)
    ensures |vs| == |items|
    decreases |items|
  {
    if items == [] then []
    else
      var n := |items| - 1;
      AllShapedPrefix(items, n);
      Verdicts(items[..n]) + [LeadErrors(items[n])]
  }

  /** The i-th verdict is the i-th item's validation errors. */
  lemma {:induction false} VerdictsAt(items: seq<Data>, i: int)
    requires AllShaped(items) && 0 <= i < |items|
    ensures Verdicts(items)[i] == LeadErrors(items[i])
    decreases |items|
  {
    var n := |items| - 1;
    AllShapedPrefix(items, n);
    if i < n {
      VerdictsAt(items[..n], i);
    }
  }

  /** One more item adds its verdict. */
  lemma VerdictsSnoc(items: seq<Data>, i: int)
    requires AllShaped(items) && 0 <= i < |items| && AllShaped(items[..i]) && AllShaped(items[..i + 1])
    ensures Verdicts(items[..i + 1]) == Verdicts(items[..i]) + [LeadErrors(items[i])]
  {
    TakeOneMore(items, i);
  }

  /** The items whose verdict has no message, in their order. */
  function Accepted(items: seq<Data>, verdicts: seq<Errors>): (r: seq<Data>)
    requires |verdicts| == |items|
    ensures |r| <= |items|
    decreases |items|
  {
    if items == [] then []
    else
      var n := |items| - 1;
      var r := Accepted(items[..n], verdicts[..n]);
      if verdicts[n] == NoErrors then r + [items[n]] else r
  }

  /** Every accepted item is an item whose verdict has no message. */
  lemma {:induction false} AcceptedSound(items: seq<Data>, verdicts: seq<Errors>, d: Data)
    requires |verdicts| == |items| && d in Accepted(items, verdicts)
    ensures exists i :: 0 <= i < |items| && items[i] == d && verdicts[i] == NoErrors
    decreases |items|
  {
    var n := |items| - 1;
    var r := Accepted(items[..n], verdicts[..n]);
    if d in r {
      AcceptedSound(items[..n], verdicts[..n], d);
      var i :| 0 <= i < n && items[..n][i] == d && verdicts[..n][i] == NoErrors;
      assert items[i] == d && verdicts[i] == NoErrors;
    } else {
      assert items[n] == d && verdicts[n] == NoErrors;
    }
  }

  /** Every item whose verdict has no message is accepted. */
  lemma {:induction false} AcceptedComplete(items: seq<Data>, verdicts: seq<Errors>, i: int)
    requires |verdicts| == |items| && 0 <= i < |items| && verdicts[i] == NoErrors
    ensures items[i] in Accepted(items, verdicts)
    decreases |items|
  {
    var n := |items| - 1;
    if i < n {
      AcceptedComplete(items[..n], verdicts[..n], i);
      assert items[..n][i] == items[i];
    }
  }

  /** The indices of the items whose verdict has no message, in order. */
  function AcceptedPositions(verdicts: seq<Errors>): (ps: seq<int>)
    ensures forall k :: 0 <= k < |ps| ==> 0 <= ps[k] < |verdicts| && verdicts[ps[k]] == NoErrors
    decreases |verdicts|
  {
    if verdicts == [] then []
    else
      var n := |verdicts| - 1;
      var ps := AcceptedPositions(verdicts[..n]);
      if verdicts[n] == NoErrors then ps + [n] else ps
  }

  /** The accepted indices strictly increase. */
  lemma {:induction false} AcceptedPositionsIncrease(verdicts: seq<Errors>)
    ensures forall k, l :: 0 <= k < l < |AcceptedPositions(verdicts)| ==>
      AcceptedPositions(verdicts)[k] < AcceptedPositions(verdicts)[l]
    decreases |verdicts|
  {
    if verdicts != [] {
      var n := |verdicts| - 1;
      AcceptedPositionsIncrease(verdicts[..n]);
      var ps := AcceptedPositions(verdicts[..n]);
      if verdicts[n] == NoErrors {
        var ps' := ps + [n];
        assert AcceptedPositions(verdicts) == ps';
        forall k, l | 0 <= k < l < |ps'| ensures ps'[k] < ps'[l] {
          if l == |ps| {
            assert ps'[k] == ps[k] < n;
          }
        }
      } else {
        assert AcceptedPositions(verdicts) == ps;
      }
    }
  }

  /** The accepted items keep their order: the k-th one is the item at the
      k-th accepted index, and those indices strictly increase. */
  lemma {:induction false} AcceptedInOrder(items: seq<Data>, verdicts: seq<Errors>)
    requires |verdicts| == |items|
    ensures var ps := AcceptedPositions(verdicts);
      && |Accepted(items, verdicts)| == |ps|
      && (forall k :: 0 <= k < |ps| ==> Accepted(items, verdicts)[k] == items[ps[k]])
      && (forall k, l :: 0 <= k < l < |ps| ==> ps[k] < ps[l])
    decreases |items|
  {
    AcceptedPositionsIncrease(verdicts);
    if items != [] {
      var n := |items| - 1;
      AcceptedInOrder(items[..n], verdicts[..n]);
      var ps := AcceptedPositions(verdicts[..n]);
      var acc := Accepted(items[..n], verdicts[..n]);
      assert forall k :: 0 <= k < |ps| ==> items[..n][ps[k]] == items[ps[k]];
      if verdicts[n] == NoErrors {
        assert AcceptedPositions(verdicts) == ps + [n];
        assert Accepted(items, verdicts) == acc + [items[n]];
      } else {
        assert AcceptedPositions(verdicts) == ps;
        assert Accepted(items, verdicts) == acc;
      }
    }
  }

  /** The items whose verdict has messages, numbered from start, with those
      messages. */
  function Rejected(items: seq<Data>, verdicts: seq<Errors>, start: int): (r: seq<Rejection>)
    requires |verdicts| == |items|
    ensures |r| <= |items|
    decreases |items|
  {
    if items == [] then []
    else
      var n := |items| - 1;
      var r := Rejected(items[..n], verdicts[..n], start);
      if verdicts[n] != NoErrors then r + [Rejection(start + n, items[n], verdicts[n])] else r
  }

  /** Each rejection names an item by its position, with that item's
      messages, and positions strictly increase. */
  lemma {:induction false} RejectedSound(items: seq<Data>, verdicts: seq<Errors>, start: int)
    requires |verdicts| == |items|
    ensures NameTheirItems(Rejected(items, verdicts, start), items, verdicts, start)
    ensures PositionsIncrease(Rejected(items, verdicts, start))
    decreases |items|
  {
    if items != [] {
      var n := |items| - 1;
      RejectedSound(items[..n], verdicts[..n], start);
      var r := Rejected(items[..n], verdicts[..n], start);
      forall k | 0 <= k < |r| ensures r[k].data == items[r[k].position - start] && r[k].errors == verdicts[r[k].position - start] {
        assert items[..n][r[k].position - start] == items[r[k].position - start];
        assert verdicts[..n][r[k].position - start] == verdicts[r[k].position - start];
      }
    }
  }

  /** Each rejection names an item by its position, with that item's
      messages, which are not empty. */
  predicate NameTheirItems(r: seq<Rejection>, items: seq<Data>, verdicts: seq<Errors>, start: int)
    requires |verdicts| == |items|
  {
    forall k :: 0 <= k < |r| ==>
      && start <= r[k].position < start + |items|
      && r[k].data == items[r[k].position - start]
      && r[k].errors == verdicts[r[k].position - start] && r[k].errors != NoErrors
  }

  /** Positions strictly increase along the list. */
  predicate PositionsIncrease(r: seq<Rejection>) {
    forall k, l :: 0 <= k < l < |r| ==> r[k].position < r[l].position
  }

  /** Every item with messages is listed under its position. */
  lemma {:induction false} RejectedComplete(items: seq<Data>, verdicts: seq<Errors>, start: int, i: int)
    requires |verdicts| == |items| && 0 <= i < |items| && verdicts[i] != NoErrors
    ensures exists k :: 0 <= k < |Rejected(items, verdicts, start)| && Rejected(items, verdicts, start)[k].position == start + i
    decreases |items|
  {
    var n := |items| - 1;
    var r := Rejected(items[..n], verdicts[..n], start);
    if i < n {
      RejectedComplete(items[..n], verdicts[..n], start, i);
      var k :| 0 <= k < |r| && r[k].position == start + i;
      assert Rejected(items, verdicts, start)[k] == r[k];
    } else {
      assert Rejected(items, verdicts, start)[|r|].position == start + i;
    }
  }

  /** One more item extends exactly one of the two lists. */
  lemma PartitionSnoc(items: seq<Data>, verdicts: seq<Errors>, start: int, x: Data, v: Errors)
    requires |verdicts| == |items|
    ensures var items', verdicts' := items + [x], verdicts + [v];
      && (items' [..|items|] == items && verdicts'[..|items|] == verdicts)
      && Accepted(items', verdicts') == (if v == NoErrors then Accepted(items, verdicts) + [x] else Accepted(items, verdicts))
      && Rejected(items', verdicts', start) ==
        (if v == NoErrors then Rejected(items, verdicts, start)
         else Rejected(items, verdicts, start) + [Rejection(start + |items|, x, v)])
  {
    assert (items + [x])[..|items|] == items && (verdicts + [v])[..|items|] == verdicts;
  }

  /** One turn of a validation loop: `validate_lead_data(x)`, then x goes to
      the valid list, or to the invalid list under its position. */
  method PartitionStep(items: seq<Data>, ghost verdicts: seq<Errors>, x: Data, start: int,
                       valid: seq<Data>, invalid: seq<Rejection>)
    returns (valid': seq<Data>, invalid': seq<Rejection>, errors: Errors)
    requires |verdicts| == |items| && LeadShaped(x)
    requires valid == Accepted(items, verdicts) && invalid == Rejected(items, verdicts, start)
    ensures errors == LeadErrors(x)
    ensures valid' == Accepted(items + [x], verdicts + [errors])
    ensures invalid' == Rejected(items + [x], verdicts + [errors], start)
  {
    var result := ValidateLeadData(x);
    errors := result.errors;
    PartitionSnoc(items, verdicts, start, x, errors);
    if result.isValid {
      valid', invalid' := valid + [x], invalid;
    } else {
      valid', invalid' := valid, invalid + [Rejection(start + |items|, x, errors)];
    }
  }

  /** Every item is accepted or rejected, never both. */
  lemma {:induction false} PartitionSizes(items: seq<Data>, verdicts: seq<Errors>, start: int)
    requires |verdicts| == |items|
    ensures |Accepted(items, verdicts)| + |Rejected(items, verdicts, start)| == |items|
    decreases |items|
  {
    if items != [] {
      var n := |items| - 1;
      PartitionSizes(items[..n], verdicts[..n], start);
    }
  }

  /** A CSV row as `csv.DictReader` yields it: a column of a short row maps
      to None. */
  type CsvRow = map<string, Option<string>>

  /** `row.get(column, '')` */
  function Cell(row: CsvRow, column: string): Value {
    if column in row then (if row[column].Some? then Str(row[column].value) else Null) else Str("")
  }

  /** The lead data `parse_csv` builds from a row. */
  function RowData(row: CsvRow, companyId: int): (d: Data)
    ensures LeadShaped(d) && CompanyId in d && d[CompanyId] == Int(companyId)
  {
    map[Name := Cell(row, "name"), Phone := Cell(row, "phone"), Notes := Cell(row, "notes"),
        CompanyId := Int(companyId)]
  }

  /** The lead data of every row, in order. */
  function RowsData(rows: seq<CsvRow>, companyId: int): (ds: seq<Data>)
    ensures |ds| == |rows| && AllShaped(ds)
    ensures forall i :: 0 <= i < |rows| ==> ds[i] == RowData(rows[i], companyId)
  {
    seq(|rows|, i requires 0 <= i < |rows| => RowData(rows[i], companyId))
  }

  /** The result of `parse_csv`. */
  datatype CsvResult = CsvResult(error: Option<string>, total: int, valid: seq<Data>, invalid: seq<Rejection>)

  /** The required columns missing from the header, in the order name, phone. */
  function MissingColumns(header: seq<string>): (missing: seq<string>)
    ensures forall c :: c in missing <==> (c == "name" || c == "phone") && c !in header
  {
    (if "name" in header then [] else ["name"]) + (if "phone" in header then [] else ["phone"])
  }

  /** `sep.join(parts)` */
  function Join(parts: seq<string>, sep: string): string {
    if parts == [] then "" else if |parts| == 1 then parts[0] else parts[0] + sep + Join(parts[1..], sep)
  }

  const CsvEmpty := "CSV file is empty or invalid"

  /** `parse_csv(content, company_id)` for a reader with the given header and
      rows: no header, or one without name or phone, is an error with
      nothing counted; otherwise every row is counted and lands in `valid`
      or, with its row number (its position among the data rows plus 2,
      as if the header were row 1), in `invalid`. */
  method ParseCsv(header: seq<string>, rows: seq<CsvRow>, companyId: int) returns (res: CsvResult)
    ensures header == [] ==> res == CsvResult(Some(CsvEmpty), 0, [], [])
    ensures header != [] && MissingColumns(header) != [] ==>
      res == CsvResult(Some("Missing required columns: " + Join(MissingColumns(header), ", ")), 0, [], [])
    ensures header != [] && MissingColumns(header) == [] ==>
      var ds := RowsData(rows, companyId);
      res == CsvResult(None, |rows|, Accepted(ds, Verdicts(ds)), Rejected(ds, Verdicts(ds), 2))
  {
    if header == [] {
      return CsvResult(Some(CsvEmpty), 0, [], []);
    }
    var missing := MissingColumns(header);
    if missing != [] {
      return CsvResult(Some("Missing required columns: " + Join(missing, ", ")), 0, [], []);
    }
    var ds := RowsData(rows, companyId);
    var total := 0;
    var valid: seq<Data> := [];
    var invalid: seq<Rejection> := [];
    ghost var verdicts: seq<Errors> := [];
    for i := 0 to |rows|
      invariant total == i
      invariant AllShaped(ds[..i]) && verdicts == Verdicts(ds[..i])
      invariant valid == Accepted(ds[..i], verdicts)
      invariant invalid == Rejected(ds[..i], verdicts, 2)
    {
      AllShapedPrefix(ds, i + 1);
      total := total + 1;
      var leadData := RowData(rows[i], companyId);
      var errors;
      valid, invalid, errors := PartitionStep(ds[..i], verdicts, leadData, 2, valid, invalid);
      VerdictsSnoc(ds, i);
      TakeOneMore(ds, i);
      verdicts := verdicts + [errors];
    }
    assert ds[..|rows|] == ds;
    res := CsvResult(None, total, valid, invalid);
  }

  /** Every valid CSV row carries the company id the upload was made for. */
  lemma CsvRowsCarryCompany(rows: seq<CsvRow>, companyId: int)
    ensures var ds := RowsData(rows, companyId);
      forall d :: d in Accepted(ds, Verdicts(ds)) ==> CompanyId in d && d[CompanyId] == Int(companyId)
  {
    var ds := RowsData(rows, companyId);
    forall d | d in Accepted(ds, Verdicts(ds)) ensures CompanyId in d && d[CompanyId] == Int(companyId) {
      AcceptedSound(ds, Verdicts(ds), d);
      var i :| 0 <= i < |ds| && ds[i] == d;
      assert d == RowData(rows[i], companyId);
    }
  }

  /** `after` keeps every row of `before` and adds rows only under the ids
      lo..hi-1. */
  predicate Grown(before: map<int, Lead>, after: map<int, Lead>, lo: int, hi: int) {
    && (forall id :: id in before ==> id in after && after[id] == before[id])
    && (forall id :: id in after ==> id in before || lo <= id < hi)
  }

  /** A table left alone, or given one row under the next id, has grown. */
  lemma GrownByInsert(before: map<int, Lead>, after: map<int, Lead>, lo: int, hi: int)
    requires (after == before && hi == lo) || (hi == lo + 1 && lo in after && after == before[lo := after[lo]])
    requires forall id :: id in before ==> id < lo
    ensures lo <= hi && Grown(before, after, lo, hi)
  {
  }

  /** Growth over two stretches of ids is growth over both. */
  lemma GrownTrans(a: map<int, Lead>, b: map<int, Lead>, c: map<int, Lead>, lo: int, mid: int, hi: int)
    requires Grown(a, b, lo, mid) && Grown(b, c, mid, hi) && lo <= mid <= hi
    ensures Grown(a, c, lo, hi)
  {
  }

  /** The `leads` table. */
  class LeadTable {
    var rows: map<int, Lead>
    /** The id the next inserted row gets. */
    var nextId: int

    /** Ids are positive, below nextId, and stored in their rows. */
    ghost predicate Valid()
      reads this
    {
      nextId >= 1 && forall id :: id in rows ==> 1 <= id < nextId && rows[id].id == id
    }

    constructor ()
      ensures Valid() && rows == map[] && nextId == 1
    {
      rows := map[];
      nextId := 1;
    }

    /** `create_lead(data)` against the stored companies: on an error the
        table is unchanged; otherwise the new lead gets the next id. */
    method CreateLead(data: Data, companies: map<int, Company>) returns (r: Result<Lead, Errors>)
      requires Valid() && LeadShaped(data)
      modifies this
      ensures Valid()
      ensures CreateLeadErrors(data, companies).Some? ==>
        r == Err(CreateLeadErrors(data, companies).value) && rows == old(rows) && nextId == old(nextId)
      ensures CreateLeadErrors(data, companies).None? ==>
        LeadReady(data) && r == Ok(NewLead(old(nextId), data))
        && rows == old(rows)[old(nextId) := r.value] && nextId == old(nextId) + 1
    {
      var validation := ValidateLeadData(data);
      if !validation.isValid {
        return Err(validation.errors);
      }
      AcceptedIsReady(data);
      var exists_ := ValidateCompanyExists(LeadCompanyId(data), companies);
      if exists_ != NoErrors {
        return Err(exists_);
      }
      r := Insert(data);
    }

    /** `db.session.add(lead); db.session.commit()` */
    method Insert(data: Data) returns (r: Result<Lead, Errors>)
      requires Valid() && LeadShaped(data) && LeadReady(data)
      modifies this
      ensures Valid()
      ensures r == Ok(NewLead(old(nextId), data)) && rows == old(rows)[old(nextId) := r.value]
      ensures nextId == old(nextId) + 1
    {
      var lead := NewLead(nextId, data);
      rows := rows[nextId := lead];
      nextId := nextId + 1;
      r := Ok(lead);
    }

    /** One turn of `create_and_enqueue_leads`: create the lead, then queue
        it if it was stored. */
    method CreateAndEnqueueStep(data: Data, companies: map<int, Company>, queue: int -> QueueReply,
                                allowFallback: bool, firstId: int, summary: BatchSummary)
      returns (summary': BatchSummary, ghost outcome: Option<Errors>)
      requires Valid() && LeadShaped(data) && nextId == firstId + summary.created
      modifies this
      ensures Valid()
      ensures outcome == CreateLeadErrors(data, companies)
      ensures summary' == BatchStep(summary, outcome.None?, queue, allowFallback, firstId)
      ensures nextId == firstId + summary'.created
      ensures outcome.None? ==> LeadReady(data) && rows == old(rows)[old(nextId) := NewLead(old(nextId), data)]
      ensures outcome.Some? ==> rows == old(rows)
      ensures old(nextId) <= nextId && Grown(old(rows), rows, old(nextId), nextId)
    {
      ghost var rows0, next0 := rows, nextId;
      var r := CreateLead(data, companies);
      outcome := CreateLeadErrors(data, companies);
      GrownByInsert(rows0, rows, next0, nextId);
      if r.Ok? {
        summary' := EnqueueCreated(r.value, queue, allowFallback, firstId, summary);
      } else {
        summary' := summary.(failed := summary.failed + 1);
      }
    }

    /** The queueing half of a turn, for a lead that was stored. */
    static method EnqueueCreated(lead: Lead, queue: int -> QueueReply, allowFallback: bool, firstId: int, summary: BatchSummary)
      returns (summary': BatchSummary)
      requires lead.id == firstId + summary.created
      ensures summary' == BatchStep(summary, true, queue, allowFallback, firstId)
    {
      var job := EnqueueLead(lead.id, allowFallback, queue(lead.id));
      if job.Ok? {
        summary' := BatchSummary(summary.created + 1, summary.enqueued + 1, summary.failed, summary.jobIds + [job.value]);
      } else {
        summary' := summary.(created := summary.created + 1, failed := summary.failed + 1);
      }
    }

    /** `create_and_enqueue_leads(leads, allow_fallback)`: creates each lead
        in turn and queues the created ones; the summary is `Batch`, one new
        row per created lead, and no stored row changes. */
    method CreateAndEnqueueLeads(leads: seq<Data>, companies: map<int, Company>,
                                 queue: int -> QueueReply, allowFallback: bool) returns (summary: BatchSummary)
      requires Valid() && AllShaped(leads)
      modifies this
      ensures Valid()
      ensures summary == Batch(CreateOutcomes(leads, companies), queue, allowFallback, old(nextId))
      ensures nextId == old(nextId) + summary.created
      ensures TableState(rows, nextId) == Stored(TableState(old(rows), old(nextId)), leads, companies)
      ensures Grown(old(rows), rows, old(nextId), nextId)
    {
      var firstId := nextId;
      summary := EmptySummary;
      for i := 0 to |leads|
        invariant Valid() && AllShaped(leads[..i])
        invariant summary == Batch(CreateOutcomes(leads[..i], companies), queue, allowFallback, old(nextId))
        invariant nextId == old(nextId) + summary.created
        invariant Grown(old(rows), rows, old(nextId), nextId)
        invariant TableState(rows, nextId) == Stored(TableState(old(rows), old(nextId)), leads[..i], companies)
      {
        AllShapedPrefix(leads, i + 1);
        ghost var outcome;
        ghost var before, mid := rows, nextId;
        StoredSnoc(TableState(old(rows), old(nextId)), leads, companies, i);
        summary, outcome := CreateAndEnqueueStep(leads[i], companies, queue, allowFallback, firstId, summary);
        GrownTrans(old(rows), before, rows, old(nextId), mid, nextId);
        CreateOutcomesSnoc(leads, companies, i);
        TakeOneMore(leads, i);
      }
      assert leads[..|leads|] == leads;
    }
  }
}
