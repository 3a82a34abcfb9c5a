/** The processing-log store: one row per lead processing run, created
    pending, updated field by field, and queried per company or per lead. */
module LoggingService {
  import opened Wrappers
  import opened Text
  import opened Models

  /** The optional keyword arguments of `update_log_status`: a field that is
      `Omitted` keeps its stored value. */
  datatype LogFields = LogFields(
    workerId: Arg<Option<string>>,
    contactId: Arg<Option<string>>,
    errorMessage: Arg<Option<string>>,
    attemptCount: Arg<int>)

  /** No keyword argument passed. */
  const NoFields := LogFields(Omitted, Omitted, Omitted, Omitted)

  /** An optional field after the update: the passed value, or the old one. */
  function Pick<T>(arg: Arg<T>, current: T): T {
    if arg.Passed? then arg.value else current
  }

  /** A row after `update_log_status(status, **fields)` at time `now`: the
      status and update time are always written, each optional field only
      when it was passed, and the identity and creation time never. */
  function Written(log: LogRecord, status: Status, fields: LogFields, now: int): (r: LogRecord)
    ensures r.status == status && r.updatedAt == now
    ensures r.id == log.id && r.leadId == log.leadId && r.companyId == log.companyId
    ensures r.createdAt == log.createdAt
    ensures fields.workerId.Omitted? ==> r.workerId == log.workerId
    ensures fields.contactId.Omitted? ==> r.contactId == log.contactId
    ensures fields.errorMessage.Omitted? ==> r.errorMessage == log.errorMessage
    ensures fields.attemptCount.Omitted? ==> r.attemptCount == log.attemptCount
    ensures fields.workerId.Passed? ==> r.workerId == fields.workerId.value
    ensures fields.contactId.Passed? ==> r.contactId == fields.contactId.value
    ensures fields.errorMessage.Passed? ==> r.errorMessage == fields.errorMessage.value
    ensures fields.attemptCount.Passed? ==> r.attemptCount == fields.attemptCount.value
  {
    log.(status := status, updatedAt := now,
         workerId := Pick(fields.workerId, log.workerId),
         contactId := Pick(fields.contactId, log.contactId),
         errorMessage := Pick(fields.errorMessage, log.errorMessage),
         attemptCount := Pick(fields.attemptCount, log.attemptCount))
  }

  /** The row `create_log(lead_id, company_id)` inserts under id at time
      `now`: pending, no attempts, no worker, contact or error yet. */
  function PendingLog(id: int, leadId: int, companyId: int, now: int): (log: LogRecord)
    ensures log.id == id && log.leadId == leadId && log.companyId == companyId
    ensures log.status == Pending && log.attemptCount == 0
    ensures log.workerId.None? && log.contactId.None? && log.errorMessage.None?
    ensures log.createdAt == now && log.updatedAt == now
  {
    LogRecord(id, leadId, companyId, Pending, None, None, None, 0, now, now)
  }

  /** Writing the same update twice is the same as writing it once. */
  lemma WrittenIdempotent(log: LogRecord, status: Status, fields: LogFields, now: int)
    ensures Written(Written(log, status, fields, now), status, fields, now) == Written(log, status, fields, now)
  {
  }

  /** A later update overrides an earlier one on every field it passes; the
      fields only the earlier one passed survive. */
  lemma WrittenTwice(log: LogRecord, s1: Status, f1: LogFields, t1: int, s2: Status, f2: LogFields, t2: int)
    ensures Written(Written(log, s1, f1, t1), s2, f2, t2)
      == Written(log, s2, LogFields(
           if f2.workerId.Passed? then f2.workerId else f1.workerId,
           if f2.contactId.Passed? then f2.contactId else f1.contactId,
           if f2.errorMessage.Passed? then f2.errorMessage else f1.errorMessage,
           if f2.attemptCount.Passed? then f2.attemptCount else f1.attemptCount), t2)
  {
  }

  /** `f"Log with id {log_id} not found"` */
  function LogNotFound(logId: int): string {
    "Log with id " + IntToString(logId) + " not found"
  }

  /** The `filters` of `get_logs_by_company`: each present key narrows the
      result; an absent or empty dict narrows nothing. `status` is compared
      with the stored status name. */
  datatype LogFilter = LogFilter(status: Option<string>, startDate: Option<int>, endDate: Option<int>)

  const NoFilter := LogFilter(None, None, None)

  /** The stored name of a status. */
  function StatusName(s: Status): string {
    match s
    case Pending => "pending"
    case Processing => "processing"
    case Success => "success"
    case Failed => "failed"
  }

  /** A row `get_logs_by_company(company_id, filters)` returns. */
  predicate Selected(log: LogRecord, companyId: int, filter: LogFilter) {
    && log.companyId == companyId
    && (filter.status.Some? ==> StatusName(log.status) == filter.status.value)
    && (filter.startDate.Some? ==> log.createdAt >= filter.startDate.value)
    && (filter.endDate.Some? ==> log.createdAt <= filter.endDate.value)
  }

  /** The selected rows with keys lo..hi-1, in key order. */
  function Matching(rows: map<int, LogRecord>, companyId: int, filter: LogFilter, lo: int, hi: int): (r: seq<LogRecord>)
    decreases hi - lo
    ensures forall x :: x in r ==> Selected(x, companyId, filter)
    ensures forall x :: x in r ==> exists id :: lo <= id < hi && id in rows && rows[id] == x
    ensures forall id :: lo <= id < hi && id in rows && Selected(rows[id], companyId, filter) ==> rows[id] in r
  {
    if lo >= hi then []
    else
      var rest := Matching(rows, companyId, filter, lo + 1, hi);
      if lo in rows && Selected(rows[lo], companyId, filter) then [rows[lo]] + rest else rest
  }

  /** Ids strictly increase along the list, so no row is listed twice. */
  predicate IdsIncrease(s: seq<LogRecord>) {
    forall i, j :: 0 <= i < j < |s| ==> s[i].id < s[j].id
  }

  /** The rows listed by key have strictly increasing ids, so none twice. */
  lemma {:induction false} MatchingIdsIncrease(rows: map<int, LogRecord>, companyId: int, filter: LogFilter, lo: int, hi: int)
    requires forall id :: id in rows ==> rows[id].id == id
    ensures IdsIncrease(Matching(rows, companyId, filter, lo, hi))
    ensures forall x :: x in Matching(rows, companyId, filter, lo, hi) ==> lo <= x.id < hi
    decreases hi - lo
  {
    if lo < hi {
      MatchingIdsIncrease(rows, companyId, filter, lo + 1, hi);
      var rest := Matching(rows, companyId, filter, lo + 1, hi);
      if lo in rows && Selected(rows[lo], companyId, filter) {
        var r := [rows[lo]] + rest;
        forall i, j | 0 <= i < j < |r| ensures r[i].id < r[j].id {
          assert r[j] == rest[j - 1] && r[j] in rest;
          if i > 0 {
            assert r[i] == rest[i - 1];
          }
        }
      }
    }
  }

  /** Newest first: `order_by(created_at.desc())`. */
  predicate NewestFirst(s: seq<LogRecord>) {
    forall i, j :: 0 <= i < j < |s| ==> s[i].createdAt >= s[j].createdAt
  }

  /** x placed before the first row that is not newer than it. */
  function InsertNewest(x: LogRecord, s: seq<LogRecord>): (r: seq<LogRecord>)
    requires NewestFirst(s)
    ensures NewestFirst(r)
    ensures multiset(r) == multiset(s) + multiset{x}
    ensures |r| == |s| + 1 && (r[0] == x || (s != [] && r[0] == s[0]))
  {
    if s == [] || s[0].createdAt <= x.createdAt then [x] + s
    else
      var rest := InsertNewest(x, s[1..]);
      assert s == [s[0]] + s[1..];
      [s[0]] + rest
  }

  /** The rows sorted newest first; rows created at the same time keep
      their order. */
  function SortNewest(s: seq<LogRecord>): (r: seq<LogRecord>)
    ensures NewestFirst(r)
    ensures multiset(r) == multiset(s)
  {
    if s == [] then []
    else
      assert s == [s[0]] + s[1..];
      InsertNewest(s[0], SortNewest(s[1..]))
  }

  /** Sorting an already ordered list changes nothing. */
  lemma {:induction false} SortNewestOfSorted(s: seq<LogRecord>)
    requires NewestFirst(s)
    ensures SortNewest(s) == s
  {
    if s != [] {
      SortNewestOfSorted(s[1..]);
      assert SortNewest(s[1..]) == s[1..];
      var t := s[1..];
      if t != [] {
        assert t[0].createdAt <= s[0].createdAt;
      }
    }
  }

  /** The `lead_processing_logs` table. */
  class LogTable {
    var rows: map<int, LogRecord>
    /** The id the next inserted row gets. */
    var nextId: int

    /** Ids are positive, below nextId, and stored in their rows. */
    ghost predicate Valid()
      reads this
    {
      nextId >= 1 && forall id :: id in rows ==> 1 <= id < nextId && rows[id].id == id
    }

    constructor ()
      ensures Valid() && rows == map[] && nextId == 1
    {
      rows := map[];
      nextId := 1;
    }

    /** `create_log(lead_id, company_id)` at time `now`: a new pending row with
        no attempts and a fresh id; the other rows stay as they were. */
    method CreateLog(leadId: int, companyId: int, now: int) returns (log: LogRecord)
      requires Valid()
      modifies this
      ensures Valid()
      ensures log == PendingLog(old(nextId), leadId, companyId, now)
      ensures log.id !in old(rows) && rows == old(rows)[log.id := log]
      ensures nextId == old(nextId) + 1
    {
      log := PendingLog(nextId, leadId, companyId, now);
      rows := rows[nextId := log];
      nextId := nextId + 1;
    }

    /** `update_log_status(log_id, status, **fields)` at time `now`: an unknown
        id is an error and changes nothing; otherwise only that row changes,
        to `Written(row, status, fields, now)`. */
    method UpdateLogStatus(logId: int, status: Status, fields: LogFields, now: int) returns (r: Result<LogRecord, string>)
      requires Valid()
      modifies this
      ensures Valid() && nextId == old(nextId)
      ensures logId !in old(rows) ==> r == Err(LogNotFound(logId)) && rows == old(rows)
      ensures logId in old(rows) ==>
        r == Ok(Written(old(rows)[logId], status, fields, now)) && rows == old(rows)[logId := r.value]
    {
      if logId !in rows {
        return Err(LogNotFound(logId));
      }
      var log := Written(rows[logId], status, fields, now);
      rows := rows[logId := log];
      r := Ok(log);
    }

    /** `log.attempt_count = count; db.session.commit()` on a loaded row:
        only that row changes, in its count and its update time. */
    method CommitAttemptCount(logId: int, count: int, now: int)
      requires Valid() && logId in rows
      modifies this
      ensures Valid() && nextId == old(nextId)
      ensures rows == old(rows)[logId := old(rows)[logId].(attemptCount := count, updatedAt := now)]
    {
      rows := rows[logId := rows[logId].(attemptCount := count, updatedAt := now)];
    }

    /** `get_logs_by_company(company_id, filters)`: exactly the rows of the
        company that pass the filters, each once, newest first. */
    function LogsByCompany(companyId: int, filter: LogFilter): (r: seq<LogRecord>)
      requires Valid()
      reads this
      ensures forall x :: x in r <==> x in rows.Values && Selected(x, companyId, filter)
      ensures multiset(r) == multiset(Matching(rows, companyId, filter, 1, nextId))
      ensures NewestFirst(r)
    {
      var m := Matching(rows, companyId, filter, 1, nextId);
      var r := SortNewest(m);
      forall x ensures x in r <==> x in rows.Values && Selected(x, companyId, filter) {
        assert x in r <==> x in multiset(r);
        assert x in m <==> x in multiset(m);
        if x in rows.Values && Selected(x, companyId, filter) {
          var id :| id in rows && rows[id] == x;
          assert x in m;
        }
      }
      r
    }

    /** `get_log_by_lead(lead_id)`: the first row of the lead, by id, or None. */
    function LogByLead(leadId: int): (r: Option<LogRecord>)
      requires Valid()
      reads this
      ensures r.Some? ==> r.value in rows.Values && r.value.leadId == leadId
      ensures r.None? <==> forall x :: x in rows.Values ==> x.leadId != leadId
    {
      var k := FindFirst(rows, (x: LogRecord) => x.leadId == leadId, 1, nextId);
      if k.Some? then Some(rows[k.value]) else None
    }
  }
}
