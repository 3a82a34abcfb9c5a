/** The background job that forwards one lead to the CRM: it looks up the
    lead and its company, gets or creates the lead's processing log, marks
    it processing, and calls the CRM up to three times with a pause between
    attempts, ending the log in success or failed. */
module ProcessLead {
  import opened Wrappers
  import opened Text
  import opened Models
  import opened LoggingService
  import opened GhlService

  const MaxRetries := 3

  /** The pause after each failed attempt; the last one is never used,
      since no attempt follows the third. */
  const RetryDelays: seq<int> := [1, 2, 4]

  /** How the retry loop ends: the attempt that succeeded (counted from 1)
      with the contact id the CRM returned, or the third failed attempt
      with its message. */
  datatype Ending = Succeeded(attempts: int, contactId: Option<string>) | GaveUp(attempts: int, error: string)

  /** Every call from the 0-based attempt `from` up to `to` failed. */
  predicate FailedBetween(calls: seq<CrmCall>, from: int, to: int)
    requires 0 <= from && to <= |calls|
  {
    forall j :: from <= j < to ==> AttemptResult(calls[j]).Err?
  }

  /** The loop from the 0-based attempt `attempt` on, when `calls[i]` is
      what the i-th call to the CRM does. */
  function RetryFrom(calls: seq<CrmCall>, attempt: nat): (e: Ending)
    requires attempt < MaxRetries <= |calls|
    ensures attempt < e.attempts <= MaxRetries
    ensures e.Succeeded? ==>
      FailedBetween(calls, attempt, e.attempts - 1) && AttemptResult(calls[e.attempts - 1]) == Ok(e.contactId)
    ensures e.GaveUp? ==>
      e.attempts == MaxRetries && FailedBetween(calls, attempt, MaxRetries)
      && AttemptResult(calls[MaxRetries - 1]) == Err(e.error)
    decreases MaxRetries - attempt
  {
    match AttemptResult(calls[attempt])
    case Ok(id) => Succeeded(attempt + 1, id)
    case Err(message) =>
      if attempt == MaxRetries - 1 then GaveUp(attempt + 1, message) else RetryFrom(calls, attempt + 1)
  }

  /** The whole retry loop. */
  function Retry(calls: seq<CrmCall>): Ending
    requires MaxRetries <= |calls|
  {
    RetryFrom(calls, 0)
  }

  /** The loop stops at the first call that succeeds: with k failures before
      it, it ends after k + 1 attempts with that call's contact id. */
  lemma {:induction false} RetryFirstSuccess(calls: seq<CrmCall>, k: nat)
    requires k < MaxRetries <= |calls| && FailedBetween(calls, 0, k) && AttemptResult(calls[k]).Ok?
    ensures Retry(calls) == Succeeded(k + 1, AttemptResult(calls[k]).value)
  {
    RetryFromFirstSuccess(calls, 0, k);
  }

  lemma {:induction false} RetryFromFirstSuccess(calls: seq<CrmCall>, from: nat, k: nat)
    requires from <= k < MaxRetries <= |calls| && FailedBetween(calls, from, k) && AttemptResult(calls[k]).Ok?
    ensures RetryFrom(calls, from) == Succeeded(k + 1, AttemptResult(calls[k]).value)
    decreases k - from
  {
    if from < k {
      RetryFromFirstSuccess(calls, from + 1, k);
    }
  }

  /** When all three calls fail, the loop gives up after three attempts with
      the third call's message. */
  lemma RetryAllFail(calls: seq<CrmCall>)
    requires MaxRetries <= |calls| && FailedBetween(calls, 0, MaxRetries)
    ensures Retry(calls) == GaveUp(MaxRetries, AttemptResult(calls[MaxRetries - 1]).error)
  {
    assert AttemptResult(calls[0]).Err? && AttemptResult(calls[1]).Err? && AttemptResult(calls[2]).Err?;
  }

  /** The pauses the loop takes: one after each failed attempt but the last. */
  function Sleeps(e: Ending): (delays: seq<int>)
    requires 1 <= e.attempts <= MaxRetries
    ensures |delays| == e.attempts - 1 && |delays| < MaxRetries
    ensures forall i :: 0 <= i < |delays| ==> delays[i] == RetryDelays[i]
  {
    RetryDelays[..e.attempts - 1]
  }

  /** The last delay is never slept and the loop waits 3 seconds at most. */
  lemma SleepsBounded(e: Ending)
    requires 1 <= e.attempts <= MaxRetries
    ensures RetryDelays[MaxRetries - 1] !in Sleeps(e)
    ensures Sleeps(e) == [] || Sleeps(e) == [1] || Sleeps(e) == [1, 2]
  {
  }

  /** The log row after `update_log_status(log.id, 'processing', worker_id=str(pid))`. */
  function Started(log: LogRecord, pid: int, now: int): LogRecord {
    Written(log, Processing, NoFields.(workerId := Passed(Some(IntToString(pid)))), now)
  }

  /** The row after the worker's direct write of the count, following
      `failures` failed attempts that were not the last. */
  function Interim(started: LogRecord, failures: int, now: int): LogRecord {
    if failures == 0 then started else started.(attemptCount := failures, updatedAt := now)
  }

  /** The terminal `update_log_status` of the loop. */
  function Terminal(row: LogRecord, e: Ending, now: int): LogRecord {
    match e
    case Succeeded(n, id) => Written(row, Success, NoFields.(contactId := Passed(id), attemptCount := Passed(n)), now)
    case GaveUp(n, message) => Written(row, Failed, NoFields.(errorMessage := Passed(Some(message)), attemptCount := Passed(n)), now)
  }

  /** The row a run leaves, from the row as the job found it. */
  function Processed(log: LogRecord, pid: int, e: Ending, now: int): LogRecord {
    Terminal(Interim(Started(log, pid, now), e.attempts - 1, now), e, now)
  }

  /** What a run leaves in the log row, field by field: the identity and
      creation time stay; the worker id is the process id; a success stores
      the contact id and the attempts used and keeps any earlier error
      message; giving up stores the last message and 3, and keeps the
      earlier contact id. */
  lemma ProcessedFields(log: LogRecord, pid: int, e: Ending, now: int)
    ensures var r := Processed(log, pid, e, now);
      && r.id == log.id && r.leadId == log.leadId && r.companyId == log.companyId
      && r.createdAt == log.createdAt && r.updatedAt == now
      && r.workerId == Some(IntToString(pid)) && r.attemptCount == e.attempts
      && (e.Succeeded? ==> r.status == Success && r.contactId == e.contactId && r.errorMessage == log.errorMessage)
      && (e.GaveUp? ==> r.status == Failed && r.errorMessage == Some(e.error) && r.contactId == log.contactId)
  {
  }

  /** A lead re-run after a failed run and succeeding this time shows
      success with the failed run's message still in place. */
  lemma SuccessKeepsOldError(log: LogRecord, pid: int, calls: seq<CrmCall>, now: int)
    requires MaxRetries <= |calls| && log.status == Failed && Retry(calls).Succeeded?
    ensures Processed(log, pid, Retry(calls), now).status == Success
    ensures Processed(log, pid, Retry(calls), now).errorMessage == log.errorMessage
  {
    ProcessedFields(log, pid, Retry(calls), now);
  }

  /** Every version of the row a run commits, in order: the processing
      write, one count write after each failed attempt but the last, and
      the terminal write. */
  function History(log: LogRecord, pid: int, e: Ending, now: int): (h: seq<LogRecord>)
    requires 1 <= e.attempts
  {
    var started := Started(log, pid, now);
    [started] + seq(e.attempts - 1, i => Interim(started, i + 1, now)) + [Processed(log, pid, e, now)]
  }

  /** The committed versions go processing, then processing with counts
      1, 2, … for each retried failure, then success or failed: the status
      only ever moves from processing to a terminal state, once. */
  lemma HistoryShape(log: LogRecord, pid: int, e: Ending, now: int)
    requires 1 <= e.attempts <= MaxRetries
    ensures var h := History(log, pid, e, now);
      && |h| == e.attempts + 1
      && h[0].status == Processing && h[0].attemptCount == log.attemptCount
      && (forall i :: 1 <= i < |h| - 1 ==> h[i].status == Processing && h[i].attemptCount == i)
      && h[|h| - 1].status == (if e.Succeeded? then Success else Failed)
  {
    ProcessedFields(log, pid, e, now);
  }

  /** How a job run ends: a missing lead or company stops it before any
      log is touched; otherwise it reports the log it wrote, whether it
      created that log, what it sent to which CRM location, and how many
      calls it made. */
  datatype JobRun =
    | LeadNotFound
    | CompanyNotFound
    | Ran(logId: int, created: bool, locationId: string, payload: Payload, calls: int)

  /** `log = get_log_by_lead(lead_id)`, or `create_log(...)` when there is
      none: the lead's first log as found, or a new pending one. */
  method GetOrCreateLog(logs: LogTable, leadId: int, companyId: int, now: int) returns (log: LogRecord, created: bool)
    requires logs.Valid()
    modifies logs
    ensures logs.Valid()
    ensures created == old(logs.LogByLead(leadId)).None?
    ensures log == if created then PendingLog(old(logs.nextId), leadId, companyId, now) else old(logs.LogByLead(leadId)).value
    ensures logs.nextId == old(logs.nextId) + (if created then 1 else 0)
    ensures logs.rows == old(logs.rows)[log.id := log]
  {
    var found := logs.LogByLead(leadId);
    created := found.None?;
    if created {
      log := logs.CreateLog(leadId, companyId, now);
    } else {
      log := found.value;
      assert logs.rows[log.id] == log;
    }
  }

  /** The retry loop over the row `logId`, which holds `started`: it
      returns the number of calls made, and leaves the row as `Processed`
      says. */
  method RunRetries(logs: LogTable, logId: int, ghost log: LogRecord, pid: int, calls: seq<CrmCall>, now: int)
    returns (attempts: int, ghost sleeps: seq<int>, ghost history: seq<LogRecord>)
    requires logs.Valid() && MaxRetries <= |calls| && logId in logs.rows
    requires logs.rows[logId] == Started(log, pid, now)
    modifies logs
    ensures logs.Valid() && logs.nextId == old(logs.nextId)
    ensures attempts == Retry(calls).attempts
    ensures logs.rows == old(logs.rows)[logId := Processed(log, pid, Retry(calls), now)]
    ensures sleeps == Sleeps(Retry(calls))
    ensures history == History(log, pid, Retry(calls), now)[1..]
  {
    ghost var rows0 := old(logs.rows);
    ghost var started := Started(log, pid, now);
    ghost var e := Retry(calls);
    sleeps, history := [], [];
    var attempt := 0;
    while attempt < MaxRetries
      invariant 0 <= attempt < MaxRetries
      invariant logs.Valid() && logs.nextId == old(logs.nextId)
      invariant logs.rows == rows0[logId := Interim(started, attempt, now)]
      invariant RetryFrom(calls, attempt) == e
      invariant sleeps == RetryDelays[..attempt]
      invariant history == seq(attempt, i => Interim(started, i + 1, now))
      decreases MaxRetries - attempt
    {
      match AttemptResult(calls[attempt])
      case Ok(contactId) => {
        var done := logs.UpdateLogStatus(logId, Success,
          NoFields.(contactId := Passed(contactId), attemptCount := Passed(attempt + 1)), now);
        history := history + [Processed(log, pid, e, now)];
        return attempt + 1, sleeps, history;
      }
      case Err(message) => {
        if attempt == MaxRetries - 1 {
          var done := logs.UpdateLogStatus(logId, Failed,
            NoFields.(errorMessage := Passed(Some(message)), attemptCount := Passed(attempt + 1)), now);
          history := history + [Processed(log, pid, e, now)];
          return attempt + 1, sleeps, history;
        }
        sleeps := sleeps + [RetryDelays[attempt]];
        logs.CommitAttemptCount(logId, attempt + 1, now);
        history := history + [Interim(started, attempt + 1, now)];
        attempt := attempt + 1;
      }
    }
    assert false;
  }

  /** The first steps of a run: get or create the lead's log, then mark it
      processing with the worker's pid. */
  method StartLog(logs: LogTable, leadId: int, companyId: int, pid: int, now: int) returns (log: LogRecord, created: bool)
    requires logs.Valid()
    modifies logs
    ensures logs.Valid()
    ensures created == old(logs.LogByLead(leadId)).None?
    ensures log == if created then PendingLog(old(logs.nextId), leadId, companyId, now) else old(logs.LogByLead(leadId)).value
    ensures logs.nextId == old(logs.nextId) + (if created then 1 else 0)
    ensures logs.rows == old(logs.rows)[log.id := Started(log, pid, now)]
  {
    log, created := GetOrCreateLog(logs, leadId, companyId, now);
    ghost var rows1 := logs.rows;
    var status := logs.UpdateLogStatus(log.id, Processing, NoFields.(workerId := Passed(Some(IntToString(pid)))), now);
    Overwritten(old(logs.rows), log.id, log, Started(log, pid, now), rows1, logs.rows);
  }

  /** The part of `process_lead_job` after both lookups succeeded: get or
      create the log, mark it processing, build the payload, and run the
      retry loop. */
  method ForwardLead(leadId: int, lead: Lead, company: Company, logs: LogTable, pid: int, calls: seq<CrmCall>, now: int)
    returns (run: JobRun, ghost sleeps: seq<int>, ghost history: seq<LogRecord>)
    requires logs.Valid() && MaxRetries <= |calls|
    modifies logs
    ensures logs.Valid()
    ensures var found := old(logs.LogByLead(leadId));
      var log := if found.Some? then found.value else PendingLog(old(logs.nextId), leadId, lead.companyId, now);
      && run == Ran(log.id, found.None?, company.ghlLocationId, BuildContactPayload(lead, company), Retry(calls).attempts)
      && logs.nextId == old(logs.nextId) + (if found.None? then 1 else 0)
      && logs.rows == old(logs.rows)[log.id := Processed(log, pid, Retry(calls), now)]
      && sleeps == Sleeps(Retry(calls))
      && history == History(log, pid, Retry(calls), now)
  {
    var log, created := StartLog(logs, leadId, lead.companyId, pid, now);
    var payload := BuildContactPayload(lead, company);
    var attempts;
    ghost var rest;
    ghost var rows1 := logs.rows;
    attempts, sleeps, rest := RunRetries(logs, log.id, log, pid, calls, now);
    Overwritten(old(logs.rows), log.id, Started(log, pid, now), Processed(log, pid, Retry(calls), now), rows1, logs.rows);
    HistoryStartsStarted(log, pid, Retry(calls), now);
    history := [Started(log, pid, now)] + rest;
    run := Ran(log.id, created, company.ghlLocationId, payload, attempts);
  }

  /** A run's history is the processing row followed by the rest. */
  lemma HistoryStartsStarted(log: LogRecord, pid: int, e: Ending, now: int)
    requires 1 <= e.attempts
    ensures History(log, pid, e, now) == [Started(log, pid, now)] + History(log, pid, e, now)[1..]
  {
  }

  /** Two writes to one key leave the last. */
  lemma Overwritten(m: map<int, LogRecord>, k: int, a: LogRecord, b: LogRecord,
                    m1: map<int, LogRecord>, m2: map<int, LogRecord>)
    requires m1 == m[k := a] && m2 == m1[k := b]
    ensures m2 == m[k := b]
  {
  }

  /** `process_lead_job(lead_id)` run by the process `pid` at time `now`,
      over the stored leads and companies and the log table, when
      `calls[i]` is what the i-th CRM call does. A missing lead or company
      leaves the log table untouched; otherwise the lead's log (created if
      it had none) ends as `Processed` says. `sleeps` records the pauses
      and `history` every version of the log row the run commits. */
  method ProcessLeadJob(leadId: int, leads: map<int, Lead>, companies: map<int, Company>, logs: LogTable,
                        pid: int, calls: seq<CrmCall>, now: int)
    returns (run: JobRun, ghost sleeps: seq<int>, ghost history: seq<LogRecord>)
    requires logs.Valid() && MaxRetries <= |calls|
    modifies logs
    ensures logs.Valid()
    ensures leadId !in leads ==> run == LeadNotFound && unchanged(logs)
    ensures leadId in leads && leads[leadId].companyId !in companies ==> run == CompanyNotFound && unchanged(logs)
    ensures leadId in leads && leads[leadId].companyId in companies ==>
      var lead := leads[leadId];
      var company := companies[lead.companyId];
      var found := old(logs.LogByLead(leadId));
      var log := if found.Some? then found.value else PendingLog(old(logs.nextId), leadId, lead.companyId, now);
      && run == Ran(log.id, found.None?, company.ghlLocationId, BuildContactPayload(lead, company), Retry(calls).attempts)
      && logs.nextId == old(logs.nextId) + (if found.None? then 1 else 0)
      && logs.rows == old(logs.rows)[log.id := Processed(log, pid, Retry(calls), now)]
      && sleeps == Sleeps(Retry(calls))
      && history == History(log, pid, Retry(calls), now)
  {
    sleeps, history := [], [];
    if leadId !in leads {
      return LeadNotFound, sleeps, history;
    }
    var lead := leads[leadId];
    if lead.companyId !in companies {
      return CompanyNotFound, sleeps, history;
    }
    run, sleeps, history := ForwardLead(leadId, lead, companies[lead.companyId], logs, pid, calls, now);
  }
}
