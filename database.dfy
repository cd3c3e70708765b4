/**
 * The shared system of record: the `leads`, `lead_logs` and
 * `lead_conversations` tables, as one object whose methods are the inserts
 * and updates the controllers and services issue. Store order stands for the
 * database's row order; ids are auto-increment counters.
 */
module Persistence {
  import opened Wrappers
  import opened JsonValue
  import opened LeadConversations

  /** A row of `leads`; `data` is the decoded `lead_data` column and `hash` the text hashed into `lead_hash`. */
  datatype Lead = Lead(
    id: nat,
    campaignId: nat,
    data: Json,
    hash: string,
    reference: Option<string>,
    createdBy: nat,
    timeTaken: int,
    followUpId: Option<nat>,
    salesmanBookingId: Option<nat>)

  /** A row of `lead_logs`: call logs, follow-ups and salesman bookings. */
  datatype LeadLog = LeadLog(
    id: nat,
    leadId: nat,
    logType: string,
    userId: nat,
    startedOn: int,
    timeTaken: int,
    dateTime: Time,
    notes: Option<string>)

  ghost predicate LeadIdsIncreasing(leads: seq<Lead>) {
    forall i, j :: 0 <= i < j < |leads| ==> leads[i].id < leads[j].id
  }

  ghost predicate LogIdsIncreasing(logs: seq<LeadLog>) {
    forall i, j :: 0 <= i < j < |logs| ==> logs[i].id < logs[j].id
  }

  predicate LeadExists(leads: seq<Lead>, id: nat) {
    exists i :: 0 <= i < |leads| && leads[i].id == id
  }

  /** `Lead::find($id)`: the position of the lead with that id. */
  function FindLead(leads: seq<Lead>, id: nat): (r: Option<nat>)
    ensures r.None? <==> !LeadExists(leads, id)
    ensures r.Some? ==> r.value < |leads| && leads[r.value].id == id
  {
    if leads == [] then None
    else if leads[0].id == id then Some(0)
    else
      match FindLead(leads[1..], id)
      case None =>
        assert forall i :: 1 <= i < |leads| ==> leads[i] == leads[1..][i - 1];
        None
      case Some(k) => Some(k + 1)
  }

  /** `->first()` over a filtered query: the first position whose lead satisfies `p`. */
  function FirstLead(leads: seq<Lead>, p: Lead -> bool): (r: Option<nat>)
    ensures r.None? <==> forall i :: 0 <= i < |leads| ==> !p(leads[i])
    ensures r.Some? ==> (r.value < |leads| && p(leads[r.value])
                         && forall j :: 0 <= j < r.value ==> !p(leads[j]))
  {
    if leads == [] then None
    else if p(leads[0]) then Some(0)
    else
      match FirstLead(leads[1..], p)
      case None =>
        assert forall i :: 1 <= i < |leads| ==> leads[i] == leads[1..][i - 1];
        None
      case Some(k) => Some(k + 1)
  }

  /** `LeadLog::where('log_type', $type)->where('id', $id)->first()`. */
  function FindLog(logs: seq<LeadLog>, id: nat, logType: string): (r: Option<nat>)
    ensures r.None? <==> forall i :: 0 <= i < |logs| ==> !(logs[i].id == id && logs[i].logType == logType)
    ensures r.Some? ==> r.value < |logs| && logs[r.value].id == id && logs[r.value].logType == logType
  {
    if logs == [] then None
    else if logs[0].id == id && logs[0].logType == logType then Some(0)
    else
      match FindLog(logs[1..], id, logType)
      case None =>
        assert forall i :: 1 <= i < |logs| ==> logs[i] == logs[1..][i - 1];
        None
      case Some(k) => Some(k + 1)
  }

  class Database {
    var leads: seq<Lead>
    var logs: seq<LeadLog>
    var conversations: seq<Record>
    var nextLeadId: nat
    var nextLogId: nat

    /**
     * The table constraints: `message_sid` is unique, every conversation row
     * belongs to a stored lead (the foreign key), and ids are handed out in
     * increasing order below the counters.
     */
    ghost predicate Valid()
      reads this
    {
      && SidsUnique(conversations)
      && (forall r :: r in conversations ==> LeadExists(leads, r.leadId))
      && LeadIdsIncreasing(leads)
      && (forall i :: 0 <= i < |leads| ==> leads[i].id < nextLeadId)
      && LogIdsIncreasing(logs)
      && (forall i :: 0 <= i < |logs| ==> logs[i].id < nextLogId)
    }

    constructor ()
      ensures Valid()
      ensures leads == [] && logs == [] && conversations == []
    {
      leads, logs, conversations := [], [], [];
      nextLeadId, nextLogId := 1, 1;
    }

    /**
     * `LeadConversation::create`: refused when the `message_sid` is taken or
     * the lead does not exist; otherwise the row is appended.
     */
    method InsertConversation(r: Record) returns (ok: bool)
      requires Valid()
      modifies this`conversations
      ensures Valid()
      ensures ok <==> !HasSid(old(conversations), r.sid) && LeadExists(leads, r.leadId)
      ensures conversations == if ok then old(conversations) + [r] else old(conversations)
    {
      ok := !HasSid(conversations, r.sid) && LeadExists(leads, r.leadId);
      if ok {
        conversations := conversations + [r];
      }
    }

    /** Loads the row with `sid`, sets its status fields and saves it. */
    method SaveStatus(sid: string, status: string, now: Time)
      requires Valid()
      modifies this`conversations
      ensures Valid()
      ensures conversations == UpdateStatus(old(conversations), sid, status, now)
    {
      var found := FindSid(conversations, sid);
      if found.Some? {
        var i := found.value;
        conversations := conversations[i := WithStatus(conversations[i], status, now)];
      }
      assert forall x :: x in conversations ==> exists y :: y in old(conversations) && y.leadId == x.leadId;
    }

    /** `$lead->save()` of a new lead: it takes the next id. */
    method InsertLead(campaignId: nat, data: Json, hash: string, reference: Option<string>, createdBy: nat)
      returns (lead: Lead)
      requires Valid()
      modifies this`leads, this`nextLeadId
      ensures Valid()
      ensures lead == Lead(old(nextLeadId), campaignId, data, hash, reference, createdBy, 0, None, None)
      ensures leads == old(leads) + [lead]
      ensures nextLeadId == old(nextLeadId) + 1
    {
      lead := Lead(nextLeadId, campaignId, data, hash, reference, createdBy, 0, None, None);
      leads := leads + [lead];
      nextLeadId := nextLeadId + 1;
      assert forall r :: r in conversations ==> LeadExists(leads, r.leadId) by {
        forall r | r in conversations ensures LeadExists(leads, r.leadId) {
          assert LeadExists(old(leads), r.leadId);
          var i :| 0 <= i < |old(leads)| && old(leads)[i].id == r.leadId;
          assert leads[i] == old(leads)[i];
        }
      }
    }

    /** `$lead->save()` of an existing lead: the row at `i` is replaced, its id kept. */
    method SaveLead(i: nat, lead: Lead)
      requires Valid()
      requires i < |leads| && lead.id == leads[i].id
      modifies this`leads
      ensures Valid()
      ensures leads == old(leads)[i := lead]
    {
      leads := leads[i := lead];
      assert forall r :: r in conversations ==> LeadExists(leads, r.leadId) by {
        forall r | r in conversations ensures LeadExists(leads, r.leadId) {
          var j :| 0 <= j < |old(leads)| && old(leads)[j].id == r.leadId;
          assert leads[j].id == r.leadId;
        }
      }
    }

    /** `$log->save()` of a new log: it takes the next id. */
    method InsertLog(leadId: nat, logType: string, userId: nat, startedOn: int, timeTaken: int,
                     dateTime: Time, notes: Option<string>) returns (log: LeadLog)
      requires Valid()
      modifies this`logs, this`nextLogId
      ensures Valid()
      ensures log == LeadLog(old(nextLogId), leadId, logType, userId, startedOn, timeTaken, dateTime, notes)
      ensures logs == old(logs) + [log]
      ensures nextLogId == old(nextLogId) + 1
    {
      log := LeadLog(nextLogId, leadId, logType, userId, startedOn, timeTaken, dateTime, notes);
      logs := logs + [log];
      nextLogId := nextLogId + 1;
    }

    /** `$log->save()` of an existing log: the row at `i` is replaced, its id kept. */
    method SaveLog(i: nat, log: LeadLog)
      requires Valid()
      requires i < |logs| && log.id == logs[i].id
      modifies this`logs
      ensures Valid()
      ensures logs == old(logs)[i := log]
    {
      logs := logs[i := log];
    }
  }
}
