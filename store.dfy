/**
 * The `lead_conversations` table: one row per WhatsApp message exchanged with
 * a lead. Rows are kept in store order, which stands for ascending
 * `created_at`.
 */
module LeadConversations {
  import opened Wrappers

  /** A point in time, in seconds. */
  type Time = int

  datatype Direction = Inbound | Outbound

  datatype Record = Record(
    leadId: nat,
    sid: string,
    direction: Direction,
    message: string,
    status: string,
    from: string,
    to: string,
    deliveredAt: Option<Time>,
    readAt: Option<Time>,
    createdAt: Time)

  /** Column defaults of `direction` and `status`. */
  const DefaultDirection: Direction := Inbound
  const DefaultStatus: string := "sent"

  /**
   * The row stored for an insert naming the given columns: the nullable
   * `delivered_at` and `read_at` start out unset, `created_at` is the clock.
   */
  function NewRow(leadId: nat, sid: string, direction: Direction, message: string, status: string,
                  from: string, to: string, now: Time): (r: Record)
    ensures r.deliveredAt.None? && r.readAt.None? && r.createdAt == now
  {
    Record(leadId, sid, direction, message, status, from, to, None, None, now)
  }

  /** The row stored for an insert that leaves `direction` and `status` to their defaults. */
  function DefaultRow(leadId: nat, sid: string, message: string, from: string, to: string, now: Time): (r: Record)
    ensures r.direction == Inbound && r.status == "sent"
    ensures r.deliveredAt.None? && r.readAt.None?
  {
    NewRow(leadId, sid, DefaultDirection, message, DefaultStatus, from, to, now)
  }

  /** The unique index on `message_sid`: no two rows share one. */
  ghost predicate SidsUnique(rs: seq<Record>) {
    forall i, j :: 0 <= i < j < |rs| ==> rs[i].sid != rs[j].sid
  }

  predicate HasSid(rs: seq<Record>, sid: string) {
    exists i :: 0 <= i < |rs| && rs[i].sid == sid
  }

  /** `where('message_sid', $sid)->first()`: the position of the first row with that id. */
  function FindSid(rs: seq<Record>, sid: string): (r: Option<nat>)
    ensures r.None? <==> !HasSid(rs, sid)
    ensures r.Some? ==> (r.value < |rs| && rs[r.value].sid == sid
                          && forall j :: 0 <= j < r.value ==> rs[j].sid != sid)
  {
    if rs == [] then None
    else if rs[0].sid == sid then Some(0)
    else
      match FindSid(rs[1..], sid)
      case None =>
        assert forall i :: 1 <= i < |rs| ==> rs[i] == rs[1..][i - 1];
        None
      case Some(k) => Some(k + 1)
  }

  /**
   * An insert under the unique index: a row whose `message_sid` is already
   * stored is refused and nothing changes; otherwise it is appended.
   */
  function Append(rs: seq<Record>, r: Record): (res: Option<seq<Record>>)
    ensures res.Some? <==> !HasSid(rs, r.sid)
    ensures res.Some? ==> res.value == rs + [r]
    ensures res.Some? && SidsUnique(rs) ==> SidsUnique(res.value)
  {
    if HasSid(rs, r.sid) then None else Some(rs + [r])
  }

  /** The fields a status callback changes on one row. */
  function WithStatus(r: Record, status: string, now: Time): Record {
    r.(status := status,
       deliveredAt := if status == "delivered" then Some(now) else r.deliveredAt,
       readAt := if status == "read" then Some(now) else r.readAt)
  }

  /**
   * The store after a status callback for `sid`: the first row with that id
   * takes the new status, and `delivered_at` / `read_at` are stamped for
   * `delivered` / `read` only; every other row and field is as before, and an
   * unknown id changes nothing. The status is overwritten whatever it was.
   */
  function UpdateStatus(rs: seq<Record>, sid: string, status: string, now: Time): (u: seq<Record>)
    ensures |u| == |rs|
    ensures !HasSid(rs, sid) ==> u == rs
    ensures forall k :: 0 <= k < |rs| ==>
              (&& u[k].leadId == rs[k].leadId && u[k].sid == rs[k].sid
               && u[k].direction == rs[k].direction && u[k].message == rs[k].message
               && u[k].from == rs[k].from && u[k].to == rs[k].to
               && u[k].createdAt == rs[k].createdAt)
    ensures forall k :: 0 <= k < |rs| && rs[k].sid != sid ==> u[k] == rs[k]
    ensures SidsUnique(rs) ==> forall k :: 0 <= k < |rs| && rs[k].sid == sid ==>
              && u[k].status == status
              && u[k].deliveredAt == (if status == "delivered" then Some(now) else rs[k].deliveredAt)
              && u[k].readAt == (if status == "read" then Some(now) else rs[k].readAt)
    ensures SidsUnique(rs) ==> SidsUnique(u)
  {
    match FindSid(rs, sid)
    case None => rs
    case Some(i) => rs[i := WithStatus(rs[i], status, now)]
  }

  /** The rows of one lead, in store order (`orderBy('created_at', 'asc')`). */
  function OfLead(rs: seq<Record>, leadId: nat): (r: seq<Record>)
    ensures |r| <= |rs|
    ensures forall x :: x in r <==> x in rs && x.leadId == leadId
  {
    if rs == [] then []
    else
      var rest := OfLead(rs[1..], leadId);
      assert forall x :: x in rs <==> x == rs[0] || x in rs[1..];
      if rs[0].leadId == leadId then [rs[0]] + rest else rest
  }

  /** Appending a row adds it at the end of its own lead's rows and changes no other lead's. */
  lemma {:induction false} OfLeadAppend(rs: seq<Record>, x: Record, leadId: nat)
    ensures OfLead(rs + [x], leadId) == OfLead(rs, leadId) + (if x.leadId == leadId then [x] else [])
  {
    if rs != [] {
      assert (rs + [x])[1..] == rs[1..] + [x];
      OfLeadAppend(rs[1..], x, leadId);
    }
  }

  function Min(a: nat, b: nat): nat { if a < b then a else b }

  /**
   * `orderBy('created_at', 'desc')->take(n)`: the `n` most recent rows of the
   * lead, newest first.
   */
  function Recent(rs: seq<Record>, leadId: nat, n: nat): (r: seq<Record>)
    ensures |r| == Min(n, |OfLead(rs, leadId)|)
    ensures forall k :: 0 <= k < |r| ==>
              r[k] == OfLead(rs, leadId)[|OfLead(rs, leadId)| - 1 - k]
  {
    var mine := OfLead(rs, leadId);
    seq(Min(n, |mine|), k requires 0 <= k < Min(n, |mine|) => mine[|mine| - 1 - k])
  }

  /** Right after a row is appended, it heads its lead's recent history. */
  lemma NewestFirst(rs: seq<Record>, x: Record, n: nat)
    requires n > 0
    ensures |Recent(rs + [x], x.leadId, n)| >= 1
    ensures Recent(rs + [x], x.leadId, n)[0] == x
  {
    OfLeadAppend(rs, x, x.leadId);
  }

  /** Cascade on `lead_id`: deleting a lead deletes its rows and keeps every other, in order. */
  function DeleteLead(rs: seq<Record>, leadId: nat): (r: seq<Record>)
    ensures forall x :: x in r <==> x in rs && x.leadId != leadId
    ensures forall k :: 0 <= k < |r| ==> r[k].leadId != leadId
    ensures SidsUnique(rs) ==> SidsUnique(r)
  {
    if rs == [] then []
    else
      var rest := DeleteLead(rs[1..], leadId);
      assert forall x :: x in rs <==> x == rs[0] || x in rs[1..];
      if rs[0].leadId == leadId then rest
      else
        assert SidsUnique(rs) ==> forall x :: x in rest ==> x.sid != rs[0].sid;
        [rs[0]] + rest
  }
}
