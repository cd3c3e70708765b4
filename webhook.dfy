/**
 * The inbound side (`TwilioWebhookController`): the status callback, and the
 * incoming-message pipeline that finds the lead a WhatsApp sender belongs
 * to, stores the message, asks the reply generator for an answer and sends
 * it back. The reply provider, the Twilio client and the clock are inputs.
 */
module Webhook {
  import opened Wrappers
  import opened Text
  import opened JsonValue
  import opened LeadConversations
  import opened Persistence
  import opened Gateway
  import opened ReplyGenerator

  /** The form fields of an incoming-message callback that the pipeline uses. */
  datatype IncomingRequest = IncomingRequest(messageSid: string, from: string, to: string, body: string)

  /**
   * `{success: true}`; the 500 with `success: false` and "Internal server
   * error"; or an `Error` that no `catch (\Exception)` catches, which ends
   * the request where it was raised and leaves the framework's own error
   * response.
   */
  datatype Response = Success | InternalError | Crashed

  /**
   * `substr($from, strpos($from, ':') + 1)`: everything after the first `:`;
   * with no `:`, `strpos` is `false`, which PHP adds as 0, so the number
   * starts at index 1.
   */
  function ExtractNumber(from: string): (r: string)
    ensures ':' in from ==> exists k :: 0 <= k < |from| && from[k] == ':' && ':' !in from[..k] && r == from[k + 1..]
    ensures ':' !in from && from != [] ==> r == from[1..]
    ensures from == [] ==> r == []
  {
    var start := match IndexOf(from, ':') case Some(i) => i + 1 case None => 1;
    Drop(from, start)
  }

  /** `substr($phoneNumber, -10)`. */
  function LastTen(number: string): (r: string)
    ensures |r| == Min(10, |number|)
    ensures number == number[..|number| - |r|] + r
  {
    Suffix(number, 10)
  }

  /** The six spellings searched for, in order; duplicates are kept. */
  function CandidateFormats(number: string): (r: seq<string>)
    ensures |r| == 6
  {
    var l := LastTen(number);
    [l, "+" + l, number, Remove(number, '+'), "91" + l, "+91" + l]
  }

  /** `JSON_SEARCH(lead_data, 'one', f) IS NOT NULL` for some candidate `f`. */
  predicate MatchesExactly(lead: Lead, formats: seq<string>) {
    exists f :: f in formats && f in Strings(lead.data)
  }

  /** `JSON_SEARCH(lead_data, 'one', '%needle%') IS NOT NULL`. */
  predicate MatchesLoosely(lead: Lead, needle: string) {
    exists t :: t in Strings(lead.data) && Contains(t, needle)
  }

  /**
   * The two-phase lookup: the first lead (in store order) with a value equal
   * to any candidate; only when there is none, the first whose value
   * contains the last ten characters.
   */
  function ResolveLead(leads: seq<Lead>, from: string): (r: Option<nat>)
    ensures r.Some? ==> r.value < |leads|
    ensures var c := CandidateFormats(ExtractNumber(from));
            (exists i :: 0 <= i < |leads| && MatchesExactly(leads[i], c)) ==>
              (r.Some? && MatchesExactly(leads[r.value], c)
               && forall j :: 0 <= j < r.value ==> !MatchesExactly(leads[j], c))
    ensures var c := CandidateFormats(ExtractNumber(from));
            var l := LastTen(ExtractNumber(from));
            (forall i :: 0 <= i < |leads| ==> !MatchesExactly(leads[i], c)) ==>
              (&& (r.Some? ==> MatchesLoosely(leads[r.value], l)
                               && forall j :: 0 <= j < r.value ==> !MatchesLoosely(leads[j], l))
               && (r.None? ==> forall i :: 0 <= i < |leads| ==> !MatchesLoosely(leads[i], l)))
  {
    var number := ExtractNumber(from);
    var c := CandidateFormats(number);
    var l := LastTen(number);
    var exact := FirstLead(leads, lead => MatchesExactly(lead, c));
    if exact.Some? then
      assert MatchesExactly(leads[exact.value], c);
      assert forall j :: 0 <= j < exact.value ==> !MatchesExactly(leads[j], c);
      exact
    else
      assert forall i :: 0 <= i < |leads| ==> !MatchesExactly(leads[i], c);
      var loose := FirstLead(leads, lead => MatchesLoosely(lead, l));
      assert loose.Some? ==> MatchesLoosely(leads[loose.value], l)
                             && forall j :: 0 <= j < loose.value ==> !MatchesLoosely(leads[j], l);
      assert loose.None? ==> forall i :: 0 <= i < |leads| ==> !MatchesLoosely(leads[i], l);
      loose
  }

  lemma {:induction false} RemoveConcat(a: string, b: string, c: char)
    ensures Remove(a + b, c) == Remove(a, c) + Remove(b, c)
  {
    if a != [] {
      RemoveConcat(a[1..], b, c);
      assert (a + b)[1..] == a[1..] + b;
    } else {
      assert a + b == b;
    }
  }

  lemma {:induction false} RemoveAbsent(s: string, c: char)
    requires c !in s
    ensures Remove(s, c) == s
  {
    if s != [] {
      RemoveAbsent(s[1..], c);
    }
  }

  lemma EndsWithContains(pre: string, l: string)
    ensures Contains(pre + l, l)
  {
    assert l <= (pre + l)[|pre|..];
  }

  /** Every candidate ends with the last ten characters, the `+`-less one too when those ten hold no `+`. */
  lemma CandidatesEndWithLastTen(number: string)
    requires '+' !in LastTen(number)
    ensures forall f :: f in CandidateFormats(number) ==> Contains(f, LastTen(number))
  {
    var l := LastTen(number);
    var head := number[..|number| - |l|];
    RemoveConcat(head, l, '+');
    RemoveAbsent(l, '+');
    SpellingsEndWith(l, head, Remove(head, '+'));
    assert "" + l == l;
    assert number == head + l;
    assert Remove(number, '+') == Remove(head, '+') + l;
    assert CandidateFormats(number) == ["" + l, "+" + l, head + l, Remove(head, '+') + l, "91" + l, "+91" + l];
  }

  lemma SpellingsEndWith(l: string, p: string, q: string)
    ensures forall f :: f in ["" + l, "+" + l, p + l, q + l, "91" + l, "+91" + l] ==> Contains(f, l)
  {
    EndsWithContains("", l);
    EndsWithContains("+", l);
    EndsWithContains(p, l);
    EndsWithContains(q, l);
    EndsWithContains("91", l);
    EndsWithContains("+91", l);
  }

  /** So a lead the exact phase would find also passes the substring test. */
  lemma ExactImpliesLoose(lead: Lead, number: string)
    requires '+' !in LastTen(number)
    requires MatchesExactly(lead, CandidateFormats(number))
    ensures MatchesLoosely(lead, LastTen(number))
  {
    var f :| f in CandidateFormats(number) && f in Strings(lead.data);
    CandidatesEndWithLastTen(number);
    assert Contains(f, LastTen(number));
  }

  /** A sender whose number is at most ten characters and has no `+` yields the same spelling three times. */
  lemma CandidatesKeepDuplicates(number: string)
    requires |number| <= 10 && '+' !in number
    ensures var c := CandidateFormats(number);
            c[0] == number && c[2] == number && c[3] == number
  {
    RemoveAbsent(number, '+');
  }

  /** A conversation row as a chat turn: inbound rows are the user's, all others the assistant's. */
  function AsTurn(x: Record): (t: Turn)
    ensures t.content == x.message
    ensures t.role == User <==> x.direction == Inbound
    ensures t.role != System
  {
    Turn(if x.direction == Inbound then User else Assistant, x.message)
  }

  /** The history handed to the generator: the lead's five most recent rows as turns, newest first. */
  function History(rs: seq<Record>, leadId: nat): (h: seq<Turn>)
    ensures |h| == Min(HistoryLimit, |OfLead(rs, leadId)|)
    ensures forall k :: 0 <= k < |h| ==> h[k] == AsTurn(OfLead(rs, leadId)[|OfLead(rs, leadId)| - 1 - k])
  {
    var recent := Recent(rs, leadId, HistoryLimit);
    seq(|recent|, k requires 0 <= k < |recent| => AsTurn(recent[k]))
  }

  /** The row stored for the incoming message. */
  function InboundRow(lead: Lead, req: IncomingRequest, now: Time): (r: Record)
    ensures r.leadId == lead.id && r.sid == req.messageSid && r.direction == Inbound
    ensures r.message == req.body && r.status == "received"
    ensures r.from == req.from && r.to == req.to
  {
    NewRow(lead.id, req.messageSid, Inbound, req.body, "received", req.from, req.to, now)
  }

  /** What one incoming message leaves behind: the response, the rows, and the generator call, if any. */
  datatype Handled = Handled(response: Response, rows: seq<Record>, generation: Option<Generation>)

  /**
   * The controller's own outbound insert. Its `message_sid` is the whole
   * result array of `sendMessage`; `stored` says what the store makes of
   * that value (`None`: refused), and a refusal is swallowed.
   */
  function SecondInsert(rs: seq<Record>, leadId: nat, reply: string, req: IncomingRequest,
                        stored: Option<string>, now: Time): (r: seq<Record>)
    ensures stored.Some? && !HasSid(rs, stored.value) ==>
              r == rs + [NewRow(leadId, stored.value, Outbound, reply, "sent", req.to, req.from, now)]
    ensures stored.None? || HasSid(rs, stored.value) ==> r == rs
    ensures SidsUnique(rs) ==> SidsUnique(r)
  {
    match stored
    case None => rs
    case Some(s) => Append(rs, NewRow(leadId, s, Outbound, reply, "sent", req.to, req.from, now)).GetOr(rs)
  }

  /**
   * After the inbound row: the send, then the controller's own insert. Up
   * to two outbound rows carrying the reply are added and nothing stored
   * before changes.
   */
  function Respond(leads: seq<Lead>, rows: seq<Record>, number: string, leadId: nat, req: IncomingRequest,
                   reply: string, sendOutcome: ProviderOutcome, stored: Option<string>, now: Time)
    : (r: seq<Record>)
    ensures |rows| <= |r| <= |rows| + 2 && r[..|rows|] == rows
    ensures forall k :: |rows| <= k < |r| ==> r[k].direction == Outbound && r[k].message == reply
    ensures SidsUnique(rows) ==> SidsUnique(r)
  {
    var sent := SendEffect(leads, rows, number, req.from, reply, sendOutcome, now).rows;
    var r := SecondInsert(sent, leadId, reply, req, stored, now);
    ExtendsByOne(rows, sent, reply);
    SecondInsertExtends(sent, leadId, reply, req, stored, now);
    ExtendsTrans(rows, sent, r, reply, 1, 1);
    r
  }

  lemma RespondSteps(leads: seq<Lead>, rows: seq<Record>, number: string, leadId: nat, req: IncomingRequest,
                     reply: string, sendOutcome: ProviderOutcome, stored: Option<string>, now: Time)
    ensures Respond(leads, rows, number, leadId, req, reply, sendOutcome, stored, now)
            == SecondInsert(SendEffect(leads, rows, number, req.from, reply, sendOutcome, now).rows,
                            leadId, reply, req, stored, now)
  {
  }

  /** The shape `SendEffect` promises for its rows is a one-row extension. */
  lemma ExtendsByOne(rows: seq<Record>, s: seq<Record>, reply: string)
    requires s == rows || (|s| == |rows| + 1 && s[..|rows|] == rows
                           && s[|rows|].direction == Outbound && s[|rows|].message == reply)
    ensures ExtendsWith(rows, s, reply, 1)
  {
  }

  lemma SecondInsertExtends(rows: seq<Record>, leadId: nat, reply: string, req: IncomingRequest,
                            stored: Option<string>, now: Time)
    ensures ExtendsWith(rows, SecondInsert(rows, leadId, reply, req, stored, now), reply, 1)
  {
  }

  /** `b` is `a` followed by at most `n` outbound rows carrying `reply`. */
  ghost predicate ExtendsWith(a: seq<Record>, b: seq<Record>, reply: string, n: nat) {
    && |a| <= |b| <= |a| + n && b[..|a|] == a
    && forall k :: |a| <= k < |b| ==> b[k].direction == Outbound && b[k].message == reply
  }

  lemma ExtendsTrans(a: seq<Record>, b: seq<Record>, c: seq<Record>, reply: string, m: nat, n: nat)
    requires ExtendsWith(a, b, reply, m) && ExtendsWith(b, c, reply, n)
    ensures ExtendsWith(a, c, reply, m + n)
  {
    assert c[..|a|] == c[..|b|][..|a|];
    forall k | |a| <= k < |c| ensures c[k].direction == Outbound && c[k].message == reply {
      if k < |b| {
        assert c[k] == c[..|b|][k];
      }
    }
  }

  /**
   * `incomingMessage` as a function of the store and the collaborators'
   * outcomes. No lead: nothing is stored and the answer is success. A lead:
   * the inbound row is stored first, and a refusal of it (its sid is taken)
   * is the 500 with nothing stored; otherwise the reply is generated over
   * the history, sent, and filed once more, and the answer is success
   * whatever the send and the second insert do. A `TypeError` inside the
   * generator ends the request with only the inbound row stored.
   */
  function Handle(leads: seq<Lead>, rs: seq<Record>, number: string, req: IncomingRequest,
                  replyOutcome: ProviderReply, sendOutcome: ProviderOutcome, stored: Option<string>,
                  now: Time): (h: Handled)
    ensures ResolveLead(leads, req.from).None? ==> h == Handled(Success, rs, None)
    ensures ResolveLead(leads, req.from).Some? && HasSid(rs, req.messageSid) ==>
              h == Handled(InternalError, rs, None)
    ensures ResolveLead(leads, req.from).Some? && !HasSid(rs, req.messageSid) ==>
              var lead := leads[ResolveLead(leads, req.from).value];
              var inbound := InboundRow(lead, req, now);
              var g := GenerateResponse(req.body, History(rs + [inbound], lead.id), replyOutcome);
              && h.generation == Some(g)
              && (g.reply.None? ==> h.response == Crashed && h.rows == rs + [inbound])
              && (g.reply.Some? ==>
                    && h.response == Success
                    && |rs| + 1 <= |h.rows| <= |rs| + 3 && h.rows[..|rs| + 1] == rs + [inbound]
                    && forall k :: |rs| < k < |h.rows| ==>
                         h.rows[k].direction == Outbound && h.rows[k].message == g.reply.value)
    ensures SidsUnique(rs) ==> SidsUnique(h.rows)
  {
    match ResolveLead(leads, req.from)
    case None => Handled(Success, rs, None)
    case Some(i) =>
      var lead := leads[i];
      var inbound := InboundRow(lead, req, now);
      match Append(rs, inbound)
      case None => Handled(InternalError, rs, None)
      case Some(rows1) =>
        var g := GenerateResponse(req.body, History(rows1, lead.id), replyOutcome);
        match g.reply
        case None => Handled(Crashed, rows1, Some(g))
        case Some(reply) =>
          Handled(Success, Respond(leads, rows1, number, lead.id, req, reply, sendOutcome, stored, now), Some(g))
  }

  /** The path of a new message from a known sender, step by step. */
  lemma HandleAccepts(leads: seq<Lead>, rs: seq<Record>, number: string, req: IncomingRequest,
                      replyOutcome: ProviderReply, sendOutcome: ProviderOutcome, stored: Option<string>,
                      now: Time, i: nat)
    requires ResolveLead(leads, req.from) == Some(i)
    requires !HasSid(rs, req.messageSid)
    ensures i < |leads|
    ensures var inbound := InboundRow(leads[i], req, now);
            var g := GenerateResponse(req.body, History(rs + [inbound], leads[i].id), replyOutcome);
            Handle(leads, rs, number, req, replyOutcome, sendOutcome, stored, now)
            == if g.reply.None? then Handled(Crashed, rs + [inbound], Some(g))
               else Handled(Success, Respond(leads, rs + [inbound], number, leads[i].id, req, g.reply.value,
                                             sendOutcome, stored, now), Some(g))
  {
  }

  /**
   * A `TypeError` inside the generator, for a message that is not blank,
   * ends the request after the inbound insert: the message is stored, no
   * reply is sent or filed, and no success is reported.
   */
  lemma GeneratorErrorKeepsInbound(leads: seq<Lead>, rs: seq<Record>, number: string, req: IncomingRequest,
                                   sendOutcome: ProviderOutcome, stored: Option<string>, now: Time)
    requires ResolveLead(leads, req.from).Some? && !HasSid(rs, req.messageSid)
    requires !IsEmptyString(Trim(req.body))
    ensures var h := Handle(leads, rs, number, req, TypeFailure, sendOutcome, stored, now);
            && h.response == Crashed
            && |h.rows| == |rs| + 1 && h.rows[..|rs|] == rs
            && h.rows[|rs|].sid == req.messageSid && h.rows[|rs|].direction == Inbound
  {
    var h := Handle(leads, rs, number, req, TypeFailure, sendOutcome, stored, now);
    var inbound := InboundRow(leads[ResolveLead(leads, req.from).value], req, now);
    assert h.rows == rs + [inbound];
  }

  /** A sender that matches no lead leaves the store as it was and is acknowledged. */
  lemma UnknownSenderIgnored(leads: seq<Lead>, rs: seq<Record>, number: string, req: IncomingRequest,
                             replyOutcome: ProviderReply, sendOutcome: ProviderOutcome,
                             stored: Option<string>, now: Time)
    requires forall i :: 0 <= i < |leads| ==> !MatchesLoosely(leads[i], LastTen(ExtractNumber(req.from)))
    requires forall i :: 0 <= i < |leads| ==> !MatchesExactly(leads[i], CandidateFormats(ExtractNumber(req.from)))
    ensures Handle(leads, rs, number, req, replyOutcome, sendOutcome, stored, now) == Handled(Success, rs, None)
  {
  }

  /** A redelivered message (its sid is already stored) is answered with a 500, not acknowledged. */
  lemma RedeliveryFails(leads: seq<Lead>, rs: seq<Record>, number: string, req: IncomingRequest,
                        replyOutcome: ProviderReply, sendOutcome: ProviderOutcome, stored: Option<string>,
                        now: Time)
    requires ResolveLead(leads, req.from).Some? && !HasSid(rs, req.messageSid)
    ensures var rs' := Handle(leads, rs, number, req, replyOutcome, sendOutcome, stored, now).rows;
            Handle(leads, rs', number, req, replyOutcome, sendOutcome, stored, now) == Handled(InternalError, rs', None)
  {
    var rs' := Handle(leads, rs, number, req, replyOutcome, sendOutcome, stored, now).rows;
    var inbound := InboundRow(leads[ResolveLead(leads, req.from).value], req, now);
    assert rs'[..|rs| + 1] == rs + [inbound];
    assert rs'[|rs|] == rs'[..|rs| + 1][|rs|] == inbound;
    assert HasSid(rs', req.messageSid);
  }

  /**
   * The generator sees the stored message as its newest history entry, and
   * again as the final user turn (trimmed): the message reaches the
   * provider twice.
   */
  lemma MessageSentTwice(leads: seq<Lead>, rs: seq<Record>, number: string, req: IncomingRequest,
                         replyOutcome: ProviderReply, sendOutcome: ProviderOutcome, stored: Option<string>,
                         now: Time)
    requires ResolveLead(leads, req.from).Some? && !HasSid(rs, req.messageSid)
    requires !IsEmptyString(Trim(req.body))
    ensures var g := Handle(leads, rs, number, req, replyOutcome, sendOutcome, stored, now).generation;
            && g.Some? && g.value.request.Some?
            && var q := g.value.request.value;
               && |q| >= 3
               && q[1] == Turn(User, req.body)
               && q[|q| - 1] == Turn(User, Trim(req.body))
  {
    var lead := leads[ResolveLead(leads, req.from).value];
    var inbound := InboundRow(lead, req, now);
    var h := History(rs + [inbound], lead.id);
    NewestFirst(rs, inbound, HistoryLimit);
    var q := PrepareMessages(Trim(req.body), h);
    assert q[1..|q| - 1] == h;
    assert q[1] == q[1..|q| - 1][0];
  }

  class TwilioWebhookController {
    const twilio: TwilioService

    constructor (twilio: TwilioService)
      ensures this.twilio == twilio
    {
      this.twilio := twilio;
    }

    /**
     * `messageStatus`: the row with that sid takes the reported status (it
     * may move backwards), stamped per `UpdateStatus`; an unknown sid
     * changes nothing. The answer is success for every reported status.
     */
    method MessageStatus(db: Database, sid: string, status: string, now: Time) returns (resp: Response)
      requires db.Valid()
      modifies db`conversations
      ensures db.Valid()
      ensures db.conversations == UpdateStatus(old(db.conversations), sid, status, now)
      ensures resp == Success
    {
      db.SaveStatus(sid, status, now);
      resp := Success;
    }

    /** The steps after the inbound row: the reply is sent, then filed once more. */
    method Answer(db: Database, leadId: nat, req: IncomingRequest, reply: string, sendOutcome: ProviderOutcome,
                  stored: Option<string>, now: Time)
      requires db.Valid() && LeadExists(db.leads, leadId)
      modifies db`conversations
      ensures db.Valid()
      ensures db.conversations == Respond(db.leads, old(db.conversations), twilio.whatsappNumber, leadId, req, reply,
                                          sendOutcome, stored, now)
    {
      var _, _ := twilio.SendMessage(db, req.from, reply, sendOutcome, now);
      assert db.leads == old(db.leads);
      ghost var sent := db.conversations;
      assert sent == SendEffect(db.leads, old(db.conversations), twilio.whatsappNumber, req.from, reply,
                                sendOutcome, now).rows;
      if stored.Some? {
        var row := NewRow(leadId, stored.value, Outbound, reply, "sent", req.to, req.from, now);
        var _ := db.InsertConversation(row);
        assert db.leads == old(db.leads);
        assert db.conversations == Append(sent, row).GetOr(sent);
      }
      assert db.conversations == SecondInsert(sent, leadId, reply, req, stored, now);
      RespondSteps(db.leads, old(db.conversations), twilio.whatsappNumber, leadId, req, reply, sendOutcome,
                   stored, now);
    }

    /** `incomingMessage`: performs the steps `Handle` describes, on the store. */
    method IncomingMessage(db: Database, req: IncomingRequest, replyOutcome: ProviderReply,
                           sendOutcome: ProviderOutcome, stored: Option<string>, now: Time)
      returns (resp: Response, generation: Option<Generation>)
      requires db.Valid()
      modifies db`conversations
      ensures db.Valid()
      ensures Handled(resp, db.conversations, generation)
              == Handle(db.leads, old(db.conversations), twilio.whatsappNumber, req, replyOutcome, sendOutcome,
                        stored, now)
    {
      var found := ResolveLead(db.leads, req.from);
      if found.None? {
        return Success, None;
      }
      var lead := db.leads[found.value];
      var inbound := InboundRow(lead, req, now);
      assert LeadExists(db.leads, lead.id);
      var ok := db.InsertConversation(inbound);
      assert db.leads == old(db.leads);
      if !ok {
        return InternalError, None;
      }
      assert db.conversations == old(db.conversations) + [inbound];
      var g := GenerateResponse(req.body, History(db.conversations, lead.id), replyOutcome);
      HandleAccepts(db.leads, old(db.conversations), twilio.whatsappNumber, req, replyOutcome, sendOutcome,
                    stored, now, found.value);
      if g.reply.None? {
        return Crashed, Some(g);
      }
      Answer(db, lead.id, req, g.reply.value, sendOutcome, stored, now);
      resp, generation := Success, Some(g);
    }
  }
}
