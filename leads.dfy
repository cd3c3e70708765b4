/**
 * The lead-side endpoints (`LeadController`): lead creation with its phone
 * detection and hash text, the call-log and booking bookkeeping, the
 * flattened field view, the conversation listing and transcripts handed to
 * the analyzer, and the manual send. Permission checks, hash-id decoding and
 * the HTTP layer are outside the model; ids arrive decoded.
 */
module LeadController {
  import opened Wrappers
  import opened Text
  import opened JsonValue
  import opened LeadConversations
  import opened Persistence
  import opened Gateway
  import opened Analyzer

  // ---------------------------------------------------------------- createLead

  /** One submitted `lead_data` entry: its `field_name` and `field_value`. */
  datatype Field = Field(name: string, value: string)

  /** The campaign columns `createLead` reads. */
  datatype Campaign = Campaign(id: nat, name: string, allowReferencePrefix: bool, referencePrefix: string)

  /** The names compared against the lowercased field name. */
  const PhoneLabels: seq<string> :=
    ["phone", "phone number", "phone no", "Phone No", "mobile", "contact", "whatsapp"]

  predicate IsPhoneLabel(name: string) { Lower(name) in PhoneLabels }

  /** The label `"Phone No"` is never reached: a lowercased name has no capital. */
  lemma PhoneNoNeverMatches(name: string)
    ensures Lower(name) != "Phone No"
  {
    if |name| == |"Phone No"| {
      assert !IsUpper(Lower(name)[0]);
      assert IsUpper("Phone No"[0]);
    }
  }

  /** Hence a name is a phone label exactly when it lowercases to one of the other six. */
  lemma PhoneLabelsInEffect(name: string)
    ensures IsPhoneLabel(name) <==>
            Lower(name) in ["phone", "phone number", "phone no", "mobile", "contact", "whatsapp"]
  {
    PhoneNoNeverMatches(name);
  }

  /** The phone number `createLead` settles on: the value of the last field whose name is a label. */
  function LastPhoneField(fields: seq<Field>): (r: Option<string>)
    ensures r.None? <==> forall i :: 0 <= i < |fields| ==> !IsPhoneLabel(fields[i].name)
    ensures r.Some? ==> exists i :: 0 <= i < |fields| && IsPhoneLabel(fields[i].name) && fields[i].value == r.value
                                    && forall j :: i < j < |fields| ==> !IsPhoneLabel(fields[j].name)
  {
    if fields == [] then None
    else if IsPhoneLabel(fields[|fields| - 1].name) then Some(fields[|fields| - 1].value)
    else
      var r := LastPhoneField(fields[..|fields| - 1]);
      assert forall i :: 0 <= i < |fields| - 1 ==> fields[..|fields| - 1][i] == fields[i];
      r
  }

  /** The text accumulated for `lead_hash`: every field value lowercased, in order. */
  function HashInput(fields: seq<Field>): (r: string)
    ensures forall i :: 0 <= i < |r| ==> !IsUpper(r[i])
  {
    if fields == [] then ""
    else HashInput(fields[..|fields| - 1]) + Lower(fields[|fields| - 1].value)
  }

  /** The hash ignores the field names and the case of the values. */
  lemma {:induction false} HashIgnoresNamesAndCase(a: seq<Field>, b: seq<Field>)
    requires |a| == |b|
    requires forall i :: 0 <= i < |a| ==> Lower(a[i].value) == Lower(b[i].value)
    ensures HashInput(a) == HashInput(b)
  {
    if a != [] {
      HashIgnoresNamesAndCase(a[..|a| - 1], b[..|b| - 1]);
    }
  }

  /** The `foreach` of `createLead`: the phone number and the hash text in one pass. */
  method ScanFields(fields: seq<Field>) returns (phone: Option<string>, hashText: string)
    ensures phone == LastPhoneField(fields)
    ensures hashText == HashInput(fields)
  {
    phone, hashText := None, "";
    var i := 0;
    while i < |fields|
      invariant 0 <= i <= |fields|
      invariant phone == LastPhoneField(fields[..i])
      invariant hashText == HashInput(fields[..i])
    {
      assert fields[..i + 1][..i] == fields[..i];
      if IsPhoneLabel(fields[i].name) {
        phone := Some(fields[i].value);
      }
      hashText := hashText + Lower(fields[i].value);
      i := i + 1;
    }
    assert fields[..i] == fields;
  }

  function FieldJson(f: Field): Json {
    JObj([Member("field_name", JStr(f.name)), Member("field_value", JStr(f.value))])
  }

  /** The `lead_data` column as stored: the submitted list. */
  function LeadDataJson(fields: seq<Field>): (j: Json)
    ensures j.JArr? && |j.items| == |fields|
    ensures forall i :: 0 <= i < |fields| ==> j.items[i] == FieldJson(fields[i])
  {
    JArr(seq(|fields|, i requires 0 <= i < |fields| => FieldJson(fields[i])))
  }

  /** `reference_prefix` followed by the creation timestamp, when the campaign asks for one. */
  function ReferenceNumber(campaign: Campaign, now: Time): (r: Option<string>)
    ensures r.Some? <==> campaign.allowReferencePrefix
    ensures r.Some? ==> campaign.referencePrefix <= r.value
  {
    if campaign.allowReferencePrefix then Some(campaign.referencePrefix + IntToString(now)) else None
  }

  /** Whether `createLead` attempts the welcome message: a truthy phone value was found. */
  predicate WantsWelcome(fields: seq<Field>) {
    LastPhoneField(fields).Some? && !IsEmptyString(LastPhoneField(fields).value)
  }

  /**
   * `createLead`: stores the lead (its hash text is the lowercased values
   * followed by the campaign id), then, when a phone value was found and the
   * gateway can be constructed, sends the welcome message to it; a failure
   * there is logged only. The answer is always success.
   */
  method CreateLead(db: Database, campaign: Campaign, fields: seq<Field>, userId: nat, config: TwilioConfig,
                    outcome: ProviderOutcome, now: Time) returns (lead: Lead, welcome: Option<Outgoing>)
    requires db.Valid()
    modifies db`leads, db`nextLeadId, db`conversations
    ensures db.Valid()
    ensures lead == Lead(old(db.nextLeadId), campaign.id, LeadDataJson(fields),
                         HashInput(fields) + NatToString(campaign.id), ReferenceNumber(campaign, now),
                         userId, 0, None, None)
    ensures db.leads == old(db.leads) + [lead]
    ensures welcome.Some? <==> WantsWelcome(fields) && ConfigComplete(config)
    ensures welcome.Some? ==>
              && welcome.value == Addressed(config.whatsappNumber, LastPhoneField(fields).value, WelcomeText)
              && db.conversations == SendEffect(db.leads, old(db.conversations), config.whatsappNumber,
                                                LastPhoneField(fields).value, WelcomeText, outcome, now).rows
    ensures welcome.None? ==> db.conversations == old(db.conversations)
  {
    var phone, hashText := ScanFields(fields);
    lead := db.InsertLead(campaign.id, LeadDataJson(fields), hashText + NatToString(campaign.id),
                          ReferenceNumber(campaign, now), userId);
    welcome := Welcome(db, phone, config, outcome, now);
  }

  /** The welcome step of `createLead`: attempted for a truthy phone value, when the gateway can be built. */
  method Welcome(db: Database, phone: Option<string>, config: TwilioConfig, outcome: ProviderOutcome, now: Time)
    returns (welcome: Option<Outgoing>)
    requires db.Valid()
    modifies db`conversations
    ensures db.Valid()
    ensures welcome.Some? <==> phone.Some? && !IsEmptyString(phone.value) && ConfigComplete(config)
    ensures welcome.Some? ==>
              && welcome.value == Addressed(config.whatsappNumber, phone.value, WelcomeText)
              && db.conversations == SendEffect(db.leads, old(db.conversations), config.whatsappNumber,
                                                phone.value, WelcomeText, outcome, now).rows
    ensures welcome.None? ==> db.conversations == old(db.conversations)
  {
    welcome := None;
    if phone.Some? && !IsEmptyString(phone.value) {
      var service := Connect(config);
      if service.Some? {
        var twilio := service.value;
        var _, sent := twilio.SendWelcomeMessage(db, phone.value, outcome, now);
        welcome := Some(sent);
      }
    }
  }

  // ---------------------------------------------------------- createLeadCallLog

  const CallLogType: string := "call_log"

  /** `SUM(time_taken)` over the lead's call logs (0 when there are none). */
  function CallTime(logs: seq<LeadLog>, leadId: nat): int {
    if logs == [] then 0
    else
      var last := logs[|logs| - 1];
      CallTime(logs[..|logs| - 1], leadId) + (if last.leadId == leadId && last.logType == CallLogType then last.timeTaken else 0)
  }

  lemma CallTimeAppend(logs: seq<LeadLog>, log: LeadLog, leadId: nat)
    ensures CallTime(logs + [log], leadId) ==
            CallTime(logs, leadId) + (if log.leadId == leadId && log.logType == CallLogType then log.timeTaken else 0)
  {
    assert (logs + [log])[..|logs|] == logs;
  }

  /** `Lead::where('id', '<=', id)->where('campaign_id', c)->count()`. */
  function LeadNumber(leads: seq<Lead>, id: nat, campaignId: nat): nat {
    if leads == [] then 0
    else
      var last := leads[|leads| - 1];
      LeadNumber(leads[..|leads| - 1], id, campaignId) + (if last.id <= id && last.campaignId == campaignId then 1 else 0)
  }

  /** The number of leads of the campaign. */
  function CampaignCount(leads: seq<Lead>, campaignId: nat): nat {
    if leads == [] then 0
    else CampaignCount(leads[..|leads| - 1], campaignId) + (if leads[|leads| - 1].campaignId == campaignId then 1 else 0)
  }

  lemma {:induction false} LeadNumberConcat(a: seq<Lead>, b: seq<Lead>, id: nat, campaignId: nat)
    ensures LeadNumber(a + b, id, campaignId) == LeadNumber(a, id, campaignId) + LeadNumber(b, id, campaignId)
  {
    if b == [] {
      assert a + b == a;
    } else {
      LeadNumberConcat(a, b[..|b| - 1], id, campaignId);
      assert (a + b)[..|a + b| - 1] == a + b[..|b| - 1];
    }
  }

  lemma {:induction false} LeadNumberAbove(b: seq<Lead>, id: nat, campaignId: nat)
    requires forall k :: 0 <= k < |b| ==> b[k].id > id
    ensures LeadNumber(b, id, campaignId) == 0
  {
    if b != [] {
      LeadNumberAbove(b[..|b| - 1], id, campaignId);
    }
  }

  lemma {:induction false} LeadNumberBelow(a: seq<Lead>, id: nat, campaignId: nat)
    requires forall k :: 0 <= k < |a| ==> a[k].id <= id
    ensures LeadNumber(a, id, campaignId) == CampaignCount(a, campaignId)
  {
    if a != [] {
      LeadNumberBelow(a[..|a| - 1], id, campaignId);
    }
  }

  /**
   * With ids increasing in store order, a lead's number is its position
   * among its campaign's leads: the count of those stored up to and
   * including it. In particular it is at least 1.
   */
  lemma LeadNumberIsPosition(leads: seq<Lead>, i: nat)
    requires LeadIdsIncreasing(leads) && i < |leads|
    ensures LeadNumber(leads, leads[i].id, leads[i].campaignId) == CampaignCount(leads[..i + 1], leads[i].campaignId)
    ensures LeadNumber(leads, leads[i].id, leads[i].campaignId) >= 1
  {
    var lead := leads[i];
    var a, b := leads[..i + 1], leads[i + 1..];
    assert leads == a + b;
    IdsAroundPosition(leads, i, a, b);
    SplitAtLead(a, b, lead);
    assert a[|a| - 1] == lead;
    assert CampaignCount(a, lead.campaignId) == CampaignCount(a[..|a| - 1], lead.campaignId) + 1;
  }

  /** Increasing ids: those up to position `i` are at most its id, those after it above. */
  lemma IdsAroundPosition(leads: seq<Lead>, i: nat, a: seq<Lead>, b: seq<Lead>)
    requires LeadIdsIncreasing(leads) && i < |leads|
    requires a == leads[..i + 1] && b == leads[i + 1..]
    ensures forall k :: 0 <= k < |a| ==> a[k].id <= leads[i].id
    ensures forall k :: 0 <= k < |b| ==> b[k].id > leads[i].id
  {
    forall k | 0 <= k < |b| ensures b[k].id > leads[i].id {
      assert b[k] == leads[i + 1 + k];
    }
  }

  lemma SplitAtLead(a: seq<Lead>, b: seq<Lead>, lead: Lead)
    requires forall k :: 0 <= k < |a| ==> a[k].id <= lead.id
    requires forall k :: 0 <= k < |b| ==> b[k].id > lead.id
    ensures LeadNumber(a + b, lead.id, lead.campaignId) == CampaignCount(a, lead.campaignId)
  {
    LeadNumberConcat(a, b, lead.id, lead.campaignId);
    LeadNumberAbove(b, lead.id, lead.campaignId);
    LeadNumberBelow(a, lead.id, lead.campaignId);
  }

  datatype CallLogResult =
    | CallLogged(log: LeadLog, leadNumber: nat)
    /** `Lead::find` gave `null`, and reading its `id` fails */
    | CallLogLeadMissing

  /**
   * `createLeadCallLog`: the lead's `time_taken` becomes the sum over its
   * call logs, a new call log starts at that sum with no time taken, and the
   * lead's number within its campaign is returned. The new log adds nothing
   * to the sum, so a repeated call computes the same total.
   */
  method CreateLeadCallLog(db: Database, leadId: nat, userId: nat, now: Time) returns (r: CallLogResult)
    requires db.Valid()
    modifies db`leads, db`logs, db`nextLogId
    ensures db.Valid()
    ensures r.CallLogLeadMissing? <==> !LeadExists(old(db.leads), leadId)
    ensures r.CallLogLeadMissing? ==> db.leads == old(db.leads) && db.logs == old(db.logs)
    ensures r.CallLogged? ==>
              var i := FindLead(old(db.leads), leadId).value;
              var total := CallTime(old(db.logs), leadId);
              && db.leads == old(db.leads)[i := old(db.leads)[i].(timeTaken := total)]
              && r.log == LeadLog(old(db.nextLogId), leadId, CallLogType, userId, total, 0, now, None)
              && db.logs == old(db.logs) + [r.log]
              && r.leadNumber == LeadNumber(db.leads, leadId, old(db.leads)[i].campaignId)
              && CallTime(db.logs, leadId) == total
  {
    var found := FindLead(db.leads, leadId);
    if found.None? {
      return CallLogLeadMissing;
    }
    var i := found.value;
    var total := CallTime(db.logs, leadId);
    var lead := db.leads[i].(timeTaken := total);
    db.SaveLead(i, lead);
    var log := db.InsertLog(lead.id, CallLogType, userId, total, 0, now, None);
    CallTimeAppend(old(db.logs), log, leadId);
    r := CallLogged(log, LeadNumber(db.leads, lead.id, lead.campaignId));
  }

  // -------------------------------------------------------------- createBooking

  const FollowUpType: string := "lead_follow_up"

  /** The lead's link for a booking type: the follow-up for `lead_follow_up`, the salesman booking otherwise. */
  function BookingLink(lead: Lead, bookingType: string): Option<nat> {
    if bookingType == FollowUpType then lead.followUpId else lead.salesmanBookingId
  }

  /** The lead with the link for `bookingType` set to `id`. */
  function WithBookingLink(lead: Lead, bookingType: string, id: nat): (l: Lead)
    ensures BookingLink(l, bookingType) == Some(id)
    ensures bookingType == FollowUpType ==> l.salesmanBookingId == lead.salesmanBookingId
    ensures bookingType != FollowUpType ==> l.followUpId == lead.followUpId
    ensures l.(followUpId := lead.followUpId, salesmanBookingId := lead.salesmanBookingId) == lead
  {
    if bookingType == FollowUpType then lead.(followUpId := Some(id)) else lead.(salesmanBookingId := Some(id))
  }

  /** The log a booking request reuses: the one the link names, if it exists with that type. */
  function ReusedBooking(logs: seq<LeadLog>, lead: Lead, bookingType: string): (r: Option<nat>)
    ensures r.Some? ==> r.value < |logs| && BookingLink(lead, bookingType) == Some(logs[r.value].id)
                        && logs[r.value].logType == bookingType
    ensures BookingLink(lead, bookingType).None? ==> r.None?
  {
    match BookingLink(lead, bookingType)
    case None => None
    case Some(b) => FindLog(logs, b, bookingType)
  }

  datatype BookingResult = Booked(booking: LeadLog) | BookingLeadMissing

  /**
   * `createBooking`: the booking the lead already points to (for that type)
   * is updated with the new date, user and notes; when there is none, a new
   * log of that type is created for the lead. The lead then points to it;
   * its other link is unchanged.
   */
  method CreateBooking(db: Database, leadId: nat, bookingType: string, dateTime: Time, userId: nat,
                       notes: Option<string>) returns (r: BookingResult)
    requires db.Valid()
    modifies db`leads, db`logs, db`nextLogId
    ensures db.Valid()
    ensures r.BookingLeadMissing? <==> !LeadExists(old(db.leads), leadId)
    ensures r.BookingLeadMissing? ==> db.leads == old(db.leads) && db.logs == old(db.logs)
    ensures r.Booked? ==>
              var i := FindLead(old(db.leads), leadId).value;
              var lead := old(db.leads)[i];
              var reused := ReusedBooking(old(db.logs), lead, bookingType);
              && (reused.Some? ==>
                    && r.booking == old(db.logs)[reused.value].(dateTime := dateTime, userId := userId, notes := notes)
                    && db.logs == old(db.logs)[reused.value := r.booking])
              && (reused.None? ==>
                    && r.booking == LeadLog(old(db.nextLogId), leadId, bookingType, userId, 0, 0, dateTime, notes)
                    && db.logs == old(db.logs) + [r.booking])
              && db.leads == old(db.leads)[i := WithBookingLink(lead, bookingType, r.booking.id)]
              && ReusedBooking(db.logs, db.leads[i], bookingType).Some?
  {
    var found := FindLead(db.leads, leadId);
    if found.None? {
      return BookingLeadMissing;
    }
    var i := found.value;
    var lead := db.leads[i];
    var reused := ReusedBooking(db.logs, lead, bookingType);
    var booking: LeadLog;
    if reused.Some? {
      booking := db.logs[reused.value].(dateTime := dateTime, userId := userId, notes := notes);
      db.SaveLog(reused.value, booking);
      assert db.logs[reused.value] == booking;
    } else {
      booking := db.InsertLog(lead.id, bookingType, userId, 0, 0, dateTime, notes);
      assert db.logs[|db.logs| - 1] == booking;
    }
    db.SaveLead(i, WithBookingLink(lead, bookingType, booking.id));
    r := Booked(booking);
  }

  // --------------------------------------------------------- getCampaignLeads

  /** A PHP array key as text: integers and numeric strings coincide, `true` is 1 and `false` 0. */
  function KeyText(k: Json): (r: Option<string>)
    ensures r.None? <==> IsArray(k)
  {
    if k.JBool? then Some(if k.b then "1" else "0") else ScalarText(k)
  }

  /** `$field['field_name'] ?? $field['name'] ?? 'unknown'`; `None` when it is an array (an illegal key). */
  function FieldKey(f: Json): Option<string> {
    KeyText(Coalesce(f, "field_name", Coalesce(f, "name", JStr("unknown"))))
  }

  /** `$field['field_value'] ?? $field['value'] ?? null`. */
  function FieldValue(f: Json): Json {
    Coalesce(f, "field_value", Coalesce(f, "value", JNull))
  }

  ghost predicate DistinctKeys(ms: seq<Member>) {
    forall i, j :: 0 <= i < j < |ms| ==> ms[i].key != ms[j].key
  }

  /** `$a[$k] = $v`: overwrites the entry in place, or appends a new one. */
  function Put(ms: seq<Member>, k: string, v: Json): (r: seq<Member>)
    ensures |r| <= |ms| + 1
    ensures forall m :: m in r ==> m in ms || m == Member(k, v)
  {
    if ms == [] then [Member(k, v)]
    else if ms[0].key == k then [Member(k, v)] + ms[1..]
    else [ms[0]] + Put(ms[1..], k, v)
  }

  /** After `$a[$k] = $v`, `$a[$k]` is `$v` and every other key reads as before. */
  lemma {:induction false} PutLookup(ms: seq<Member>, k: string, v: Json)
    ensures Lookup(Put(ms, k, v), k) == Some(v)
    ensures forall k' :: k' != k ==> Lookup(Put(ms, k, v), k') == Lookup(ms, k')
  {
    if ms != [] {
      LookupCons(ms[0], ms[1..]);
      assert ms == [ms[0]] + ms[1..];
      if ms[0].key == k {
        LookupCons(Member(k, v), ms[1..]);
      } else {
        PutLookup(ms[1..], k, v);
        LookupCons(ms[0], Put(ms[1..], k, v));
      }
    }
  }

  /** An assignment never makes two entries share a key. */
  lemma {:induction false} PutKeepsDistinct(ms: seq<Member>, k: string, v: Json)
    requires DistinctKeys(ms)
    ensures DistinctKeys(Put(ms, k, v))
  {
    if ms != [] {
      DistinctTail(ms);
      if ms[0].key == k {
        DistinctCons(Member(k, v), ms[1..]);
      } else {
        PutKeepsDistinct(ms[1..], k, v);
        DistinctCons(ms[0], Put(ms[1..], k, v));
      }
    }
  }

  /** Lookup in a sequence with a given head. */
  lemma LookupCons(m: Member, rest: seq<Member>)
    ensures forall key :: Lookup([m] + rest, key) == if m.key == key then Some(m.value) else Lookup(rest, key)
  {
    assert ([m] + rest)[1..] == rest;
  }

  lemma DistinctTail(ms: seq<Member>)
    requires ms != [] && DistinctKeys(ms)
    ensures DistinctKeys(ms[1..])
    ensures forall m :: m in ms[1..] ==> m.key != ms[0].key
  {
    forall i, j | 0 <= i < j < |ms[1..]| ensures ms[1..][i].key != ms[1..][j].key {
      assert ms[1..][i] == ms[i + 1] && ms[1..][j] == ms[j + 1];
    }
    forall m | m in ms[1..] ensures m.key != ms[0].key {
      var k :| 0 <= k < |ms[1..]| && ms[1..][k] == m;
      assert ms[k + 1] == m;
    }
  }

  lemma DistinctCons(m: Member, rest: seq<Member>)
    requires DistinctKeys(rest)
    requires forall x :: x in rest ==> x.key != m.key
    ensures DistinctKeys([m] + rest)
  {
    var r := [m] + rest;
    forall i, j | 0 <= i < j < |r| ensures r[i].key != r[j].key {
      assert r[j] == rest[j - 1];
      if i > 0 {
        assert r[i] == rest[i - 1];
      }
    }
  }

  /** Each field as the key/value pair it is stored under; `None` when some key is an array. */
  function Pairs(entries: seq<Json>): (r: Option<seq<Member>>)
    ensures r.Some? <==> forall i :: 0 <= i < |entries| ==> FieldKey(entries[i]).Some?
    ensures r.Some? ==> |r.value| == |entries|
    ensures r.Some? ==> forall i :: 0 <= i < |entries| ==>
                          r.value[i] == Member(FieldKey(entries[i]).value, FieldValue(entries[i]))
  {
    if forall i :: 0 <= i < |entries| ==> FieldKey(entries[i]).Some? then
      Some(seq(|entries|, i requires 0 <= i < |entries| => Member(FieldKey(entries[i]).value, FieldValue(entries[i]))))
    else None
  }

  /** The assignments `$a[$key] = $value`, one pair after the other, into an empty array. */
  function Assemble(ps: seq<Member>): (r: seq<Member>)
    ensures DistinctKeys(r)
  {
    if ps == [] then []
    else
      var prev := Assemble(ps[..|ps| - 1]);
      PutKeepsDistinct(prev, ps[|ps| - 1].key, ps[|ps| - 1].value);
      Put(prev, ps[|ps| - 1].key, ps[|ps| - 1].value)
  }

  /** The assembled array holds exactly the keys that occur. */
  lemma {:induction false} AssembleKeys(ps: seq<Member>, k: string)
    ensures Lookup(Assemble(ps), k).Some? <==> exists i :: 0 <= i < |ps| && ps[i].key == k
  {
    if ps != [] {
      var init := ps[..|ps| - 1];
      AssembleKeys(init, k);
      PutLookup(Assemble(init), ps[|ps| - 1].key, ps[|ps| - 1].value);
      if exists i :: 0 <= i < |ps| && ps[i].key == k {
        var i :| 0 <= i < |ps| && ps[i].key == k;
        if i < |ps| - 1 {
          assert init[i].key == k;
        }
      }
    }
  }

  /** A repeated key keeps the value of its last occurrence. */
  lemma {:induction false} AssembleLastWins(ps: seq<Member>, i: nat)
    requires i < |ps|
    requires forall j :: i < j < |ps| ==> ps[j].key != ps[i].key
    ensures Lookup(Assemble(ps), ps[i].key) == Some(ps[i].value)
  {
    var init := ps[..|ps| - 1];
    PutLookup(Assemble(init), ps[|ps| - 1].key, ps[|ps| - 1].value);
    if i < |ps| - 1 {
      AssembleLastWins(init, i);
    }
  }

  /**
   * The `foreach` that builds `dynamic_fields`: `None` when some key is an
   * array (PHP raises an error the handler does not catch); otherwise the
   * pairs assembled in order.
   */
  function Flatten(entries: seq<Json>): (r: Option<seq<Member>>)
    ensures r.Some? <==> forall i :: 0 <= i < |entries| ==> FieldKey(entries[i]).Some?
    ensures r.Some? ==> DistinctKeys(r.value)
  {
    match Pairs(entries)
    case None => None
    case Some(ps) => Some(Assemble(ps))
  }

  /** The flattened fields hold exactly the keys that occur. */
  lemma FlattenKeys(entries: seq<Json>, k: string)
    requires Flatten(entries).Some?
    ensures Lookup(Flatten(entries).value, k).Some? <==>
            exists i :: 0 <= i < |entries| && FieldKey(entries[i]) == Some(k)
  {
    var ps := Pairs(entries).value;
    AssembleKeys(ps, k);
    assert forall i :: 0 <= i < |entries| ==> ps[i].key == FieldKey(entries[i]).value;
  }

  /** The value under a key is that of the key's last occurrence. */
  lemma LastOccurrenceWins(entries: seq<Json>, i: nat)
    requires Flatten(entries).Some? && i < |entries|
    requires forall j :: i < j < |entries| ==> FieldKey(entries[j]) != FieldKey(entries[i])
    ensures Lookup(Flatten(entries).value, FieldKey(entries[i]).value) == Some(FieldValue(entries[i]))
  {
    var ps := Pairs(entries).value;
    assert forall j :: i < j < |entries| ==> ps[j].key != ps[i].key;
    AssembleLastWins(ps, i);
  }

  /** The values a `foreach` over `lead_data` visits; a non-array gives none (`is_array` fails). */
  function FieldEntries(data: Json): (r: seq<Json>)
    ensures data.JArr? ==> r == data.items
    ensures !IsArray(data) ==> r == []
  {
    match data
    case JArr(items) => items
    case JObj(ms) => seq(|ms|, i requires 0 <= i < |ms| => ms[i].value)
    case _ => []
  }

  /** `dynamic_fields` of one listed lead. */
  function DynamicFields(lead: Lead): (r: Option<seq<Member>>)
    ensures r.Some? <==> forall i :: 0 <= i < |FieldEntries(lead.data)| ==> FieldKey(FieldEntries(lead.data)[i]).Some?
    ensures r.Some? ==> DistinctKeys(r.value)
    ensures !IsArray(lead.data) ==> r == Some([])
  {
    Flatten(FieldEntries(lead.data))
  }

  lemma FieldJsonReads(f: Field)
    ensures FieldKey(FieldJson(f)) == Some(f.name)
    ensures FieldValue(FieldJson(f)) == JStr(f.value)
  {
    var ms := FieldJson(f).members;
    assert ms[0].key != "field_value" && ms[0].key != "value";
    assert Lookup(ms, "field_value") == Lookup(ms[1..], "field_value");
    assert Lookup(ms[1..], "field_value") == Some(JStr(f.value));
    assert Lookup(ms, "field_name") == Some(JStr(f.name));
  }

  /** A lead created from a form: its fields come back under their names, the last duplicate winning. */
  lemma CreatedFieldsFlatten(fields: seq<Field>, i: nat)
    requires i < |fields|
    requires forall j :: i < j < |fields| ==> fields[j].name != fields[i].name
    ensures Flatten(LeadDataJson(fields).items).Some?
    ensures Lookup(Flatten(LeadDataJson(fields).items).value, fields[i].name) == Some(JStr(fields[i].value))
  {
    var items := LeadDataJson(fields).items;
    forall j | 0 <= j < |items|
      ensures FieldKey(items[j]) == Some(fields[j].name)
    {
      FieldJsonReads(fields[j]);
    }
    FieldJsonReads(fields[i]);
    LastOccurrenceWins(items, i);
  }

  // ------------------------------------------------------------- getPhoneNumber

  /**
   * `getPhoneNumber`: the first of `Phone`, `Mobile`, `WhatsApp` set in the
   * lead's dynamic fields, else its `phone` attribute, else `null`.
   */
  function GetPhoneNumber(dynamicFields: Json, phone: Json): (r: Json)
    ensures IsSet(dynamicFields, "Phone") ==> Get(dynamicFields, "Phone") == Some(r)
    ensures !IsSet(dynamicFields, "Phone") && IsSet(dynamicFields, "Mobile") ==> Get(dynamicFields, "Mobile") == Some(r)
    ensures !IsSet(dynamicFields, "Phone") && !IsSet(dynamicFields, "Mobile") && IsSet(dynamicFields, "WhatsApp") ==>
              Get(dynamicFields, "WhatsApp") == Some(r)
    ensures !IsSet(dynamicFields, "Phone") && !IsSet(dynamicFields, "Mobile") && !IsSet(dynamicFields, "WhatsApp") ==>
              r == phone
  {
    if IsSet(dynamicFields, "Phone") then Get(dynamicFields, "Phone").value
    else if IsSet(dynamicFields, "Mobile") then Get(dynamicFields, "Mobile").value
    else if IsSet(dynamicFields, "WhatsApp") then Get(dynamicFields, "WhatsApp").value
    else phone
  }

  /** The lookup gives `null` exactly when none of the four places holds a value. */
  lemma NoPhoneExactly(dynamicFields: Json, phone: Json)
    ensures GetPhoneNumber(dynamicFields, phone).JNull? <==>
            !IsSet(dynamicFields, "Phone") && !IsSet(dynamicFields, "Mobile") && !IsSet(dynamicFields, "WhatsApp")
            && phone.JNull?
  {
  }

  // ---------------------------------------------------------------- sendMessage

  datatype Refusal =
    | NoSuchLead
    | EmptyMessage
    | NoPhoneNumber
    /** the gateway call threw, with this message */
    | GatewayFailed(message: string)
    /** the row was refused by the store */
    | RowRefused

  /** What the manual send answers: the stored row, an `ApiException`, or an uncaught error (a 500). */
  datatype ManualSendResult = MessageSent(row: Record) | Refused(reason: Refusal) | Crashed

  /** What the endpoint's send call does: gives a message sid, or throws. */
  datatype GatewayCall = Delivered(sid: string) | Undelivered(message: string)

  /** The message the gateway's constructor throws when a setting is missing. */
  const IncompleteConfig: string := "Twilio configuration is incomplete. Please check your .env file."

  /**
   * `sendMessage` as written: after the two checks it builds the gateway,
   * whose constructor throws (and is caught) on an incomplete configuration,
   * and then calls a method `TwilioService` does not define, which raises an
   * `Error` that the `catch (\Exception)` does not catch.
   */
  function ManualSendAsWritten(leads: seq<Lead>, leadId: nat, message: string, dynamicFields: Json, phone: Json,
                               config: TwilioConfig)
    : (r: ManualSendResult)
    ensures !LeadExists(leads, leadId) ==> r == Refused(NoSuchLead)
    ensures LeadExists(leads, leadId) && IsEmptyString(message) ==> r == Refused(EmptyMessage)
    ensures LeadExists(leads, leadId) && !IsEmptyString(message) && IsFalsy(GetPhoneNumber(dynamicFields, phone)) ==>
              r == Refused(NoPhoneNumber)
    ensures var passes := LeadExists(leads, leadId) && !IsEmptyString(message)
                          && !IsFalsy(GetPhoneNumber(dynamicFields, phone));
            passes && !ConfigComplete(config) ==> r == Refused(GatewayFailed(IncompleteConfig))
  {
    if !LeadExists(leads, leadId) then Refused(NoSuchLead)
    else if IsEmptyString(message) then Refused(EmptyMessage)
    else if IsFalsy(GetPhoneNumber(dynamicFields, phone)) then Refused(NoPhoneNumber)
    else if !ConfigComplete(config) then Refused(GatewayFailed(IncompleteConfig))
    else Crashed
  }

  /**
   * As written, no manual send ever stores a message: every request that
   * passes the checks with a complete configuration crashes, whatever the
   * gateway would have done with it.
   */
  lemma ManualSendNeverStores(leads: seq<Lead>, leadId: nat, message: string, dynamicFields: Json, phone: Json,
                              config: TwilioConfig)
    ensures !ManualSendAsWritten(leads, leadId, message, dynamicFields, phone, config).MessageSent?
    ensures var passes := LeadExists(leads, leadId) && !IsEmptyString(message)
                          && !IsFalsy(GetPhoneNumber(dynamicFields, phone));
            passes && ConfigComplete(config) ==>
              ManualSendAsWritten(leads, leadId, message, dynamicFields, phone, config) == Crashed
  {
  }

  /**
   * `sendMessage` as intended: the gateway is called with the phone number
   * and, when it yields a sid, one outbound row with status `sent` is stored,
   * from the configured sender to that number. `sender` is the configured
   * number; without one the `from` column would be null and the store
   * refuses the row, as it does a taken sid.
   */
  method ManualSend(db: Database, leadId: nat, message: string, dynamicFields: Json, phone: Json,
                    sender: Option<string>, call: GatewayCall, now: Time) returns (r: ManualSendResult)
    requires db.Valid()
    modifies db`conversations
    ensures db.Valid()
    ensures r != Crashed
    ensures !r.MessageSent? ==> db.conversations == old(db.conversations)
    ensures r.MessageSent? <==>
              && LeadExists(db.leads, leadId) && !IsEmptyString(message)
              && !IsFalsy(GetPhoneNumber(dynamicFields, phone)) && !IsArray(GetPhoneNumber(dynamicFields, phone))
              && call.Delivered? && sender.Some? && !HasSid(old(db.conversations), call.sid)
    ensures r.MessageSent? ==>
              && r.row == NewRow(leadId, call.sid, Outbound, message, "sent", sender.value,
                                 ScalarText(GetPhoneNumber(dynamicFields, phone)).value, now)
              && db.conversations == old(db.conversations) + [r.row]
    ensures !LeadExists(db.leads, leadId) ==> r == Refused(NoSuchLead)
    ensures LeadExists(db.leads, leadId) && IsEmptyString(message) ==> r == Refused(EmptyMessage)
    ensures LeadExists(db.leads, leadId) && !IsEmptyString(message) && IsFalsy(GetPhoneNumber(dynamicFields, phone)) ==>
              r == Refused(NoPhoneNumber)
    ensures (LeadExists(db.leads, leadId) && !IsEmptyString(message) && !IsFalsy(GetPhoneNumber(dynamicFields, phone))
             && call.Undelivered?) ==> r == Refused(GatewayFailed(call.message))
    ensures (LeadExists(db.leads, leadId) && !IsEmptyString(message) && !IsFalsy(GetPhoneNumber(dynamicFields, phone))
             && call.Delivered? && !r.MessageSent?) ==> r == Refused(RowRefused)
  {
    if !LeadExists(db.leads, leadId) {
      return Refused(NoSuchLead);
    }
    if IsEmptyString(message) {
      return Refused(EmptyMessage);
    }
    var number := GetPhoneNumber(dynamicFields, phone);
    if IsFalsy(number) {
      return Refused(NoPhoneNumber);
    }
    if call.Undelivered? {
      return Refused(GatewayFailed(call.message));
    }
    var to := ScalarText(number);
    if sender.None? || to.None? {
      return Refused(RowRefused);
    }
    var row := NewRow(leadId, call.sid, Outbound, message, "sent", sender.value, to.value, now);
    var ok := db.InsertConversation(row);
    r := if ok then MessageSent(row) else Refused(RowRefused);
  }

  // ---------------------------------------------------------- getConversations

  /** One listed conversation row, with `is_from_lead` added. */
  datatype ListedConversation = ListedConversation(record: Record, isFromLead: bool)

  /**
   * `getConversations`: the lead's rows in store order, each marked as from
   * the lead exactly when it is inbound; `None` when the lead does not exist.
   */
  function ListConversations(leads: seq<Lead>, rs: seq<Record>, leadId: nat): (r: Option<seq<ListedConversation>>)
    ensures r.None? <==> !LeadExists(leads, leadId)
    ensures r.Some? ==> |r.value| == |OfLead(rs, leadId)|
    ensures r.Some? ==> forall k :: 0 <= k < |r.value| ==>
                          && r.value[k].record == OfLead(rs, leadId)[k]
                          && (r.value[k].isFromLead <==> OfLead(rs, leadId)[k].direction == Inbound)
  {
    if !LeadExists(leads, leadId) then None
    else
      var mine := OfLead(rs, leadId);
      Some(seq(|mine|, k requires 0 <= k < |mine| => ListedConversation(mine[k], mine[k].direction == Inbound)))
  }

  /** Every listed row belongs to the lead, and every row of the lead is listed. */
  lemma ListingIsComplete(leads: seq<Lead>, rs: seq<Record>, leadId: nat, x: Record)
    requires LeadExists(leads, leadId)
    ensures (exists k :: 0 <= k < |ListConversations(leads, rs, leadId).value|
                         && ListConversations(leads, rs, leadId).value[k].record == x)
            <==> x in rs && x.leadId == leadId
  {
    var mine := OfLead(rs, leadId);
    var listed := ListConversations(leads, rs, leadId).value;
    if x in rs && x.leadId == leadId {
      var k :| 0 <= k < |mine| && mine[k] == x;
      assert listed[k].record == x;
    }
  }

  // ------------------------------------------------------------------ transcripts

  /** One transcript line: `User: m` for an inbound row, `Assistant: m` otherwise. */
  function TranscriptLine(x: Record): (s: string)
    ensures x.direction == Inbound ==> s == "User: " + x.message
    ensures x.direction != Inbound ==> s == "Assistant: " + x.message
  {
    (if x.direction == Inbound then "User" else "Assistant") + ": " + x.message
  }

  function TranscriptLines(rows: seq<Record>): (r: seq<string>)
    ensures |r| == |rows|
    ensures forall k :: 0 <= k < |rows| ==> r[k] == TranscriptLine(rows[k])
  {
    seq(|rows|, k requires 0 <= k < |rows| => TranscriptLine(rows[k]))
  }

  /** The text `getConversationAnalysis` hands to the analyzer: the lines joined by newlines. */
  function Transcript(rows: seq<Record>): string {
    Join(TranscriptLines(rows), "\n")
  }

  lemma ContainsShift(pre: string, s: string, post: string, needle: string)
    requires Contains(s, needle)
    ensures Contains(pre + s + post, needle)
  {
    var i :| 0 <= i <= |s| && needle <= s[i..];
    assert (pre + s + post)[|pre| + i..] == s[i..] + post;
  }

  /** Every part of a join occurs in it. */
  lemma {:induction false} JoinContainsParts(parts: seq<string>, sep: string, k: nat)
    requires k < |parts|
    ensures Contains(Join(parts, sep), parts[k])
  {
    if |parts| == 1 {
      assert parts[k] <= Join(parts, sep)[0..];
    } else if k == |parts| - 1 {
      var init := Join(parts[..|parts| - 1], sep) + sep;
      assert Join(parts, sep) == init + parts[k];
      assert parts[k] <= Join(parts, sep)[|init|..];
    } else {
      JoinContainsParts(parts[..|parts| - 1], sep, k);
      ContainsShift("", Join(parts[..|parts| - 1], sep), sep + parts[|parts| - 1], parts[k]);
      assert "" + Join(parts[..|parts| - 1], sep) + (sep + parts[|parts| - 1]) == Join(parts, sep);
    }
  }

  /** Every message of the conversation appears in the transcript, verbatim. */
  lemma TranscriptHasEveryMessage(rows: seq<Record>, k: nat)
    requires k < |rows|
    ensures Contains(Transcript(rows), rows[k].message)
  {
    var lines := TranscriptLines(rows);
    var m := rows[k].message;
    JoinContainsParts(lines, "\n", k);
    var tag := if rows[k].direction == Inbound then "User: " else "Assistant: ";
    assert lines[k] == tag + m + "";
    assert Contains(m, m) by {
      assert m <= m[0..];
    }
    ContainsShift(tag, m, "", m);
    ContainsTrans(Transcript(rows), lines[k], m);
  }

  /** A substring of a substring is a substring. */
  lemma ContainsTrans(a: string, b: string, c: string)
    requires Contains(a, b) && Contains(b, c)
    ensures Contains(a, c)
  {
    var i :| 0 <= i <= |a| && b <= a[i..];
    var j :| 0 <= j <= |b| && c <= b[j..];
    forall t | 0 <= t < |c| ensures c[t] == a[i + j + t] {
      assert c[t] == b[j + t] == a[i..][j + t];
    }
    assert c <= a[i + j..];
  }

  /** Appending a row appends one line. */
  lemma TranscriptAppend(rows: seq<Record>, x: Record)
    requires rows != []
    ensures Transcript(rows + [x]) == Transcript(rows) + "\n" + TranscriptLine(x)
  {
    assert TranscriptLines(rows + [x])[..|rows|] == TranscriptLines(rows);
  }

  /** The analysis string of `getConversationAnalysis`; `None` when the summary is an array and cannot be converted. */
  function AnalysisText(a: Analysis): (r: Option<string>)
    ensures r.None? <==> IsArray(a.summary)
    ensures r.Some? ==> r.value == ScalarText(a.summary).value + "\n\n" + a.reasoning
  {
    match ScalarText(a.summary)
    case None => None
    case Some(s) => Some(s + "\n\n" + a.reasoning)
  }

  /** The answer of `getConversationAnalysis`: the score and the text, or the 500. */
  datatype AnalysisResponse = Scored(score: Json, analysis: string) | AnalysisFailed

  /**
   * `getConversationAnalysis`: the lead's rows in store order become the
   * transcript the analyzer scores; the answer carries the analyzer's score
   * and its summary and reasoning separated by a blank line.
   */
  function ConversationAnalysis(leads: seq<Lead>, rs: seq<Record>, leadId: nat, c: Completion)
    : (r: (AnalysisResponse, Option<ScoringRequest>))
    ensures r.1.Some? <==> LeadExists(leads, leadId)
    ensures r.1.Some? ==> r.1.value == RequestFor(Transcript(OfLead(rs, leadId)))
    ensures !LeadExists(leads, leadId) ==> r.0 == AnalysisFailed
    ensures LeadExists(leads, leadId) ==>
              (r.0.AnalysisFailed? <==> IsArray(Analyzed(c).summary))
    ensures r.0.Scored? ==> r.0.score == Analyzed(c).score && r.0.analysis == AnalysisText(Analyzed(c)).value
  {
    if !LeadExists(leads, leadId) then (AnalysisFailed, None)
    else
      var request := RequestFor(Transcript(OfLead(rs, leadId)));
      var a := Analyzed(c);
      match AnalysisText(a)
      case None => (AnalysisFailed, Some(request))
      case Some(text) => (Scored(a.score, text), Some(request))
  }

  /** A failed analysis still answers with a score: 1, and the error summary and reason. */
  lemma FailedAnalysisStillScored(leads: seq<Lead>, rs: seq<Record>, leadId: nat, m: string)
    requires LeadExists(leads, leadId)
    ensures ConversationAnalysis(leads, rs, leadId, Failed(m)).0 ==
            Scored(JNum(1), ErrorSummary + "\n\n" + FailurePrefix + m)
  {
  }

  /** One entry of the second transcript format: the message and its timestamp. */
  function StampedLine(x: Record): string {
    "Message: " + x.message + "\nTimestamp: " + IntToString(x.createdAt)
  }

  function StampedLines(rows: seq<Record>): (r: seq<string>)
    ensures |r| == |rows|
    ensures forall k :: 0 <= k < |rows| ==> r[k] == StampedLine(rows[k])
  {
    seq(|rows|, k requires 0 <= k < |rows| => StampedLine(rows[k]))
  }

  /** The answer of `analyzeConversation(Lead)`. */
  datatype LeadAnalysis =
    | Analysed(data: Analysis, request: ScoringRequest)
    /** the 404 "No conversations found for analysis" */
    | NoConversations
    /** logging the summary's length fails on an array summary, with an error nobody catches */
    | AnalysisCrashed

  /**
   * `analyzeConversation(Lead)`: no rows is the 404; otherwise the entries
   * `Message: m\nTimestamp: t`, separated by blank lines, are scored and the
   * analyzer's result is returned as it is.
   */
  function AnalyzeLead(rs: seq<Record>, leadId: nat, c: Completion): (r: LeadAnalysis)
    ensures r.NoConversations? <==> OfLead(rs, leadId) == []
    ensures OfLead(rs, leadId) != [] ==> (r.AnalysisCrashed? <==> IsArray(Analyzed(c).summary))
    ensures r.Analysed? ==>
              r.data == Analyzed(c) && r.request == RequestFor(Join(StampedLines(OfLead(rs, leadId)), "\n\n"))
  {
    var mine := OfLead(rs, leadId);
    if mine == [] then NoConversations
    else
      var a := Analyzed(c);
      if IsArray(a.summary) then AnalysisCrashed
      else Analysed(a, RequestFor(Join(StampedLines(mine), "\n\n")))
  }
}
