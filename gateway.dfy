/**
 * The WhatsApp gateway (`TwilioService`): phone-number formatting, the
 * addressing of an outbound message, and the shaping of the send result.
 * The Twilio REST client is foreign: what it does with a request is an input
 * (`ProviderOutcome`).
 */
module Gateway {
  import opened Wrappers
  import opened Text
  import opened JsonValue
  import opened LeadConversations
  import opened Persistence

  predicate IsDialChar(c: char) { IsDigit(c) || c == '+' }

  predicate AllDialChars(s: string) { forall i :: 0 <= i < |s| ==> IsDialChar(s[i]) }

  /** `preg_replace('/[^0-9+]/', '', $s)`: only digits and `+` survive, in order. */
  function KeepDialChars(s: string): (r: string)
    ensures AllDialChars(r)
    ensures |r| <= |s|
    ensures AllDialChars(s) ==> r == s
  {
    if s == [] then []
    else if IsDialChar(s[0]) then [s[0]] + KeepDialChars(s[1..])
    else KeepDialChars(s[1..])
  }

  /** `/^91\d{10}$/` */
  predicate CountryThenTen(p: string) { |p| == 12 && p[..2] == "91" && AllDigits(p) }

  /** `/^\d{10}$/` */
  predicate TenDigits(p: string) { |p| == 10 && AllDigits(p) }

  /** `/^\+\d{10}$/` */
  predicate PlusThenTen(p: string) { |p| == 11 && p[0] == '+' && AllDigits(p[1..]) }

  /** `/^91\d+/` (a prefix test: anything may follow the first digit). */
  predicate CountryPrefixed(p: string) { |p| >= 3 && p[..2] == "91" && IsDigit(p[2]) }

  /**
   * `formatPhoneNumber`: strip everything but digits and `+`, then try the
   * four patterns in order; the first that matches decides the prefix.
   */
  function FormatPhoneNumber(raw: string): (r: string)
    ensures AllDialChars(r)
  {
    var p := KeepDialChars(raw);
    if CountryThenTen(p) then "+" + p
    else if TenDigits(p) then "+91" + p
    else if PlusThenTen(p) then "+91" + p[1..]
    else if CountryPrefixed(p) then "+" + p
    else p
  }

  /**
   * What each pattern does to the filtered number `p`; in particular ten
   * digits that begin with `91` take the ten-digit branch and become
   * `+9191…`, because that branch is tried before `^91\d+`.
   */
  lemma FormatCases(raw: string)
    ensures var p := KeepDialChars(raw);
            && (CountryThenTen(p) ==> FormatPhoneNumber(raw) == "+" + p)
            && (TenDigits(p) ==> FormatPhoneNumber(raw) == "+91" + p)
            && (PlusThenTen(p) ==> FormatPhoneNumber(raw) == "+91" + p[1..])
            && (CountryPrefixed(p) && !CountryThenTen(p) && !TenDigits(p) ==> FormatPhoneNumber(raw) == "+" + p)
            && ((!CountryThenTen(p) && !TenDigits(p) && !PlusThenTen(p) && !CountryPrefixed(p)) ==>
                  FormatPhoneNumber(raw) == p)
  {
    var p := KeepDialChars(raw);
    if CountryPrefixed(p) && !CountryThenTen(p) && !TenDigits(p) {
      assert p[0] == '9';
    }
  }

  /** Formatting a formatted number changes nothing. */
  lemma {:induction false} FormatIdempotent(raw: string)
    ensures FormatPhoneNumber(FormatPhoneNumber(raw)) == FormatPhoneNumber(raw)
  {
    var p := KeepDialChars(raw);
    var r := FormatPhoneNumber(raw);
    assert KeepDialChars(r) == r;
    if CountryThenTen(p) || TenDigits(p) || PlusThenTen(p) {
      assert r[0] == '+' && |r| == 13;
      assert !CountryThenTen(r) && !TenDigits(r) && !PlusThenTen(r) && !CountryPrefixed(r);
    } else if CountryPrefixed(p) {
      assert r == "+" + p && r[0] == '+';
      assert !CountryThenTen(r) && !TenDigits(r) && !CountryPrefixed(r);
      if PlusThenTen(r) {
        assert r[1..] == p;
        assert TenDigits(p);
        assert false;
      }
    } else {
      assert r == p;
    }
  }

  /**
   * Formatting only adds a prefix (or swaps `+` for `+91`): once the number
   * has ten characters, its last ten survive formatting.
   */
  lemma FormatKeepsLastTen(raw: string)
    requires |KeepDialChars(raw)| >= 10
    ensures Suffix(FormatPhoneNumber(raw), 10) == Suffix(KeepDialChars(raw), 10)
  {
    var p := KeepDialChars(raw);
    var r := FormatPhoneNumber(raw);
    if PlusThenTen(p) && !CountryThenTen(p) && !TenDigits(p) {
      assert r == "+91" + p[1..];
      assert Suffix(r, 10) == p[1..] == Suffix(p, 10);
    } else if CountryThenTen(p) || TenDigits(p) || CountryPrefixed(p) {
      var pre := r[..|r| - |p|];
      assert r == pre + p;
      assert r[|r| - 10..] == p[|p| - 10..];
    }
  }

  /** The fixed greeting `sendWelcomeMessage` sends. */
  const WelcomeText: string :=
    "Hello! \U{1F60A} I'm Sarah from LoanWise. Are you interested in a Personal Loan or Business Loan?"

  /** The `.env` settings the service reads at construction (a missing one reads as ""). */
  datatype TwilioConfig = TwilioConfig(accountSid: string, authToken: string, whatsappNumber: string)

  /** The constructor throws unless all three settings are non-empty in PHP's sense. */
  predicate ConfigComplete(c: TwilioConfig) {
    !IsEmptyString(c.accountSid) && !IsEmptyString(c.authToken) && !IsEmptyString(c.whatsappNumber)
  }

  /** What the Twilio REST client does with one `messages->create` request. */
  datatype ProviderOutcome =
    | Accepted(sid: string, status: string)
    | Rejected(code: int, message: string)

  /** The request handed to the provider: channel-prefixed recipient and sender, and the text. */
  datatype Outgoing = Outgoing(to: string, from: string, body: string)

  datatype SendError =
    | ProviderError(code: int, message: string)
    /** the outbound row was refused by the store (its `message_sid` is taken) */
    | StoreError

  /** The array `sendMessage` returns: `success` with sid and status, or the error record. */
  datatype SendResult = Sent(sid: string, status: string) | SendFailed(error: SendError)

  /** A send's result together with the conversation rows it leaves behind. */
  datatype SendStep = SendStep(result: SendResult, rows: seq<Record>)

  /** `whatsapp:` + the formatted recipient, from `whatsapp:` + the configured number. */
  function Addressed(number: string, to: string, message: string): (o: Outgoing)
    ensures o.to == "whatsapp:" + FormatPhoneNumber(to)
    ensures o.from == "whatsapp:" + number
    ensures o.body == message
  {
    Outgoing("whatsapp:" + FormatPhoneNumber(to), "whatsapp:" + number, message)
  }

  /** `LOWER(JSON_EXTRACT(lead_data, '$[*].field_value')) LIKE '%needle%'`. */
  predicate Mentions(lead: Lead, needle: string) {
    exists t :: t in FieldValueTexts(lead.data) && Contains(t, needle)
  }

  /** The lead the outbound row is filed under: the first whose field values hold the last ten characters. */
  function RecipientLead(leads: seq<Lead>, to: string): (r: Option<nat>)
    ensures r.Some? ==> r.value < |leads| && Mentions(leads[r.value], Suffix(FormatPhoneNumber(to), 10))
    ensures r.Some? ==> forall j :: 0 <= j < r.value ==> !Mentions(leads[j], Suffix(FormatPhoneNumber(to), 10))
    ensures r.None? ==> forall i :: 0 <= i < |leads| ==> !Mentions(leads[i], Suffix(FormatPhoneNumber(to), 10))
  {
    var needle := Suffix(FormatPhoneNumber(to), 10);
    FirstLead(leads, l => Mentions(l, needle))
  }

  /**
   * `sendMessage` as a function of the store: a rejected request stores
   * nothing and fails; an accepted one succeeds with the provider's sid and
   * status and, when some lead mentions the number, files exactly one
   * outbound row for it — unless that sid is already stored, in which case
   * the insert fails and so does the send. It never throws.
   */
  function SendEffect(leads: seq<Lead>, rs: seq<Record>, number: string, to: string, message: string,
                      outcome: ProviderOutcome, now: Time): (s: SendStep)
    ensures outcome.Rejected? ==> s == SendStep(SendFailed(ProviderError(outcome.code, outcome.message)), rs)
    ensures outcome.Accepted? && RecipientLead(leads, to).None? ==> s == SendStep(Sent(outcome.sid, outcome.status), rs)
    ensures outcome.Accepted? && RecipientLead(leads, to).Some? ==>
              var lead := leads[RecipientLead(leads, to).value];
              var o := Addressed(number, to, message);
              var row := NewRow(lead.id, outcome.sid, Outbound, message, outcome.status, o.from, o.to, now);
              if HasSid(rs, outcome.sid) then s == SendStep(SendFailed(StoreError), rs)
              else s == SendStep(Sent(outcome.sid, outcome.status), rs + [row])
    ensures s.rows == rs || (|s.rows| == |rs| + 1 && s.rows[..|rs|] == rs
                             && s.rows[|rs|].direction == Outbound && s.rows[|rs|].message == message)
    ensures SidsUnique(rs) ==> SidsUnique(s.rows)
  {
    match outcome
    case Rejected(code, m) => SendStep(SendFailed(ProviderError(code, m)), rs)
    case Accepted(sid, status) =>
      match RecipientLead(leads, to)
      case None => SendStep(Sent(sid, status), rs)
      case Some(i) =>
        var o := Addressed(number, to, message);
        var row := NewRow(leads[i].id, sid, Outbound, message, status, o.from, o.to, now);
        match Append(rs, row)
        case None => SendStep(SendFailed(StoreError), rs)
        case Some(rs') => SendStep(Sent(sid, status), rs')
  }

  class TwilioService {
    /** The configured sender number, set once at construction. */
    const whatsappNumber: string

    constructor (config: TwilioConfig)
      requires ConfigComplete(config)
      ensures whatsappNumber == config.whatsappNumber
    {
      whatsappNumber := config.whatsappNumber;
    }

    /**
     * `sendMessage($to, $message)`: addresses the request, hands it to the
     * provider, and stores what `SendEffect` says.
     */
    method SendMessage(db: Database, to: string, message: string, outcome: ProviderOutcome, now: Time)
      returns (r: SendResult, sent: Outgoing)
      requires db.Valid()
      modifies db`conversations
      ensures db.Valid()
      ensures sent == Addressed(whatsappNumber, to, message)
      ensures SendStep(r, db.conversations)
              == SendEffect(db.leads, old(db.conversations), whatsappNumber, to, message, outcome, now)
    {
      sent := Addressed(whatsappNumber, to, message);
      match outcome {
        case Rejected(code, m) =>
          r := SendFailed(ProviderError(code, m));
        case Accepted(sid, status) =>
          var found := RecipientLead(db.leads, to);
          if found.None? {
            r := Sent(sid, status);
          } else {
            var lead := db.leads[found.value];
            var row := NewRow(lead.id, sid, Outbound, message, status, sent.from, sent.to, now);
            var ok := db.InsertConversation(row);
            r := if ok then Sent(sid, status) else SendFailed(StoreError);
          }
      }
    }

    /** `sendWelcomeMessage`: the fixed greeting, through `sendMessage`. */
    method SendWelcomeMessage(db: Database, phone: string, outcome: ProviderOutcome, now: Time)
      returns (r: SendResult, sent: Outgoing)
      requires db.Valid()
      modifies db`conversations
      ensures db.Valid()
      ensures sent == Addressed(whatsappNumber, phone, WelcomeText)
      ensures SendStep(r, db.conversations)
              == SendEffect(db.leads, old(db.conversations), whatsappNumber, phone, WelcomeText, outcome, now)
    {
      r, sent := SendMessage(db, phone, WelcomeText, outcome, now);
    }
  }

  /** `new TwilioService()`: throws (here `None`) when the configuration is incomplete. */
  method Connect(config: TwilioConfig) returns (s: Option<TwilioService>)
    ensures s.Some? <==> ConfigComplete(config)
    ensures s.Some? ==> fresh(s.value) && s.value.whatsappNumber == config.whatsappNumber
  {
    if ConfigComplete(config) {
      var service := new TwilioService(config);
      s := Some(service);
    } else {
      s := None;
    }
  }
}
