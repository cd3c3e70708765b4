# Lead-side WhatsApp pipeline of the butterfly CRM, in Dafny

This project models the WhatsApp conversation pipeline of a Laravel lead-management CRM, and the rules around it, then proves properties of that model. The pipeline's parts are:

- the Twilio webhook, which finds the lead a sender belongs to, stores the message, generates an AI reply over the recent history, sends it and files it;
- the status callback;
- the Twilio gateway's number formatting and send bookkeeping;
- the OpenRouter reply generator;
- the Groq conversation analyzer;
- the lead controller's creation, call-log, booking, field-flattening, listing, transcript and manual-send endpoints;
- the constraints of the `lead_conversations` table and the internal chat tables.

Collaborators the code cannot see become inputs:

- what Twilio does with a send;
- what OpenRouter and Groq answer;
- what `json_decode` makes of a text;
- the clock.

The database is the `Persistence.Database` object. Its `seq` fields are the tables, store order stands for the database's row order, and `Valid()` holds the unique and foreign-key constraints. Every state-changing operation keeps `Valid()`. Each operation is specified by a pure function of the old state (`Handle`, `SendEffect`, `UpdateStatus`, `Respond`), and the lemmas are stated about those functions.

Files (one module each):

| file | module | models |
|---|---|---|
| `wrappers.dfy` | `Wrappers` | `Option`, `Result` |
| `text.dfy` | `Text` | PHP string built-ins (`trim`, `substr`, `strpos`, `strtolower`, `str_replace`, `empty`, `implode`) |
| `json.dfy` | `JsonValue` | decoded JSON, `isset`, `??`, `foreach` keys, string conversion |
| `store.dfy` | `LeadConversations` | the `lead_conversations` row, its defaults, uniqueness, history queries, cascade |
| `database.dfy` | `Persistence` | the `leads`, `lead_logs`, `lead_conversations` tables as a class |
| `gateway.dfy` | `Gateway` | `TwilioService` |
| `reply.dfy` | `ReplyGenerator` | `OpenRouterService` |
| `analyzer.dfy` | `Analyzer` | `ConversationAnalyzer` |
| `webhook.dfy` | `Webhook` | `TwilioWebhookController` |
| `leads.dfy` | `LeadController` | the lead endpoints |
| `chat.dfy` | `ChatSchema` | the conversation tables and `unreadMessages` |

Behaviours of the code worth noting:

- The six candidate spellings of a sender's number are not deduplicated (`Webhook.CandidatesKeepDuplicates`).
- The candidates are OR-ed in one query: the first lead in store order that matches any of them wins, not the most specific spelling.
- A redelivered message (its `MessageSid` is already stored) is not acknowledged as processed. The insert fails and the webhook answers 500 (`Webhook.RedeliveryFails`).
- The history handed to the reply generator is newest-first, not oldest-first. It already contains the message being answered, so the model receives that message twice (`Webhook.MessageSentTwice`).

## Model

| member | source | states |
|---|---|---|
| Text.Suffix | app/Http/Controllers/Api/TwilioWebhookController.php:81 | `substr($s, -n)`: the last `n` characters, or all of a shorter string, and the string is what precedes them followed by them |
| Text.Drop | app/Http/Controllers/Api/TwilioWebhookController.php:80 | `substr($s, k)`: the rest after `k` characters, and the empty string past the end |
| Text.IndexOf | app/Http/Controllers/Api/TwilioWebhookController.php:80 | `strpos` of one character: the first position holding it, or none when it does not occur |
| Text.Remove | app/Http/Controllers/Api/TwilioWebhookController.php:95 | `str_replace` of one character: none of it is left, and every other character keeps its count |
| Text.Lower | app/Http/Controllers/Api/LeadController.php:114 | `strtolower`: same length, each letter mapped to lower case, no capital left |
| Text.Trim | app/Services/OpenRouterService.php:44 | `trim`: the result is a slice of the input, everything cut on either side is whitespace or NUL, and the result neither starts nor ends with one |
| Text.NatToString | app/Http/Controllers/Api/LeadController.php:144 | the decimal text of a number: non-empty digits without a leading zero |
| Text.NatToStringRoundTrip | app/Http/Controllers/Api/LeadController.php:144 | reading the printed campaign id back gives the id |
| Text.Join | app/Http/Controllers/Api/LeadController.php:676 | joining no parts gives "" and one part gives that part |
| Text.IsEmptyString | app/Services/OpenRouterService.php:45 | `empty()` of a string: true exactly for `""` and `"0"` |
| JsonValue.Lookup | app/Services/ConversationAnalyzer.php:141-142 | `$a['key']`: the value of a member with that key, and none exactly when no member has it |
| JsonValue.Coalesce | app/Services/ConversationAnalyzer.php:141-142 | `$a['key'] ?? $d`: the stored value when it is set and not null, the default otherwise |
| JsonValue.IsSet | app/Services/ConversationAnalyzer.php:145 | `isset($v['key'])`: the key is present and its value is not null |
| JsonValue.IsFalsy | app/Http/Controllers/Api/LeadController.php:593 | `empty()` of a decoded value: null, false, 0, `""`, `"0"` and the empty array |
| JsonValue.FieldValueTexts | app/Services/TwilioService.php:129 | the lowered text of each string or number `field_value` of a list of field objects, as `LOWER(JSON_EXTRACT(...))` exposes them |
| JsonValue.Entries | app/Services/ConversationAnalyzer.php:149 | `foreach` over an array: an object's members in order, a list's items keyed by their indices |
| JsonValue.ScalarText | app/Services/ConversationAnalyzer.php:156 | string conversion: defined exactly for the non-array values |
| LeadConversations.NewRow | database/migrations/2024_12_16_152145_create_lead_conversations_table.php:23-25 | a new row has no `delivered_at` or `read_at`, and `created_at` is the clock |
| LeadConversations.DefaultRow | database/migrations/2024_12_16_152145_create_lead_conversations_table.php:18-20 | the defaults: `direction` is inbound and `status` is `sent` |
| LeadConversations.FindSid | app/Http/Controllers/Api/TwilioWebhookController.php:42 | `where('message_sid')->first()`: the first row with that sid, or none exactly when no row has it |
| LeadConversations.Append | database/migrations/2024_12_16_152145_create_lead_conversations_table.php:17 | the unique index: an insert succeeds exactly when the sid is free, appends the row and keeps sids unique |
| LeadConversations.UpdateStatus | app/Http/Controllers/Api/TwilioWebhookController.php:42-53 | the row with the sid takes the new status (which may regress); `delivered_at` is stamped only for `delivered`, `read_at` only for `read`; every other row and field is unchanged; an unknown sid changes nothing |
| LeadConversations.OfLead | app/Http/Controllers/Api/LeadController.php:549-551 | a lead's rows: exactly the stored rows with that lead id (their order is fixed by `OfLeadAppend`) |
| LeadConversations.OfLeadAppend | app/Http/Controllers/Api/TwilioWebhookController.php:141-149 | an appended row goes to the end of its own lead's rows and leaves every other lead's rows alone |
| LeadConversations.Recent | app/Http/Controllers/Api/TwilioWebhookController.php:156-159 | `orderBy desc ->take(n)`: the lead's `min(n, count)` newest rows, newest first |
| LeadConversations.NewestFirst | app/Http/Controllers/Api/TwilioWebhookController.php:141-159 | right after an insert, the inserted row heads its lead's recent history |
| LeadConversations.DeleteLead | database/migrations/2024_12_16_152145_create_lead_conversations_table.php:16 | the cascade: deleting a lead removes exactly its rows, keeps the others and keeps sids unique |
| Persistence.FindLead | app/Http/Controllers/Api/LeadController.php:196 | `Lead::find`: the position of the lead with that id, or none exactly when there is none |
| Persistence.FirstLead | app/Http/Controllers/Api/TwilioWebhookController.php:105-109 | `->first()` over a filter: the first lead in store order that satisfies it, or none exactly when none does |
| Persistence.FindLog | app/Http/Controllers/Api/LeadController.php:242-244 | the log with that id and type, or none exactly when there is none |
| Persistence.Database.constructor | database/migrations/2024_12_16_152145_create_lead_conversations_table.php:14-30 | empty tables satisfy every constraint |
| Persistence.Database.InsertConversation | database/migrations/2024_12_16_152145_create_lead_conversations_table.php:16-17 | the insert succeeds exactly when the sid is free and the lead exists; it appends the row and keeps the constraints |
| Persistence.Database.SaveStatus | app/Http/Controllers/Api/TwilioWebhookController.php:42-53 | the table becomes `UpdateStatus` of the old table, and the constraints hold |
| Persistence.Database.InsertLead | app/Http/Controllers/Api/LeadController.php:134-145 | a new lead takes the next id, is appended, and the constraints hold |
| Persistence.Database.SaveLead | app/Http/Controllers/Api/LeadController.php:204-205 | saving a lead replaces its row and keeps its id and every reference to it |
| Persistence.Database.InsertLog | app/Http/Controllers/Api/LeadController.php:208-215 | a new log takes the next id and is appended |
| Persistence.Database.SaveLog | app/Http/Controllers/Api/LeadController.php:254-257 | saving a log replaces its row only |
| Gateway.KeepDialChars | app/Services/TwilioService.php:57 | only digits and `+` survive, and a string made of them is unchanged |
| Gateway.FormatPhoneNumber | app/Services/TwilioService.php:54-87 | the formatted number holds only digits and `+` |
| Gateway.CountryThenTen | app/Services/TwilioService.php:60 | `/^91\d{10}$/`: twelve digits starting `91` |
| Gateway.TenDigits | app/Services/TwilioService.php:64 | `/^\d{10}$/`: exactly ten digits |
| Gateway.PlusThenTen | app/Services/TwilioService.php:68 | `/^\+\d{10}$/`: `+` then exactly ten digits |
| Gateway.CountryPrefixed | app/Services/TwilioService.php:72 | `/^91\d+/`: starts with `91` and one more digit, whatever follows |
| Gateway.FormatCases | app/Services/TwilioService.php:59-74 | what each of the four patterns does, tried in order: ten digits starting `91` take the ten-digit branch and get `+91`; anything matching no pattern is returned filtered |
| Gateway.FormatIdempotent | app/Services/TwilioService.php:54-87 | formatting a formatted number changes nothing |
| Gateway.FormatKeepsLastTen | app/Services/TwilioService.php:57-74 | once the filtered number has ten characters, formatting keeps its last ten |
| Gateway.Addressed | app/Services/TwilioService.php:93-97 | the provider is addressed as `whatsapp:` + the formatted number, from `whatsapp:` + the configured number |
| Gateway.Mentions | app/Services/TwilioService.php:129 | the `LIKE '%needle%'` test: some field-value text of the lead contains the needle |
| Gateway.RecipientLead | app/Services/TwilioService.php:129 | the outbound row's lead is the first whose field values contain the last ten characters of the formatted recipient, or none when no lead does |
| Gateway.SendEffect | app/Services/TwilioService.php:89-180 | a rejected send fails with the provider's error and stores nothing; an accepted one succeeds with sid and status and, when a lead mentions the number, appends exactly one outbound row with the provider's status; a taken sid fails the send; sids stay unique |
| Gateway.TwilioService.constructor | app/Services/TwilioService.php:15-42 | the service keeps the configured sender number |
| Gateway.TwilioService.SendMessage | app/Services/TwilioService.php:89-180 | the request sent is `Addressed`; the result and the new table are `SendEffect` of the old table; the constraints hold |
| Gateway.TwilioService.SendWelcomeMessage | app/Services/TwilioService.php:44-52 | the fixed greeting is sent through `SendMessage` |
| Gateway.Connect | app/Services/TwilioService.php:15-42 | a service exists exactly when account sid, token and number are all non-empty in PHP's sense |
| ReplyGenerator.LastN | app/Services/OpenRouterService.php:134 | `array_slice($h, -5)`: the last `min(5, count)` entries, in order |
| ReplyGenerator.PrepareMessages | app/Services/OpenRouterService.php:125-144 | one system entry with the fixed prompt, then the last ≤5 history entries in their order, then the user turn; length `2 + min(5, count)` |
| ReplyGenerator.OlderHistoryIgnored | app/Services/OpenRouterService.php:134 | history older than the five most recent entries does not change the request |
| ReplyGenerator.InterpretReply | app/Services/OpenRouterService.php:77-116 | a non-empty `choices` gives the first content; missing or empty `choices` and unexpected failures give the generic text; a request failure gives the connection text; a `TypeError` (a body that is not an array, a null or array `content`) escapes both catches and gives no text, and only it does |
| ReplyGenerator.GenerateResponse | app/Services/OpenRouterService.php:35-69 | no request is made exactly when the trimmed message is `empty()` (including `"0"`), and then the reply is the clarifying text; otherwise the request is `PrepareMessages` of the trimmed message and the reply is `InterpretReply`, which is none on a `TypeError` |
| ReplyGenerator.ReplyIsAnswerOrFallback | app/Services/OpenRouterService.php:35-69 | there is no reply exactly when a request was made and it ended in a `TypeError`; every reply there is is the provider's first choice or one of the three fixed texts |
| Analyzer.RequestFor | app/Services/ConversationAnalyzer.php:39-59 | one user message whose prompt contains the transcript verbatim, for the fixed model and token budget |
| Analyzer.FailureResult | app/Services/ConversationAnalyzer.php:182-189 | the sentinel: score 1, "Error analyzing conversation", "Analysis failed: " + the message |
| Analyzer.ReasoningLinesConcat | app/Services/ConversationAnalyzer.php:149-153 | the accumulated reasoning of two runs of entries is the first's text followed by the second's |
| Analyzer.ReasoningLinesOnlyStrings | app/Services/ConversationAnalyzer.php:150 | entries without a string value add nothing |
| Analyzer.ReasoningLines | app/Services/ConversationAnalyzer.php:149-153 | the loop's accumulation: `key: value\n` for each string-valued entry, in entry order |
| Analyzer.RawReasoning | app/Services/ConversationAnalyzer.php:145-158 | the reasoning before trimming: the accumulated lines for an array, the string conversion of a scalar, `""` when unset or null |
| Analyzer.FinalReasoning | app/Services/ConversationAnalyzer.php:163 | the trimmed reasoning, or "No reasoning provided" when that is `empty()`; never empty |
| Analyzer.ParsedAnalysis | app/Services/ConversationAnalyzer.php:130-177 | invalid JSON gives the sentinel with "Invalid JSON format"; a set score and summary pass through unchanged (no clamping); otherwise they become 1 and "No summary available" |
| Analyzer.NestedReasoning | app/Services/ConversationAnalyzer.php:146-153 | an array `reasoning` (object or list) becomes the `key: value` lines of its string entries, trimmed, and exactly when those are blank or `"0"` the placeholder |
| Analyzer.ScalarReasoning | app/Services/ConversationAnalyzer.php:154-163 | a string `reasoning` is used trimmed, and a blank or `"0"` one becomes the placeholder |
| Analyzer.Analyzed | app/Services/ConversationAnalyzer.php:30-93 | every failure gives the sentinel with its message; an answer is parsed; score, summary and reasoning are always usable |
| Analyzer.FlattenReasoning | app/Services/ConversationAnalyzer.php:149-153 | the loop's text is `ReasoningLines` of the entries |
| Analyzer.ParseAnalysisResult | app/Services/ConversationAnalyzer.php:130-177 | the method computes `ParsedAnalysis` |
| Analyzer.AnalyzeConversation | app/Services/ConversationAnalyzer.php:30-93 | the request is `RequestFor` of the transcript and the result is `Analyzed` of the outcome |
| Webhook.ExtractNumber | app/Http/Controllers/Api/TwilioWebhookController.php:80 | everything after the first `:`; with no `:`, everything after the first character |
| Webhook.LastTen | app/Http/Controllers/Api/TwilioWebhookController.php:81 | the final ≤10 characters, which end the number |
| Webhook.CandidateFormats | app/Http/Controllers/Api/TwilioWebhookController.php:91-98 | exactly six spellings |
| Webhook.CandidatesKeepDuplicates | app/Http/Controllers/Api/TwilioWebhookController.php:91-98 | duplicates are kept: a short number without `+` appears three times |
| Webhook.CandidatesEndWithLastTen | app/Http/Controllers/Api/TwilioWebhookController.php:91-98 | when the last ten hold no `+`, every candidate contains them |
| Webhook.MatchesExactly | app/Http/Controllers/Api/TwilioWebhookController.php:105-109 | the OR-ed `JSON_SEARCH(lead_data, 'one', format)` test: some string in the lead's data equals some candidate |
| Webhook.MatchesLoosely | app/Http/Controllers/Api/TwilioWebhookController.php:112-115 | the `'%last ten%'` search: some string in the lead's data contains the last ten characters |
| Webhook.ResolveLead | app/Http/Controllers/Api/TwilioWebhookController.php:105-115 | the first lead in store order with a value equal to any candidate; only when no lead has one, the first whose value contains the last ten; none when neither phase finds one |
| Webhook.ExactImpliesLoose | app/Http/Controllers/Api/TwilioWebhookController.php:105-115 | a lead the exact phase would find also passes the substring test |
| Webhook.AsTurn | app/Http/Controllers/Api/TwilioWebhookController.php:160-165 | a row becomes a `user` turn exactly when it is inbound, an `assistant` turn otherwise, with the row's message |
| Webhook.History | app/Http/Controllers/Api/TwilioWebhookController.php:156-166 | the lead's `min(5, count)` newest rows as turns, newest first |
| Webhook.InboundRow | app/Http/Controllers/Api/TwilioWebhookController.php:141-149 | the inbound row: the lead, the sid, direction inbound, status `received`, from `From`, to `To`, message `Body` |
| Webhook.SecondInsert | app/Http/Controllers/Api/TwilioWebhookController.php:185-207 | when the store makes a value of the result array (`stored` is some sid) and that sid is free, exactly the outbound `sent` row from `To` to `From` carrying the reply is appended; when it is refused or the sid is taken, the table is unchanged |
| Webhook.Respond | app/Http/Controllers/Api/TwilioWebhookController.php:181-207 | the send and the second insert add at most two outbound rows carrying the reply and change nothing stored before |
| Webhook.RespondSteps | app/Http/Controllers/Api/TwilioWebhookController.php:181-207 | the rows are exactly those of `SendEffect` followed by `SecondInsert`, each of which states its rows exactly |
| Webhook.Handle | app/Http/Controllers/Api/TwilioWebhookController.php:58-254 | no lead: success, nothing stored, no reply; a taken sid: 500, nothing stored; otherwise: the inbound row first and the reply generated over the history including it; then, when a reply came back, success and up to two outbound rows carrying it, and when the generator raised a `TypeError`, the framework's error response with only the inbound row stored; sids stay unique |
| Webhook.GeneratorErrorKeepsInbound | app/Http/Controllers/Api/TwilioWebhookController.php:141-174 | a `TypeError` in the generator for a non-blank message leaves exactly the inbound row stored and reports no success |
| Webhook.UnknownSenderIgnored | app/Http/Controllers/Api/TwilioWebhookController.php:229-238 | a sender matching no lead leaves the store as it was and gets success |
| Webhook.RedeliveryFails | app/Http/Controllers/Api/TwilioWebhookController.php:219-252 | handling the same message again after it was stored answers 500 and stores nothing |
| Webhook.MessageSentTwice | app/Http/Controllers/Api/TwilioWebhookController.php:156-174 | the request's first history entry is the stored message as received, and its last turn is the same message trimmed |
| Webhook.TwilioWebhookController.constructor | app/Http/Controllers/Api/TwilioWebhookController.php:18-22 | the controller keeps the gateway it is given |
| Webhook.TwilioWebhookController.MessageStatus | app/Http/Controllers/Api/TwilioWebhookController.php:24-56 | the table becomes `UpdateStatus` of the old one and the answer is success, for every reported status string |
| Webhook.TwilioWebhookController.Answer | app/Http/Controllers/Api/TwilioWebhookController.php:181-207 | the table becomes `Respond` of the old one |
| Webhook.TwilioWebhookController.IncomingMessage | app/Http/Controllers/Api/TwilioWebhookController.php:58-254 | the answer, the new table and the generator call are `Handle` of the old table; the constraints hold |
| LeadController.PhoneNoNeverMatches | app/Http/Controllers/Api/LeadController.php:115 | a lowercased name is never `"Phone No"` |
| LeadController.PhoneLabelsInEffect | app/Http/Controllers/Api/LeadController.php:114-115 | a name is a phone label exactly when it lowercases to one of the other six labels |
| LeadController.LastPhoneField | app/Http/Controllers/Api/LeadController.php:113-117 | the phone is the value of the last field whose name is a label, and is none exactly when no name is |
| LeadController.HashInput | app/Http/Controllers/Api/LeadController.php:131 | the hash text has no capital letters |
| LeadController.HashIgnoresNamesAndCase | app/Http/Controllers/Api/LeadController.php:131 | two forms whose values agree up to case give the same hash text, whatever their names |
| LeadController.ScanFields | app/Http/Controllers/Api/LeadController.php:113-132 | the loop computes `LastPhoneField` and `HashInput` |
| LeadController.LeadDataJson | app/Http/Controllers/Api/LeadController.php:142 | `lead_data` is the submitted list of name/value objects |
| LeadController.ReferenceNumber | app/Http/Controllers/Api/LeadController.php:138-140 | a reference exists exactly when the campaign allows one, and it starts with the prefix |
| LeadController.CreateLead | app/Http/Controllers/Api/LeadController.php:94-189 | the lead is appended, with the hash text followed by the campaign id; a welcome is sent exactly when a truthy phone was found and the gateway can be built, to that number, with the table `SendEffect` of the greeting; otherwise no row changes |
| LeadController.Welcome | app/Http/Controllers/Api/LeadController.php:148-174 | the welcome step: attempted exactly for a truthy phone with a complete configuration, and its failure is not surfaced |
| LeadController.CallTimeAppend | app/Http/Controllers/Api/LeadController.php:200-203 | a new log adds its time to the sum only when it is one of the lead's call logs |
| LeadController.CallTime | app/Http/Controllers/Api/LeadController.php:200-203 | `SUM(time_taken)` over the lead's `call_log` rows, 0 when there are none |
| LeadController.LeadNumber | app/Http/Controllers/Api/LeadController.php:217-219 | the count of the campaign's leads whose id is at most the lead's |
| LeadController.LeadNumberIsPosition | app/Http/Controllers/Api/LeadController.php:217-219 | with increasing ids, a lead's number is its position among its campaign's leads, and at least 1 |
| LeadController.CreateLeadCallLog | app/Http/Controllers/Api/LeadController.php:191-226 | a missing lead changes nothing; otherwise `time_taken` becomes the call-log sum, a new call log starts at that sum with 0 taken, the number is the count of the campaign's leads with id ≤ the lead's, and the sum is unchanged by the new log |
| LeadController.WithBookingLink | app/Http/Controllers/Api/LeadController.php:259-263 | the link for the type is set and the other link and every other field are kept |
| LeadController.ReusedBooking | app/Http/Controllers/Api/LeadController.php:239-245 | a reused booking is the log the link names, with that type; none without a link |
| LeadController.CreateBooking | app/Http/Controllers/Api/LeadController.php:228-275 | a missing lead changes nothing; the existing booking is updated in place, or a new log of that type is appended; the lead then points to it and its other link is kept |
| LeadController.KeyText | app/Http/Controllers/Api/LeadController.php:473 | a PHP array key exists exactly for the non-array values |
| LeadController.Put | app/Http/Controllers/Api/LeadController.php:473-474 | an assignment adds at most one entry, and only the assigned one |
| LeadController.PutLookup | app/Http/Controllers/Api/LeadController.php:473-474 | after `$a[$k] = $v`, `$a[$k]` is `$v` and every other key reads as before |
| LeadController.PutKeepsDistinct | app/Http/Controllers/Api/LeadController.php:473-474 | an assignment never makes two entries share a key |
| LeadController.Pairs | app/Http/Controllers/Api/LeadController.php:472-475 | each field's key is `field_name ?? name ?? 'unknown'` and its value `field_value ?? value ?? null`; defined exactly when no key is an array |
| LeadController.FieldKey | app/Http/Controllers/Api/LeadController.php:473 | `$field['field_name'] ?? $field['name'] ?? 'unknown'` as an array key; none when that value is an array |
| LeadController.FieldValue | app/Http/Controllers/Api/LeadController.php:474 | `$field['field_value'] ?? $field['value'] ?? null` |
| LeadController.Assemble | app/Http/Controllers/Api/LeadController.php:470-476 | the assembled array has distinct keys |
| LeadController.AssembleKeys | app/Http/Controllers/Api/LeadController.php:470-476 | the assembled array holds exactly the keys that occur |
| LeadController.AssembleLastWins | app/Http/Controllers/Api/LeadController.php:470-476 | a repeated key keeps the value of its last occurrence |
| LeadController.Flatten | app/Http/Controllers/Api/LeadController.php:470-476 | flattening succeeds exactly when no key is an array, and gives distinct keys |
| LeadController.FlattenKeys | app/Http/Controllers/Api/LeadController.php:470-476 | the flattened fields hold exactly the keys of the entries |
| LeadController.LastOccurrenceWins | app/Http/Controllers/Api/LeadController.php:470-476 | later duplicates overwrite earlier ones |
| LeadController.FieldEntries | app/Http/Controllers/Api/LeadController.php:471-472 | the `foreach` visits a list's items, and nothing for a non-array |
| LeadController.DynamicFields | app/Http/Controllers/Api/LeadController.php:464-476 | the flattened `dynamic_fields` of one listed lead: defined exactly when no field's coalesced key is an array, with distinct keys, and empty when `lead_data` is not an array |
| LeadController.CreatedFieldsFlatten | app/Http/Controllers/Api/LeadController.php:470-476 | a lead created from a form lists each field under its name, the last duplicate winning |
| LeadController.GetPhoneNumber | app/Http/Controllers/Api/LeadController.php:626-645 | the first set of `Phone`, `Mobile`, `WhatsApp`, otherwise the `phone` attribute |
| LeadController.NoPhoneExactly | app/Http/Controllers/Api/LeadController.php:626-645 | the lookup is null exactly when none of the four places holds a value |
| LeadController.ManualSendAsWritten | app/Http/Controllers/Api/LeadController.php:582-624 | as written: missing lead, empty message, no phone and an unbuildable gateway are refused; everything else crashes |
| LeadController.ManualSendNeverStores | app/Http/Controllers/Api/LeadController.php:598-599 | as written, no manual send stores a message |
| LeadController.ManualSend | app/Http/Controllers/Api/LeadController.php:582-624 | as intended: a row is stored exactly when the lead exists, the message is non-empty, the phone value is truthy and scalar, the gateway yields a free sid and a sender is configured; it is outbound, `sent`, to that phone; else nothing changes; never crashes; a missing lead, an empty message, a falsy phone and a gateway failure are each refused with their own reason, in that order of precedence; past those checks a delivered call whose row the store refuses (no sender, an array phone, a taken sid) is refused as `RowRefused` |
| LeadController.ListConversations | app/Http/Controllers/Api/LeadController.php:544-580 | none exactly when the lead is missing; otherwise the lead's rows in store order, each with `is_from_lead` exactly when inbound |
| LeadController.ListingIsComplete | app/Http/Controllers/Api/LeadController.php:549-566 | a row is listed exactly when it is stored and belongs to the lead |
| LeadController.TranscriptLine | app/Http/Controllers/Api/LeadController.php:673-675 | `User: m` for an inbound row, `Assistant: m` otherwise |
| LeadController.TranscriptLines | app/Http/Controllers/Api/LeadController.php:673-676 | one line per row, in order |
| LeadController.Transcript | app/Http/Controllers/Api/LeadController.php:673-676 | the transcript lines joined with newlines |
| LeadController.JoinContainsParts | app/Http/Controllers/Api/LeadController.php:676 | every part of a join occurs in it |
| LeadController.TranscriptHasEveryMessage | app/Http/Controllers/Api/LeadController.php:673-676 | every message of the conversation occurs in the transcript verbatim |
| LeadController.TranscriptAppend | app/Http/Controllers/Api/LeadController.php:673-676 | a further row adds a newline and its line |
| LeadController.AnalysisText | app/Http/Controllers/Api/LeadController.php:692 | summary + blank line + reasoning; none exactly when the summary is an array |
| LeadController.ConversationAnalysis | app/Http/Controllers/Api/LeadController.php:647-708 | a request is made exactly when the lead exists, for its transcript in store order; the answer carries the analyzer's score and `AnalysisText`, and is the 500 otherwise |
| LeadController.FailedAnalysisStillScored | app/Http/Controllers/Api/LeadController.php:679-693 | a failed analysis still answers with score 1 and the error summary and reason |
| LeadController.StampedLines | app/Http/Controllers/Api/LeadController.php:739-741 | one `Message: m\nTimestamp: t` entry per row, in order |
| LeadController.AnalyzeLead | app/Http/Controllers/Api/LeadController.php:710-771 | the 404 exactly when the lead has no rows; otherwise the analyzer's result as it is, for the stamped transcript, or a crash when the summary is an array |
| ChatSchema.NewConversation | database/migrations/2024_12_12_000000_create_conversation_tables.php:17-33 | defaults: type `direct`, not archived, optional columns unset |
| ChatSchema.NewParticipant | database/migrations/2024_12_12_000000_create_conversation_tables.php:36-58 | defaults: role `member`, not muted, nothing read |
| ChatSchema.NewMessage | database/migrations/2024_12_12_000000_create_conversation_tables.php:61-83 | defaults: type `text`, undelivered, unread |
| ChatSchema.AddConversation | database/migrations/2024_12_12_000000_create_conversation_tables.php:17-33 | refused exactly when the id or `xid` is taken; otherwise appended; the constraints hold |
| ChatSchema.AddParticipant | database/migrations/2024_12_12_000000_create_conversation_tables.php:36-58 | refused exactly when id, `xid` or (conversation, user) is taken or the conversation is missing; the constraints hold |
| ChatSchema.AddMessage | database/migrations/2024_12_12_000000_create_conversation_tables.php:61-83 | refused exactly when id or `xid` is taken or the conversation is missing; the constraints hold |
| ChatSchema.AddReaction | database/migrations/2024_12_12_000000_create_conversation_tables.php:86-105 | refused exactly when the id or (message, user, reaction) is taken or the message is missing; the constraints hold |
| ChatSchema.AddAttachment | database/migrations/2024_12_12_000000_create_conversation_tables.php:108-123 | refused exactly when id or `xid` is taken or the message is missing; the constraints hold |
| ChatSchema.FilterKeepsPairs | database/migrations/2024_12_12_000000_create_conversation_tables.php:57 | deleting rows never breaks a unique index |
| ChatSchema.DeleteConversation | database/migrations/2024_12_12_000000_create_conversation_tables.php:47-122 | deleting a conversation removes exactly its participants, its messages, and their reactions and attachments |
| ChatSchema.DeleteConversationKeepsValid | database/migrations/2024_12_12_000000_create_conversation_tables.php:17-123 | the cascade leaves no dangling reference and breaks no unique index |
| ChatSchema.DeleteMessage | database/migrations/2024_12_12_000000_create_conversation_tables.php:93-122 | deleting a message removes exactly its reactions and attachments, and nothing else |
| ChatSchema.DeleteMessageKeepsValid | database/migrations/2024_12_12_000000_create_conversation_tables.php:61-123 | the message cascade keeps every constraint |
| ChatSchema.SoftDeleteMessage | app/Models/ConversationMessage.php:11 | a soft delete stamps the message and changes nothing else |
| ChatSchema.SoftDeleteKeepsValid | app/Models/ConversationMessage.php:11 | a soft delete keeps every constraint |
| ChatSchema.UnreadMessages | app/Models/ConversationParticipant.php:37-42 | exactly the messages of the participant's conversation that are not soft-deleted, newer than the read mark (epoch when unset) and sent by someone else; none when the conversation does not load |
| ChatSchema.ReadMark | app/Models/ConversationParticipant.php:40 | `last_read_at ?? '1970-01-01'`: the read mark, the epoch when unset |
| ChatSchema.IsUnread | app/Models/ConversationParticipant.php:39-41 | the message is in the participant's conversation, not soft-deleted, newer than the read mark and from someone else |
| ChatSchema.ConversationVisible | app/Models/ConversationParticipant.php:39 | `$this->conversation` loads: the conversation exists and is not soft-deleted |
| ChatSchema.OwnMessagesNeverUnread | app/Models/ConversationParticipant.php:41 | the participant's own messages are never unread |
| ChatSchema.ReadingShrinksUnread | app/Models/ConversationParticipant.php:40 | moving the read mark forward only shrinks the unread set |
| ChatSchema.NeverReadSeesAll | app/Models/ConversationParticipant.php:40 | for a participant who never read, another's message after the epoch is unread exactly while not soft-deleted |

## Left out

- Logging, the query log, the `echo`ed console scripts and HTTP request/response objects are not modelled. Responses are small datatypes.
- The Twilio SDK, the OpenRouter and Groq HTTP calls and `json_decode` are foreign calls. Their outcomes are inputs (`ProviderOutcome`, `ProviderReply`, `Completion`, `Decoded`), and JSON text is never parsed.
- `Carbon::now()` and `created_at` are an integer `now` parameter. Dates are never formatted. This changes visible text in one place: `LeadController.StampedLines` prints the integer, where the source interpolates `created_at`, which Carbon prints as `Y-m-d H:i:s` (LeadController.php:740). The prompt sent to the analyzer differs accordingly.
- `md5` is not modelled: `lead_hash` holds the text that would be hashed.
- Store order stands for `created_at` order. Rows inserted in the same second are ordered as they were inserted.
- The system prompt and the scoring prompt are opaque constants. The Groq temperature (a float), the OpenRouter model setting, the headers and the timeouts are left out.
- `Common::recalculateCampaignLeads` is not part of this model.
- Permission checks, hash-id decoding, route model binding and the `Campaign::find` of `createLead` are left out. The campaign and the ids arrive decoded.
- `modifyIndex`, `leadCampaignMembers`, `startFollowUp`, `leadCampaignStats`, `sendEmail`, `testWhatsApp` and `TwilioService::testMessage` are left out. They are query plumbing, mail and test endpoints outside the pipeline.
- `getCampaignLeads` is modelled only for `dynamic_fields`. The other listed attributes, the actioner relations and the decoding of a string `lead_data` are left out.
- Foreign keys into `users`, the `metadata` column, and soft deletes of conversations, participants and attachments are left out. Only soft-deleted messages matter to the unread rule.
- JSON numbers are integers, and case mapping is ASCII-only.
- Decoded JSON objects are taken to have distinct keys. `json_decode` keeps the last value of a repeated key, but `Lookup`, `Entries` and `ReasoningLines` would see every occurrence of a repeated key in a `JObj`.
- LeadController.GetPhoneNumber: `$lead->dynamic_fields` and `$lead->phone` are parameters (`dynamicFields`, `phone`), not attributes of the stored lead. `Lead.php` is not part of this model, and `Persistence.Lead` has no `phone` column. `dynamic_fields` is built only as a response key by `getCampaignLeads`, so on a model loaded by `findOrFail` it is presumably unset, and the `phone` attribute is then the only path that finds a number.
- LeadController.CreateLead: `field_value` is taken to be a string. A number would be coerced by `strtolower`, and a missing `field_name` or `field_value` key would raise. Neither is modelled.
- LeadController.CreateBooking: a new booking log gets `started_on` and `time_taken` 0. The source sets neither, so they take the column defaults.
- Webhook.ResolveLead: `JSON_SEARCH` is modelled as "some string value equals" or "some string value contains". `LIKE` wildcards inside the number and the column's collation are not modelled.
- Gateway.RecipientLead: `LIKE` over the extracted `field_value` array is modelled value by value. A needle that would span two values in the array's text is not matched.
- Webhook.Handle: `Body`, `From`, `To` and `MessageSid` are strings. A missing form field is not modelled. `message_sid`, `message`, `from` and `to` are NOT NULL columns, so the inbound insert would fail with a query exception before the generator is called. That exception is rethrown and answered with the JSON 500, and nothing is stored.
- Webhook.TwilioWebhookController.MessageStatus: `status` is a string. In the source, a callback without `MessageStatus` for a stored sid writes null into the NOT NULL `status` column (create_lead_conversations_table.php:20). `save()` then throws, and since `messageStatus` has no try/catch the answer is a 500 with nothing changed. This path is not modelled. For an unknown sid the source answers success either way.
- Strings are sequences of Unicode characters, while PHP's `substr` and `strpos` count bytes. `Webhook.ExtractNumber`, `Webhook.LastTen` and the `substr($to, -10)` behind `Gateway.RecipientLead` therefore differ from the source on a sender or recipient with non-ASCII characters.
- Webhook.SecondInsert: the controller stores the whole result array of `sendMessage` as `message_sid`. What the store makes of that value is the `stored` input, and `None` means the insert is refused.
- LeadController.ManualSend: a missing `services.twilio.whatsapp_from` setting (absent from config/services.php) is the `sender` input being `None`, so the row is refused.

## Findings

| source | as written | input that shows it | evidently intended | confidence | as-written member | corrected member |
|---|---|---|---|---|---|---|
| app/Http/Controllers/Api/LeadController.php:599 | `sendMessage` calls `$twilioService->sendWhatsAppMessage(...)`. `TwilioService` defines no such method, so PHP raises an `Error`. `catch (\Exception $e)` does not catch it, so the request ends in an uncaught error and no row is ever stored. | an existing lead with a `phone` attribute (or a `Phone` dynamic field), message `"hi"`, a complete Twilio configuration; either path to the number reaches the undefined call | send through the gateway and, with the sid it returns, store one outbound `sent` row from the configured sender to the lead's number | not executed | LeadController.ManualSendAsWritten | LeadController.ManualSend |
