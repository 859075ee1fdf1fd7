/** The SMS transport helper: the choice between mock and live sending, the
    one message-log row every path writes, and the provider call. The mode
    and the credentials are parameters (the environment variables they come
    from are read by the caller); the provider is the `Gateway` object. */
module Sms {
  import opened Base
  import opened Domain
  import opened Database

  datatype SmsMode = Live | Mock

  /** `normalizeMode`: lower-case `raw || ""` and accept the three live spellings. */
  function NormalizeMode(raw: Option<string>): SmsMode {
    var value := Lower(if Truthy(raw) then raw.value else "");
    if value == "live" || value == "prod" || value == "production" then Live else Mock
  }

  /** Live exactly for "live", "prod" or "production" in any letter case; mock for null, "" and
      everything else. */
  lemma NormalizeModeSpec(raw: Option<string>)
    ensures NormalizeMode(raw) == Live <==>
      raw.Some? && (SameIgnoringCase(raw.value, "live") || SameIgnoringCase(raw.value, "prod")
                    || SameIgnoringCase(raw.value, "production"))
    ensures raw.None? || raw == Some("") ==> NormalizeMode(raw) == Mock
  {
    var s := if Truthy(raw) then raw.value else "";
    LowerIsLowercaseName(s, "live");
    LowerIsLowercaseName(s, "prod");
    LowerIsLowercaseName(s, "production");
  }

  /** `getSmsMode`: `SMS_MODE` when it is set and non-empty, else `SMS_DEV_MODE`. */
  function GetSmsMode(smsModeVar: Option<string>, smsDevModeVar: Option<string>): (m: SmsMode)
    ensures Truthy(smsModeVar) ==> m == NormalizeMode(smsModeVar)
    ensures !Truthy(smsModeVar) ==> m == NormalizeMode(smsDevModeVar)
    ensures m == Live ==> Truthy(smsModeVar) || Truthy(smsDevModeVar)
  {
    NormalizeMode(OrElse(smsModeVar, smsDevModeVar))
  }

  /** The flag value "true" (as in `SMS_DEV_MODE=true`) selects mock mode, like every value that is
      not a live spelling. */
  lemma DevModeFlagIsMock(smsModeVar: Option<string>)
    requires !Truthy(smsModeVar)
    ensures GetSmsMode(smsModeVar, Some("true")) == Mock
  {
    assert Lower("true")[0] == 't';
  }

  // ---------------------------------------------------------------------
  // logMessage
  // ---------------------------------------------------------------------

  /** The arguments of one `logMessage` call. */
  datatype LogEntry = LogEntry(
    propertyId: Option<string>,
    userId: Option<string>,
    to: string,
    from: string,
    body: string,
    status: string,
    source: Option<string>,
    sid: Option<string>,
    errorMessage: Option<string>)

  /** The row inserted for an entry: the source defaults to "manual". */
  function RowOf(e: LogEntry, now: int): MessageRow
    requires e.propertyId.Some?
  {
    MessageRow(e.propertyId.value, e.userId, e.to, e.from, e.body, e.status,
               e.source.GetOr("manual"), e.sid, e.errorMessage, now)
  }

  /** The rows a `logMessage` call adds: none without a client or a `propertyId`, none when the
      insert fails (the failure is swallowed), else one. */
  function LoggedRows(hasClient: bool, e: LogEntry, insertFails: bool, now: int): (rows: seq<MessageRow>)
    ensures |rows| <= 1
    ensures |rows| == 1 <==> hasClient && Truthy(e.propertyId) && !insertFails
    ensures |rows| == 1 ==> rows[0].status == e.status && rows[0].providerSid == e.sid
                            && rows[0].source == (if e.source.Some? then e.source.value else "manual")
  {
    if hasClient && Truthy(e.propertyId) && !insertFails then [RowOf(e, now)] else []
  }

  method LogMessage(db: Db?, e: LogEntry, insertFails: bool, now: int)
    modifies db
    ensures db != null ==> db.messages == old(db.messages) + LoggedRows(true, e, insertFails, now)
    ensures db != null ==> db.enrollments == old(db.enrollments) && db.steps == old(db.steps)
                           && db.properties == old(db.properties)
  {
    if db == null || !Truthy(e.propertyId) {
      return;
    }
    if !insertFails {
      db.InsertMessage(RowOf(e, now));
    }
  }

  // ---------------------------------------------------------------------
  // sendSmsOrMock
  // ---------------------------------------------------------------------

  datatype SendOptions = SendOptions(
    to: string,
    from: string,
    body: string,
    source: Option<string>,
    propertyId: Option<string>,
    userId: Option<string>,
    accountSid: Option<string>,
    authToken: Option<string>,
    logMock: Option<bool>)

  datatype SendResult = SendResult(mode: SmsMode, sent: bool, sid: Option<string>, error: Option<string>)

  /** What one call does: its result, the request it gives the provider and the `logMessage` call
      it makes, for a given provider reply. */
  datatype Plan = Plan(result: SendResult, request: Option<SmsRequest>, log: Option<LogEntry>)

  function Entry(o: SendOptions, status: string, source: Option<string>, sid: Option<string>,
                 err: Option<string>): LogEntry {
    LogEntry(o.propertyId, o.userId, o.to, o.from, o.body, status, source, sid, err)
  }

  function MockSource(source: Option<string>): string {
    if Truthy(source) then source.value + "-mock" else "mock"
  }

  /** `logMock` defaults to true when the caller leaves it out. */
  predicate LogsMock(o: SendOptions) {
    o.logMock.GetOr(true)
  }

  predicate HasCredentials(o: SendOptions) {
    Truthy(o.accountSid) && Truthy(o.authToken)
  }

  function PlanSend(mode: SmsMode, o: SendOptions, reply: ProviderReply): (p: Plan)
    // mock: no provider call, not sent, one "sent" row unless logMock is false
    ensures mode == Mock ==>
      && p.request.None? && !p.result.sent && p.result.sid.None? && p.result.error.None?
      && (p.log.Some? <==> o.logMock != Some(false))
      && (p.log.Some? ==> p.log.value.status == "sent" && p.log.value.source == Some(MockSource(o.source)))
    // live: exactly one logMessage call, whose status says whether the message went out
    ensures mode == Live ==> p.log.Some? && (p.log.value.status == "sent" <==> p.result.sent)
    ensures mode == Live ==> p.log.value.source == o.source
    // every logged row carries the caller's numbers, text, property and user
    ensures p.log.Some? ==> p.log.value.to == o.to && p.log.value.from == o.from && p.log.value.body == o.body
                            && p.log.value.propertyId == o.propertyId && p.log.value.userId == o.userId
    ensures mode == Live && !p.result.sent ==>
              && p.log.value.status == "failed" && p.result.sid.None?
              && p.log.value.sid.None? && p.log.value.errorMessage == p.result.error
    // the provider is called only with a from number and credentials, with the caller's message
    ensures p.request.Some? <==> mode == Live && o.from != "" && HasCredentials(o)
    ensures p.request.Some? ==> p.request.value == SmsRequest(o.to, o.from, o.body)
    // sent exactly on provider success, with the provider's sid
    ensures p.result.sent <==> p.request.Some? && reply.Delivered?
    ensures p.result.sent ==> p.result.sid == reply.sid && p.log.value.sid == reply.sid && p.result.error.None?
    ensures p.result.mode == mode
    // every live failure carries an error text
    ensures mode == Live && o.from == "" ==> p.result.error == Some("From number not configured")
    ensures mode == Live && o.from != "" && !HasCredentials(o) ==>
              p.result.error == Some("Twilio credentials not configured")
    ensures p.request.Some? && reply.Rejected? ==>
              p.result.error == OrElse(reply.message, Some("SMS send failed")) && Truthy(p.result.error)
  {
    if mode == Mock then
      Plan(SendResult(mode, false, None, None), None,
           if LogsMock(o) then Some(Entry(o, "sent", Some(MockSource(o.source)), None, None)) else None)
    else if o.from == "" then
      var err := "From number not configured";
      Plan(SendResult(mode, false, None, Some(err)), None, Some(Entry(o, "failed", o.source, None, Some(err))))
    else if !HasCredentials(o) then
      var err := "Twilio credentials not configured";
      Plan(SendResult(mode, false, None, Some(err)), None, Some(Entry(o, "failed", o.source, None, Some(err))))
    else
      var req := SmsRequest(o.to, o.from, o.body);
      if reply.Delivered? then
        assert mode == Live;
        Plan(SendResult(mode, true, reply.sid, None), Some(req), Some(Entry(o, "sent", o.source, reply.sid, None)))
      else
        var err := OrElse(reply.message, Some("SMS send failed"));
        Plan(SendResult(mode, false, None, err), Some(req), Some(Entry(o, "failed", o.source, None, err)))
  }

  function Requests(r: Option<SmsRequest>): seq<SmsRequest> {
    if r.Some? then [r.value] else []
  }

  function PlannedRows(p: Plan, insertFails: bool, now: int): seq<MessageRow> {
    if p.log.Some? then LoggedRows(true, p.log.value, insertFails, now) else []
  }

  /** `sendSmsOrMock`: `reply` is what the provider answers if it is called, `insertFails` whether
      the log insert fails. */
  method SendSmsOrMock(db: Db?, gateway: Gateway, mode: SmsMode, o: SendOptions, reply: ProviderReply,
                       insertFails: bool, now: int) returns (r: SendResult)
    modifies db, gateway
    ensures r == PlanSend(mode, o, reply).result
    ensures gateway.requests == old(gateway.requests) + Requests(PlanSend(mode, o, reply).request)
    ensures db != null ==> db.messages == old(db.messages) + PlannedRows(PlanSend(mode, o, reply), insertFails, now)
    ensures db != null ==> db.enrollments == old(db.enrollments) && db.steps == old(db.steps)
                           && db.properties == old(db.properties)
  {
    if mode == Mock {
      if LogsMock(o) {
        LogMessage(db, Entry(o, "sent", Some(MockSource(o.source)), None, None), insertFails, now);
      }
      return SendResult(mode, false, None, None);
    }
    if o.from == "" {
      var err := "From number not configured";
      LogMessage(db, Entry(o, "failed", o.source, None, Some(err)), insertFails, now);
      return SendResult(mode, false, None, Some(err));
    }
    if !Truthy(o.accountSid) || !Truthy(o.authToken) {
      var err := "Twilio credentials not configured";
      LogMessage(db, Entry(o, "failed", o.source, None, Some(err)), insertFails, now);
      return SendResult(mode, false, None, Some(err));
    }
    var answer := gateway.Create(SmsRequest(o.to, o.from, o.body), reply);
    match answer {
      case Delivered(sid) =>
        LogMessage(db, Entry(o, "sent", o.source, sid, None), insertFails, now);
        r := SendResult(mode, true, sid, None);
      case Rejected(message) =>
        var err := OrElse(message, Some("SMS send failed"));
        LogMessage(db, Entry(o, "failed", o.source, None, err), insertFails, now);
        r := SendResult(mode, false, None, err);
    }
  }
}
