/** `GET /api/automation/health`: a list of checks (database, cron readiness,
    SMS provider configuration), an overall status that is the worst check,
    and HTTP 500 exactly when that status is "error". The environment
    variables and the two count queries are parameters. */
module Health {
  import opened Base
  import Sms

  datatype CheckStatus = Ok | Degraded | Error

  datatype HealthCheck = HealthCheck(name: string, status: CheckStatus, details: string)

  /** The answer of a `count: "exact", head: true` query. */
  datatype CountQuery = Counted(count: Option<nat>) | QueryFailed(message: string)

  datatype HealthResponse = HealthResponse(
    httpStatus: int,
    status: CheckStatus,
    environment: string,
    smsMode: Sms.SmsMode,
    checks: seq<HealthCheck>)

  /** `NODE_ENV` mapped to one of three names. */
  function EnvName(nodeEnv: Option<string>): (r: string)
    ensures r in {"production", "test", "development"}
    ensures r == "production" <==> nodeEnv == Some("production")
    ensures r == "test" <==> nodeEnv == Some("test")
  {
    if nodeEnv == Some("production") then "production"
    else if nodeEnv == Some("test") then "test"
    else "development"
  }

  /** `checks.some((c) => c.status === st)` */
  function SomeWith(checks: seq<HealthCheck>, st: CheckStatus): (b: bool)
    ensures b <==> exists i :: 0 <= i < |checks| && checks[i].status == st
  {
    if checks == [] then false
    else checks[0].status == st || SomeWith(checks[1..], st)
  }

  /** The overall status: "error" if any check errored, else "degraded" if any is degraded, else "ok". */
  function OverallStatus(checks: seq<HealthCheck>): (s: CheckStatus)
    ensures s == Error <==> exists i :: 0 <= i < |checks| && checks[i].status == Error
    ensures s == Degraded <==>
              (forall i :: 0 <= i < |checks| ==> checks[i].status != Error)
              && (exists i :: 0 <= i < |checks| && checks[i].status == Degraded)
    ensures s == Ok <==> forall i :: 0 <= i < |checks| ==> checks[i].status == Ok
  {
    if SomeWith(checks, Error) then Error
    else if SomeWith(checks, Degraded) then Degraded
    else
      assert forall i :: 0 <= i < |checks| ==> checks[i].status == Ok by {
        forall i | 0 <= i < |checks| ensures checks[i].status == Ok {
          assert checks[i].status != Error && checks[i].status != Degraded;
        }
      }
      Ok
  }

  /** Severity, for comparing statuses. */
  function Rank(s: CheckStatus): nat {
    match s
    case Ok => 0
    case Degraded => 1
    case Error => 2
  }

  function Worse(a: CheckStatus, b: CheckStatus): CheckStatus {
    if Rank(a) >= Rank(b) then a else b
  }

  /** The overall status of two lists together is the worse of their own: the rule is a maximum. */
  lemma OverallStatusAppend(a: seq<HealthCheck>, b: seq<HealthCheck>)
    ensures OverallStatus(a + b) == Worse(OverallStatus(a), OverallStatus(b))
  {
    var ab := a + b;
    assert forall i :: 0 <= i < |a| ==> ab[i] == a[i];
    assert forall i :: 0 <= i < |b| ==> ab[|a| + i] == b[i];
    if OverallStatus(ab) == Error {
      var i :| 0 <= i < |ab| && ab[i].status == Error;
      if i >= |a| {
        assert b[i - |a|].status == Error;
      }
    } else if OverallStatus(ab) == Degraded {
      var i :| 0 <= i < |ab| && ab[i].status == Degraded;
      if i >= |a| {
        assert b[i - |a|].status == Degraded;
      }
    }
  }

  /** No check is worse than the overall status. */
  lemma OverallIsWorst(checks: seq<HealthCheck>, i: int)
    requires 0 <= i < |checks|
    ensures Rank(checks[i].status) <= Rank(OverallStatus(checks))
  {
  }

  function HttpStatus(s: CheckStatus): (code: int)
    ensures code == 500 <==> s == Error
    ensures code != 500 ==> code == 200
  {
    if s == Error then 500 else 200
  }

  /** The database check, from the `sms_sequences` count. */
  function SupabaseCheck(q: CountQuery): (c: HealthCheck)
    ensures c.name == "supabase"
    ensures c.status == Error <==> q.QueryFailed?
    ensures c.status != Degraded
    ensures q.QueryFailed? ==> c.details == q.message
    ensures q.Counted? ==> c.details == "sms_sequences accessible (" + NatToString(q.count.GetOr(0)) + " total)"
  {
    match q
    case QueryFailed(message) => HealthCheck("supabase", Error, message)
    case Counted(count) =>
      HealthCheck("supabase", Ok, "sms_sequences accessible (" + NatToString(count.GetOr(0)) + " total)")
  }

  /** Cron readiness, from the enrollment count: error, ok with at least one enrollment, else degraded. */
  function CronCheck(q: CountQuery): (c: HealthCheck)
    ensures c.name == "cron"
    ensures c.status == Error <==> q.QueryFailed?
    ensures c.status == Ok <==> q.Counted? && q.count.GetOr(0) > 0
    ensures c.status == Degraded <==> q.Counted? && q.count.GetOr(0) == 0
    ensures c.status == Degraded ==> c.details == "No enrollments yet"
    ensures c.status == Ok ==> c.details == NatToString(q.count.GetOr(0)) + " enrollment(s) present"
  {
    match q
    case QueryFailed(message) => HealthCheck("cron", Error, message)
    case Counted(count) =>
      if count.GetOr(0) > 0 then HealthCheck("cron", Ok, NatToString(count.value) + " enrollment(s) present")
      else HealthCheck("cron", Degraded, "No enrollments yet")
  }

  /** The provider configuration: live mode needs an account sid, an auth token and a from number;
      mock mode is always fine. */
  function TwilioCheck(mode: Sms.SmsMode, accountSid: Option<string>, authToken: Option<string>,
                       fromNumber: Option<string>): (c: HealthCheck)
    ensures c.name == "twilioConfig"
    ensures c.status != Degraded
    ensures c.status == Error <==>
              mode == Sms.Live && !(Truthy(accountSid) && Truthy(authToken) && Truthy(fromNumber))
    ensures mode == Sms.Mock ==> c == HealthCheck("twilioConfig", Ok, "Mock SMS mode – no live sends")
  {
    if mode == Sms.Live then
      if !Truthy(accountSid) || !Truthy(authToken) || !Truthy(fromNumber) then
        HealthCheck("twilioConfig", Error, "Missing Twilio credentials/from number for live mode")
      else
        HealthCheck("twilioConfig", Ok, "Twilio credentials present (live mode)")
    else
      HealthCheck("twilioConfig", Ok, "Mock SMS mode – no live sends")
  }

  predicate Named(checks: seq<HealthCheck>, name: string) {
    exists i :: 0 <= i < |checks| && checks[i].name == name
  }

  /** Without the database configuration the list has no cron check and is an error overall. */
  lemma UnconfiguredChecks(twilio: HealthCheck)
    requires twilio.name == "twilioConfig"
    ensures var checks := [HealthCheck("supabase", Error, "Missing Supabase configuration"), twilio];
            !Named(checks, "cron") && OverallStatus(checks) == Error
  {
    var checks := [HealthCheck("supabase", Error, "Missing Supabase configuration"), twilio];
    assert checks[0].status == Error;
    assert |checks[0].name| == 8 && |checks[1].name| == 12;
  }

  /** The route. The two queries are only issued when the database is configured. */
  method GetHealth(supabaseUrl: Option<string>, serviceRoleKey: Option<string>,
                   sequencesQuery: CountQuery, enrollmentsQuery: CountQuery,
                   smsModeVar: Option<string>, smsDevModeVar: Option<string>,
                   accountSid: Option<string>, authToken: Option<string>, fromNumber: Option<string>,
                   nodeEnv: Option<string>)
    returns (r: HealthResponse)
    ensures r.smsMode == Sms.GetSmsMode(smsModeVar, smsDevModeVar)
    ensures r.environment == EnvName(nodeEnv)
    ensures r.status == OverallStatus(r.checks)
    ensures r.httpStatus == 500 <==> r.status == Error
    ensures r.httpStatus == 500 || r.httpStatus == 200
    // without configuration: one database error and no cron check
    ensures !(Truthy(supabaseUrl) && Truthy(serviceRoleKey)) ==>
              && r.checks == [HealthCheck("supabase", Error, "Missing Supabase configuration"),
                              TwilioCheck(r.smsMode, accountSid, authToken, fromNumber)]
              && !Named(r.checks, "cron")
              && r.status == Error
    // with configuration: the database check, the cron check, the provider check
    ensures Truthy(supabaseUrl) && Truthy(serviceRoleKey) ==>
              r.checks == [SupabaseCheck(sequencesQuery), CronCheck(enrollmentsQuery),
                           TwilioCheck(r.smsMode, accountSid, authToken, fromNumber)]
    ensures |r.checks| > 0 && r.checks[|r.checks| - 1] == TwilioCheck(r.smsMode, accountSid, authToken, fromNumber)
  {
    var smsMode := Sms.GetSmsMode(smsModeVar, smsDevModeVar);
    // the pushes of the route, written as the resulting lists
    var twilio := TwilioCheck(smsMode, accountSid, authToken, fromNumber);
    var checks: seq<HealthCheck>;
    if !Truthy(supabaseUrl) || !Truthy(serviceRoleKey) {
      checks := [HealthCheck("supabase", Error, "Missing Supabase configuration"), twilio];
      UnconfiguredChecks(twilio);
    } else {
      checks := [SupabaseCheck(sequencesQuery), CronCheck(enrollmentsQuery), twilio];
    }
    var status := OverallStatus(checks);
    r := HealthResponse(HttpStatus(status), status, EnvName(nodeEnv), smsMode, checks);
  }

  /** With the database configured and the provider check fine, the overall status is the worse of
      the database and cron checks; an empty enrollment table alone makes the service degraded. */
  lemma EmptyTableIsDegraded(sequencesCount: Option<nat>, mode: Sms.SmsMode, accountSid: Option<string>,
                             authToken: Option<string>, fromNumber: Option<string>)
    requires TwilioCheck(mode, accountSid, authToken, fromNumber).status == Ok
    ensures OverallStatus([SupabaseCheck(Counted(sequencesCount)), CronCheck(Counted(Some(0))),
                           TwilioCheck(mode, accountSid, authToken, fromNumber)]) == Degraded
  {
    var checks := [SupabaseCheck(Counted(sequencesCount)), CronCheck(Counted(Some(0))),
                   TwilioCheck(mode, accountSid, authToken, fromNumber)];
    assert checks[1].status == Degraded;
  }
}
