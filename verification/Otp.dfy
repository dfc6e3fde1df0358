/** One-time codes: requesting, resending and verifying them.

    A request is one transaction over the challenge table and the throttle table. Code hashing is
    injective, so a challenge holds the code itself; random codes and ids, the account decision and
    whether the SMS was delivered are inputs. */
module Otp {
  import opened Clock
  import opened Wrappers
  import opened SlidingWindow
  import T = Throttle

  const REGISTRATION_PURPOSE := "CUSTOMER_REGISTRATION"

  /** What codes are counted by. */
  datatype Line = Line(mobile: string, purpose: string, channel: string)

  datatype Delivery = PENDING | SENT | TEST_BYPASS

  datatype Challenge = Challenge(
    id: string, line: Line, code: string, attempts: nat, maxAttempts: nat,
    createdAt: Micros, expiresAt: Micros, resendAvailableAt: Micros, consumedAt: Option<Micros>,
    dispatchSuppressed: bool, delivery: Delivery)
  {
    predicate Open() {
      consumedAt.None?
    }
  }

  datatype Settings = Settings(
    otpLength: nat, expirySeconds: nat, maxAttempts: nat, resendCooldownSeconds: nat,
    maxRequestsPerHour: nat, maxFailedPerHour: nat,
    requestLimitPerIp: nat, requestLimitPerDevice: nat, verifyLimitPerIp: nat,
    testNumbers: set<string>, testCode: string)

  datatype State = State(challenges: seq<Challenge>, events: seq<T.Event>)

  datatype ErrorCode =
    | OTP_RATE_LIMITED | RATE_LIMITED | OTP_LOCKED | OTP_DELIVERY_FAILED | OTP_RESEND_TOO_SOON
    | OTP_PURPOSE_MISMATCH | CHANNEL_NOT_ALLOWED | OTP_ALREADY_USED | OTP_EXPIRED | OTP_ATTEMPTS_EXCEEDED
    | OTP_INVALID | VALIDATION_ERROR | NUMBER_NOT_REGISTERED | DENIED(code: string)

  datatype Reply =
    | CodeSent(id: string)
    | SignedIn(onboarding: bool)
    | Error(code: ErrorCode, retryAfter: Option<int>)

  datatype Account = Missing | Denied(code: string) | Permitted

  /** The parts of a code request that come from outside. */
  datatype Dispatch = Dispatch(ip: Option<string>, deviceId: Option<string>, denial: Option<string>,
                               delivered: bool, code: string, newId: string, now: Micros)

  datatype Command =
    | RequestCode(line: Line, how: Dispatch)
    | ResendCode(requestId: string, purpose: string, channel: string, how: Dispatch)
    | VerifyCode(requestId: string, code: string, purpose: string, channel: string, ip: Option<string>,
                 account: Account, at: Micros)
  {
    function Now(): Micros {
      match this
      case RequestCode(_, how) => how.now
      case ResendCode(_, _, _, how) => how.now
      case VerifyCode(_, _, _, _, _, _, at) => at
    }
  }

  // --- the queries ----------------------------------------------------------------------

  /** Each challenge of the line weighs one request. */
  function RequestStamps(challenges: seq<Challenge>, line: Line): (stamps: seq<Stamp>)
    ensures |stamps| == |challenges|
  {
    seq(|challenges|, i requires 0 <= i < |challenges| =>
        Stamp(challenges[i].createdAt, if challenges[i].line == line then 1 else 0))
  }

  /** Each challenge of the line weighs its wrong attempts. */
  function FailedStamps(challenges: seq<Challenge>, line: Line): (stamps: seq<Stamp>)
    ensures |stamps| == |challenges|
  {
    seq(|challenges|, i requires 0 <= i < |challenges| =>
        Stamp(challenges[i].createdAt, if challenges[i].line == line then challenges[i].attempts else 0))
  }

  function Locked(st: State, s: Settings, line: Line, now: Micros): Option<Reply> {
    var stamps := FailedStamps(st.challenges, line);
    if Refused(stamps, s.maxFailedPerHour, now) then Some(Error(OTP_LOCKED, Some(RetryAfter(stamps, now)))) else None
  }

  function RequestLimited(st: State, s: Settings, line: Line, now: Micros): Option<Reply> {
    var stamps := RequestStamps(st.challenges, line);
    if Refused(stamps, s.maxRequestsPerHour, now) then Some(Error(OTP_RATE_LIMITED, Some(RetryAfter(stamps, now))))
    else None
  }

  function Ids(challenges: seq<Challenge>): (ids: seq<string>)
    ensures |ids| == |challenges|
  {
    seq(|challenges|, i requires 0 <= i < |challenges| => challenges[i].id)
  }

  /** The row with this primary key. */
  function Find(challenges: seq<Challenge>, id: string): (index: Option<nat>)
    ensures index.Some? ==> index.value < |challenges| && challenges[index.value].id == id
    ensures index.None? ==> forall i :: 0 <= i < |challenges| ==> challenges[i].id != id
  {
    var ids := Ids(challenges);
    assert forall i :: 0 <= i < |challenges| ==> ids[i] == challenges[i].id;
    IndexOf(ids, id)
  }

  function Invalidated(challenges: seq<Challenge>, line: Line, now: Micros): (after: seq<Challenge>)
    ensures |after| == |challenges|
  {
    seq(|challenges|, i requires 0 <= i < |challenges| =>
      if challenges[i].line == line && challenges[i].Open() then challenges[i].(consumedAt := Some(now))
      else challenges[i])
  }

  function NewChallenge(s: Settings, line: Line, how: Dispatch): Challenge {
    var test := line.mobile in s.testNumbers;
    Challenge(how.newId, line, if test then s.testCode else how.code, 0, s.maxAttempts,
              how.now, how.now + s.expirySeconds * SECOND, how.now + s.resendCooldownSeconds * SECOND, None,
              false, if test then TEST_BYPASS else SENT)
  }

  predicate Dispatches(s: Settings, line: Line, how: Dispatch) {
    line.mobile in s.testNumbers || how.delivered
  }

  const DELIVERY_FAILED := Error(OTP_DELIVERY_FAILED, Some(30))

  // --- one request ----------------------------------------------------------------------

  function Hit(st: State, bucket: string, value: Option<string>, limit: nat, now: Micros): (State, T.Decision) {
    (st.(events := T.AfterHit(st.events, bucket, value, limit, now)), T.Decide(st.events, bucket, value, limit, now))
  }

  function Request(st: State, s: Settings, line: Line, how: Dispatch): (State, Reply) {
    var (st1, ip) := Hit(st, "otp_request:ip", how.ip, s.requestLimitPerIp, how.now);
    if ip.Refusal? then (st1, Error(OTP_RATE_LIMITED, Some(ip.retryAfter))) else
    var (st2, device) := Hit(st1, "otp_request:device", how.deviceId, s.requestLimitPerDevice, how.now);
    if device.Refusal? then (st2, Error(OTP_RATE_LIMITED, Some(device.retryAfter))) else
    if Locked(st2, s, line, how.now).Some? then (st2, Locked(st2, s, line, how.now).value) else
    if RequestLimited(st2, s, line, how.now).Some? then (st2, RequestLimited(st2, s, line, how.now).value) else
    if how.denial.Some? then (st2, Error(DENIED(how.denial.value), None)) else
    if !Dispatches(s, line, how) then (st, DELIVERY_FAILED) else
    (st2.(challenges := Invalidated(st2.challenges, line, how.now) + [NewChallenge(s, line, how)]), CodeSent(how.newId))
  }

  /** Why a challenge cannot be used with this request at all. */
  function Unusable(st: State, id: string, purpose: string, channel: string): Option<ErrorCode> {
    match Find(st.challenges, id)
    case None => Some(OTP_PURPOSE_MISMATCH)
    case Some(i) =>
      var c := st.challenges[i];
      if c.line.purpose != purpose then Some(OTP_PURPOSE_MISMATCH)
      else if c.line.channel != channel then Some(CHANNEL_NOT_ALLOWED)
      else if !c.Open() then Some(OTP_ALREADY_USED)
      else None
  }

  function Resend(st: State, s: Settings, id: string, purpose: string, channel: string, how: Dispatch): (State, Reply) {
    var (st1, ip) := Hit(st, "otp_request:ip", how.ip, s.requestLimitPerIp, how.now);
    if ip.Refusal? then (st1, Error(OTP_RATE_LIMITED, Some(ip.retryAfter))) else
    if Unusable(st1, id, purpose, channel).Some? then (st1, Error(Unusable(st1, id, purpose, channel).value, None)) else
    var i := Find(st1.challenges, id).value;
    var previous := st1.challenges[i];
    if previous.resendAvailableAt > how.now
    then (st1, Error(OTP_RESEND_TOO_SOON, Some(Max(1, CeilSeconds(previous.resendAvailableAt - how.now))))) else
    var (st2, device) := Hit(st1, "otp_request:device", how.deviceId, s.requestLimitPerDevice, how.now);
    if device.Refusal? then (st2, Error(OTP_RATE_LIMITED, Some(device.retryAfter))) else
    if Locked(st2, s, previous.line, how.now).Some? then (st2, Locked(st2, s, previous.line, how.now).value) else
    if RequestLimited(st2, s, previous.line, how.now).Some?
    then (st2, RequestLimited(st2, s, previous.line, how.now).value) else
    var st3 := st2.(challenges := st2.challenges[i := previous.(consumedAt := Some(how.now))]);
    if how.denial.Some? then (st3, Error(DENIED(how.denial.value), None)) else
    if !Dispatches(s, previous.line, how) then (st, DELIVERY_FAILED) else
    (st3.(challenges := st3.challenges + [NewChallenge(s, previous.line, how)]), CodeSent(how.newId))
  }

  function Verify(st: State, s: Settings, id: string, code: string, purpose: string, channel: string,
                  ip: Option<string>, account: Account, now: Micros): (State, Reply)
  {
    if |code| != s.otpLength then (st, Error(VALIDATION_ERROR, None)) else
    var (st1, hit) := Hit(st, "otp_verify:ip", ip, s.verifyLimitPerIp, now);
    if hit.Refusal? then (st1, Error(RATE_LIMITED, Some(hit.retryAfter))) else
    if Unusable(st1, id, purpose, channel).Some? then (st1, Error(Unusable(st1, id, purpose, channel).value, None)) else
    var i := Find(st1.challenges, id).value;
    var c := st1.challenges[i];
    if c.expiresAt <= now then (st1, Error(OTP_EXPIRED, None)) else
    if c.attempts >= c.maxAttempts then (st1, Error(OTP_ATTEMPTS_EXCEEDED, None)) else
    if Locked(st1, s, c.line, now).Some? then (st1, Locked(st1, s, c.line, now).value) else
    if c.dispatchSuppressed || code != c.code
    then (st1.(challenges := st1.challenges[i := c.(attempts := c.attempts + 1)]), Error(OTP_INVALID, None)) else
    var st2 := st1.(challenges := st1.challenges[i := c.(consumedAt := Some(now))]);
    if purpose != REGISTRATION_PURPOSE && account.Missing? then (st2, Error(NUMBER_NOT_REGISTERED, None)) else
    if account.Denied? then (st2, Error(DENIED(account.code), None)) else
    (st2, SignedIn(purpose == REGISTRATION_PURPOSE))
  }

  function Step(st: State, s: Settings, cmd: Command): (State, Reply) {
    match cmd
    case RequestCode(line, how) => Request(st, s, line, how)
    case ResendCode(id, purpose, channel, how) => Resend(st, s, id, purpose, channel, how)
    case VerifyCode(id, code, purpose, channel, ip, account, at) =>
        Verify(st, s, id, code, purpose, channel, ip, account, at)
  }

  // --- the service ----------------------------------------------------------------------

  /** The service over its tables: every statement changes them, a rollback puts them back. */
  class CodeService {
    const settings: Settings
    const throttle: T.RequestThrottle
    var challenges: seq<Challenge>

    constructor (settings: Settings, throttle: T.RequestThrottle)
      ensures this.settings == settings && this.throttle == throttle && challenges == []
    {
      this.settings := settings;
      this.throttle := throttle;
      challenges := [];
    }

    function Contents(): State
      reads this, throttle
    {
      State(challenges, throttle.events)
    }

    /** Store and dispatch a challenge; `sent` is false when delivery failed and everything the request
        did since `saved` was rolled back. */
    method CreateChallenge(line: Line, how: Dispatch, saved: State) returns (sent: bool)
      modifies this`challenges, throttle
      ensures sent == Dispatches(settings, line, how)
      ensures sent ==>
        Contents() == old(Contents()).(challenges := old(challenges) + [NewChallenge(settings, line, how)])
      ensures !sent ==> Contents() == saved
    {
      var test := line.mobile in settings.testNumbers;
      var row := Challenge(how.newId, line, if test then settings.testCode else how.code, 0, settings.maxAttempts,
                           how.now, how.now + settings.expirySeconds * SECOND, how.now
                               + settings.resendCooldownSeconds * SECOND, None, false, PENDING);
      var index := |challenges|;
      challenges := challenges + [row];
      if test {
        challenges := challenges[index := row.(delivery := TEST_BYPASS)];
        return true;
      }
      if !how.delivered {
        challenges := saved.challenges;
        throttle.events := saved.events;
        return false;
      }
      challenges := challenges[index := row.(delivery := SENT)];
      return true;
    }

    method RequestOtp(line: Line, how: Dispatch) returns (reply: Reply)
      modifies this`challenges, throttle
      ensures (Contents(), reply) == Request(old(Contents()), settings, line, how)
    {
      var saved := Contents();
      var ip := throttle.Hit("otp_request:ip", how.ip, settings.requestLimitPerIp, how.now);
      if ip.Refusal? {
        return Error(OTP_RATE_LIMITED, Some(ip.retryAfter));
      }
      var device := throttle.Hit("otp_request:device", how.deviceId, settings.requestLimitPerDevice, how.now);
      if device.Refusal? {
        return Error(OTP_RATE_LIMITED, Some(device.retryAfter));
      }
      var locked := Locked(Contents(), settings, line, how.now);
      if locked.Some? {
        return locked.value;
      }
      var limited := RequestLimited(Contents(), settings, line, how.now);
      if limited.Some? {
        return limited.value;
      }
      if how.denial.Some? {
        return Error(DENIED(how.denial.value), None);
      }
      challenges := Invalidated(challenges, line, how.now);
      var sent := CreateChallenge(line, how, saved);
      return if sent then CodeSent(how.newId) else DELIVERY_FAILED;
    }

    method ResendOtp(id: string, purpose: string, channel: string, how: Dispatch) returns (reply: Reply)
      modifies this`challenges, throttle
      ensures (Contents(), reply) == Resend(old(Contents()), settings, id, purpose, channel, how)
    {
      var saved := Contents();
      var ip := throttle.Hit("otp_request:ip", how.ip, settings.requestLimitPerIp, how.now);
      if ip.Refusal? {
        return Error(OTP_RATE_LIMITED, Some(ip.retryAfter));
      }
      var unusable := Unusable(Contents(), id, purpose, channel);
      if unusable.Some? {
        return Error(unusable.value, None);
      }
      var i := Find(challenges, id).value;
      var previous := challenges[i];
      if previous.resendAvailableAt > how.now {
        return Error(OTP_RESEND_TOO_SOON, Some(Max(1, CeilSeconds(previous.resendAvailableAt - how.now))));
      }
      var device := throttle.Hit("otp_request:device", how.deviceId, settings.requestLimitPerDevice, how.now);
      if device.Refusal? {
        return Error(OTP_RATE_LIMITED, Some(device.retryAfter));
      }
      var locked := Locked(Contents(), settings, previous.line, how.now);
      if locked.Some? {
        return locked.value;
      }
      var limited := RequestLimited(Contents(), settings, previous.line, how.now);
      if limited.Some? {
        return limited.value;
      }
      challenges := challenges[i := previous.(consumedAt := Some(how.now))];
      if how.denial.Some? {
        return Error(DENIED(how.denial.value), None);
      }
      var sent := CreateChallenge(previous.line, how, saved);
      return if sent then CodeSent(how.newId) else DELIVERY_FAILED;
    }

    method VerifyOtp(id: string, code: string, purpose: string, channel: string, ip: Option<string>, account: Account,
                     now: Micros)
      returns (reply: Reply)
      modifies this`challenges, throttle
      ensures (Contents(), reply) == Verify(old(Contents()), settings, id, code, purpose, channel, ip, account, now)
    {
      if |code| != settings.otpLength {
        return Error(VALIDATION_ERROR, None);
      }
      var hit := throttle.Hit("otp_verify:ip", ip, settings.verifyLimitPerIp, now);
      if hit.Refusal? {
        return Error(RATE_LIMITED, Some(hit.retryAfter));
      }
      var unusable := Unusable(Contents(), id, purpose, channel);
      if unusable.Some? {
        return Error(unusable.value, None);
      }
      var i := Find(challenges, id).value;
      var c := challenges[i];
      if c.expiresAt <= now {
        return Error(OTP_EXPIRED, None);
      }
      if c.attempts >= c.maxAttempts {
        return Error(OTP_ATTEMPTS_EXCEEDED, None);
      }
      var locked := Locked(Contents(), settings, c.line, now);
      if locked.Some? {
        return locked.value;
      }
      if c.dispatchSuppressed || code != c.code {
        challenges := challenges[i := c.(attempts := c.attempts + 1)];
        return Error(OTP_INVALID, None);
      }
      challenges := challenges[i := c.(consumedAt := Some(now))];
      if purpose != REGISTRATION_PURPOSE && account.Missing? {
        return Error(NUMBER_NOT_REGISTERED, None);
      }
      if account.Denied? {
        return Error(DENIED(account.code), None);
      }
      return SignedIn(purpose == REGISTRATION_PURPOSE);
    }
  }
}
