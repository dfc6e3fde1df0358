/** What the code service does for the person with the phone: the code that was sent is the code that signs in,
    a wrong one is counted, and which requests are turned away. */
module OtpEffects {
  import opened Clock
  import opened Counting
  import opened Wrappers
  import opened SlidingWindow
  import opened Otp
  import opened OtpHistory
  import T = Throttle

  // --- the limits, counted --------------------------------------------------------------

  /** The codes requested for a line since a moment. */
  function RequestsSince(challenges: seq<Challenge>, line: Line, since: Micros): set<nat> {
    set i: nat | i < |challenges| && challenges[i].line == line && challenges[i].createdAt >= since
  }

  /** The wrong codes collected by the challenges created for a line since a moment: the k-th of the i-th. */
  function WrongCodesSince(challenges: seq<Challenge>, line: Line, since: Micros): set<(nat, nat)> {
    set i: nat, k: nat | i < |challenges| && challenges[i].line == line && challenges[i].createdAt >= since
                         && k < challenges[i].attempts :: (i, k)
  }

  lemma LastRequest(challenges: seq<Challenge>, line: Line, since: Micros)
    requires challenges != []
    ensures var n := |challenges| - 1;
            RequestsSince(challenges, line, since) == RequestsSince(challenges[..n], line, since)
                + if challenges[n].line == line && challenges[n].createdAt >= since then {n} else {}
  {
  }

  lemma LastRequestCounts(challenges: seq<Challenge>, line: Line, since: Micros)
    requires challenges != []
    ensures var n := |challenges| - 1;
            |RequestsSince(challenges, line, since)| == |RequestsSince(challenges[..n], line, since)|
                + if challenges[n].line == line && challenges[n].createdAt >= since then 1 else 0
  {
    LastRequest(challenges, line, since);
    assert |challenges| - 1 !in RequestsSince(challenges[..|challenges| - 1], line, since);
  }

  lemma LastWrongCodes(challenges: seq<Challenge>, line: Line, since: Micros)
    requires challenges != []
    ensures var n := |challenges| - 1;
            WrongCodesSince(challenges, line, since) == WrongCodesSince(challenges[..n], line, since)
                + Units(n, if challenges[n].line == line && challenges[n].createdAt >= since
                           then challenges[n].attempts else 0)
  {
  }

  lemma LastWrongCodesCount(challenges: seq<Challenge>, line: Line, since: Micros)
    requires challenges != []
    ensures var n := |challenges| - 1;
            |WrongCodesSince(challenges, line, since)| == |WrongCodesSince(challenges[..n], line, since)|
                + if challenges[n].line == line && challenges[n].createdAt >= since then challenges[n].attempts else 0
  {
    var n := |challenges| - 1;
    var attempts := if challenges[n].line == line && challenges[n].createdAt >= since
                    then challenges[n].attempts else 0;
    LastWrongCodes(challenges, line, since);
    OneMoreRow(WrongCodesSince(challenges[..n], line, since), WrongCodesSince(challenges, line, since), n, attempts);
  }

  lemma {:induction false} WeightsAreCounts(challenges: seq<Challenge>, line: Line, since: Micros)
    ensures WeightSince(RequestStamps(challenges, line), since) == |RequestsSince(challenges, line, since)|
    ensures WeightSince(FailedStamps(challenges, line), since) == |WrongCodesSince(challenges, line, since)|
  {
    if challenges == [] {
      assert RequestsSince(challenges, line, since) == {} && WrongCodesSince(challenges, line, since) == {};
    } else {
      var n := |challenges| - 1;
      WeightsAreCounts(challenges[..n], line, since);
      LastStamps(challenges, line, since);
      LastRequestCounts(challenges, line, since);
      LastWrongCodesCount(challenges, line, since);
    }
  }

  lemma LastStamps(challenges: seq<Challenge>, line: Line, since: Micros)
    requires challenges != []
    ensures var n := |challenges| - 1;
            var counts := challenges[n].line == line && challenges[n].createdAt >= since;
            && WeightSince(RequestStamps(challenges, line), since) ==
                 WeightSince(RequestStamps(challenges[..n], line), since) + (if counts then 1 else 0)
            && WeightSince(FailedStamps(challenges, line), since) ==
                 WeightSince(FailedStamps(challenges[..n], line), since)
                     + (if counts then challenges[n].attempts else 0)
  {
    var n := |challenges| - 1;
    var c := challenges[n];
    var request, failed := [Stamp(c.createdAt, if c.line == line then 1 else 0)],
                           [Stamp(c.createdAt, if c.line == line then c.attempts else 0)];
    assert RequestStamps(challenges, line) == RequestStamps(challenges[..n], line) + request;
    assert FailedStamps(challenges, line) == FailedStamps(challenges[..n], line) + failed;
    WeightSinceAppend(RequestStamps(challenges[..n], line), request, since);
    WeightSinceAppend(FailedStamps(challenges[..n], line), failed, since);
    assert WeightSince(request[1..], since) == 0 && WeightSince(failed[1..], since) == 0;
  }

  /** A line is locked exactly when the challenges created for it in the last hour have collected as many wrong
      codes as are allowed, and may request no more codes exactly when as many were created as are allowed. */
  lemma LineIsLockedIff(st: State, s: Settings, line: Line, now: Micros)
    ensures Locked(st, s, line, now).Some? <==>
        |WrongCodesSince(st.challenges, line, now - 3600 * SECOND)| >= s.maxFailedPerHour
    ensures RequestLimited(st, s, line, now).Some? <==>
        |RequestsSince(st.challenges, line, now - 3600 * SECOND)| >= s.maxRequestsPerHour
  {
    WeightsAreCounts(st.challenges, line, now - WINDOW);
  }

  /** This caller is not over the limit of a bucket; callers without a value are not counted. */
  predicate LetThrough(events: seq<T.Event>, bucket: string, value: Option<string>, limit: nat, now: Micros) {
    value.None? || value.value == "" || |T.Counted(events, bucket, value.value, now - 3600 * SECOND)| < limit
  }

  /** Hits of one bucket do not count in another. */
  lemma BucketsAreSeparate(events: seq<T.Event>, first: string, value: Option<string>, limit: nat, now: Micros,
                           second: string, key: string, since: Micros)
    requires first != second
    ensures T.Counted(T.AfterHit(events, first, value, limit, now), second, key, since) ==
        T.Counted(events, second, key, since)
  {
  }

  lemma HitIsLetThroughIff(events: seq<T.Event>, bucket: string, value: Option<string>, limit: nat, now: Micros)
    ensures T.Decide(events, bucket, value, limit, now).Refusal? <==> !LetThrough(events, bucket, value, limit, now)
  {
    T.HitIsAcceptedIff(events, bucket, value, limit, now);
  }

  lemma SecondHitIsLetThroughIff(st: State, s: Settings, how: Dispatch)
    ensures var st1 := Hit(st, "otp_request:ip", how.ip, s.requestLimitPerIp, how.now).0;
            Hit(st1, "otp_request:device", how.deviceId, s.requestLimitPerDevice, how.now).1.Refusal? <==>
              !LetThrough(st.events, "otp_request:device", how.deviceId, s.requestLimitPerDevice, how.now)
  {
    var st1 := Hit(st, "otp_request:ip", how.ip, s.requestLimitPerIp, how.now).0;
    assert "otp_request:ip"[12] != "otp_request:device"[12];
    HitIsLetThroughIff(st1.events, "otp_request:device", how.deviceId, s.requestLimitPerDevice, how.now);
    if how.deviceId.Some? {
      BucketsAreSeparate(st.events, "otp_request:ip", how.ip, s.requestLimitPerIp, how.now, "otp_request:device",
                         how.deviceId.value, how.now - 3600 * SECOND);
    }
  }

  // --- sending a code -------------------------------------------------------------------

  /** What every code request has to pass, whoever asks. */
  predicate MaySend(st: State, s: Settings, line: Line, how: Dispatch) {
    && LetThrough(st.events, "otp_request:ip", how.ip, s.requestLimitPerIp, how.now)
    && LetThrough(st.events, "otp_request:device", how.deviceId, s.requestLimitPerDevice, how.now)
    && |WrongCodesSince(st.challenges, line, how.now - 3600 * SECOND)| < s.maxFailedPerHour
    && |RequestsSince(st.challenges, line, how.now - 3600 * SECOND)| < s.maxRequestsPerHour
    && how.denial.None?
    && (line.mobile in s.testNumbers || how.delivered)
  }

  /** A code is sent exactly when the address and the phone are within their limits, the line is neither locked
      nor over its own, the account may have one, and the message goes out or the number is a test number. */
  lemma CodeIsSentIff(st: State, s: Settings, line: Line, how: Dispatch)
    ensures Request(st, s, line, how).1.CodeSent? <==> MaySend(st, s, line, how)
    ensures Request(st, s, line, how).1.CodeSent? ==> Request(st, s, line, how).1.id == how.newId
  {
    HitIsLetThroughIff(st.events, "otp_request:ip", how.ip, s.requestLimitPerIp, how.now);
    SecondHitIsLetThroughIff(st, s, how);
    LineIsLockedIff(st, s, line, how.now);
  }

  /** A row that can be resent or verified under this purpose and channel. */
  predicate IsUsable(challenges: seq<Challenge>, i: nat, id: string, purpose: string, channel: string) {
    && i < |challenges| && challenges[i].id == id && challenges[i].consumedAt.None?
    && challenges[i].line.purpose == purpose && challenges[i].line.channel == channel
  }

  ghost predicate DistinctIds(challenges: seq<Challenge>) {
    forall i, j :: 0 <= i < j < |challenges| ==> challenges[i].id != challenges[j].id
  }

  lemma FoundIsTheRow(challenges: seq<Challenge>, i: nat)
    requires i < |challenges| && DistinctIds(challenges)
    ensures Find(challenges, challenges[i].id) == Some(i)
  {
    var found := Find(challenges, challenges[i].id);
    assert found.Some?;
  }

  lemma UsableIff(st: State, id: string, purpose: string, channel: string)
    requires DistinctIds(st.challenges)
    ensures Unusable(st, id, purpose, channel).None? <==>
        exists i: nat :: IsUsable(st.challenges, i, id, purpose, channel)
    ensures forall i: nat :: IsUsable(st.challenges, i, id, purpose, channel) ==> Find(st.challenges, id) == Some(i)
  {
    forall i: nat | IsUsable(st.challenges, i, id, purpose, channel)
      ensures Find(st.challenges, id) == Some(i)
    {
      FoundIsTheRow(st.challenges, i);
    }
    if Unusable(st, id, purpose, channel).None? {
      assert IsUsable(st.challenges, Find(st.challenges, id).value, id, purpose, channel);
    }
  }

  /** A code is sent again exactly when there is such an open challenge, its cooldown is over, and a new one could
      be sent to its line. */
  lemma CodeIsSentAgainIff(st: State, s: Settings, id: string, purpose: string, channel: string, how: Dispatch)
    requires DistinctIds(st.challenges)
    ensures Resend(st, s, id, purpose, channel, how).1.CodeSent? <==>
              exists i: nat :: IsUsable(st.challenges, i, id, purpose, channel)
                               && st.challenges[i].resendAvailableAt <= how.now
                               && MaySend(st, s, st.challenges[i].line, how)
    ensures Resend(st, s, id, purpose, channel, how).1.CodeSent? ==>
              Resend(st, s, id, purpose, channel, how).1.id == how.newId
  {
    UsableIff(st, id, purpose, channel);
    HitIsLetThroughIff(st.events, "otp_request:ip", how.ip, s.requestLimitPerIp, how.now);
    SecondHitIsLetThroughIff(st, s, how);
    if Unusable(st, id, purpose, channel).None? {
      var i := Find(st.challenges, id).value;
      assert IsUsable(st.challenges, i, id, purpose, channel);
      LineIsLockedIff(st, s, st.challenges[i].line, how.now);
    }
  }

  /** A resend that comes too soon is told how long the cooldown lasts, to the next full second. */
  lemma ResendWaitIsExact(st: State, s: Settings, id: string, purpose: string, channel: string, how: Dispatch, i: nat)
    requires DistinctIds(st.challenges) && i < |st.challenges| && st.challenges[i].id == id
    requires var reply := Resend(st, s, id, purpose, channel, how).1; reply.Error? && reply.code == OTP_RESEND_TOO_SOON
    ensures Resend(st, s, id, purpose, channel, how).1.retryAfter.Some?
    ensures var wait := Resend(st, s, id, purpose, channel, how).1.retryAfter.value;
            how.now + (wait - 1) * SECOND < st.challenges[i].resendAvailableAt <= how.now + wait * SECOND
  {
    FoundIsTheRow(st.challenges, i);
  }

  /** The row a code that was sent leaves behind. */
  ghost predicate HoldsSentCode(c: Challenge, s: Settings, line: Line, how: Dispatch) {
    && c.id == how.newId && c.line == line
    && c.code == (if line.mobile in s.testNumbers then s.testCode else how.code)
    && c.delivery == (if line.mobile in s.testNumbers then TEST_BYPASS else SENT)
    && c.attempts == 0 && c.maxAttempts == s.maxAttempts
    && c.createdAt == how.now && c.expiresAt == how.now + s.expirySeconds * SECOND
    && c.resendAvailableAt == how.now + s.resendCooldownSeconds * SECOND
    && c.consumedAt.None? && !c.dispatchSuppressed
  }

  /** After "code sent" one row is added: it holds the very code that was sent, or the test code if the number is a
      test number. The open codes of its line are used up; every other row stays as it was. */
  lemma SentCodeIsStored(st: State, s: Settings, line: Line, how: Dispatch)
    requires Request(st, s, line, how).1.CodeSent?
    ensures var a, b := st.challenges, Request(st, s, line, how).0.challenges;
            && |b| == |a| + 1 && HoldsSentCode(b[|a|], s, line, how)
            && forall i :: 0 <= i < |a| ==>
                 b[i] == if a[i].line == line && a[i].consumedAt.None? then a[i].(consumedAt := Some(how.now)) else a[i]
  {
  }

  /** The same for a resend, which uses up the code it replaces and no other. */
  lemma SentAgainCodeIsStored(st: State, s: Settings, id: string, purpose: string, channel: string, how: Dispatch,
                              i: nat)
    requires Resend(st, s, id, purpose, channel, how).1.CodeSent?
    requires DistinctIds(st.challenges) && i < |st.challenges| && st.challenges[i].id == id
    ensures var a, b := st.challenges, Resend(st, s, id, purpose, channel, how).0.challenges;
            && |b| == |a| + 1 && HoldsSentCode(b[|a|], s, a[i].line, how)
            && b[i] == a[i].(consumedAt := Some(how.now))
            && forall j :: 0 <= j < |a| && j != i ==> b[j] == a[j]
  {
    FoundIsTheRow(st.challenges, i);
  }

  // --- verifying a code -----------------------------------------------------------------

  /** What a verification has to pass before the code itself is looked at. */
  predicate MayTry(st: State, s: Settings, i: nat, cmd: Command) {
    && cmd.VerifyCode? && |cmd.code| == s.otpLength
    && LetThrough(st.events, "otp_verify:ip", cmd.ip, s.verifyLimitPerIp, cmd.at)
    && IsUsable(st.challenges, i, cmd.requestId, cmd.purpose, cmd.channel)
    && cmd.at < st.challenges[i].expiresAt
    && st.challenges[i].attempts < st.challenges[i].maxAttempts
    && |WrongCodesSince(st.challenges, st.challenges[i].line, cmd.at - 3600 * SECOND)| < s.maxFailedPerHour
  }

  /** The account behind the number may sign in; registering makes one where there is none. */
  predicate MaySignIn(cmd: Command)
    requires cmd.VerifyCode?
  {
    cmd.account == Permitted || (cmd.account == Missing && cmd.purpose == REGISTRATION_PURPOSE)
  }

  lemma TriedIff(st: State, s: Settings, cmd: Command)
    requires cmd.VerifyCode? && DistinctIds(st.challenges)
    ensures var reply := Step(st, s, cmd).1;
            reply.SignedIn? || (reply.Error? && (reply.code.OTP_INVALID? || reply.code.NUMBER_NOT_REGISTERED?
                                                 || reply.code.DENIED?)) <==>
              exists i: nat :: MayTry(st, s, i, cmd)
    ensures forall i: nat :: MayTry(st, s, i, cmd) ==> Find(st.challenges, cmd.requestId) == Some(i)
  {
    UsableIff(st, cmd.requestId, cmd.purpose, cmd.channel);
    HitIsLetThroughIff(st.events, "otp_verify:ip", cmd.ip, s.verifyLimitPerIp, cmd.at);
    if Unusable(st, cmd.requestId, cmd.purpose, cmd.channel).None? {
      var i := Find(st.challenges, cmd.requestId).value;
      LineIsLockedIff(st, s, st.challenges[i].line, cmd.at);
      var tried := MayTry(st, s, i, cmd);
    }
  }

  /** A verification that gets as far as the code: the stored code signs in whoever may sign in and is used up even
      for who may not; any other code is invalid and counted. Only this row changes. */
  lemma StoredCodeDecides(st: State, s: Settings, cmd: Command, i: nat)
    requires DistinctIds(st.challenges) && MayTry(st, s, i, cmd) && !st.challenges[i].dispatchSuppressed
    ensures var (after, reply) := Step(st, s, cmd);
            var c := st.challenges[i];
            if cmd.code == c.code
            then
              && after.challenges == st.challenges[i := c.(consumedAt := Some(cmd.at))]
              && reply == if MaySignIn(cmd) then SignedIn(cmd.purpose == REGISTRATION_PURPOSE)
                          else if cmd.account.Denied? then Error(DENIED(cmd.account.code), None)
                          else Error(NUMBER_NOT_REGISTERED, None)
            else
              && after.challenges == st.challenges[i := c.(attempts := c.attempts + 1)]
              && reply == Error(OTP_INVALID, None)
  {
    TriedIff(st, s, cmd);
    LineIsLockedIff(st, s, st.challenges[i].line, cmd.at);
    HitIsLetThroughIff(st.events, "otp_verify:ip", cmd.ip, s.verifyLimitPerIp, cmd.at);
  }

  /** In full: a verification signs in exactly when it may be tried, shows the stored code of a challenge that was
      really sent, and the account may sign in; it leaves all the codes alone exactly when it may not be tried. */
  lemma SignsInIff(st: State, s: Settings, cmd: Command)
    requires cmd.VerifyCode? && DistinctIds(st.challenges)
    ensures Step(st, s, cmd).1.SignedIn? <==>
              && (exists i: nat :: MayTry(st, s, i, cmd) && !st.challenges[i].dispatchSuppressed
                                   && st.challenges[i].code == cmd.code)
              && MaySignIn(cmd)
    ensures (forall i: nat :: !MayTry(st, s, i, cmd)) <==> Step(st, s, cmd).0.challenges == st.challenges
  {
    TriedIff(st, s, cmd);
    if i: nat :| MayTry(st, s, i, cmd) {
      if st.challenges[i].dispatchSuppressed {
        SuppressedCodeIsInvalid(st, s, cmd, i);
      } else {
        StoredCodeDecides(st, s, cmd, i);
      }
      assert st.challenges[i].consumedAt.None?;
      assert Step(st, s, cmd).0.challenges[i] != st.challenges[i];
    } else {
      UntriedChangesNoCode(st, s, cmd);
    }
  }

  lemma SuppressedCodeIsInvalid(st: State, s: Settings, cmd: Command, i: nat)
    requires DistinctIds(st.challenges) && MayTry(st, s, i, cmd) && st.challenges[i].dispatchSuppressed
    ensures Step(st, s, cmd).1 == Error(OTP_INVALID, None)
    ensures Step(st, s, cmd).0.challenges ==
        st.challenges[i := st.challenges[i].(attempts := st.challenges[i].attempts + 1)]
  {
    TriedIff(st, s, cmd);
    LineIsLockedIff(st, s, st.challenges[i].line, cmd.at);
    HitIsLetThroughIff(st.events, "otp_verify:ip", cmd.ip, s.verifyLimitPerIp, cmd.at);
  }

  lemma UntriedChangesNoCode(st: State, s: Settings, cmd: Command)
    requires cmd.VerifyCode? && DistinctIds(st.challenges) && forall i: nat :: !MayTry(st, s, i, cmd)
    ensures Step(st, s, cmd).0.challenges == st.challenges
  {
    TriedIff(st, s, cmd);
  }

  /** What a refused verification tells the app is true of the row it names. */
  lemma RefusalsSayWhy(st: State, s: Settings, cmd: Command, i: nat)
    requires cmd.VerifyCode? && DistinctIds(st.challenges) && i < |st.challenges|
    requires st.challenges[i].id == cmd.requestId && Step(st, s, cmd).1.Error?
    ensures var c, code := st.challenges[i], Step(st, s, cmd).1.code;
            && (code == OTP_PURPOSE_MISMATCH ==> c.line.purpose != cmd.purpose)
            && (code == CHANNEL_NOT_ALLOWED ==> c.line.channel != cmd.channel)
            && (code == OTP_ALREADY_USED ==> c.consumedAt.Some?)
            && (code == OTP_EXPIRED ==> c.consumedAt.None? && c.expiresAt <= cmd.at)
            && (code == OTP_ATTEMPTS_EXCEEDED ==> c.consumedAt.None? && c.attempts >= c.maxAttempts)
            && (code == OTP_INVALID ==> c.dispatchSuppressed || c.code != cmd.code)
            && (code == VALIDATION_ERROR ==> |cmd.code| != s.otpLength)
            && (code == RATE_LIMITED ==> !LetThrough(st.events, "otp_verify:ip", cmd.ip, s.verifyLimitPerIp, cmd.at))
            && (code == OTP_LOCKED ==>
                  |WrongCodesSince(st.challenges, c.line, cmd.at - 3600 * SECOND)| >= s.maxFailedPerHour)
            && code !in {OTP_DELIVERY_FAILED, OTP_RESEND_TOO_SOON, OTP_RATE_LIMITED}
  {
    FoundIsTheRow(st.challenges, i);
    LineIsLockedIff(st, s, st.challenges[i].line, cmd.at);
    HitIsLetThroughIff(st.events, "otp_verify:ip", cmd.ip, s.verifyLimitPerIp, cmd.at);
  }

  /** So is what a refused request for a code tells. */
  lemma RequestRefusalsSayWhy(st: State, s: Settings, line: Line, how: Dispatch)
    requires Request(st, s, line, how).1.Error?
    ensures var code := Request(st, s, line, how).1.code;
            var wrong := WrongCodesSince(st.challenges, line, how.now - 3600 * SECOND);
            && code in {OTP_RATE_LIMITED, OTP_LOCKED, OTP_DELIVERY_FAILED, DENIED(how.denial.GetOr(""))}
            && (code == OTP_LOCKED ==> |wrong| >= s.maxFailedPerHour)
            && (code.DENIED? ==> how.denial == Some(code.code))
            && (code == OTP_DELIVERY_FAILED ==> !how.delivered && line.mobile !in s.testNumbers)
            && (code == OTP_RATE_LIMITED ==>
                  || !LetThrough(st.events, "otp_request:ip", how.ip, s.requestLimitPerIp, how.now)
                  || !LetThrough(st.events, "otp_request:device", how.deviceId, s.requestLimitPerDevice, how.now)
                  || |RequestsSince(st.challenges, line, how.now - 3600 * SECOND)| >= s.maxRequestsPerHour)
  {
    HitIsLetThroughIff(st.events, "otp_request:ip", how.ip, s.requestLimitPerIp, how.now);
    SecondHitIsLetThroughIff(st, s, how);
    LineIsLockedIff(st, s, line, how.now);
  }

  // --- what is counted against the caller -----------------------------------------------

  /** The event an accepted hit leaves behind. */
  function HitEvents(events: seq<T.Event>, bucket: string, value: Option<string>, limit: nat,
                     now: Micros): seq<T.Event> {
    if value.Some? && value.value != "" && LetThrough(events, bucket, value, limit, now)
    then [T.Event(bucket, value.value, now)] else []
  }

  lemma HitLeavesItsEvent(st: State, bucket: string, value: Option<string>, limit: nat, now: Micros)
    ensures Hit(st, bucket, value, limit, now).0 ==
        st.(events := st.events + HitEvents(st.events, bucket, value, limit, now))
  {
    T.HitIsAcceptedIff(st.events, bucket, value, limit, now);
  }

  lemma SecondHitLeavesItsEvent(st: State, s: Settings, how: Dispatch)
    ensures var st1 := Hit(st, "otp_request:ip", how.ip, s.requestLimitPerIp, how.now).0;
            Hit(st1, "otp_request:device", how.deviceId, s.requestLimitPerDevice, how.now).0.events ==
              st1.events + HitEvents(st.events, "otp_request:device", how.deviceId, s.requestLimitPerDevice, how.now)
  {
    var st1 := Hit(st, "otp_request:ip", how.ip, s.requestLimitPerIp, how.now).0;
    HitLeavesItsEvent(st1, "otp_request:device", how.deviceId, s.requestLimitPerDevice, how.now);
    HitIsLetThroughIff(st1.events, "otp_request:device", how.deviceId, s.requestLimitPerDevice, how.now);
    SecondHitIsLetThroughIff(st, s, how);
  }

  /** A request for a code counts against the address, and, if the address is let through, against the phone, whether
      or not a code is sent in the end; only a failed delivery takes both back. */
  lemma RefusedRequestsCount(st: State, s: Settings, line: Line, how: Dispatch)
    ensures var byIp := HitEvents(st.events, "otp_request:ip", how.ip, s.requestLimitPerIp, how.now);
            var byDevice := HitEvents(st.events, "otp_request:device", how.deviceId, s.requestLimitPerDevice, how.now);
            Request(st, s, line, how).0.events ==
              if Request(st, s, line, how).1 == DELIVERY_FAILED then st.events
              else if LetThrough(st.events, "otp_request:ip", how.ip, s.requestLimitPerIp, how.now)
              then st.events + byIp + byDevice
              else st.events
  {
    HitLeavesItsEvent(st, "otp_request:ip", how.ip, s.requestLimitPerIp, how.now);
    HitIsLetThroughIff(st.events, "otp_request:ip", how.ip, s.requestLimitPerIp, how.now);
    SecondHitLeavesItsEvent(st, s, how);
  }

  /** A verification counts against the address as soon as the code has the right length. */
  lemma VerificationsCount(st: State, s: Settings, cmd: Command)
    requires cmd.VerifyCode?
    ensures Step(st, s, cmd).0.events ==
              if |cmd.code| == s.otpLength
              then st.events + HitEvents(st.events, "otp_verify:ip", cmd.ip, s.verifyLimitPerIp, cmd.at)
              else st.events
  {
    HitLeavesItsEvent(st, "otp_verify:ip", cmd.ip, s.verifyLimitPerIp, cmd.at);
  }

  // --- from the message to the sign-in --------------------------------------------------

  /** The row stays where it is and what it is: it only collects wrong codes while it is open, and is used up
      once. */
  ghost predicate RowStays(a: Challenge, b: Challenge) {
    && b.(attempts := a.attempts, consumedAt := a.consumedAt) == a && a.attempts <= b.attempts
    && (a.consumedAt.Some? ==> b == a)
  }

  ghost predicate RowsStay(a: seq<Challenge>, b: seq<Challenge>) {
    |a| <= |b| && forall i :: 0 <= i < |a| ==> RowStays(a[i], b[i])
  }

  lemma StepKeepsRows(st: State, s: Settings, cmd: Command)
    ensures RowsStay(st.challenges, Step(st, s, cmd).0.challenges)
  {
    match cmd
    case RequestCode(line, how) => RequestKeepsRows(st, s, line, how);
    case ResendCode(id, purpose, channel, how) => ResendKeepsRows(st, s, id, purpose, channel, how);
    case VerifyCode(_, _, _, _, _, _, _) => VerifyKeepsRows(st, s, cmd);
  }

  lemma RequestKeepsRows(st: State, s: Settings, line: Line, how: Dispatch)
    ensures RowsStay(st.challenges, Request(st, s, line, how).0.challenges)
  {
  }

  lemma VerifyKeepsRows(st: State, s: Settings, cmd: Command)
    requires cmd.VerifyCode?
    ensures RowsStay(st.challenges, Step(st, s, cmd).0.challenges)
  {
    VerifyCountsOrConsumes(st, s, cmd.requestId, cmd.code, cmd.purpose, cmd.channel, cmd.ip, cmd.account, cmd.at);
    var a, b := st.challenges, Step(st, s, cmd).0.challenges;
    if Consumes(a, b) {
      ConsumedRowsStay(a, b);
    } else {
      CountedRowsStay(a, b, s, cmd.at, Find(a, cmd.requestId).value);
    }
  }

  lemma ConsumedRowsStay(a: seq<Challenge>, b: seq<Challenge>)
    requires Consumes(a, b)
    ensures RowsStay(a, b)
  {
  }

  lemma CountedRowsStay(a: seq<Challenge>, b: seq<Challenge>, s: Settings, now: Micros, i: nat)
    requires CountsWrongCode(a, b, s, now, i) && a[i].Open()
    ensures RowsStay(a, b)
  {
  }

  /** A resend changes no row, or uses up the open one it names, and may add another. */
  lemma ResendByRow(st: State, s: Settings, id: string, purpose: string, channel: string, how: Dispatch)
    ensures var a, b := st.challenges, Resend(st, s, id, purpose, channel, how).0.challenges;
            || b == a
            || exists i: nat ::
                 && i < |a| && a[i].Open() && |a| <= |b|
                 && b[..|a|] == a[i := a[i].(consumedAt := Some(how.now))]
  {
    var found := Find(st.challenges, id);
    var a, b := st.challenges, Resend(st, s, id, purpose, channel, how).0.challenges;
    if b != a {
      assert b[..|a|] == a[found.value := a[found.value].(consumedAt := Some(how.now))];
    }
  }

  lemma ResendKeepsRows(st: State, s: Settings, id: string, purpose: string, channel: string, how: Dispatch)
    ensures RowsStay(st.challenges, Resend(st, s, id, purpose, channel, how).0.challenges)
  {
    var a, b := st.challenges, Resend(st, s, id, purpose, channel, how).0.challenges;
    ResendByRow(st, s, id, purpose, channel, how);
    if b != a {
      assert forall j :: 0 <= j < |a| ==> b[j] == b[..|a|][j];
    }
  }

  lemma {:induction false} RunKeepsRows(st: State, s: Settings, commands: seq<Command>)
    ensures RowsStay(st.challenges, Run(st, s, commands).challenges)
    decreases |commands|
  {
    if commands != [] {
      var next := Step(st, s, commands[0]).0;
      StepKeepsRows(st, s, commands[0]);
      RunKeepsRows(next, s, commands[1..]);
      var last := Run(next, s, commands[1..]).challenges;
      forall i | 0 <= i < |st.challenges|
        ensures RowStays(st.challenges[i], last[i])
      {
        assert RowStays(st.challenges[i], next.challenges[i]) && RowStays(next.challenges[i], last[i]);
      }
    }
  }

  /** The line a command sends its code to. */
  function LineOf(st: State, cmd: Command): Option<Line> {
    match cmd
    case RequestCode(line, _) => Some(line)
    case ResendCode(id, _, _, _) =>
      var found := Find(st.challenges, id);
      if found.Some? then Some(st.challenges[found.value].line) else None
    case VerifyCode(_, _, _, _, _, _, _) => None
  }

  /** A code was sent: this is the row it leaves behind. */
  lemma SendingAddsItsRow(st: State, s: Settings, cmd: Command)
    requires Step(st, s, cmd).1.CodeSent?
    ensures !cmd.VerifyCode? && Step(st, s, cmd).1 == CodeSent(cmd.how.newId) && LineOf(st, cmd).Some?
    ensures var b := Step(st, s, cmd).0.challenges;
            && |b| == |st.challenges| + 1
            && HoldsSentCode(b[|st.challenges|], s, LineOf(st, cmd).value, cmd.how)
  {
    if cmd.RequestCode? {
      SentCodeIsStored(st, s, cmd.line, cmd.how);
    }
  }

  /** Whatever happens later, the row of a code that was sent is as it was when it was sent, but for the wrong codes
      it has collected and its being used up. */
  lemma SentRowStays(st: State, s: Settings, cmd: Command, later: seq<Command>)
    requires Step(st, s, cmd).1.CodeSent?
    ensures !cmd.VerifyCode? && LineOf(st, cmd).Some?
    ensures var u := Run(Step(st, s, cmd).0, s, later).challenges;
            && |st.challenges| < |u|
            && HoldsSentCode(u[|st.challenges|].(attempts := 0, consumedAt := None), s, LineOf(st, cmd).value, cmd.how)
  {
    var sent := Step(st, s, cmd).0;
    SendingAddsItsRow(st, s, cmd);
    RunKeepsRows(sent, s, later);
    assert RowStays(sent.challenges[|st.challenges|], Run(sent, s, later).challenges[|st.challenges|]);
  }

  /** The code in the message, or the test code for a test number. */
  function SentCode(s: Settings, line: Line, how: Dispatch): string {
    if line.mobile in s.testNumbers then s.testCode else how.code
  }

  /** The round trip. A code is sent, anything may happen, and then the request it was sent for is verified while it
      may still be tried: the code that was sent, and no other, signs in whoever may sign in. */
  lemma SentCodeSignsIn(st: State, s: Settings, from: Micros, cmd: Command, between: seq<Command>, verify: Command)
    requires Inv(st, s, from) && LegalRun(st, s, [cmd] + between, from)
    requires verify.VerifyCode? && Step(st, s, cmd).1 == CodeSent(verify.requestId)
    requires exists i: nat :: MayTry(Run(st, s, [cmd] + between), s, i, verify)
    ensures !cmd.VerifyCode? && LineOf(st, cmd).Some?
    ensures var line := LineOf(st, cmd).value;
            Step(Run(st, s, [cmd] + between), s, verify).1 ==
              if verify.code != SentCode(s, line, cmd.how) then Error(OTP_INVALID, None)
              else if MaySignIn(verify) then SignedIn(line.purpose == REGISTRATION_PURPOSE)
              else if verify.account.Denied? then Error(DENIED(verify.account.code), None)
              else Error(NUMBER_NOT_REGISTERED, None)
  {
    var n, u := |st.challenges|, Run(st, s, [cmd] + between);
    assert ([cmd] + between)[1..] == between;
    SendingAddsItsRow(st, s, cmd);
    SentRowStays(st, s, cmd, between);
    RunKeepsInv(st, s, [cmd] + between, from);
    FoundIsTheRow(u.challenges, n);
    TriedIff(u, s, verify);
    StoredCodeDecides(u, s, verify, n);
  }

  /** A wrong code presented for this request. */
  predicate IsWrongTry(st: State, s: Settings, cmd: Command, id: string) {
    cmd.VerifyCode? && cmd.requestId == id && Step(st, s, cmd).1 == Error(OTP_INVALID, None)
  }

  function WrongTries(st: State, s: Settings, commands: seq<Command>, id: string): nat
    decreases |commands|
  {
    if commands == [] then 0
    else (if IsWrongTry(st, s, commands[0], id) then 1 else 0)
         + WrongTries(Step(st, s, commands[0]).0, s, commands[1..], id)
  }

  lemma StepCountsWrongTries(st: State, s: Settings, cmd: Command, id: string, i: nat)
    requires Find(st.challenges, id) == Some(i)
    ensures var after := Step(st, s, cmd).0.challenges;
            && i < |after| && Find(after, id) == Some(i)
            && after[i].attempts == st.challenges[i].attempts + if IsWrongTry(st, s, cmd, id) then 1 else 0
  {
    StepGrows(st, s, cmd);
    FindSurvives(st.challenges, Step(st, s, cmd).0.challenges, id);
    if cmd.VerifyCode? {
      VerifyCountsTries(st, s, cmd, id, i);
    } else {
      SendingCountsNoTry(st, s, cmd, i);
    }
  }

  lemma SendingCountsNoTry(st: State, s: Settings, cmd: Command, i: nat)
    requires i < |st.challenges| && !cmd.VerifyCode?
    ensures var after := Step(st, s, cmd).0.challenges;
            i < |after| && after[i].attempts == st.challenges[i].attempts
  {
    if cmd.ResendCode? {
      ResendCountsNoTry(st, s, cmd.requestId, cmd.purpose, cmd.channel, cmd.how, i);
    }
  }

  lemma ResendCountsNoTry(st: State, s: Settings, id: string, purpose: string, channel: string, how: Dispatch, i: nat)
    requires i < |st.challenges|
    ensures var after := Resend(st, s, id, purpose, channel, how).0.challenges;
            i < |after| && after[i].attempts == st.challenges[i].attempts
  {
  }

  lemma VerifyCountsTries(st: State, s: Settings, cmd: Command, id: string, i: nat)
    requires Find(st.challenges, id) == Some(i) && cmd.VerifyCode?
    ensures var after := Step(st, s, cmd).0.challenges;
            && i < |after|
            && after[i].attempts == st.challenges[i].attempts + if IsWrongTry(st, s, cmd, id) then 1 else 0
  {
  }

  /** The wrong codes a challenge has collected are exactly the wrong codes presented for it. */
  lemma {:induction false} WrongTriesAreCounted(st: State, s: Settings, commands: seq<Command>, id: string, i: nat)
    requires Find(st.challenges, id) == Some(i)
    ensures var after := Run(st, s, commands).challenges;
            && i < |after|
            && after[i].attempts == st.challenges[i].attempts + WrongTries(st, s, commands, id)
    decreases |commands|
  {
    if commands != [] {
      StepCountsWrongTries(st, s, commands[0], id, i);
      WrongTriesAreCounted(Step(st, s, commands[0]).0, s, commands[1..], id, i);
    }
  }

  /** This code went out in the run, for this request. */
  ghost predicate WasSent(st: State, s: Settings, commands: seq<Command>, id: string, code: string, line: Line)
    decreases |commands|
  {
    commands != [] &&
    var cmd := commands[0];
    var (after, reply) := Step(st, s, cmd);
    || (reply == CodeSent(id) && !cmd.VerifyCode? && LineOf(st, cmd) == Some(line)
        && SentCode(s, line, cmd.how) == code)
    || WasSent(after, s, commands[1..], id, code, line)
  }

  lemma {:induction false} EveryRowWasSent(st: State, s: Settings, commands: seq<Command>, i: nat)
    requires |st.challenges| <= i < |Run(st, s, commands).challenges|
    ensures var c := Run(st, s, commands).challenges[i]; WasSent(st, s, commands, c.id, c.code, c.line)
    decreases |commands|
  {
    var next := Step(st, s, commands[0]).0;
    var c := Run(next, s, commands[1..]).challenges[i];
    if i < |next.challenges| {
      OnlySendingAddsRows(st, s, commands[0]);
      FirstSendingLeavesItsRow(st, s, commands);
      assert i == |st.challenges|;
    } else {
      EveryRowWasSent(next, s, commands[1..], i);
      SentLaterIsSent(st, s, commands, c.id, c.code, c.line);
    }
    assert Run(st, s, commands).challenges[i] == c;
  }

  lemma SentLaterIsSent(st: State, s: Settings, commands: seq<Command>, id: string, code: string, line: Line)
    requires commands != [] && WasSent(Step(st, s, commands[0]).0, s, commands[1..], id, code, line)
    ensures WasSent(st, s, commands, id, code, line)
  {
  }

  lemma FirstSendingLeavesItsRow(st: State, s: Settings, commands: seq<Command>)
    requires commands != [] && Step(st, s, commands[0]).1.CodeSent?
    ensures |st.challenges| < |Run(st, s, commands).challenges|
    ensures var c := Run(st, s, commands).challenges[|st.challenges|];
            WasSent(st, s, commands, c.id, c.code, c.line)
  {
    var cmd := commands[0];
    var last := Run(Step(st, s, cmd).0, s, commands[1..]).challenges;
    SentRowStays(st, s, cmd, commands[1..]);
    SendingAddsItsRow(st, s, cmd);
    assert Run(st, s, commands).challenges == last;
    var c := last[|st.challenges|];
    assert HoldsSentCode(c.(attempts := 0, consumedAt := None), s, LineOf(st, cmd).value, cmd.how);
  }

  lemma OnlySendingAddsRows(st: State, s: Settings, cmd: Command)
    requires |Step(st, s, cmd).0.challenges| > |st.challenges|
    ensures Step(st, s, cmd).1.CodeSent? && |Step(st, s, cmd).0.challenges| == |st.challenges| + 1
  {
  }

  /** Nobody signs in but with a code that was sent, earlier in the run, for the request it is presented for, to a
      line of the purpose and channel it is presented under. */
  lemma SigningInTakesASentCode(s: Settings, commands: seq<Command>, from: Micros, verify: Command)
    requires LegalRun(EMPTY, s, commands, from) && Step(Run(EMPTY, s, commands), s, verify).1.SignedIn?
    ensures verify.VerifyCode?
    ensures exists line: Line :: line.purpose == verify.purpose && line.channel == verify.channel
                           && WasSent(EMPTY, s, commands, verify.requestId, verify.code, line)
  {
    EmptyIsSound(s, from);
    RunKeepsInv(EMPTY, s, commands, from);
    var i := RowSignedInWith(Run(EMPTY, s, commands), s, verify);
    EveryRowWasSent(EMPTY, s, commands, i);
  }

  lemma RowSignedInWith(st: State, s: Settings, verify: Command) returns (i: nat)
    requires DistinctIds(st.challenges) && Step(st, s, verify).1.SignedIn?
    ensures verify.VerifyCode? && i < |st.challenges|
    ensures var c := st.challenges[i];
            && c.id == verify.requestId && c.code == verify.code
            && c.line.purpose == verify.purpose && c.line.channel == verify.channel
  {
    SignsInIff(st, s, verify);
    i :| MayTry(st, s, i, verify) && st.challenges[i].code == verify.code;
  }
}
