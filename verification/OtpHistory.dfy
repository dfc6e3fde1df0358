/** What every run of the code service keeps. */
module OtpHistory {
  import opened Clock
  import opened Wrappers
  import opened SlidingWindow
  import opened Otp

  // --- the invariant --------------------------------------------------------------------

  ghost predicate RowsAreSound(challenges: seq<Challenge>, s: Settings, now: Micros) {
    && (forall i :: 0 <= i < |challenges| ==>
          && challenges[i].attempts <= challenges[i].maxAttempts
          && challenges[i].createdAt <= now
          && challenges[i].expiresAt == challenges[i].createdAt + s.expirySeconds * SECOND)
    && (forall i, j :: 0 <= i < j < |challenges| ==> challenges[i].id != challenges[j].id)
    && (forall i, j :: 0 <= i < j < |challenges| && challenges[i].line == challenges[j].line ==>
        !challenges[i].Open() || !challenges[j].Open())
  }

  /** How long an interval of creation times may be for its wrong codes to stay under one limit. */
  function Span(s: Settings): int {
    WINDOW - s.expirySeconds * SECOND
  }

  /** All the wrong codes ever collected by the challenges created in the interval of that length. */
  function WrongCodes(challenges: seq<Challenge>, s: Settings, line: Line, from: Micros): nat {
    Between(FailedStamps(challenges, line), from, from + Span(s))
  }

  ghost predicate LineIsLimited(challenges: seq<Challenge>, s: Settings, now: Micros, line: Line) {
    && WeightSince(RequestStamps(challenges, line), now - WINDOW) <= s.maxRequestsPerHour
    && WeightSince(FailedStamps(challenges, line), now - WINDOW) <= s.maxFailedPerHour
    && forall from: Micros ::
         WrongCodes(challenges, s, line, from) <= s.maxFailedPerHour
  }

  ghost predicate Inv(st: State, s: Settings, now: Micros) {
    RowsAreSound(st.challenges, s, now) && forall line :: LineIsLimited(st.challenges, s, now, line)
  }

  lemma TimePasses(st: State, s: Settings, now: Micros, later: Micros)
    requires Inv(st, s, now) && now <= later
    ensures Inv(st, s, later)
  {
    forall line: Line
      ensures LineIsLimited(st.challenges, s, later, line)
    {
      assert LineIsLimited(st.challenges, s, now, line);
      WeightSinceAntitone(RequestStamps(st.challenges, line), now - WINDOW, later - WINDOW);
      WeightSinceAntitone(FailedStamps(st.challenges, line), now - WINDOW, later - WINDOW);
    }
  }

  // --- what a request can do to the challenges ------------------------------------------

  /** Some open challenges are consumed; nothing else changes. */
  ghost predicate Consumes(a: seq<Challenge>, b: seq<Challenge>) {
    |a| == |b| && forall i :: 0 <= i < |a| ==>
        b[i] == a[i] || (a[i].Open() && exists at :: b[i] == a[i].(consumedAt := Some(at)))
  }

  /** One usable challenge collects a wrong code. */
  ghost predicate CountsWrongCode(a: seq<Challenge>, b: seq<Challenge>, s: Settings, now: Micros, i: nat) {
    && i < |a| && b == a[i := a[i].(attempts := a[i].attempts + 1)]
    && now < a[i].expiresAt && a[i].attempts < a[i].maxAttempts
    && !Refused(FailedStamps(a, a[i].line), s.maxFailedPerHour, now)
  }

  /** A new challenge is added when no other of its line is open. */
  ghost predicate Adds(a: seq<Challenge>, b: seq<Challenge>, s: Settings, now: Micros) {
    && |b| == |a| + 1 && b[..|a|] == a
    && var c := b[|a|];
    && c.attempts == 0 && c.createdAt == now && c.expiresAt == now + s.expirySeconds * SECOND
    && (forall i :: 0 <= i < |a| ==> a[i].id != c.id && (a[i].line == c.line ==> !a[i].Open()))
    && !Refused(RequestStamps(a, c.line), s.maxRequestsPerHour, now)
  }

  lemma SameStamps(a: seq<Challenge>, b: seq<Challenge>, line: Line)
    requires Consumes(a, b)
    ensures RequestStamps(b, line) == RequestStamps(a, line) && FailedStamps(b, line) == FailedStamps(a, line)
  {
  }

  lemma ConsumingKeepsInv(a: State, b: State, s: Settings, now: Micros)
    requires Inv(a, s, now) && Consumes(a.challenges, b.challenges)
    ensures Inv(b, s, now)
  {
    forall line: Line
      ensures LineIsLimited(b.challenges, s, now, line)
    {
      SameStamps(a.challenges, b.challenges, line);
      assert LineIsLimited(a.challenges, s, now, line);
      forall from: Micros
        ensures WrongCodes(b.challenges, s, line, from) <= s.maxFailedPerHour
      {
        assert WrongCodes(a.challenges, s, line, from) <= s.maxFailedPerHour;
      }
    }
  }

  /** A wrong code is only counted while the window is below its limit, and every challenge created in
      an interval of length `Span` around a live one is still in that window. */
  lemma WrongCodeKeepsLine(a: State, b: State, s: Settings, now: Micros, i: nat, line: Line)
    requires Inv(a, s, now) && CountsWrongCode(a.challenges, b.challenges, s, now, i)
    ensures LineIsLimited(b.challenges, s, now, line)
  {
    var c := a.challenges[i];
    var before := FailedStamps(a.challenges, line);
    assert LineIsLimited(a.challenges, s, now, line);
    assert RequestStamps(b.challenges, line) == RequestStamps(a.challenges, line);
    var weight := if c.line == line then c.attempts + 1 else 0;
    assert FailedStamps(b.challenges, line) == before[i := Stamp(before[i].at, weight)];
    WeightAfterUpdate(before, i, weight, now - WINDOW, 0, 0);
    forall from: Micros
      ensures WrongCodes(b.challenges, s, line, from) <= s.maxFailedPerHour
    {
      assert WrongCodes(a.challenges, s, line, from) <= s.maxFailedPerHour;
      WeightAfterUpdate(before, i, weight, now - WINDOW, from, from + Span(s));
      if c.line == line && from <= c.createdAt <= from + Span(s) {
        IntervalIsInsideWindow(before, from, from + Span(s), now - WINDOW);
      }
    }
  }

  lemma WrongCodeKeepsInv(a: State, b: State, s: Settings, now: Micros, i: nat)
    requires Inv(a, s, now) && CountsWrongCode(a.challenges, b.challenges, s, now, i)
    ensures Inv(b, s, now)
  {
    forall line: Line
      ensures LineIsLimited(b.challenges, s, now, line)
    {
      WrongCodeKeepsLine(a, b, s, now, i, line);
    }
  }

  /** A new challenge adds one stamp of each kind. */
  lemma AddingAddsStamps(a: State, b: State, s: Settings, now: Micros, line: Line)
    requires Adds(a.challenges, b.challenges, s, now)
    ensures var weight := if b.challenges[|a.challenges|].line == line then 1 else 0;
            && RequestStamps(b.challenges, line) == RequestStamps(a.challenges, line) + [Stamp(now, weight)]
            && FailedStamps(b.challenges, line) == FailedStamps(a.challenges, line) + [Stamp(now, 0)]
  {
    assert forall i :: 0 <= i < |a.challenges| ==> b.challenges[i] == b.challenges[..|a.challenges|][i];
  }

  lemma AddingKeepsLine(a: State, b: State, s: Settings, now: Micros, line: Line)
    requires Inv(a, s, now) && Adds(a.challenges, b.challenges, s, now)
    ensures LineIsLimited(b.challenges, s, now, line)
  {
    var c := b.challenges[|a.challenges|];
    assert LineIsLimited(a.challenges, s, now, line);
    var request, failed := [Stamp(now, if c.line == line then 1 else 0)], [Stamp(now, 0)];
    AddingAddsStamps(a, b, s, now, line);
    WeightSinceAppend(RequestStamps(a.challenges, line), request, now - WINDOW);
    WeightSinceAppend(FailedStamps(a.challenges, line), failed, now - WINDOW);
    assert WeightSince(request[1..], now - WINDOW) == 0 && WeightSince(failed[1..], now - WINDOW) == 0;
    forall from: Micros
      ensures WrongCodes(b.challenges, s, line, from) <= s.maxFailedPerHour
    {
      assert WrongCodes(a.challenges, s, line, from) <= s.maxFailedPerHour;
      BetweenAppend(FailedStamps(a.challenges, line), failed, from, from + Span(s));
      assert Between(failed[1..], from, from + Span(s)) == 0;
    }
  }

  lemma AddingKeepsInv(a: State, b: State, s: Settings, now: Micros)
    requires Inv(a, s, now) && Adds(a.challenges, b.challenges, s, now)
    ensures Inv(b, s, now)
  {
    assert forall i :: 0 <= i < |a.challenges| ==> b.challenges[i] == b.challenges[..|a.challenges|][i];
    forall line: Line
      ensures LineIsLimited(b.challenges, s, now, line)
    {
      AddingKeepsLine(a, b, s, now, line);
    }
  }

  // --- one request ----------------------------------------------------------------------

  /** Ids drawn by `uuid4` are new. */
  predicate Fresh(st: State, cmd: Command) {
    cmd.VerifyCode? || Find(st.challenges, cmd.how.newId).None?
  }

  lemma RequestKeepsInv(st: State, s: Settings, line: Line, how: Dispatch)
    requires Inv(st, s, how.now) && Find(st.challenges, how.newId).None?
    ensures Inv(Request(st, s, line, how).0, s, how.now)
  {
    var (after, reply) := Request(st, s, line, how);
    if reply.CodeSent? {
      var mid := State(Invalidated(st.challenges, line, how.now), after.events);
      ConsumingKeepsInv(st, mid, s, how.now);
      SameStamps(st.challenges, mid.challenges, line);
      AddingKeepsInv(mid, after, s, how.now);
    } else {
      ConsumingKeepsInv(st, after, s, how.now);
    }
  }

  lemma SendingAgainAdds(st: State, mid: State, s: Settings, id: string, purpose: string, channel: string,
                         how: Dispatch)
    requires Inv(st, s, how.now) && Find(st.challenges, how.newId).None?
    requires Resend(st, s, id, purpose, channel, how).1.CodeSent? && Find(st.challenges, id).Some?
    requires var i := Find(st.challenges, id).value;
             mid.challenges == st.challenges[i := st.challenges[i].(consumedAt := Some(how.now))]
    ensures Consumes(st.challenges, mid.challenges)
    ensures Adds(mid.challenges, Resend(st, s, id, purpose, channel, how).0.challenges, s, how.now)
  {
    SameStamps(st.challenges, mid.challenges, st.challenges[Find(st.challenges, id).value].line);
  }

  lemma SentAgainKeepsInv(st: State, s: Settings, id: string, purpose: string, channel: string, how: Dispatch)
    requires Inv(st, s, how.now) && Find(st.challenges, how.newId).None?
    requires Resend(st, s, id, purpose, channel, how).1.CodeSent?
    ensures Inv(Resend(st, s, id, purpose, channel, how).0, s, how.now)
  {
    var after := Resend(st, s, id, purpose, channel, how).0;
    var i := Find(st.challenges, id).value;
    var mid := State(st.challenges[i := st.challenges[i].(consumedAt := Some(how.now))], after.events);
    SendingAgainAdds(st, mid, s, id, purpose, channel, how);
    ConsumingKeepsInv(st, mid, s, how.now);
    AddingKeepsInv(mid, after, s, how.now);
  }

  lemma ResendKeepsInv(st: State, s: Settings, id: string, purpose: string, channel: string, how: Dispatch)
    requires Inv(st, s, how.now) && Find(st.challenges, how.newId).None?
    ensures Inv(Resend(st, s, id, purpose, channel, how).0, s, how.now)
  {
    var (after, reply) := Resend(st, s, id, purpose, channel, how);
    if reply.CodeSent? {
      SentAgainKeepsInv(st, s, id, purpose, channel, how);
    } else {
      assert Consumes(st.challenges, after.challenges);
      ConsumingKeepsInv(st, after, s, how.now);
    }
  }

  lemma VerifyCountsOrConsumes(st: State, s: Settings, id: string, code: string, purpose: string, channel: string,
                               ip: Option<string>, account: Account, now: Micros)
    ensures var (after, reply) := Verify(st, s, id, code, purpose, channel, ip, account, now);
            if reply.Error? && reply.code.OTP_INVALID?
            then Find(st.challenges, id).Some?
                 && CountsWrongCode(st.challenges, after.challenges, s, now, Find(st.challenges, id).value)
            else Consumes(st.challenges, after.challenges)
  {
  }

  lemma VerifyKeepsInv(st: State, s: Settings, id: string, code: string, purpose: string, channel: string,
                       ip: Option<string>, account: Account, now: Micros)
    requires Inv(st, s, now)
    ensures Inv(Verify(st, s, id, code, purpose, channel, ip, account, now).0, s, now)
  {
    var (after, reply) := Verify(st, s, id, code, purpose, channel, ip, account, now);
    VerifyCountsOrConsumes(st, s, id, code, purpose, channel, ip, account, now);
    if reply.Error? && reply.code.OTP_INVALID? {
      WrongCodeKeepsInv(st, after, s, now, Find(st.challenges, id).value);
    } else {
      ConsumingKeepsInv(st, after, s, now);
    }
  }

  lemma StepKeepsInv(st: State, s: Settings, cmd: Command, before: Micros)
    requires Inv(st, s, before) && before <= cmd.Now() && Fresh(st, cmd)
    ensures Inv(Step(st, s, cmd).0, s, cmd.Now())
  {
    TimePasses(st, s, before, cmd.Now());
    match cmd
    case RequestCode(line, how) => RequestKeepsInv(st, s, line, how);
    case ResendCode(id, purpose, channel, how) => ResendKeepsInv(st, s, id, purpose, channel, how);
    case VerifyCode(id, code, purpose, channel, ip, account, at) =>
        VerifyKeepsInv(st, s, id, code, purpose, channel, ip, account, at);
  }

  // --- runs -----------------------------------------------------------------------------

  /** The clock never goes back and every new challenge has a new id. */
  ghost predicate LegalRun(st: State, s: Settings, commands: seq<Command>, from: Micros)
    decreases |commands|
  {
    commands != [] ==>
      && from <= commands[0].Now() && Fresh(st, commands[0])
      && LegalRun(Step(st, s, commands[0]).0, s, commands[1..], commands[0].Now())
  }

  function Run(st: State, s: Settings, commands: seq<Command>): State
    decreases |commands|
  {
    if commands == [] then st else Run(Step(st, s, commands[0]).0, s, commands[1..])
  }

  function LastMoment(commands: seq<Command>, from: Micros): Micros {
    if commands == [] then from else commands[|commands| - 1].Now()
  }

  lemma {:induction false} RunKeepsInv(st: State, s: Settings, commands: seq<Command>, from: Micros)
    requires Inv(st, s, from) && LegalRun(st, s, commands, from)
    ensures Inv(Run(st, s, commands), s, LastMoment(commands, from))
    decreases |commands|
  {
    if commands != [] {
      StepKeepsInv(st, s, commands[0], from);
      RunKeepsInv(Step(st, s, commands[0]).0, s, commands[1..], commands[0].Now());
      assert LastMoment(commands[1..], commands[0].Now()) == LastMoment(commands, from);
    }
  }

  const EMPTY := State([], [])

  lemma EmptyIsSound(s: Settings, from: Micros)
    ensures Inv(EMPTY, s, from)
  {
    forall line: Line
      ensures LineIsLimited([], s, from, line)
    {
      assert RequestStamps([], line) == [] && FailedStamps([], line) == [];
    }
  }

  // --- what a run promises --------------------------------------------------------------

  /** In every reachable state no challenge, open or consumed, has collected more wrong codes than it
      allows. */
  lemma AttemptsStayWithinMaximum(s: Settings, commands: seq<Command>, from: Micros, i: nat)
    requires LegalRun(EMPTY, s, commands, from) && i < |Run(EMPTY, s, commands).challenges|
    ensures var c := Run(EMPTY, s, commands).challenges[i]; c.attempts <= c.maxAttempts
  {
    EmptyIsSound(s, from);
    RunKeepsInv(EMPTY, s, commands, from);
  }

  /** In every reachable state a number has at most one open code per purpose and channel. */
  lemma AtMostOneOpenCode(s: Settings, commands: seq<Command>, from: Micros, i: nat, j: nat)
    requires LegalRun(EMPTY, s, commands, from)
    requires var cs := Run(EMPTY, s, commands).challenges;
             i < |cs| && j < |cs| && cs[i].line == cs[j].line && cs[i].Open() && cs[j].Open()
    ensures i == j
  {
    EmptyIsSound(s, from);
    RunKeepsInv(EMPTY, s, commands, from);
  }

  /** In every reachable state the wrong codes of the current window stay within the hourly limit, and
      so do all the wrong codes ever collected by the challenges created in any interval that is one
      code lifetime shorter than the window. */
  lemma WrongCodesAreLimited(s: Settings, commands: seq<Command>, from: Micros, line: Line, start: Micros)
    requires LegalRun(EMPTY, s, commands, from)
    ensures var st := Run(EMPTY, s, commands);
            && WeightSince(FailedStamps(st.challenges, line), LastMoment(commands, from) - WINDOW) <= s.maxFailedPerHour
            && WrongCodes(st.challenges, s, line, start) <= s.maxFailedPerHour
  {
    EmptyIsSound(s, from);
    RunKeepsInv(EMPTY, s, commands, from);
    assert LineIsLimited(Run(EMPTY, s, commands).challenges, s, LastMoment(commands, from), line);
  }

  lemma {:induction false} StampsAreNotAfter(challenges: seq<Challenge>, line: Line, now: Micros)
    requires forall i :: 0 <= i < |challenges| ==> challenges[i].createdAt <= now
    ensures NotAfter(RequestStamps(challenges, line), now) && NotAfter(FailedStamps(challenges, line), now)
  {
  }

  /** The Retry-After of the lockout and of the request limit: between 1 and 3600 seconds, and a retry
      made strictly later, with nothing in between, is not refused by the same check. */
  lemma RetryAfterIsHonoured(s: Settings, commands: seq<Command>, from: Micros, line: Line, now: Micros, retry: Micros)
    requires LegalRun(EMPTY, s, commands, from) && LastMoment(commands, from) <= now
    requires s.maxRequestsPerHour >= 1 && s.maxFailedPerHour >= 1
    ensures var st := Run(EMPTY, s, commands);
            && (Locked(st, s, line, now).Some? ==>
                  var wait := Locked(st, s, line, now).value.retryAfter.value;
                  1 <= wait <= 3600 && (retry > now + wait * SECOND ==> Locked(st, s, line, retry).None?))
            && (RequestLimited(st, s, line, now).Some? ==>
                  var wait := RequestLimited(st, s, line, now).value.retryAfter.value;
                  1 <= wait <= 3600 && (retry > now + wait * SECOND ==> RequestLimited(st, s, line, retry).None?))
  {
    var st := Run(EMPTY, s, commands);
    EmptyIsSound(s, from);
    RunKeepsInv(EMPTY, s, commands, from);
    TimePasses(st, s, LastMoment(commands, from), now);
    assert LineIsLimited(st.challenges, s, now, line);
    var requests, failed := RequestStamps(st.challenges, line), FailedStamps(st.challenges, line);
    StampsAreNotAfter(st.challenges, line, now);
    RetryAfterIsBounded(requests, now);
    RetryAfterIsBounded(failed, now);
    if Locked(st, s, line, now).Some? && retry > now + RetryAfter(failed, now) * SECOND {
      RetryAfterIsSufficient(failed, s.maxFailedPerHour, now, retry);
    }
    if RequestLimited(st, s, line, now).Some? && retry > now + RetryAfter(requests, now) * SECOND {
      RetryAfterIsSufficient(requests, s.maxRequestsPerHour, now, retry);
    }
  }

  /** A failed SMS delivery leaves the challenges and the throttle counts exactly as before the request;
      a code that was open stays open. */
  lemma FailedDeliveryLeavesNoTrace(st: State, s: Settings, cmd: Command)
    requires Step(st, s, cmd).1 == DELIVERY_FAILED
    ensures Step(st, s, cmd).0 == st
  {
  }

  /** A refused code request consumes no code, with one exception: a resend that gets as far as finding the
      account no longer eligible. */
  lemma RefusedRequestKeepsCodes(st: State, s: Settings, cmd: Command)
    requires !cmd.VerifyCode? && Step(st, s, cmd).1.Error?
    ensures Step(st, s, cmd).0.challenges == st.challenges <==> !(cmd.ResendCode? && Step(st, s, cmd).1.code.DENIED?)
  {
    if cmd.ResendCode? && Step(st, s, cmd).1.code.DENIED? {
      var i := Find(st.challenges, cmd.requestId).value;
      assert st.challenges[i].Open() && !Step(st, s, cmd).0.challenges[i].Open();
    }
  }

  predicate Undelivered(st: State, s: Settings, cmd: Command) {
    Step(st, s, cmd).1 == DELIVERY_FAILED
  }

  /** The commands of a run whose SMS went out, or that needed none. */
  function WithoutUndelivered(st: State, s: Settings, commands: seq<Command>): seq<Command>
    decreases |commands|
  {
    if commands == [] then []
    else
      var rest := WithoutUndelivered(Step(st, s, commands[0]).0, s, commands[1..]);
      if Undelivered(st, s, commands[0]) then rest else [commands[0]] + rest
  }

  /** The replies to the commands of a run that did not fail on delivery. */
  function DeliveredReplies(st: State, s: Settings, commands: seq<Command>): seq<Reply>
    decreases |commands|
  {
    if commands == [] then []
    else
      var (after, reply) := Step(st, s, commands[0]);
      var rest := DeliveredReplies(after, s, commands[1..]);
      if reply == DELIVERY_FAILED then rest else [reply] + rest
  }

  /** Requests whose SMS could not be sent are as if never made: without them the run ends in the same tables
      and everybody else gets the same replies. */
  lemma {:induction false} UndeliveredRequestsAreUnobservable(st: State, s: Settings, commands: seq<Command>)
    ensures var others := WithoutUndelivered(st, s, commands);
            && Run(st, s, others) == Run(st, s, commands)
            && DeliveredReplies(st, s, others) == DeliveredReplies(st, s, commands)
    decreases |commands|
  {
    if commands != [] {
      var after := Step(st, s, commands[0]).0;
      UndeliveredRequestsAreUnobservable(after, s, commands[1..]);
      if Undelivered(st, s, commands[0]) {
        FailedDeliveryLeavesNoTrace(st, s, commands[0]);
      } else {
        var rest := WithoutUndelivered(after, s, commands[1..]);
        assert ([commands[0]] + rest)[1..] == rest;
      }
    }
  }

  /** A resend refused as too soon is possible again as soon as its Retry-After has run out. */
  lemma ResendWaitIsSufficient(st: State, s: Settings, id: string, purpose: string, channel: string, how: Dispatch)
    requires var reply := Resend(st, s, id, purpose, channel, how).1; reply.Error? && reply.code == OTP_RESEND_TOO_SOON
    ensures var wait := Resend(st, s, id, purpose, channel, how).1.retryAfter.value;
            && 1 <= wait
            && forall again: Dispatch :: again.now >= how.now + wait * SECOND ==>
                 var reply := Resend(st, s, id, purpose, channel, again).1;
                 !(reply.Error? && reply.code == OTP_RESEND_TOO_SOON)
  {
  }

  // --- one use per code -----------------------------------------------------------------

  /** The code of challenge `id` is accepted: it is consumed by a verification. */
  predicate Accepts(st: State, s: Settings, cmd: Command, id: string) {
    && cmd.VerifyCode? && cmd.requestId == id
    && var (after, _) := Step(st, s, cmd);
    var i := Find(st.challenges, id);
    i.Some? && i.value < |after.challenges| && st.challenges[i.value].Open() && !after.challenges[i.value].Open()
  }

  function Acceptances(st: State, s: Settings, commands: seq<Command>, id: string): nat
    decreases |commands|
  {
    if commands == [] then 0
    else
      (if Accepts(st, s, commands[0], id) then 1 else 0)
      + Acceptances(Step(st, s, commands[0]).0, s, commands[1..], id)
  }

  /** A sign-in only ever follows the acceptance of the code that was sent. */
  lemma SigningInTakesTheCode(st: State, s: Settings, cmd: Command)
    requires Step(st, s, cmd).1.SignedIn?
    ensures cmd.VerifyCode? && Accepts(st, s, cmd, cmd.requestId)
    ensures var c := st.challenges[Find(st.challenges, cmd.requestId).value];
            && cmd.code == c.code && c.Open() && cmd.at < c.expiresAt && c.line.purpose == cmd.purpose
            && c.line.channel == cmd.channel
            && Step(st, s, cmd).1.onboarding == (c.line.purpose == REGISTRATION_PURPOSE)
  {
  }

  predicate SpentAt(challenges: seq<Challenge>, id: string, i: nat) {
    i < |challenges| && Find(challenges, id) == Some(i) && !challenges[i].Open()
  }

  lemma FindSurvives(a: seq<Challenge>, b: seq<Challenge>, id: string)
    requires |a| <= |b| && forall j :: 0 <= j < |a| ==> b[j].id == a[j].id
    requires Find(a, id).Some?
    ensures Find(b, id) == Find(a, id)
  {
    var i, k := Find(a, id).value, Find(b, id);
    assert b[i].id == id;
    assert Ids(b)[i] == id;
    assert k.Some? && k.value <= i;
    assert a[k.value].id == id && Ids(a)[k.value] == id;
  }

  /** Rows stay where they are, and a consumed one stays consumed. */
  ghost predicate Grows(a: seq<Challenge>, b: seq<Challenge>) {
    |a| <= |b| && forall j :: 0 <= j < |a| ==> b[j].id == a[j].id && (!a[j].Open() ==> !b[j].Open())
  }

  lemma AddingGrows(a: seq<Challenge>, b: seq<Challenge>, c: Challenge)
    requires Grows(a, b)
    ensures Grows(a, b + [c])
  {
    assert forall j :: 0 <= j < |b| ==> (b + [c])[j] == b[j];
  }

  lemma RequestGrows(st: State, s: Settings, line: Line, how: Dispatch)
    ensures Grows(st.challenges, Request(st, s, line, how).0.challenges)
  {
    var emptied := Invalidated(st.challenges, line, how.now);
    AddingGrows(st.challenges, emptied, NewChallenge(s, line, how));
  }

  lemma ResendGrows(st: State, s: Settings, id: string, purpose: string, channel: string, how: Dispatch)
    ensures Grows(st.challenges, Resend(st, s, id, purpose, channel, how).0.challenges)
  {
    var found := Find(st.challenges, id);
    if found.Some? {
      var previous := st.challenges[found.value];
      var emptied := st.challenges[found.value := previous.(consumedAt := Some(how.now))];
      AddingGrows(st.challenges, emptied, NewChallenge(s, previous.line, how));
    }
  }

  lemma StepGrows(st: State, s: Settings, cmd: Command)
    ensures Grows(st.challenges, Step(st, s, cmd).0.challenges)
  {
    match cmd
    case RequestCode(line, how) => RequestGrows(st, s, line, how);
    case ResendCode(id, purpose, channel, how) => ResendGrows(st, s, id, purpose, channel, how);
    case VerifyCode(_, _, _, _, _, _, _) =>
  }

  lemma StepKeepsSpent(st: State, s: Settings, cmd: Command, id: string, i: nat)
    requires SpentAt(st.challenges, id, i)
    ensures SpentAt(Step(st, s, cmd).0.challenges, id, i)
  {
    StepGrows(st, s, cmd);
    FindSurvives(st.challenges, Step(st, s, cmd).0.challenges, id);
  }

  lemma {:induction false} SpentCodeIsNeverAccepted(st: State, s: Settings, commands: seq<Command>, id: string, i: nat)
    requires SpentAt(st.challenges, id, i)
    ensures Acceptances(st, s, commands, id) == 0
    decreases |commands|
  {
    if commands != [] {
      StepKeepsSpent(st, s, commands[0], id, i);
      SpentCodeIsNeverAccepted(Step(st, s, commands[0]).0, s, commands[1..], id, i);
    }
  }

  lemma AcceptanceSpends(st: State, s: Settings, cmd: Command, id: string)
    requires Accepts(st, s, cmd, id)
    ensures SpentAt(Step(st, s, cmd).0.challenges, id, Find(st.challenges, id).value)
  {
    var b := Step(st, s, cmd).0.challenges;
    assert |st.challenges| == |b| && forall j :: 0 <= j < |b| ==> b[j].id == st.challenges[j].id;
    FindSurvives(st.challenges, b, id);
  }

  /** Over any run each code is accepted at most once. */
  lemma {:induction false} CodeIsAcceptedAtMostOnce(st: State, s: Settings, commands: seq<Command>, id: string)
    ensures Acceptances(st, s, commands, id) <= 1
    decreases |commands|
  {
    if commands != [] {
      if Accepts(st, s, commands[0], id) {
        AcceptanceSpends(st, s, commands[0], id);
        SpentCodeIsNeverAccepted(Step(st, s, commands[0]).0, s, commands[1..], id, Find(st.challenges, id).value);
      } else {
        CodeIsAcceptedAtMostOnce(Step(st, s, commands[0]).0, s, commands[1..], id);
      }
    }
  }
}
