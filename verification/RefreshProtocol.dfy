/** Browser and server together: every interleaving of 401s, refreshes, sign-ins and sign-outs. */
module RefreshProtocol {
  import opened Clock
  import opened Wrappers
  import opened Sessions
  import SessionHistory
  import B = Browser

  /** The session table, the browser, the server's answer to the refresh under way if it has one, the
      sign-ins made but not stored yet, and every refresh token issued to this browser. */
  datatype World = World(table: Table, browser: B.State, answer: Option<Reply>, logins: set<B.Stored>, mine: set<Token>)

  datatype Step =
    | Send(id: nat)
    | Unauthorized(id: nat)
    | Finish(id: nat)                                   // any other response
    | ServeRefresh(request: RefreshRequest)             // the server handles the refresh under way
    | RefreshArrives(keep: bool)                        // its response reaches the browser
    | RefreshNeverReachedServer                         // a network failure before the server saw it
    | Resume(id: nat)
    | Clear                                             // sign-out, or the panel discarding the session
    | SignIn(event: Event)                              // this browser signs in
    | StoreLogin(session: B.Stored)
    | Elsewhere(event: Event)                           // anything else that happens to the sessions

  predicate PresentsMine(e: Event, mine: set<Token>) {
    e.RefreshToken? && e.request.presented.Signed? && e.request.presented.token in mine
  }

  predicate Enabled(w: World, step: Step) {
    match step
    case Send(id) => id !in w.browser.requests
    case Unauthorized(id) => id in w.browser.requests && w.browser.requests[id].stage.InFlight?
    case Finish(id) => id in w.browser.requests && w.browser.requests[id].stage.InFlight?
    case ServeRefresh(r) =>
      && w.browser.refreshing.Some? && w.answer.None? && r.newId !in w.table
      && r.presented == Signed(w.browser.refreshing.value.refresh)
    case RefreshArrives(_) => w.browser.refreshing.Some? && w.answer.Some?
    case RefreshNeverReachedServer => w.browser.refreshing.Some? && w.answer.None?
    case Resume(id) => id in w.browser.requests && w.browser.requests[id].stage.Settled?
    case Clear => true
    case SignIn(e) => e.SignIn? && e.newId !in w.table
    case StoreLogin(session) => session in w.logins
    // Other people never hold this browser's tokens.
    case Elsewhere(e) => SessionHistory.Fresh(w.table, e) && !PresentsMine(e, w.mine)
  }

  function Next(w: World, s: Settings, step: Step): World
    requires Enabled(w, step)
  {
    match step
    case Send(id) => w.(browser := B.Sent(w.browser, id))
    case Unauthorized(id) => w.(browser := B.Unauthorized(w.browser, id))
    case Finish(id) =>
      var done := w.browser.requests[id].(stage := B.Done);
      w.(browser := w.browser.(requests := w.browser.requests[id := done]))
    case ServeRefresh(r) =>
      var reply := ReplyTo(w.table, s, RefreshToken(r));
      w.(table := Sessions.Next(w.table, s, RefreshToken(r)), answer := Some(reply),
         mine := if reply.Issued? then w.mine + {reply.refresh} else w.mine)
    case RefreshArrives(keep) => w.(browser := B.Answered(w.browser, w.answer.value, keep), answer := None)
    case RefreshNeverReachedServer => w.(browser := B.Answered(w.browser, Error(SESSION_REVOKED), true))
    case Resume(id) => w.(browser := B.Resumed(w.browser, id))
    case Clear => w.(browser := w.browser.(cache := None))
    case SignIn(e) =>
      var reply := ReplyTo(w.table, s, e);
      var session := B.Stored(e.channel, reply.access, reply.refresh);
      w.(table := Sessions.Next(w.table, s, e), logins := w.logins + {session}, mine := w.mine + {session.refresh})
    case StoreLogin(session) => w.(browser := w.browser.(cache := Some(session)), logins := w.logins - {session})
    case Elsewhere(e) => w.(table := Sessions.Next(w.table, s, e))
  }

  // --- the invariant --------------------------------------------------------------------

  /** This token is the current one of its session: issued to us and not rotated away. */
  ghost predicate Unspent(w: World, token: Token) {
    Held(w, token) && w.table[token.sessionId].rotatedAt.None?
  }

  ghost predicate Held(w: World, token: Token) {
    token in w.mine && token.Refresh? && token.sessionId in w.table && w.table[token.sessionId].token == token
  }

  /** The stored token is unspent, unless the server has just rotated it for the refresh under way. */
  ghost predicate StoredIsFresh(w: World) {
    w.browser.cache.Some? ==>
      var token := w.browser.cache.value.refresh;
      && Held(w, token)
      && (w.table[token.sessionId].rotatedAt.Some? ==>
            && w.browser.refreshing.Some? && w.browser.refreshing.value.refresh == token
            && w.answer.Some? && w.answer.value.Issued?)
  }

  ghost predicate RefreshIsFresh(w: World) {
    && (w.answer.Some? ==> w.browser.refreshing.Some?)
    && (w.browser.refreshing.Some? ==>
          var current := w.browser.refreshing.value.refresh;
          && Held(w, current)
          && (w.answer.None? ==> Unspent(w, current))
          && (w.answer.Some? && w.answer.value.Issued? ==>
                var next := w.answer.value.refresh;
                && Unspent(w, next) && next != current
                && (w.browser.cache.Some? ==> w.browser.cache.value.refresh != next)
                && forall l :: l in w.logins ==> l.refresh != next)
          && forall l :: l in w.logins ==> l.refresh != current)
  }

  ghost predicate LoginsAreFresh(w: World) {
    && (forall l :: l in w.logins ==> Unspent(w, l.refresh))
    && (forall l :: l in w.logins && w.browser.cache.Some? ==> w.browser.cache.value.refresh != l.refresh)
    && (forall l, m :: l in w.logins && m in w.logins && l.refresh == m.refresh ==> l == m)
  }

  ghost predicate Inv(w: World) {
    StoredIsFresh(w) && RefreshIsFresh(w) && LoginsAreFresh(w)
  }

  /** Only a rotation sets `rotatedAt`, and only on the session whose token was presented. */
  lemma OnlyThePresentedTokenIsSpent(t: Table, s: Settings, e: Event, token: Token)
    requires SessionHistory.Fresh(t, e)
    requires token.Refresh? && token.sessionId in t && t[token.sessionId].token == token
    requires !(e.RefreshToken? && e.request.presented == Signed(token))
    ensures var u := Sessions.Next(t, s, e);
            token.sessionId in u && u[token.sessionId].token == token
                && u[token.sessionId].rotatedAt == t[token.sessionId].rotatedAt
  {
    if e.RefreshToken? {
      match RefreshOutcomeOf(t, s, e.request)
      case Refuse(_) =>
      case Mismatch(_) =>
      case Reuse(_) =>
      case Rotate(_) =>
    }
  }

  /** A server step in which none of our tokens but `except` is presented keeps them all as they were. */
  lemma TokensSurvive(w: World, s: Settings, e: Event, token: Token)
    requires SessionHistory.Fresh(w.table, e) && Held(w, token)
    requires !(e.RefreshToken? && e.request.presented == Signed(token))
    ensures var u := w.(table := Sessions.Next(w.table, s, e));
            Held(u, token) && u.table[token.sessionId].rotatedAt == w.table[token.sessionId].rotatedAt
  {
    OnlyThePresentedTokenIsSpent(w.table, s, e, token);
  }

  lemma ElsewhereKeepsInv(w: World, s: Settings, e: Event)
    requires Inv(w) && Enabled(w, Elsewhere(e))
    ensures Inv(Next(w, s, Elsewhere(e)))
  {
    var u := Next(w, s, Elsewhere(e));
    forall token | Held(w, token)
      ensures Held(u, token) && u.table[token.sessionId].rotatedAt == w.table[token.sessionId].rotatedAt
    {
      TokensSurvive(w, s, e, token);
    }
  }

  lemma SignInKeepsInv(w: World, s: Settings, e: Event)
    requires Inv(w) && Enabled(w, Step.SignIn(e))
    ensures Inv(Next(w, s, Step.SignIn(e)))
  {
    var u := Next(w, s, Step.SignIn(e));
    forall token | Held(w, token)
      ensures Held(u, token) && u.table[token.sessionId].rotatedAt == w.table[token.sessionId].rotatedAt
      ensures token.sessionId != e.newId
    {
      TokensSurvive(w, s, e, token);
    }
  }

  /** The refresh under way presents an unspent token, so the server never takes it for a replay. */
  lemma ServingKeepsInv(w: World, s: Settings, r: RefreshRequest)
    requires Inv(w) && Enabled(w, ServeRefresh(r))
    ensures Inv(Next(w, s, ServeRefresh(r)))
    ensures !RefreshOutcomeOf(w.table, s, r).Reuse?
  {
    var u := Next(w, s, ServeRefresh(r));
    var current := w.browser.refreshing.value.refresh;
    var e := RefreshToken(r);
    forall token | Held(w, token) && token != current
      ensures Held(u, token) && u.table[token.sessionId].rotatedAt == w.table[token.sessionId].rotatedAt
    {
      TokensSurvive(w, s, e, token);
    }
    match RefreshOutcomeOf(w.table, s, r)
    case Refuse(_) =>
    case Mismatch(_) =>
    case Reuse(_) =>
    case Rotate(id) =>
      assert id == current.sessionId;
      assert Held(u, current);
      assert Unspent(u, u.answer.value.refresh);
  }

  lemma ArrivalKeepsInv(w: World, s: Settings, keep: bool)
    requires Inv(w) && Enabled(w, RefreshArrives(keep))
    ensures Inv(Next(w, s, RefreshArrives(keep)))
  {
  }

  /** A session stored during a refresh is not overwritten by the pair that comes back. */
  lemma StoringKeepsInv(w: World, s: Settings, session: B.Stored, keep: bool)
    requires Inv(w) && Enabled(w, StoreLogin(session))
    ensures Inv(Next(w, s, StoreLogin(session)))
    ensures Enabled(w, RefreshArrives(keep)) ==>
      Next(Next(w, s, StoreLogin(session)), s, RefreshArrives(keep)).browser.cache == Some(session)
  {
  }

  /** Signing out during a refresh is final: the pair that comes back is not stored. */
  lemma ClearingKeepsInv(w: World, s: Settings, keep: bool)
    requires Inv(w)
    ensures Inv(Next(w, s, Clear))
    ensures Enabled(w, RefreshArrives(keep)) ==> Next(Next(w, s, Clear), s, RefreshArrives(keep)).browser.cache.None?
  {
  }

  lemma UnauthorizedKeepsInv(w: World, s: Settings, id: nat)
    requires Inv(w) && Enabled(w, Unauthorized(id))
    ensures Inv(Next(w, s, Unauthorized(id)))
  {
  }

  lemma ResumingKeepsInv(w: World, s: Settings, id: nat)
    requires Inv(w) && Enabled(w, Resume(id))
    ensures Inv(Next(w, s, Resume(id)))
  {
  }

  lemma FailingKeepsInv(w: World, s: Settings)
    requires Inv(w) && Enabled(w, RefreshNeverReachedServer)
    ensures Inv(Next(w, s, RefreshNeverReachedServer))
  {
  }

  lemma NextKeepsInv(w: World, s: Settings, step: Step)
    requires Inv(w) && Enabled(w, step)
    ensures Inv(Next(w, s, step))
  {
    match step
    case ServeRefresh(r) => ServingKeepsInv(w, s, r);
    case RefreshArrives(keep) => ArrivalKeepsInv(w, s, keep);
    case RefreshNeverReachedServer => FailingKeepsInv(w, s);
    case Resume(id) => ResumingKeepsInv(w, s, id);
    case StoreLogin(session) => StoringKeepsInv(w, s, session, false);
    case Clear => ClearingKeepsInv(w, s, false);
    case Unauthorized(id) => UnauthorizedKeepsInv(w, s, id);
    case SignIn(e) => SignInKeepsInv(w, s, e);
    case Elsewhere(e) => ElsewhereKeepsInv(w, s, e);
    case _ =>
  }

  // --- runs -----------------------------------------------------------------------------

  ghost predicate LegalRun(w: World, s: Settings, steps: seq<Step>)
    decreases |steps|
  {
    steps != [] ==> Enabled(w, steps[0]) && LegalRun(Next(w, s, steps[0]), s, steps[1..])
  }

  ghost function Run(w: World, s: Settings, steps: seq<Step>): World
    requires LegalRun(w, s, steps)
    decreases |steps|
  {
    if steps == [] then w else Run(Next(w, s, steps[0]), s, steps[1..])
  }

  lemma {:induction false} RunKeepsInv(w: World, s: Settings, steps: seq<Step>)
    requires LegalRun(w, s, steps) && Inv(w)
    ensures Inv(Run(w, s, steps))
    decreases |steps|
  {
    if steps != [] {
      NextKeepsInv(w, s, steps[0]);
      RunKeepsInv(Next(w, s, steps[0]), s, steps[1..]);
    }
  }

  /** A browser that has just been opened, over any session table. */
  function Opened(t: Table): World {
    World(t, B.State(None, None, map[]), None, {}, {})
  }

  /** While no refresh response is lost, the browser never presents a spent token to the refresh route, so
      its own refreshes are never taken for a replay, whatever else happens to the sessions. */
  lemma BrowserNeverReplays(t: Table, s: Settings, steps: seq<Step>, r: RefreshRequest)
    requires LegalRun(Opened(t), s, steps)
    requires Enabled(Run(Opened(t), s, steps), ServeRefresh(r))
    ensures var w := Run(Opened(t), s, steps);
            && r.presented.token.sessionId in w.table
            && w.table[r.presented.token.sessionId].rotatedAt.None?
            && !RefreshOutcomeOf(w.table, s, r).Reuse?
  {
    RunKeepsInv(Opened(t), s, steps);
    ServingKeepsInv(Run(Opened(t), s, steps), s, r);
  }

  // --- at most two sends ----------------------------------------------------------------

  ghost predicate SendsAreBounded(b: B.State) {
    forall id :: id in b.requests ==>
      var r := b.requests[id];
      r.sends <= (if r.retried && !r.stage.Waiting? && !r.stage.Settled? then 2 else 1)
  }

  lemma NextKeepsSends(w: World, s: Settings, step: Step)
    requires SendsAreBounded(w.browser) && Enabled(w, step)
    ensures SendsAreBounded(Next(w, s, step).browser)
  {
  }

  /** Each request goes out at most twice. */
  lemma {:induction false} RequestIsSentAtMostTwice(w: World, s: Settings, steps: seq<Step>, id: nat)
    requires LegalRun(w, s, steps) && SendsAreBounded(w.browser)
    requires id in Run(w, s, steps).browser.requests
    ensures Run(w, s, steps).browser.requests[id].sends <= 2
    decreases |steps|
  {
    if steps != [] {
      NextKeepsSends(w, s, steps[0]);
      RequestIsSentAtMostTwice(Next(w, s, steps[0]), s, steps[1..], id);
    }
  }

  // --- what the assumptions are for -----------------------------------------------------

  /** A lost response is the one thing that makes the browser present a spent token: the server has
      rotated it, the browser still stores it, and the next refresh past the grace period is a replay. */
  lemma LostResponseLeadsToReplay(w: World, s: Settings, r: RefreshRequest, again: RefreshRequest)
    requires Inv(w) && Enabled(w, ServeRefresh(r)) && ReplyTo(w.table, s, RefreshToken(r)).Issued?
    requires w.browser.cache.Some? && w.browser.cache.value.refresh == w.browser.refreshing.value.refresh
    requires SessionHistory.PresentsTokenOf(w.table, again, w.browser.cache.value.refresh.sessionId)
    requires again.now > r.now + s.graceSeconds * SECOND
    ensures var served := Next(w, s, ServeRefresh(r));
            var lost := served.(browser := B.Answered(served.browser, Error(SESSION_REVOKED), true), answer := None);
            && lost.browser.cache == w.browser.cache
            && again.presented == Signed(lost.browser.cache.value.refresh)
            && RefreshOutcomeOf(lost.table, s, again).Reuse?
  {
  }

  /** A request that waits for the shared refresh, whatever the answer and however it failed: resuming it
      clears the stored session exactly when it waited under that session and either the pair that came
      back belongs to another one, or the refresh was refused for a reason other than the connection. It
      makes no difference whether the refused session is the stored one, so a user who signs in again
      while an old refresh is under way can be signed out by it. */
  lemma OldRefreshClearsNewSessionIff(w: World, s: Settings, id: nat, keep: bool)
    requires Enabled(w, RefreshArrives(keep))
    requires id in w.browser.requests && w.browser.requests[id].stage.Waiting? && w.browser.cache.Some?
    ensures var arrived := Next(w, s, RefreshArrives(keep));
            var stored := w.browser.cache.value.refresh;
            && Enabled(arrived, Resume(id))
            && (Next(arrived, s, Resume(id)).browser.cache.None? <==>
                  && stored == w.browser.requests[id].stage.session.refresh
                  && (if w.answer.value.Issued? then stored != w.browser.refreshing.value.refresh else !keep))
  {
  }

  // --- both ways of losing a new session, as runs ----------------------------------------

  /** What a merchant route makes of the token a request carries: an administrator's session is refused there
      for its channel, however live it is. */
  function MerchantRouteError(w: World, request: B.HttpRequest): Option<ErrorCode> {
    var presented := if request.authorization.Some? then Some(Signed(request.authorization.value)) else None;
    AccessError(w.table, presented, {ACCESS}, Some(MERCHANT), Permitted, 0)
  }

  /** A 401 is the server's answer to the request, by the table as it is. */
  ghost predicate IsGenuine(w: World, step: Step) {
    step.Unauthorized? ==>
      && step.id in w.browser.requests
      && MerchantRouteError(w, w.browser.requests[step.id]) == Some(TOKEN_CHANNEL_MISMATCH)
  }

  ghost predicate AllGenuine(w: World, s: Settings, steps: seq<Step>)
    requires LegalRun(w, s, steps)
    decreases |steps|
  {
    steps != [] ==> IsGenuine(w, steps[0]) && AllGenuine(Next(w, s, steps[0]), s, steps[1..])
  }

  /** A run from a browser just opened, in which every 401 comes from the server's table. */
  ghost predicate Reached(s: Settings, steps: seq<Step>, w: World) {
    && LegalRun(Opened(map[]), s, steps) && AllGenuine(Opened(map[]), s, steps)
    && Run(Opened(map[]), s, steps) == w
  }

  lemma {:induction false} RunExtends(start: World, s: Settings, steps: seq<Step>, step: Step)
    requires LegalRun(start, s, steps) && Enabled(Run(start, s, steps), step)
    ensures LegalRun(start, s, steps + [step]) && Run(start, s, steps + [step]) == Next(Run(start, s, steps), s, step)
    ensures AllGenuine(start, s, steps) && IsGenuine(Run(start, s, steps), step) ==>
      AllGenuine(start, s, steps + [step])
    decreases |steps|
  {
    if steps == [] {
      assert [] + [step] == [step] && [step][1..] == [];
    } else {
      assert (steps + [step])[1..] == steps[1..] + [step];
      RunExtends(Next(start, s, steps[0]), s, steps[1..], step);
    }
  }

  lemma Extend(s: Settings, steps: seq<Step>, w: World, step: Step) returns (longer: seq<Step>)
    requires Reached(s, steps, w) && Enabled(w, step) && IsGenuine(w, step)
    ensures longer == steps + [step] && Reached(s, longer, Next(w, s, step))
  {
    RunExtends(Opened(map[]), s, steps, step);
    longer := steps + [step];
  }

  /** One user's sign-in, made at time zero. */
  function Login(id: SessionId): Event {
    Event.SignIn("u", ADMIN, ACCESS, None, None, id, 0, 0)
  }

  function RowOf(s: Settings, id: SessionId): Session {
    NewRow(s, "u", id, ACCESS, ADMIN, id, 0, None, None, None, 0)
  }

  function StoredOf(s: Settings, id: SessionId): B.Stored {
    B.Stored(ADMIN, AccessTokenOf(s, "u", id, ACCESS, ADMIN, 0), RefreshTokenOf(s, "u", id, ACCESS, ADMIN, 0, 0))
  }

  function WaitingUnder(session: B.Stored): B.HttpRequest {
    B.HttpRequest(1, true, Some(session.access), B.Waiting(session))
  }

  /** Session "a" is stored, and request 1 has started its refresh. */
  function OneWaiting(s: Settings): World {
    var a := StoredOf(s, "a");
    World(map["a" := RowOf(s, "a")], B.State(Some(a), Some(a), map[1 := WaitingUnder(a)]), None, {}, {a.refresh})
  }

  /** The user has signed in again as "b", and request 2 has joined the refresh of "a". */
  function BothWaiting(s: Settings): World {
    var a, b := StoredOf(s, "a"), StoredOf(s, "b");
    World(map["a" := RowOf(s, "a"), "b" := RowOf(s, "b")],
          B.State(Some(b), Some(a), map[1 := WaitingUnder(a), 2 := WaitingUnder(b)]), None, {}, {a.refresh, b.refresh})
  }

  lemma ReachOneWaiting(s: Settings) returns (steps: seq<Step>)
    requires s.accessMinutes >= 1
    ensures Reached(s, steps, OneWaiting(s)) && Clear !in steps
  {
    var a := StoredOf(s, "a");
    var w := Opened(map[]);
    steps := Extend(s, [], w, Step.SignIn(Login("a")));
    w := Next(w, s, Step.SignIn(Login("a")));
    assert w == World(map["a" := RowOf(s, "a")], B.State(None, None, map[]), None, {a}, {a.refresh});
    steps := Extend(s, steps, w, StoreLogin(a));
    w := Next(w, s, StoreLogin(a));
    steps := Extend(s, steps, w, Send(1));
    w := Next(w, s, Send(1));
    steps := Extend(s, steps, w, Unauthorized(1));
    w := Next(w, s, Unauthorized(1));
    assert w.browser.requests == map[1 := WaitingUnder(a)];
    assert w == OneWaiting(s);
  }

  /** The new session has been stored. */
  function SignedInAgain(s: Settings): World {
    OneWaiting(s).(table := BothWaiting(s).table, mine := BothWaiting(s).mine,
                   browser := OneWaiting(s).browser.(cache := Some(StoredOf(s, "b"))))
  }

  lemma ReachSignedInAgain(s: Settings) returns (steps: seq<Step>)
    requires s.accessMinutes >= 1
    ensures Reached(s, steps, SignedInAgain(s)) && Clear !in steps
  {
    var b := StoredOf(s, "b");
    steps := ReachOneWaiting(s);
    var w := OneWaiting(s);
    steps := Extend(s, steps, w, Step.SignIn(Login("b")));
    w := Next(w, s, Step.SignIn(Login("b")));
    assert w.table == BothWaiting(s).table && w.mine == BothWaiting(s).mine && w.logins == {b};
    steps := Extend(s, steps, w, StoreLogin(b));
  }

  lemma ReachBothWaiting(s: Settings) returns (steps: seq<Step>)
    requires s.accessMinutes >= 1
    ensures Reached(s, steps, BothWaiting(s)) && Clear !in steps
  {
    steps := ReachSignedInAgain(s);
    var w := SignedInAgain(s);
    steps := Extend(s, steps, w, Send(2));
    w := Next(w, s, Send(2));
    steps := Extend(s, steps, w, Unauthorized(2));
    w := Next(w, s, Unauthorized(2));
    assert w.browser.requests == BothWaiting(s).browser.requests;
    assert w == BothWaiting(s);
  }

  function RefreshOfA(s: Settings): RefreshRequest {
    RefreshRequest(Signed(StoredOf(s, "a").refresh), ADMIN, {ACCESS}, Permitted, None, None, "c", 1, 0)
  }

  /** "b" is live and unspent on the server, which still accepts it on the routes it is for, and the browser has
      forgotten it. */
  ghost predicate LostB(s: Settings, w: World) {
    && w.browser.cache.None?
    && "b" in w.table && w.table["b"].Live() && Unspent(w, StoredOf(s, "b").refresh)
    && AccessError(w.table, Some(Signed(StoredOf(s, "b").access)), {ACCESS}, Some(ADMIN), Permitted, 0).None?
  }

  lemma LosingB(s: Settings, steps: seq<Step>, w: World) returns (longer: seq<Step>)
    requires Reached(s, steps, w) && Clear !in steps
    requires w.browser == BothWaiting(s).browser && w.answer.Some?
    requires s.refreshDays >= 1 && s.accessMinutes >= 1
    requires "b" in w.table && w.table["b"] == RowOf(s, "b") && StoredOf(s, "b").refresh in w.mine
    ensures Clear !in longer && Reached(s, longer, Next(Next(w, s, RefreshArrives(false)), s, Resume(2)))
    ensures LostB(s, Next(Next(w, s, RefreshArrives(false)), s, Resume(2)))
  {
    OldRefreshClearsNewSessionIff(w, s, 2, false);
    longer := Extend(s, steps, w, RefreshArrives(false));
    longer := Extend(s, longer, Next(w, s, RefreshArrives(false)), Resume(2));
  }

  /** The earlier session was ended by an administrator. */
  function EndedA(s: Settings): World {
    BothWaiting(s).(table := Sessions.Next(BothWaiting(s).table, s, AdminRevoke("a", 0)))
  }

  lemma EndingA(s: Settings)
    ensures var step := Elsewhere(AdminRevoke("a", 0));
            Enabled(BothWaiting(s), step) && Next(BothWaiting(s), s, step) == EndedA(s)
  {
  }

  lemma ServingALeavesB(s: Settings)
    requires s.refreshDays >= 1
    ensures Enabled(BothWaiting(s), ServeRefresh(RefreshOfA(s)))
    ensures var w := Next(BothWaiting(s), s, ServeRefresh(RefreshOfA(s)));
            "c" in w.table && w.table["b"] == RowOf(s, "b") && StoredOf(s, "b").refresh in w.mine
  {
    assert RefreshOutcomeOf(BothWaiting(s).table, s, RefreshOfA(s)) == Rotate("a");
  }

  lemma RefusingALeavesB(s: Settings)
    requires s.refreshDays >= 1
    ensures Enabled(EndedA(s), ServeRefresh(RefreshOfA(s)))
    ensures var w := Next(EndedA(s), s, ServeRefresh(RefreshOfA(s)));
            && "c" !in w.table && "b" in w.table && w.table["b"] == RowOf(s, "b")
            && StoredOf(s, "b").refresh in w.mine
  {
    assert RefreshOutcomeOf(EndedA(s).table, s, RefreshOfA(s)) == Refuse(SESSION_REVOKED);
  }

  lemma RefusedRun(s: Settings, steps: seq<Step>) returns (longer: seq<Step>)
    requires s.refreshDays >= 1 && s.accessMinutes >= 1
    requires Reached(s, steps, EndedA(s)) && Clear !in steps
    ensures exists w :: Reached(s, longer, w) && Clear !in longer && LostB(s, w) && "c" !in w.table
  {
    RefusingALeavesB(s);
    longer := Extend(s, steps, EndedA(s), ServeRefresh(RefreshOfA(s)));
    longer := LosingB(s, longer, Next(EndedA(s), s, ServeRefresh(RefreshOfA(s))));
  }

  /** The first branch happens: without the user ever signing out, the browser forgets a live session because
      the refresh of the earlier one succeeded. Every 401 of the run is a channel refusal by the server. */
  lemma SucceededRefreshLosesNewSession(s: Settings)
    requires s.refreshDays >= 1 && s.accessMinutes >= 1
    ensures exists steps, w :: Reached(s, steps, w) && Clear !in steps && LostB(s, w) && "c" in w.table
  {
    var steps := ReachBothWaiting(s);
    ServingALeavesB(s);
    steps := Extend(s, steps, BothWaiting(s), ServeRefresh(RefreshOfA(s)));
    var lost := LosingB(s, steps, Next(BothWaiting(s), s, ServeRefresh(RefreshOfA(s))));
  }

  /** So does the second: the earlier session was ended by an administrator, and its refresh refused. */
  lemma RefusedRefreshLosesNewSession(s: Settings)
    requires s.refreshDays >= 1 && s.accessMinutes >= 1
    ensures exists steps, w :: Reached(s, steps, w) && Clear !in steps && LostB(s, w) && "c" !in w.table
  {
    var steps := ReachBothWaiting(s);
    EndingA(s);
    steps := Extend(s, steps, BothWaiting(s), Elsewhere(AdminRevoke("a", 0)));
    var lost := RefusedRun(s, steps);
  }
}
