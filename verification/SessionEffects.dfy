/** What each request of the sign-in service means for the rows it finds: which session it ends, which it
    leaves alone, who is let in and for how long. */
module SessionEffects {
  import opened Clock
  import opened Wrappers
  import opened Sessions
  import opened SessionHistory

  // --- who is let in --------------------------------------------------------------------

  /** An access token opens a route exactly when it is an unexpired access token of a kind and channel the route
      takes, its session is its user's, agrees with it, is neither revoked nor expired, and the account may
      proceed. */
  lemma AccessIsAcceptedIff(t: Table, token: Token, allowed: set<SessionType>, channel: Option<Channel>,
                            account: Account, now: Micros)
    ensures AccessError(t, Some(Signed(token)), allowed, channel, account, now).None? <==>
              && token.Access? && now < token.exp * SECOND && token.sessionType in allowed
              && (channel.None? || token.channel == channel.value)
              && token.sessionId in t
              && var row := t[token.sessionId];
              && row.user == token.sub && row.revokedAt.None?
              && (row.channel.None? || row.channel.value == token.channel)
              && (row.sessionType.None? || row.sessionType.value == token.sessionType)
              && (row.expiresAt.None? || now < row.expiresAt.value)
              && account == Permitted
    ensures AccessError(t, None, allowed, channel, account, now).Some?
    ensures AccessError(t, Some(Unreadable), allowed, channel, account, now).Some?
  {
  }

  /** What the refusals of an access token tell the app: no token, an unreadable one, one whose time is over, a
      session whose time is over, and the account's own reason are told apart, and only the first failing check
      speaks. */
  lemma AccessErrorsSayWhy(t: Table, presented: Option<Presented>, allowed: set<SessionType>,
                           channel: Option<Channel>, account: Account, now: Micros, code: string)
    ensures var error := AccessError(t, presented, allowed, channel, account, now);
            && (error == Some(AUTH_REQUIRED) <==> presented.None?)
            && (error == Some(TOKEN_INVALID) <==> presented == Some(Unreadable))
            && (error == Some(TOKEN_EXPIRED) <==>
                  presented.Some? && presented.value.Signed? && presented.value.token.exp * SECOND <= now)
            && (error == Some(SESSION_EXPIRED) ==>
                  && account == Permitted && presented.value.token.sessionId in t
                  && var row := t[presented.value.token.sessionId];
                  row.revokedAt.None? && row.expiresAt.Some? && row.expiresAt.value <= now)
            && (error == Some(ACCOUNT_DENIED(code)) ==> account == Denied(code))
  {
  }

  /** A refresh buys a new pair exactly when the token is the unexpired refresh token stored for its user's
      session, on its own channel, the session is neither revoked nor expired, of a kind that may be refreshed
      here, and the account may proceed. */
  lemma RefreshIsAnsweredIff(t: Table, s: Settings, r: RefreshRequest)
    ensures ReplyTo(t, s, RefreshToken(r)).Issued? <==>
              && r.presented.Signed?
              && var token := r.presented.token;
              && token.Refresh? && r.now < token.exp * SECOND && token.channel == r.channel
              && token.sessionId in t
              && var row := t[token.sessionId];
              && row.token == token && row.user == token.sub && row.revokedAt.None?
              && (row.expiresAt.None? || r.now < row.expiresAt.value)
              && (if row.sessionType.Some? then row.sessionType.value in r.allowed
                  else if token.claimedType.Some? then token.claimedType.value in r.allowed
                  else ACCESS in r.allowed)
              && r.account == Permitted
  {
  }

  /** What a refused refresh tells the app is true of the token and of the session it names. */
  lemma RefreshErrorsSayWhy(t: Table, s: Settings, r: RefreshRequest, code: string)
    ensures var reply := ReplyTo(t, s, RefreshToken(r));
            && (reply == Error(TOKEN_INVALID) <==> r.presented.Unreadable?)
            && (reply == Error(TOKEN_CHANNEL_MISMATCH) ==> r.presented.token.channel != r.channel)
            && (reply == Error(SESSION_EXPIRED) ==>
                  var token := r.presented.token;
                  || token.exp * SECOND <= r.now
                  || (token.sessionId in t && t[token.sessionId].token == token && t[token.sessionId].expiresAt.Some?
                      && t[token.sessionId].expiresAt.value <= r.now))
            && (reply == Error(ACCOUNT_DENIED(code)) ==> r.account == Denied(code))
  {
  }

  // --- a sign-in and a refresh ----------------------------------------------------------

  /** A row written just now, and the pair handed out with it. */
  ghost predicate IsNewSession(row: Session, reply: Reply, s: Settings, id: SessionId, user: UserId,
                               kind: SessionType, channel: Channel, family: SessionId, now: Micros)
  {
    && reply.Issued? && reply.access.Access? && reply.refresh.Refresh?
    && row.token == reply.refresh && row.user == user && row.channel == Some(channel)
    && row.sessionType == Some(kind) && row.familyId == Some(family)
    && row.expiresAt == Some(now + s.refreshDays * DAY)
    && row.rotatedAt.None? && row.revokedAt.None? && row.revokedReason.None?
    && reply.access.sub == user && reply.access.sessionId == id
    && reply.access.sessionType == kind && reply.access.channel == channel
    && reply.refresh.sub == user && reply.refresh.sessionId == id
    && reply.refresh.claimedType == Some(kind) && reply.refresh.channel == channel
    // Both expire in the whole second their time runs out in.
    && reply.access.exp * SECOND <= now + s.accessMinutes * 60 * SECOND < (reply.access.exp + 1) * SECOND
    && reply.refresh.exp * SECOND <= now + s.refreshDays * DAY < (reply.refresh.exp + 1) * SECOND
  }

  /** A text that was sent is stored; otherwise what was known before stays. */
  ghost predicate SentWins(stored: Option<string>, sent: Option<string>, known: Option<string>) {
    stored == if sent.Some? && sent.value != "" then sent else known
  }

  /** The details of the phone, kept from one session to the next. */
  ghost predicate KeepsDevice(row: Session, device: Option<Device>, known: Option<Session>) {
    && var sent := if device.Some? then device.value else Device(None, None, None, None, None);
    && SentWins(row.deviceType, sent.deviceType, if known.Some? then known.value.deviceType else None)
    && SentWins(row.deviceName, sent.deviceName, if known.Some? then known.value.deviceName else None)
    && SentWins(row.appVersion, sent.appVersion, if known.Some? then known.value.appVersion else None)
    && SentWins(row.pushToken, sent.fcmToken, if known.Some? then known.value.pushToken else None)
  }

  /** A sign-in adds one row, of a family of its own, and hands out the pair that goes with it. */
  lemma SignInAddsItsSession(t: Table, s: Settings, e: Event)
    requires e.SignIn? && e.newId !in t
    ensures var u := Next(t, s, e);
            && u.Keys == t.Keys + {e.newId} && (forall id :: id in t ==> u[id] == t[id])
            && IsNewSession(u[e.newId], ReplyTo(t, s, e), s, e.newId, e.user, e.sessionType, e.channel, e.newId, e.now)
            && u[e.newId].deviceId == e.deviceId && KeepsDevice(u[e.newId], e.device, None)
  {
  }

  /** A refresh that is answered retires exactly the session presented, as rotated at that moment, and adds one
      that takes over its user, kind, family and phone. */
  lemma RefreshReplacesItsSession(t: Table, s: Settings, r: RefreshRequest)
    requires r.newId !in t && ReplyTo(t, s, RefreshToken(r)).Issued?
    ensures r.presented.Signed? && r.presented.token.Refresh? && r.presented.token.sessionId in t
    ensures var u := Next(t, s, RefreshToken(r));
            var id := r.presented.token.sessionId;
            && u.Keys == t.Keys + {r.newId} && (forall other :: other in t && other != id ==> u[other] == t[other])
            && u[id] == t[id].(rotatedAt := Some(r.now), revokedAt := Some(r.now), revokedReason := Some(ROTATED),
                               pushToken := None)
  {
  }

  lemma RefreshAddsItsSession(t: Table, s: Settings, r: RefreshRequest)
    requires r.newId !in t && ReplyTo(t, s, RefreshToken(r)).Issued?
    ensures r.presented.Signed? && r.presented.token.Refresh? && r.presented.token.sessionId in t
    ensures var u := Next(t, s, RefreshToken(r));
            var id := r.presented.token.sessionId;
            var sent := if r.device.Some? then r.device.value.deviceId else None;
            var claimed := r.presented.token.claimedType;
            var kind := if t[id].sessionType.Some? then t[id].sessionType.value
                        else if claimed.Some? then claimed.value else ACCESS;
            && r.newId in u
            && IsNewSession(u[r.newId], ReplyTo(t, s, RefreshToken(r)), s, r.newId, t[id].user, kind, r.channel,
                            if t[id].familyId.Some? then t[id].familyId.value else id, r.now)
            && KeepsDevice(u[r.newId], r.device, Some(t[id]))
            && u[r.newId].deviceId == (if sent.Some? && sent.value != "" then sent
                                       else if r.payloadDeviceId.Some? && r.payloadDeviceId.value != ""
                                       then r.payloadDeviceId else t[id].deviceId)
  {
  }

  // --- a refresh that is not answered ---------------------------------------------------

  /** A refresh token of this user's session, unexpired, on its own channel and of a kind that may be refreshed
      here, whether or not it is the one stored. */
  predicate NamesSession(t: Table, r: RefreshRequest, id: SessionId) {
    && r.presented.Signed?
    && var token := r.presented.token;
    && token.Refresh? && r.now < token.exp * SECOND && token.channel == r.channel
    && token.sessionId == id && id in t && t[id].user == token.sub
    && (if t[id].sessionType.Some? then t[id].sessionType.value in r.allowed
        else if token.claimedType.Some? then token.claimedType.value in r.allowed
        else ACCESS in r.allowed)
  }

  /** The live rows that meet a condition are revoked, once and for all; the others are left alone. */
  ghost predicate Ends(t: Table, u: Table, which: set<SessionId>, reason: Reason, now: Micros) {
    && u.Keys == t.Keys
    && forall id :: id in t ==>
         u[id] == if id in which && t[id].revokedAt.None?
                  then t[id].(revokedAt := Some(now), revokedReason := Some(reason), pushToken := None)
                  else t[id]
  }

  /** A well-formed refresh token that is not the one stored ends the session it names; a revoked session just
      loses its push token. */
  lemma StrangeTokenEndsItsSession(t: Table, s: Settings, r: RefreshRequest, id: SessionId)
    requires NamesSession(t, r, id) && r.presented.token != t[id].token
    ensures var u := Next(t, s, RefreshToken(r));
            && u.Keys == t.Keys && (forall other :: other in t && other != id ==> u[other] == t[other])
            && u[id] == if t[id].revokedAt.Some? then t[id].(pushToken := None)
                        else t[id].(revokedAt := Some(r.now), revokedReason := Some(REFRESH_TOKEN_MISMATCH),
                                    pushToken := None)
    ensures ReplyTo(t, s, RefreshToken(r)) == Error(SESSION_REVOKED)
  {
  }

  /** The stored token of a session rotated away too long ago ends every live session of its family. */
  lemma LateReplayEndsItsFamily(t: Table, s: Settings, r: RefreshRequest, id: SessionId, family: SessionId)
    requires NamesSession(t, r, id) && r.presented.token == t[id].token
    requires t[id].revokedAt.Some? && t[id].rotatedAt.Some?
    requires r.now > t[id].rotatedAt.value + s.graceSeconds * SECOND
    requires t[id].familyId == Some(family) || (t[id].familyId.None? && family == id)
    ensures Ends(t, Next(t, s, RefreshToken(r)), (set i | i in t && (i == family || t[i].familyId == Some(family))),
                 REFRESH_TOKEN_REUSED, r.now)
    ensures ReplyTo(t, s, RefreshToken(r)) == Error(SESSION_REVOKED)
  {
    var members := set i | i in t && (i == family || t[i].familyId == Some(family));
    assert RefreshOutcomeOf(t, s, r) == Reuse(id);
    assert Members(t, Family(t, id)) == members;
  }

  /** Any other refresh that is not answered changes nothing. */
  lemma OtherRefusalsChangeNothing(t: Table, s: Settings, r: RefreshRequest)
    requires !ReplyTo(t, s, RefreshToken(r)).Issued?
    requires forall id :: id in t && NamesSession(t, r, id) ==>
      && r.presented.token == t[id].token
      && !(t[id].revokedAt.Some? && t[id].rotatedAt.Some?
           && r.now > t[id].rotatedAt.value + s.graceSeconds * SECOND)
    ensures Next(t, s, RefreshToken(r)) == t
  {
    if r.presented.Signed? && r.presented.token.sessionId in t {
      var named := NamesSession(t, r, r.presented.token.sessionId);
    }
  }

  // --- ending sessions on request -------------------------------------------------------

  /** The unexpired refresh token of this live session is presented, on its own channel or on none. */
  predicate SignsOut(t: Table, presented: Presented, onChannel: Option<Channel>, now: Micros, id: SessionId) {
    && id in t && t[id].revokedAt.None?
    && presented == Signed(t[id].token) && t[id].token.Refresh? && t[id].token.sessionId == id
    && now < t[id].token.exp * SECOND
    && (onChannel.None? || t[id].token.channel == onChannel.value)
  }

  /** A sign-out ends the session whose refresh token is presented and touches no other row; in every other case
      the table stays as it was. */
  lemma SignOutEndsItsSession(t: Table, s: Settings, presented: Presented, onChannel: Option<Channel>, now: Micros)
    ensures var u := Next(t, s, SignOut(presented, onChannel, now));
            && (forall id :: SignsOut(t, presented, onChannel, now, id) ==>
                  && u.Keys == t.Keys && (forall other :: other in t && other != id ==> u[other] == t[other])
                  && u[id] == t[id].(revokedAt := Some(now), revokedReason := Some(LOGOUT), pushToken := None))
            && ((forall id :: !SignsOut(t, presented, onChannel, now, id)) ==> u == t)
  {
    if presented.Signed? && presented.token.sessionId in t {
      var signsOut := SignsOut(t, presented, onChannel, now, presented.token.sessionId);
    }
  }

  lemma SignOutEndsItsFamily(t: Table, s: Settings, presented: Presented, onChannel: Option<Channel>, now: Micros,
                             id: SessionId)
    requires Inv(t) && SignsOut(t, presented, onChannel, now, id)
    ensures Dead(Next(t, s, SignOut(presented, onChannel, now)), Family(t, id))
  {
    var u := Next(t, s, SignOut(presented, onChannel, now));
    SignOutEndsItsSession(t, s, presented, onChannel, now);
    assert RowIsSound(t, id);
    forall i | i in u && Family(u, i) == Family(t, id)
      ensures !u[i].Live()
    {
      assert FamilyAgrees(t, i, id);
    }
  }

  lemma DeadFamilyIsNotRefreshed(t: Table, s: Settings, family: SessionId, r: RefreshRequest)
    requires Dead(t, family)
    requires r.presented.Signed?
    requires r.presented.token.sessionId in t ==> Family(t, r.presented.token.sessionId) == family
    ensures !ReplyTo(t, s, RefreshToken(r)).Issued?
  {
    RefreshIsAnsweredIff(t, s, r);
  }

  /** A sign-out is final for the whole sign-in, whatever happens later: no access token of it, of whichever
      session, validates again, and no refresh of it is answered. */
  lemma SignOutIsFinal(t: Table, s: Settings, presented: Presented, onChannel: Option<Channel>, now: Micros,
                       id: SessionId, later: seq<Event>, token: Token)
    requires Inv(t) && SignsOut(t, presented, onChannel, now, id)
    requires FreshRun(Next(t, s, SignOut(presented, onChannel, now)), s, later)
    requires var u := Run(Next(t, s, SignOut(presented, onChannel, now)), s, later);
             token.sessionId == id || (token.sessionId in u && Family(u, token.sessionId) == Family(t, id))
    ensures var u := Run(Next(t, s, SignOut(presented, onChannel, now)), s, later);
            && (forall allowed, channel, account, at ::
                  AccessError(u, Some(Signed(token)), allowed, channel, account, at).Some?)
            && (forall r: RefreshRequest :: r.presented == Signed(token) ==> !ReplyTo(u, s, RefreshToken(r)).Issued?)
  {
    var e := SignOut(presented, onChannel, now);
    var ended := Next(t, s, e);
    var u := Run(ended, s, later);
    SignOutEndsItsFamily(t, s, presented, onChannel, now, id);
    NextContinues(t, s, e);
    NextKeepsInv(t, s, e);
    RunContinues(ended, s, later);
    ContinuesTransitively(t, ended, u);
    assert RowContinues(t[id], u[id]);
    DeadFamilyStaysDead(ended, s, later, Family(t, id));
    forall allowed, channel, account, at
      ensures AccessError(u, Some(Signed(token)), allowed, channel, account, at).Some?
    {
      DeadFamilyIsRefused(u, Family(t, id), token, allowed, channel, account, at);
    }
    forall r: RefreshRequest | r.presented == Signed(token)
      ensures !ReplyTo(u, s, RefreshToken(r)).Issued?
    {
      DeadFamilyIsNotRefreshed(u, s, Family(t, id), r);
    }
  }

  /** Signing out everywhere takes a valid access token, and ends all live sessions of its user. */
  lemma SignOutAllEndsOwnSessions(t: Table, s: Settings, e: Event)
    requires e.SignOutAll?
    ensures ReplyTo(t, s, e) == NoContent <==>
        AccessError(t, Some(e.presented), e.allowed, Some(e.channel), e.account, e.now).None?
    ensures if ReplyTo(t, s, e) == NoContent
            then e.presented.Signed?
                 && Ends(t, Next(t, s, e), (set id | id in t && t[id].user == e.presented.token.sub), LOGOUT_ALL, e.now)
            else Next(t, s, e) == t
  {
    if e.presented.Signed? {
      assert OwnedBy(t, {e.presented.token.sub}) == set id | id in t && t[id].user == e.presented.token.sub;
    }
  }

  /** An administrator ends one session, if there is such a session; ending it again changes nothing. */
  lemma AdminEndsOneSession(t: Table, s: Settings, id: SessionId, now: Micros)
    ensures Ends(t, Next(t, s, AdminRevoke(id, now)), {id}, ADMIN_REVOKED, now)
    ensures ReplyTo(t, s, AdminRevoke(id, now)) == if id in t then NoContent else Error(SESSION_NOT_FOUND)
  {
  }

  /** Blocking users ends all their live sessions, without recording why; a dead push token is forgotten
      wherever it is held. Neither changes anything else. */
  lemma BlockingAndForgettingByRow(t: Table, s: Settings, users: set<UserId>, pushToken: string, now: Micros)
    ensures var u := Next(t, s, RevokeUsers(users, now));
            && u.Keys == t.Keys
            && forall id :: id in t ==>
                 u[id] == if t[id].user in users && t[id].revokedAt.None? then t[id].(revokedAt := Some(now)) else t[id]
    ensures var u := Next(t, s, ForgetPush(pushToken));
            && u.Keys == t.Keys
            && forall id :: id in t ==>
                 u[id] == if t[id].pushToken == Some(pushToken) then t[id].(pushToken := None) else t[id]
  {
  }

  // --- how long a pair lasts ------------------------------------------------------------

  /** When the pair of this request is handed out. */
  function IssuedAt(e: Event): Micros
    requires e.SignIn? || e.RefreshToken?
  {
    if e.SignIn? then e.now else e.request.now
  }

  lemma IssuedPairNamesItsRow(t: Table, s: Settings, e: Event)
    requires Fresh(t, e) && ReplyTo(t, s, e).Issued?
    ensures e.SignIn? || e.RefreshToken?
    ensures var u := Next(t, s, e);
            var reply := ReplyTo(t, s, e);
            && reply.access.Access? && reply.access.sessionId in u
            && var row := u[reply.access.sessionId];
            && row.sessionType.Some? && row.channel.Some? && row.familyId.Some?
            && IsNewSession(row, reply, s, reply.access.sessionId, row.user, row.sessionType.value, row.channel.value,
                            row.familyId.value, IssuedAt(e))
  {
    if e.SignIn? {
      SignInAddsItsSession(t, s, e);
    } else {
      RefreshAddsItsSession(t, s, e.request);
    }
  }

  /** Whatever happens later, the row keeps what the pair says. */
  lemma PairIsKept(t: Table, s: Settings, e: Event, later: seq<Event>)
    requires Fresh(t, e) && ReplyTo(t, s, e).Issued? && FreshRun(Next(t, s, e), s, later)
    ensures e.SignIn? || e.RefreshToken?
    ensures var u := Run(Next(t, s, e), s, later);
            var access, refresh := ReplyTo(t, s, e).access, ReplyTo(t, s, e).refresh;
            && access.Access? && refresh.Refresh? && access.sessionId == refresh.sessionId && access.sessionId in u
            && access.sub == refresh.sub && access.channel == refresh.channel
            && refresh.claimedType == Some(access.sessionType)
            && access.exp == FloorSeconds(IssuedAt(e) + s.accessMinutes * 60 * SECOND)
            && refresh.exp == FloorSeconds(IssuedAt(e) + s.refreshDays * DAY)
            && var row := u[access.sessionId];
            && row.token == refresh && row.user == access.sub && row.channel == Some(access.channel)
            && row.sessionType == Some(access.sessionType)
            && row.expiresAt == Some(IssuedAt(e) + s.refreshDays * DAY)
  {
    var issued := Next(t, s, e);
    var id := ReplyTo(t, s, e).access.sessionId;
    IssuedPairNamesItsRow(t, s, e);
    RunContinues(issued, s, later);
    assert RowContinues(issued[id], Run(issued, s, later)[id]);
  }

  /** For as long as its session is not revoked, and whatever else happens, an access token works on the routes it
      is for until the promised minutes are over, to the second, or the session expires. */
  lemma AccessLastsAsPromised(t: Table, s: Settings, e: Event, later: seq<Event>, allowed: set<SessionType>,
                              channel: Option<Channel>, at: Micros)
    requires Fresh(t, e) && ReplyTo(t, s, e).Issued? && FreshRun(Next(t, s, e), s, later)
    requires var access := ReplyTo(t, s, e).access;
             var u := Run(Next(t, s, e), s, later);
             && access.Access? && access.sessionId in u && u[access.sessionId].revokedAt.None?
             && access.sessionType in allowed && (channel.None? || channel.value == access.channel)
    ensures e.SignIn? || e.RefreshToken?
    ensures var access := ReplyTo(t, s, e).access;
            AccessError(Run(Next(t, s, e), s, later), Some(Signed(access)), allowed, channel, Permitted, at).None? <==>
              && at < FloorSeconds(IssuedAt(e) + s.accessMinutes * 60 * SECOND) * SECOND
              && at < IssuedAt(e) + s.refreshDays * DAY
  {
    PairIsKept(t, s, e, later);
    AccessIsAcceptedIff(Run(Next(t, s, e), s, later), ReplyTo(t, s, e).access, allowed, channel, Permitted, at);
  }

  /** In the same way a refresh token is good for one refresh until the promised days are over, to the second. */
  lemma RefreshLastsAsPromised(t: Table, s: Settings, e: Event, later: seq<Event>, r: RefreshRequest)
    requires Fresh(t, e) && ReplyTo(t, s, e).Issued? && FreshRun(Next(t, s, e), s, later)
    requires var refresh := ReplyTo(t, s, e).refresh;
             var u := Run(Next(t, s, e), s, later);
             && refresh.Refresh? && refresh.sessionId in u && u[refresh.sessionId].revokedAt.None?
             && r.presented == Signed(refresh) && r.channel == refresh.channel && r.account == Permitted
             && refresh.claimedType.Some? && refresh.claimedType.value in r.allowed
    ensures e.SignIn? || e.RefreshToken?
    ensures ReplyTo(Run(Next(t, s, e), s, later), s, RefreshToken(r)).Issued? <==>
        r.now < FloorSeconds(IssuedAt(e) + s.refreshDays * DAY) * SECOND
  {
    PairIsKept(t, s, e, later);
    RefreshIsAnsweredIff(Run(Next(t, s, e), s, later), s, r);
  }
}
