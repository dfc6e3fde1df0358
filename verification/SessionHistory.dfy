/** What every run of the sign-in service keeps, and what it can never bring back. */
module SessionHistory {
  import opened Clock
  import opened Wrappers
  import opened Sessions

  // --- the invariant --------------------------------------------------------------------

  ghost predicate RowIsSound(t: Table, id: SessionId)
    requires id in t
  {
    var row := t[id];
    && row.token.Refresh? && row.token.sessionId == id && row.token.sub == row.user
    && (row.channel.Some? ==> row.channel.value == row.token.channel)
    && (row.sessionType.Some? && row.token.claimedType.Some? ==> row.token.claimedType == row.sessionType)
    && Family(t, id) in t && Family(t, Family(t, id)) == Family(t, id)
    && (row.rotatedAt.Some? <==> row.revokedReason == Some(ROTATED))
    && (row.revokedReason.Some? ==> row.revokedAt.Some?)
    && (row.revokedReason.Some? ==> row.pushToken.None?)
  }

  /** Two sessions of one family agree on user, channel and kind, and are not both live. */
  ghost predicate FamilyAgrees(t: Table, i: SessionId, j: SessionId)
    requires i in t && j in t
  {
    Family(t, i) == Family(t, j) ==>
      && t[i].user == t[j].user
      && t[i].token.channel == t[j].token.channel
      && EffectiveType(t[i]) == EffectiveType(t[j])
      && (t[i].Live() && t[j].Live() ==> i == j)
  }

  ghost predicate Inv(t: Table) {
    && (forall id :: id in t ==> RowIsSound(t, id))
    && (forall i, j :: i in t && j in t ==> FamilyAgrees(t, i, j))
  }

  /** Ids drawn by `uuid4` are new. */
  predicate Fresh(t: Table, e: Event) {
    match e
    case SignIn(_, _, _, _, _, newId, _, _) => newId !in t
    case RefreshToken(r) => r.newId !in t
    case _ => true
  }

  /** What one request may do to the rows that exist: identity never changes, a revocation is final. */
  ghost predicate RowContinues(a: Session, b: Session) {
    && b.user == a.user && b.token == a.token && b.channel == a.channel && b.sessionType == a.sessionType
    && b.familyId == a.familyId && b.expiresAt == a.expiresAt
    && (a.revokedAt.Some? ==>
          b.revokedAt == a.revokedAt && b.revokedReason == a.revokedReason && b.rotatedAt == a.rotatedAt
          && (b.pushToken == a.pushToken || b.pushToken.None?))
  }

  ghost predicate Continues(t: Table, u: Table) {
    t.Keys <= u.Keys && forall id :: id in t ==> RowContinues(t[id], u[id])
  }

  lemma RotationContinues(t: Table, s: Settings, r: RefreshRequest)
    requires r.newId !in t && RefreshOutcomeOf(t, s, r).Rotate?
    ensures Continues(t, Next(t, s, RefreshToken(r)))
  {
  }

  lemma RefreshContinues(t: Table, s: Settings, r: RefreshRequest)
    requires r.newId !in t
    ensures Continues(t, Next(t, s, RefreshToken(r)))
  {
    if RefreshOutcomeOf(t, s, r).Rotate? {
      RotationContinues(t, s, r);
    }
  }

  lemma NextContinues(t: Table, s: Settings, e: Event)
    requires Fresh(t, e)
    ensures Continues(t, Next(t, s, e))
  {
    if e.RefreshToken? {
      RefreshContinues(t, s, e.request);
    }
  }

  /** What rotation does, seen from outside: `id` retires and `newId` takes its place in the family. */
  ghost predicate TakesOver(t: Table, u: Table, id: SessionId, newId: SessionId) {
    && id in t && newId !in t && u.Keys == t.Keys + {newId}
    && (forall other :: other in t && other != id ==> u[other] == t[other])
    && t[id].Live() && RowContinues(t[id], u[id])
    && u[id].revokedAt.Some? && u[id].rotatedAt.Some? && u[id].revokedReason == Some(ROTATED) && u[id].pushToken.None?
    && u[newId].user == t[id].user && u[newId].familyId == Some(Family(t, id))
    && u[newId].token.Refresh? && u[newId].token.sessionId == newId && u[newId].token.sub == u[newId].user
    && u[newId].token.channel == t[id].token.channel && u[newId].channel == Some(u[newId].token.channel)
    && u[newId].sessionType == Some(EffectiveType(t[id])) && u[newId].token.claimedType == u[newId].sessionType
    && u[newId].Live() && u[newId].rotatedAt.None? && u[newId].revokedReason.None?
  }

  /** The row a rotation adds: same user and family, and a token that says the same as the row. */
  lemma NewRowInherits(t: Table, s: Settings, r: RefreshRequest, id: SessionId)
    requires Inv(t) && r.newId !in t && RefreshOutcomeOf(t, s, r) == Rotate(id)
    ensures var row := Next(t, s, RefreshToken(r))[r.newId];
            && row.user == t[id].user && row.familyId == Some(Family(t, id))
            && row.token.Refresh? && row.token.sessionId == r.newId && row.token.sub == row.user
            && row.token.channel == t[id].token.channel && row.channel == Some(row.token.channel)
            && row.sessionType == Some(EffectiveType(t[id])) && row.token.claimedType == row.sessionType
            && row.Live() && row.rotatedAt.None? && row.revokedReason.None?
  {
    assert RowIsSound(t, id);
    assert r.presented.token == t[id].token;
  }

  lemma OldRowRetires(t: Table, s: Settings, r: RefreshRequest, id: SessionId)
    requires r.newId !in t && RefreshOutcomeOf(t, s, r) == Rotate(id)
    ensures var u := Next(t, s, RefreshToken(r));
            && u.Keys == t.Keys + {r.newId}
            && (forall other :: other in t && other != id ==> u[other] == t[other])
            && t[id].Live() && RowContinues(t[id], u[id]) && u[id].revokedAt.Some? && u[id].rotatedAt.Some?
            && u[id].revokedReason == Some(ROTATED) && u[id].pushToken.None?
  {
  }

  lemma RotationTakesOver(t: Table, s: Settings, r: RefreshRequest, id: SessionId)
    requires Inv(t) && r.newId !in t && RefreshOutcomeOf(t, s, r) == Rotate(id)
    ensures TakesOver(t, Next(t, s, RefreshToken(r)), id, r.newId)
  {
    NewRowInherits(t, s, r, id);
    OldRowRetires(t, s, r, id);
  }

  lemma TakingOverKeepsFamilies(t: Table, u: Table, id: SessionId, newId: SessionId, i: SessionId)
    requires Inv(t) && TakesOver(t, u, id, newId) && i in u
    ensures Family(u, i) == Family(t, if i == newId then id else i)
  {
  }

  lemma TakingOverKeepsRow(t: Table, u: Table, id: SessionId, newId: SessionId, i: SessionId)
    requires Inv(t) && TakesOver(t, u, id, newId) && i in u
    ensures RowIsSound(u, i)
  {
    var i' := if i == newId then id else i;
    assert RowIsSound(t, i');
    TakingOverKeepsFamilies(t, u, id, newId, i);
    TakingOverKeepsFamilies(t, u, id, newId, Family(t, i'));
  }

  lemma {:induction false} OldRowsStillAgree(t: Table, u: Table, id: SessionId, newId: SessionId, i: SessionId,
                                             j: SessionId)
    requires Inv(t) && TakesOver(t, u, id, newId) && i in t && j in t
    ensures FamilyAgrees(u, i, j)
  {
    TakingOverKeepsFamilies(t, u, id, newId, i);
    TakingOverKeepsFamilies(t, u, id, newId, j);
    assert FamilyAgrees(t, i, j);
  }

  lemma {:induction false} NewRowAgrees(t: Table, u: Table, id: SessionId, newId: SessionId, j: SessionId)
    requires Inv(t) && TakesOver(t, u, id, newId) && j in t
    ensures FamilyAgrees(u, newId, j) && FamilyAgrees(u, j, newId)
  {
    TakingOverKeepsFamilies(t, u, id, newId, newId);
    TakingOverKeepsFamilies(t, u, id, newId, j);
    assert FamilyAgrees(t, id, j);
  }

  lemma TakingOverKeepsAgreement(t: Table, u: Table, id: SessionId, newId: SessionId, i: SessionId, j: SessionId)
    requires Inv(t) && TakesOver(t, u, id, newId) && i in u && j in u
    ensures FamilyAgrees(u, i, j)
  {
    if i in t && j in t {
      OldRowsStillAgree(t, u, id, newId, i, j);
    } else if j in t {
      NewRowAgrees(t, u, id, newId, j);
    } else if i in t {
      NewRowAgrees(t, u, id, newId, i);
    }
  }

  lemma TakingOverKeepsInv(t: Table, u: Table, id: SessionId, newId: SessionId)
    requires Inv(t) && TakesOver(t, u, id, newId)
    ensures Inv(u)
  {
    forall i | i in u
      ensures RowIsSound(u, i)
    {
      TakingOverKeepsRow(t, u, id, newId, i);
    }
    forall i, j | i in u && j in u
      ensures FamilyAgrees(u, i, j)
    {
      TakingOverKeepsAgreement(t, u, id, newId, i, j);
    }
  }

  lemma SignInKeepsInv(t: Table, s: Settings, e: Event)
    requires Inv(t) && Fresh(t, e) && e.SignIn?
    ensures Inv(Next(t, s, e))
  {
    var u := Next(t, s, e);
    assert Family(u, e.newId) == e.newId;
    forall i | i in u
      ensures RowIsSound(u, i)
    {
      if i != e.newId {
        assert RowIsSound(t, i) && Family(u, i) == Family(t, i);
      }
    }
    forall i, j | i in u && j in u
      ensures FamilyAgrees(u, i, j)
    {
      if i != e.newId && j != e.newId {
        assert FamilyAgrees(t, i, j);
      } else if i != e.newId {
        assert RowIsSound(t, i);
      } else if j != e.newId {
        assert RowIsSound(t, j);
      }
    }
  }

  /** The row was left alone, revoked for a reason other than rotation, or lost its push token. */
  ghost predicate OnlyRevoked(a: Session, b: Session) {
    && b.rotatedAt == a.rotatedAt
    && (b.revokedReason == a.revokedReason || (a.Live() && b.revokedReason.Some? && b.revokedReason != Some(ROTATED)))
    && (b.revokedReason.Some? ==> b.revokedAt.Some? && b.pushToken.None?)
  }

  lemma RevokingKeepsInv(t: Table, u: Table)
    requires Inv(t) && Continues(t, u) && u.Keys == t.Keys
    requires forall id :: id in t ==> OnlyRevoked(t[id], u[id])
    ensures Inv(u)
  {
    forall id | id in u
      ensures RowIsSound(u, id)
    {
      assert RowIsSound(t, id);
      assert RowContinues(t[id], u[id]);
      assert RowContinues(t[Family(t, id)], u[Family(t, id)]);
      assert OnlyRevoked(t[id], u[id]);
    }
    forall i, j | i in u && j in u
      ensures FamilyAgrees(u, i, j)
    {
      assert FamilyAgrees(t, i, j);
      assert RowContinues(t[i], u[i]) && RowContinues(t[j], u[j]);
    }
  }

  lemma RefusedRefreshOnlyRevokes(t: Table, s: Settings, r: RefreshRequest, id: SessionId)
    requires Inv(t) && !RefreshOutcomeOf(t, s, r).Rotate? && id in t
    ensures Next(t, s, RefreshToken(r)).Keys == t.Keys && OnlyRevoked(t[id], Next(t, s, RefreshToken(r))[id])
  {
    assert RowIsSound(t, id);
  }

  lemma SignOutsOnlyRevoke(t: Table, s: Settings, e: Event, id: SessionId)
    requires Inv(t) && (e.SignOut? || e.SignOutAll?) && id in t
    ensures Next(t, s, e).Keys == t.Keys && OnlyRevoked(t[id], Next(t, s, e)[id])
  {
    assert RowIsSound(t, id);
  }

  lemma OtherRequestsOnlyRevoke(t: Table, s: Settings, e: Event, id: SessionId)
    requires Inv(t) && !e.SignIn? && !e.RefreshToken? && id in t
    ensures Next(t, s, e).Keys == t.Keys && OnlyRevoked(t[id], Next(t, s, e)[id])
  {
    if e.SignOut? || e.SignOutAll? {
      SignOutsOnlyRevoke(t, s, e, id);
    } else {
      assert RowIsSound(t, id);
    }
  }

  /** Every request that adds no row only revokes rows or forgets push tokens. */
  lemma AddingNoRowKeepsInv(t: Table, s: Settings, e: Event)
    requires Inv(t) && Fresh(t, e) && !e.SignIn? && !(e.RefreshToken? && RefreshOutcomeOf(t, s, e.request).Rotate?)
    ensures Inv(Next(t, s, e))
  {
    var u := Next(t, s, e);
    NextContinues(t, s, e);
    forall id | id in t
      ensures u.Keys == t.Keys && OnlyRevoked(t[id], u[id])
    {
      if e.RefreshToken? {
        RefusedRefreshOnlyRevokes(t, s, e.request, id);
      } else {
        OtherRequestsOnlyRevoke(t, s, e, id);
      }
    }
    assert u.Keys == t.Keys;
    RevokingKeepsInv(t, u);
  }

  lemma NextKeepsInv(t: Table, s: Settings, e: Event)
    requires Inv(t) && Fresh(t, e)
    ensures Inv(Next(t, s, e))
  {
    if e.SignIn? {
      SignInKeepsInv(t, s, e);
    } else if e.RefreshToken? && RefreshOutcomeOf(t, s, e.request).Rotate? {
      var id := RefreshOutcomeOf(t, s, e.request).id;
      RotationTakesOver(t, s, e.request, id);
      TakingOverKeepsInv(t, Next(t, s, e), id, e.request.newId);
    } else {
      AddingNoRowKeepsInv(t, s, e);
    }
  }

  // --- runs -----------------------------------------------------------------------------

  ghost predicate FreshRun(t: Table, s: Settings, events: seq<Event>)
    decreases |events|
  {
    events != [] ==> Fresh(t, events[0]) && FreshRun(Next(t, s, events[0]), s, events[1..])
  }

  function Run(t: Table, s: Settings, events: seq<Event>): Table
    decreases |events|
  {
    if events == [] then t else Run(Next(t, s, events[0]), s, events[1..])
  }

  lemma {:induction false} RunKeepsInv(t: Table, s: Settings, events: seq<Event>)
    requires Inv(t) && FreshRun(t, s, events)
    ensures Inv(Run(t, s, events))
    decreases |events|
  {
    if events != [] {
      NextKeepsInv(t, s, events[0]);
      RunKeepsInv(Next(t, s, events[0]), s, events[1..]);
    }
  }

  lemma ContinuesTransitively(t: Table, u: Table, v: Table)
    requires Continues(t, u) && Continues(u, v)
    ensures Continues(t, v)
  {
    forall id | id in t
      ensures RowContinues(t[id], v[id])
    {
      assert RowContinues(t[id], u[id]) && RowContinues(u[id], v[id]);
    }
  }

  /** Over any run sessions are never deleted, never change owner, channel, kind or family, and the
      first revocation of a session fixes its time, reason and rotation for good. */
  lemma {:induction false} RunContinues(t: Table, s: Settings, events: seq<Event>)
    requires FreshRun(t, s, events)
    ensures Continues(t, Run(t, s, events))
    decreases |events|
  {
    if events != [] {
      var u := Next(t, s, events[0]);
      NextContinues(t, s, events[0]);
      RunContinues(u, s, events[1..]);
      ContinuesTransitively(t, u, Run(u, s, events[1..]));
    }
  }

  // --- families -------------------------------------------------------------------------

  /** No session of the family is live. */
  ghost predicate Dead(t: Table, family: SessionId) {
    family in t && forall id :: id in t && Family(t, id) == family ==> !t[id].Live()
  }

  lemma NewRowIsInALiveFamily(t: Table, s: Settings, e: Event, id: SessionId)
    requires Inv(t) && Fresh(t, e) && id in Next(t, s, e) && id !in t
    ensures var family := Family(Next(t, s, e), id);
            family !in t || exists live :: live in t && Family(t, live) == family && t[live].Live()
  {
    if e.RefreshToken? {
      var live := RefreshOutcomeOf(t, s, e.request).id;
      RotationTakesOver(t, s, e.request, live);
    }
  }

  lemma {:induction false} NextKeepsDead(t: Table, s: Settings, e: Event, family: SessionId)
    requires Inv(t) && Fresh(t, e) && Dead(t, family)
    ensures Dead(Next(t, s, e), family)
  {
    var u := Next(t, s, e);
    NextContinues(t, s, e);
    forall id | id in u && Family(u, id) == family
      ensures !u[id].Live()
    {
      if id in t {
        assert RowContinues(t[id], u[id]);
      } else {
        NewRowIsInALiveFamily(t, s, e, id);
      }
    }
  }

  /** A family with no live session never gains one again. */
  lemma {:induction false} DeadFamilyStaysDead(t: Table, s: Settings, events: seq<Event>, family: SessionId)
    requires Inv(t) && FreshRun(t, s, events) && Dead(t, family)
    ensures Dead(Run(t, s, events), family)
    decreases |events|
  {
    if events != [] {
      NextKeepsDead(t, s, events[0], family);
      NextKeepsInv(t, s, events[0]);
      DeadFamilyStaysDead(Next(t, s, events[0]), s, events[1..], family);
    }
  }

  lemma DeadFamilyIsRefused(t: Table, family: SessionId, token: Token, allowed: set<SessionType>,
                            channel: Option<Channel>, account: Account, now: Micros)
    requires Dead(t, family)
    requires token.sessionId in t ==> Family(t, token.sessionId) == family
    ensures AccessError(t, Some(Signed(token)), allowed, channel, account, now).Some?
  {
  }

  /** In every reachable state a family has at most one unrevoked session. */
  lemma AtMostOneLiveSession(s: Settings, events: seq<Event>, i: SessionId, j: SessionId)
    requires FreshRun(map[], s, events)
    requires var t := Run(map[], s, events);
             i in t && j in t && Family(t, i) == Family(t, j) && t[i].Live() && t[j].Live()
    ensures i == j
  {
    RunKeepsInv(map[], s, events);
    var t := Run(map[], s, events);
    assert FamilyAgrees(t, i, j);
  }

  // --- replay ---------------------------------------------------------------------------

  /** A well-formed refresh with the very token session `id` was issued. */
  predicate PresentsTokenOf(t: Table, r: RefreshRequest, id: SessionId) {
    && id in t && r.presented == Signed(t[id].token) && t[id].token.Refresh?
    && t[id].token.sessionId == id && t[id].token.sub == t[id].user
    && !Expired(t[id].token, r.now) && t[id].token.channel == r.channel
    && RefreshedType(t[id], t[id].token) in r.allowed
  }

  /** Presenting a rotated token again ends its family exactly when the grace period is over; until
      then the family is left as it was, so two requests that race with one token do no harm. */
  lemma ReplayEndsFamilyIffPastGrace(t: Table, s: Settings, r: RefreshRequest, id: SessionId, live: SessionId)
    requires Inv(t) && PresentsTokenOf(t, r, id) && t[id].rotatedAt.Some?
    requires live in t && t[live].Live() && Family(t, live) == Family(t, id)
    ensures Dead(Next(t, s, RefreshToken(r)), Family(t, id)) <==>
        r.now > t[id].rotatedAt.value + s.graceSeconds * SECOND
    ensures r.now <= t[id].rotatedAt.value + s.graceSeconds * SECOND ==> Next(t, s, RefreshToken(r)) == t
    ensures ReplyTo(t, s, RefreshToken(r)) == Error(SESSION_REVOKED)
  {
    var u := Next(t, s, RefreshToken(r));
    var family := Family(t, id);
    assert RowIsSound(t, id);
    if IsReplay(s, t[id], r.now) {
      forall i | i in u && Family(u, i) == family
        ensures !u[i].Live()
      {
        assert RowIsSound(t, i);
        assert i in Members(t, family);
      }
    } else {
      assert u == t;
      assert Family(u, live) == family && u[live].Live();
    }
  }

  lemma ReplayKillsFamily(t: Table, s: Settings, r: RefreshRequest, id: SessionId)
    requires Inv(t) && PresentsTokenOf(t, r, id) && IsReplay(s, t[id], r.now)
    ensures Dead(Next(t, s, RefreshToken(r)), Family(t, id))
  {
    var u := Next(t, s, RefreshToken(r));
    var family := Family(t, id);
    assert RowIsSound(t, id);
    forall i | i in u && Family(u, i) == family
      ensures !u[i].Live()
    {
      assert RowIsSound(t, i);
      assert i in Members(t, family);
    }
  }

  /** After a refresh token is replayed past the grace window, no access token of that sign-in is ever
      accepted again, whatever happens next: no later refresh, sign-in or revocation revives it. */
  lemma ReplayEndsTheSignIn(t: Table, s: Settings, r: RefreshRequest, id: SessionId, later: seq<Event>,
                            access: Token, allowed: set<SessionType>, channel: Option<Channel>, account: Account,
                                now: Micros)
    requires Inv(t) && PresentsTokenOf(t, r, id) && IsReplay(s, t[id], r.now) && r.newId !in t
    requires FreshRun(Next(t, s, RefreshToken(r)), s, later)
    requires var u := Run(Next(t, s, RefreshToken(r)), s, later);
             access.sessionId in u ==> Family(u, access.sessionId) == Family(t, id)
    ensures AccessError(Run(Next(t, s, RefreshToken(r)), s, later), Some(Signed(access)), allowed, channel, account,
                        now).Some?
  {
    var killed := Next(t, s, RefreshToken(r));
    ReplayKillsFamily(t, s, r, id);
    NextKeepsInv(t, s, RefreshToken(r));
    DeadFamilyStaysDead(killed, s, later, Family(t, id));
    DeadFamilyIsRefused(Run(killed, s, later), Family(t, id), access, allowed, channel, account, now);
  }

  // --- one use per refresh token --------------------------------------------------------

  predicate Succeeds(t: Table, s: Settings, e: Event, token: Token) {
    e.RefreshToken? && e.request.presented == Signed(token) && ReplyTo(t, s, e).Issued?
  }

  function Successes(t: Table, s: Settings, events: seq<Event>, token: Token): nat
    decreases |events|
  {
    if events == [] then 0
    else (if Succeeds(t, s, events[0], token) then 1 else 0) + Successes(Next(t, s, events[0]), s, events[1..], token)
  }

  lemma {:induction false} SpentTokenNeverSucceeds(t: Table, s: Settings, events: seq<Event>, token: Token)
    requires FreshRun(t, s, events)
    requires token.sessionId in t && !t[token.sessionId].Live()
    ensures Successes(t, s, events, token) == 0
    decreases |events|
  {
    if events != [] {
      var u := Next(t, s, events[0]);
      NextContinues(t, s, events[0]);
      assert RowContinues(t[token.sessionId], u[token.sessionId]);
      SpentTokenNeverSucceeds(u, s, events[1..], token);
    }
  }

  /** Over a whole run every refresh token buys at most one new pair. */
  lemma {:induction false} RefreshTokenSucceedsAtMostOnce(t: Table, s: Settings, events: seq<Event>, token: Token)
    requires FreshRun(t, s, events)
    ensures Successes(t, s, events, token) <= 1
    decreases |events|
  {
    if events != [] {
      var u := Next(t, s, events[0]);
      if Succeeds(t, s, events[0], token) {
        SpentTokenNeverSucceeds(u, s, events[1..], token);
      } else {
        RefreshTokenSucceedsAtMostOnce(u, s, events[1..], token);
      }
    }
  }

  // --- kind, channel and owner ----------------------------------------------------------

  /** Refreshing never turns one kind of sign-in into another: whatever a run adds to the family of an
      existing session has that session's user, channel and kind, so no access token for a session of
      an onboarding family passes as a full one. */
  lemma FamilyKeepsItsKind(t: Table, s: Settings, events: seq<Event>, id: SessionId, later: SessionId,
                           access: Token, account: Account, now: Micros)
    requires Inv(t) && FreshRun(t, s, events) && id in t
    requires var u := Run(t, s, events); later in u && Family(u, later) == Family(t, id)
    ensures var u := Run(t, s, events);
            && u[later].user == t[id].user
            && u[later].token.channel == t[id].token.channel
            && EffectiveType(u[later]) == EffectiveType(t[id])
            && (u[later].sessionType.Some? && EffectiveType(t[id]) == ONBOARDING && access.sessionId == later ==>
                  AccessError(u, Some(Signed(access)), {ACCESS}, None, account, now).Some?)
  {
    var u := Run(t, s, events);
    RunKeepsInv(t, s, events);
    RunContinues(t, s, events);
    assert RowContinues(t[id], u[id]);
    assert FamilyAgrees(u, later, id);
  }

  // --- revocation -----------------------------------------------------------------------

  /** In every reachable state: rotation coincides with the reason ROTATED, a reason comes with a
      time, and a session revoked for a reason holds no push token. */
  lemma RevocationRecordsAgree(s: Settings, events: seq<Event>, id: SessionId)
    requires FreshRun(map[], s, events) && id in Run(map[], s, events)
    ensures var row := Run(map[], s, events)[id];
            && (row.rotatedAt.Some? <==> row.revokedReason == Some(ROTATED))
            && (row.revokedReason.Some? ==> !row.Live() && row.pushToken.None?)
  {
    RunKeepsInv(map[], s, events);
    assert RowIsSound(Run(map[], s, events), id);
  }

  ghost predicate RevokedHoldNoPush(t: Table) {
    forall id :: id in t && !t[id].Live() ==> t[id].pushToken.None?
  }

  lemma OtherRequestsClearPushTokens(t: Table, s: Settings, e: Event, id: SessionId)
    requires Fresh(t, e) && RevokedHoldNoPush(t) && !e.RevokeUsers?
    requires id in Next(t, s, e) && !Next(t, s, e)[id].Live()
    ensures Next(t, s, e)[id].pushToken.None?
  {
    if e.RefreshToken? {
      match RefreshOutcomeOf(t, s, e.request)
      case Refuse(_) =>
      case Mismatch(_) =>
      case Reuse(_) =>
      case Rotate(_) =>
    }
  }

  /** That revoked sessions hold no push token is kept by every request except the bulk revocation of the
      blocking routes, and by that one exactly when none of the live sessions it hits holds one. */
  lemma PushTokensAreClearedIff(t: Table, s: Settings, e: Event)
    requires Inv(t) && Fresh(t, e) && RevokedHoldNoPush(t)
    ensures RevokedHoldNoPush(Next(t, s, e)) <==>
      (e.RevokeUsers? ==> forall id :: id in t && t[id].user in e.users && t[id].Live() ==> t[id].pushToken.None?)
  {
    var u := Next(t, s, e);
    if e.RevokeUsers? {
      if RevokedHoldNoPush(u) {
        forall id | id in t && t[id].user in e.users && t[id].Live()
          ensures t[id].pushToken.None?
        {
          assert u[id].pushToken == t[id].pushToken && !u[id].Live();
        }
      }
    } else {
      forall id | id in u && !u[id].Live()
        ensures u[id].pushToken.None?
      {
        OtherRequestsClearPushTokens(t, s, e, id);
      }
    }
  }

  /** A blocked user's phone: one sign-in with a push token, then the bulk revocation. */
  lemma BulkRevocationLeavesAPushToken(s: Settings)
    ensures
      var device := Device(None, None, None, None, Some("fcm"));
      var run := [SignIn("u", MERCHANT, ACCESS, None, Some(device), "s", 0, 0), RevokeUsers({"u"}, 1)];
      && FreshRun(map[], s, run)
      && !RevokedHoldNoPush(Run(map[], s, run))
  {
    var device := Device(None, None, None, None, Some("fcm"));
    var first, second := SignIn("u", MERCHANT, ACCESS, None, Some(device), "s", 0, 0), RevokeUsers({"u"}, 1);
    assert [first, second][1..] == [second] && [second][1..] == [];
    var t := Next(map[], s, first);
    assert t["s"].pushToken == Some("fcm") && t["s"].Live();
    var u := Next(t, s, second);
    assert Run(map[], s, [first, second]) == Run(t, s, [second]) == Run(u, s, []) == u;
    assert "s" in u && !u["s"].Live() && u["s"].pushToken == Some("fcm");
  }

  /** Rotation moves the push token: the old session loses it, and the new one holds the token sent with
      the request, or else the very one the old session held. */
  lemma RotationMovesThePushToken(t: Table, s: Settings, r: RefreshRequest, id: SessionId)
    requires r.newId !in t && RefreshOutcomeOf(t, s, r) == Rotate(id)
    ensures var u := Next(t, s, RefreshToken(r));
            && u[id].pushToken.None?
            && u[r.newId].pushToken == (if r.device.Some? && IsText(r.device.value.fcmToken)
                                        then r.device.value.fcmToken else t[id].pushToken)
            && forall other :: other in t && other != id ==> u[other] == t[other]
  {
  }

  /** The session that stands for `id` after this event: its successor when the event rotates it. */
  function Successor(t: Table, s: Settings, id: SessionId, e: Event): SessionId {
    if e.RefreshToken? && RefreshOutcomeOf(t, s, e.request) == Rotate(id) then e.request.newId else id
  }

  /** The event neither sends another push token for the session nor reports its token as dead. */
  predicate LeavesPushToken(t: Table, s: Settings, id: SessionId, e: Event)
    requires id in t
  {
    && (Successor(t, s, id, e) != id ==> !(e.request.device.Some? && IsText(e.request.device.value.fcmToken)))
    && (e.ForgetPush? ==> t[id].pushToken != Some(e.pushToken))
  }

  /** The session that stands for `id` at the end of a run. */
  function LastSuccessor(t: Table, s: Settings, id: SessionId, events: seq<Event>): SessionId
    decreases |events|
  {
    if events == [] then id else LastSuccessor(Next(t, s, events[0]), s, Successor(t, s, id, events[0]), events[1..])
  }

  /** All through the run the sign-in is alive and nothing replaces or kills its push token. */
  ghost predicate StaysSignedIn(t: Table, s: Settings, id: SessionId, events: seq<Event>)
    decreases |events|
  {
    && id in t && t[id].Live()
    && (events != [] ==>
          && LeavesPushToken(t, s, id, events[0])
          && StaysSignedIn(Next(t, s, events[0]), s, Successor(t, s, id, events[0]), events[1..]))
  }

  lemma PushTokenStays(t: Table, s: Settings, id: SessionId, e: Event)
    requires Fresh(t, e) && id in t && LeavesPushToken(t, s, id, e)
    requires var next := Successor(t, s, id, e); next in Next(t, s, e) && Next(t, s, e)[next].Live()
    ensures Next(t, s, e)[Successor(t, s, id, e)].pushToken == t[id].pushToken
  {
    if e.RefreshToken? {
      match RefreshOutcomeOf(t, s, e.request)
      case Rotate(rotated) => RotationMovesThePushToken(t, s, e.request, rotated);
      case Refuse(_) =>
      case Mismatch(_) =>
      case Reuse(_) =>
    }
  }

  /** A push token follows its sign-in: however often the session is refreshed, and whatever else happens, the
      session that stands for it holds the very token it was signed in with, until a refresh sends another,
      delivery reports it dead, or the sign-in ends. */
  lemma {:induction false} PushTokenFollowsTheSignIn(t: Table, s: Settings, id: SessionId, events: seq<Event>)
    requires FreshRun(t, s, events) && StaysSignedIn(t, s, id, events)
    ensures var last := LastSuccessor(t, s, id, events);
            last in Run(t, s, events) && Run(t, s, events)[last].pushToken == t[id].pushToken
    decreases |events|
  {
    if events != [] {
      PushTokenStays(t, s, id, events[0]);
      PushTokenFollowsTheSignIn(Next(t, s, events[0]), s, Successor(t, s, id, events[0]), events[1..]);
    }
  }

  /** A session that holds a push token is the only one of its family to do so, and if it has ended, so have
      the others. */
  ghost predicate PushAgrees(t: Table, i: SessionId, j: SessionId)
    requires i in t && j in t
  {
    Family(t, i) == Family(t, j) && t[i].pushToken.Some? ==>
      (i != j ==> t[j].pushToken.None?) && (t[i].Live() || !t[j].Live())
  }

  ghost predicate PushIsHeldOnce(t: Table) {
    forall i, j :: i in t && j in t ==> PushAgrees(t, i, j)
  }

  lemma RotationKeepsPush(t: Table, u: Table, id: SessionId, newId: SessionId, i: SessionId, j: SessionId)
    requires Inv(t) && PushIsHeldOnce(t) && TakesOver(t, u, id, newId) && i in u && j in u
    ensures PushAgrees(u, i, j)
  {
    TakingOverKeepsFamilies(t, u, id, newId, i);
    TakingOverKeepsFamilies(t, u, id, newId, j);
    var i', j' := if i == newId then id else i, if j == newId then id else j;
    assert FamilyAgrees(t, i', j') && FamilyAgrees(t, i', id) && FamilyAgrees(t, j', id);
    assert PushAgrees(t, i', id) && PushAgrees(t, j', id) && PushAgrees(t, i', j');
  }

  /** Without a new row tokens only disappear, and a session that ends with its token still there was ended
      with all of its owner's. */
  lemma LosingKeepsPush(t: Table, u: Table, i: SessionId, j: SessionId)
    requires Inv(t) && PushIsHeldOnce(t) && Continues(t, u) && u.Keys == t.Keys && i in t && j in t
    requires forall id :: id in t ==>
      (u[id].pushToken.Some? ==> t[id].pushToken.Some?) && (u[id].Live() ==> t[id].Live())
    requires u[i].pushToken.Some? && t[i].Live() && !u[i].Live() && t[j].user == t[i].user ==> !u[j].Live()
    ensures PushAgrees(u, i, j)
  {
    assert PushAgrees(t, i, j) && FamilyAgrees(t, i, j);
    assert RowContinues(t[i], u[i]) && RowContinues(t[j], u[j]);
  }

  lemma RowOnlyLosesPush(t: Table, s: Settings, e: Event, id: SessionId)
    requires !e.SignIn? && !(e.RefreshToken? && RefreshOutcomeOf(t, s, e.request).Rotate?) && id in t
    ensures var u := Next(t, s, e);
            && u.Keys == t.Keys
            && (u[id].pushToken.Some? ==> t[id].pushToken.Some?) && (u[id].Live() ==> t[id].Live())
            && (u[id].pushToken.Some? && t[id].Live() && !u[id].Live() ==> e.RevokeUsers? && t[id].user in e.users)
  {
    if e.RefreshToken? {
      match RefreshOutcomeOf(t, s, e.request)
      case Refuse(_) =>
      case Mismatch(_) =>
      case Reuse(_) =>
    }
  }

  lemma NextKeepsPush(t: Table, s: Settings, e: Event)
    requires Inv(t) && PushIsHeldOnce(t) && Fresh(t, e)
    ensures PushIsHeldOnce(Next(t, s, e))
  {
    var u := Next(t, s, e);
    NextContinues(t, s, e);
    if e.SignIn? {
      SignInKeepsPush(t, s, e);
    } else if e.RefreshToken? && RefreshOutcomeOf(t, s, e.request).Rotate? {
      var id := RefreshOutcomeOf(t, s, e.request).id;
      RotationTakesOver(t, s, e.request, id);
      forall i, j | i in u && j in u
        ensures PushAgrees(u, i, j)
      {
        RotationKeepsPush(t, u, id, e.request.newId, i, j);
      }
    } else {
      forall id | id in t
        ensures u.Keys == t.Keys && (u[id].pushToken.Some? ==> t[id].pushToken.Some?) && (u[id].Live() ==> t[id].Live())
        ensures u[id].pushToken.Some? && t[id].Live() && !u[id].Live() ==> e.RevokeUsers? && t[id].user in e.users
      {
        RowOnlyLosesPush(t, s, e, id);
      }
      assert u.Keys == t.Keys;
      forall i, j | i in u && j in u
        ensures PushAgrees(u, i, j)
      {
        LosingKeepsPush(t, u, i, j);
      }
    }
  }

  lemma SignInKeepsPush(t: Table, s: Settings, e: Event)
    requires Inv(t) && PushIsHeldOnce(t) && Fresh(t, e) && e.SignIn?
    ensures PushIsHeldOnce(Next(t, s, e))
  {
    var u := Next(t, s, e);
    forall i, j | i in u && j in u
      ensures PushAgrees(u, i, j)
    {
      if i in t {
        assert RowIsSound(t, i);
      }
      if j in t {
        assert RowIsSound(t, j);
      }
      if i in t && j in t {
        assert PushAgrees(t, i, j);
      }
    }
  }

  lemma {:induction false} RunKeepsPush(t: Table, s: Settings, events: seq<Event>)
    requires Inv(t) && PushIsHeldOnce(t) && FreshRun(t, s, events)
    ensures PushIsHeldOnce(Run(t, s, events))
    decreases |events|
  {
    if events != [] {
      NextKeepsPush(t, s, events[0]);
      NextKeepsInv(t, s, events[0]);
      RunKeepsPush(Next(t, s, events[0]), s, events[1..]);
    }
  }

  /** In every reachable state at most one session of a family holds a push token, and one that has ended only
      holds it when the whole family has. */
  lemma FamilyHoldsOnePushToken(s: Settings, events: seq<Event>, i: SessionId, j: SessionId)
    requires FreshRun(map[], s, events)
    requires var t := Run(map[], s, events);
             i in t && j in t && Family(t, i) == Family(t, j) && t[i].pushToken.Some?
    ensures var t := Run(map[], s, events);
            && (t[j].pushToken.Some? ==> i == j)
            && (t[j].Live() ==> t[i].Live())
  {
    RunKeepsPush(map[], s, events);
    assert PushAgrees(Run(map[], s, events), i, j);
  }

  lemma FamilyIsTheOwners(t: Table, u: Table, id: SessionId)
    requires Inv(u) && Continues(t, u) && id in u && Family(u, id) in t
    ensures var family := Family(u, id);
            Family(t, family) == family && t[family].user == u[id].user
  {
    var family := Family(u, id);
    assert RowIsSound(u, id) && FamilyAgrees(u, family, id);
    assert RowContinues(t[family], u[family]);
  }

  lemma SignOutAllEndsFamilies(t: Table, s: Settings, e: Event, family: SessionId)
    requires Inv(t) && e.SignOutAll? && ReplyTo(t, s, e) == NoContent
    requires family in t && Family(t, family) == family && t[family].user == e.presented.token.sub
    ensures Dead(Next(t, s, e), family)
  {
    var ended := Next(t, s, e);
    forall i | i in ended && Family(ended, i) == family
      ensures !ended[i].Live()
    {
      assert FamilyAgrees(t, i, family);
    }
  }

  lemma OldRowsKeepTheirFamily(t: Table, u: Table, id: SessionId)
    requires Inv(t) && Continues(t, u)
    ensures id in t ==> id in u && Family(u, id) in t
  {
    if id in t {
      assert RowIsSound(t, id) && RowContinues(t[id], u[id]);
    }
  }

  lemma AcceptedAccessIsLive(t: Table, access: Token, allowed: set<SessionType>, channel: Option<Channel>,
                             account: Account, now: Micros)
    requires AccessError(t, Some(Signed(access)), allowed, channel, account, now).None?
    ensures access.sessionId in t && t[access.sessionId].Live() && t[access.sessionId].user == access.sub
  {
  }

  /** No live session of the user is of a family from before the sign-out. */
  lemma LiveFamilyIsNew(t: Table, s: Settings, e: Event, later: seq<Event>, id: SessionId)
    requires Inv(t) && e.SignOutAll? && ReplyTo(t, s, e) == NoContent
    requires FreshRun(Next(t, s, e), s, later)
    requires var u := Run(Next(t, s, e), s, later); id in u && u[id].Live() && u[id].user == e.presented.token.sub
    ensures Family(Run(Next(t, s, e), s, later), id) !in t
  {
    var ended := Next(t, s, e);
    var u := Run(ended, s, later);
    var family := Family(u, id);
    if family in t {
      NextKeepsInv(t, s, e);
      RunContinues(ended, s, later);
      RunKeepsInv(ended, s, later);
      NextContinues(t, s, e);
      ContinuesTransitively(t, ended, u);
      FamilyIsTheOwners(t, u, id);
      SignOutAllEndsFamilies(t, s, e, family);
      DeadFamilyStaysDead(ended, s, later, family);
      assert false;
    }
  }

  /** After a successful "sign out everywhere" every access token that validates for the user belongs to
      a sign-in made afterwards. */
  lemma SignOutEverywhereIsFinal(t: Table, s: Settings, e: Event, later: seq<Event>, access: Token,
                                 allowed: set<SessionType>, channel: Option<Channel>, account: Account, now: Micros)
    requires Inv(t) && e.SignOutAll? && ReplyTo(t, s, e) == NoContent
    requires FreshRun(Next(t, s, e), s, later)
    requires access.sub == e.presented.token.sub
    requires AccessError(Run(Next(t, s, e), s, later), Some(Signed(access)), allowed, channel, account, now).None?
    ensures var u := Run(Next(t, s, e), s, later);
            && access.sessionId in u && access.sessionId !in t
            && Family(u, access.sessionId) !in t
  {
    var ended := Next(t, s, e);
    var u := Run(ended, s, later);
    NextContinues(t, s, e);
    RunContinues(ended, s, later);
    ContinuesTransitively(t, ended, u);
    OldRowsKeepTheirFamily(t, u, access.sessionId);
    AcceptedAccessIsLive(u, access, allowed, channel, account, now);
    LiveFamilyIsNew(t, s, e, later, access.sessionId);
  }

  /** Tables from before rotation existed are sound too: each row its own family, nothing rotated. */
  lemma LegacyTableIsSound(t: Table)
    requires forall id :: id in t ==>
      && t[id].token.Refresh? && t[id].token.sessionId == id && t[id].token.sub == t[id].user
      && t[id].channel.None? && t[id].sessionType.None? && t[id].familyId.None?
      && t[id].rotatedAt.None? && t[id].revokedReason.None?
    ensures Inv(t)
  {
  }

  // --- requests that overlap ------------------------------------------------------------

  /** A sign-out that has found its session live and writes without looking again. */
  function WrittenLate(t: Table, id: SessionId, reason: Reason, now: Micros): Table
    requires id in t
  {
    t[id := t[id].(revokedAt := Some(now), revokedReason := Some(reason), pushToken := None)]
  }

  /** The late write is the sign-out it was meant to be, and leaves the first revocation in place, exactly when
      the session is still live when it is made, or was ended at that very time for that very reason. */
  lemma LateWriteIsSoundIff(t: Table, id: SessionId, reason: Reason, now: Micros)
    requires id in t
    ensures t[id].Live() ==> WrittenLate(t, id, reason, now) == t[id := Revoked(t[id], reason, now)]
    ensures RowContinues(t[id], WrittenLate(t, id, reason, now)[id]) <==>
              t[id].Live() || (t[id].revokedAt == Some(now) && t[id].revokedReason == Some(reason))
  {
  }

  /** A sign-out that looks before a refresh of the same session and writes after it: the sign-out was allowed,
      the reason ROTATED is gone although the session was rotated, and the successor lives on. */
  lemma RacingSignOutMissesTheSuccessor(t: Table, s: Settings, r: RefreshRequest, id: SessionId, now: Micros)
    requires Inv(t) && r.newId !in t && RefreshOutcomeOf(t, s, r) == Rotate(id)
    ensures SignOutTarget(t, r.presented, Some(r.channel), r.now) == Some(id)
    ensures var u := WrittenLate(Next(t, s, RefreshToken(r)), id, LOGOUT, now);
            && u[id].rotatedAt.Some? && u[id].revokedReason == Some(LOGOUT) && !RowIsSound(u, id)
            && Family(u, r.newId) == Family(t, id) && u[r.newId].Live()
  {
    RotationTakesOver(t, s, r, id);
    LateWriteAfterTakingOver(t, Next(t, s, RefreshToken(r)), id, r.newId, now);
  }

  lemma LateWriteAfterTakingOver(t: Table, u: Table, id: SessionId, newId: SessionId, now: Micros)
    requires Inv(t) && TakesOver(t, u, id, newId)
    ensures var late := WrittenLate(u, id, LOGOUT, now);
            && late[id].rotatedAt.Some? && late[id].revokedReason == Some(LOGOUT) && !RowIsSound(late, id)
            && Family(late, newId) == Family(t, id) && late[newId].Live()
  {
  }
}
