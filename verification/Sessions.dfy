/** Sign-in sessions: the `login_sessions` table and the requests that change it.

    Each request is one transaction over the table, with the clock read once. Tokens are unforgeable
    values, so a presented token is either unreadable or one the server signed; its hash is the token
    itself. Ids and secrets drawn at random are inputs. */
module Sessions {
  import opened Clock
  import opened Wrappers

  type UserId = string
  type SessionId = string

  datatype Channel = CUSTOMER | DELIVERY | MERCHANT | ADMIN
  datatype SessionType = ACCESS | ONBOARDING
  datatype Reason = ROTATED | LOGOUT | LOGOUT_ALL | REFRESH_TOKEN_MISMATCH | REFRESH_TOKEN_REUSED | ADMIN_REVOKED

  /** The claims of a signed token; `exp` is in whole seconds. */
  datatype Token =
    | Access(sub: UserId, sessionId: SessionId, sessionType: SessionType, channel: Channel, exp: int)
    | Refresh(sub: UserId, sessionId: SessionId, claimedType: Option<SessionType>, channel: Channel, exp: int,
              secret: nat)

  datatype Presented = Unreadable | Signed(token: Token)

  datatype Device = Device(deviceId: Option<string>, deviceType: Option<string>, deviceName: Option<string>,
                           appVersion: Option<string>, fcmToken: Option<string>)

  /** One row. Rows older than the columns leave `channel`, `sessionType` and `familyId` null. */
  datatype Session = Session(
    user: UserId,
    token: Token,
    channel: Option<Channel>,
    sessionType: Option<SessionType>,
    familyId: Option<SessionId>,
    deviceId: Option<string>,
    deviceType: Option<string>,
    deviceName: Option<string>,
    appVersion: Option<string>,
    pushToken: Option<string>,
    expiresAt: Option<Micros>,
    rotatedAt: Option<Micros>,
    revokedAt: Option<Micros>,
    revokedReason: Option<Reason>)
  {
    predicate Live() {
      revokedAt.None?
    }
  }

  type Table = map<SessionId, Session>

  datatype Settings = Settings(accessMinutes: nat, refreshDays: nat, graceSeconds: nat)

  /** What the account resolver says about the user, for the session type at hand. */
  datatype Account = Missing | Denied(code: string) | Permitted

  datatype ErrorCode =
    | AUTH_REQUIRED | TOKEN_EXPIRED | TOKEN_INVALID | TOKEN_TYPE_NOT_ALLOWED | TOKEN_CHANNEL_MISMATCH
    | SESSION_REVOKED | SESSION_EXPIRED | SESSION_NOT_FOUND | ACCOUNT_DENIED(code: string)

  datatype Reply =
    | Issued(access: Token, refresh: Token)
    | Error(code: ErrorCode)
    | NoContent

  datatype RefreshRequest = RefreshRequest(
    presented: Presented, channel: Channel, allowed: set<SessionType>, account: Account,
    device: Option<Device>, payloadDeviceId: Option<string>, newId: SessionId, secret: nat, now: Micros)

  datatype Event =
    | SignIn(user: UserId, channel: Channel, sessionType: SessionType, deviceId: Option<string>, device: Option<Device>,
             newId: SessionId, secret: nat, now: Micros)
    | RefreshToken(request: RefreshRequest)
    | SignOut(presented: Presented, onChannel: Option<Channel>, now: Micros)
    | SignOutAll(presented: Presented, channel: Channel, allowed: set<SessionType>, account: Account, now: Micros)
    | AdminRevoke(id: SessionId, now: Micros)
    | RevokeUsers(users: set<UserId>, now: Micros)   // the bulk updates of the blocking routes
    | ForgetPush(pushToken: string)

  // --- pieces shared by the requests ----------------------------------------------------

  function Family(t: Table, id: SessionId): SessionId
    requires id in t
  {
    t[id].familyId.GetOr(id)
  }

  function EffectiveType(row: Session): SessionType {
    if row.sessionType.Some? then row.sessionType.value
    else if row.token.Refresh? && row.token.claimedType.Some? then row.token.claimedType.value
    else ACCESS
  }

  /** The type a refresh works with: the row's, else the presented token's claim, else a full session. */
  function RefreshedType(row: Session, token: Token): SessionType
    requires token.Refresh?
  {
    row.sessionType.GetOr(token.claimedType.GetOr(ACCESS))
  }

  predicate IsText(value: Option<string>) {
    value.Some? && value.value != ""
  }

  /** A value sent with this request, otherwise the value of the session being rotated. */
  function Pick(sent: Option<string>, previous: Option<string>): Option<string> {
    if IsText(sent) then sent else previous
  }

  function Revoked(row: Session, reason: Reason, now: Micros): Session {
    if row.Live() then row.(revokedAt := Some(now), revokedReason := Some(reason), pushToken := None)
    else row.(pushToken := None)
  }

  /** Bulk update: revoke the live rows among `ids`. */
  function RevokedAmong(t: Table, ids: set<SessionId>, reason: Reason, now: Micros): Table {
    map id | id in t :: if id in ids && t[id].Live() then Revoked(t[id], reason, now) else t[id]
  }

  /** The rows of a family: those that name it and the one it is named after. */
  function Members(t: Table, family: SessionId): set<SessionId> {
    set id | id in t && (t[id].familyId == Some(family) || id == family)
  }

  function OwnedBy(t: Table, users: set<UserId>): set<SessionId> {
    set id | id in t && t[id].user in users
  }

  function AccessTokenOf(s: Settings, user: UserId, id: SessionId, kind: SessionType, channel: Channel,
                         now: Micros): Token {
    Access(user, id, kind, channel, FloorSeconds(now + s.accessMinutes * 60 * SECOND))
  }

  function RefreshTokenOf(s: Settings, user: UserId, id: SessionId, kind: SessionType, channel: Channel, secret: nat,
                          now: Micros): Token {
    Refresh(user, id, Some(kind), channel, FloorSeconds(now + s.refreshDays * DAY), secret)
  }

  function NewRow(s: Settings, user: UserId, id: SessionId, kind: SessionType, channel: Channel, family: SessionId,
                  secret: nat,
                  deviceId: Option<string>, device: Option<Device>, previous: Option<Session>, now: Micros): Session
  {
    var sent := if device.Some? then device.value else Device(None, None, None, None, None);
    Session(user, RefreshTokenOf(s, user, id, kind, channel, secret, now), Some(channel), Some(kind), Some(family),
            deviceId,
            Pick(sent.deviceType, if previous.Some? then previous.value.deviceType else None),
            Pick(sent.deviceName, if previous.Some? then previous.value.deviceName else None),
            Pick(sent.appVersion, if previous.Some? then previous.value.appVersion else None),
            Pick(sent.fcmToken, if previous.Some? then previous.value.pushToken else None),
            Some(now + s.refreshDays * DAY), None, None, None)
  }

  predicate Expired(token: Token, now: Micros) {
    token.exp * SECOND <= now
  }

  // --- decisions ------------------------------------------------------------------------

  /** `validate_access_token`: the error raised, or none when the request may proceed. */
  function AccessError(t: Table, presented: Option<Presented>, allowed: set<SessionType>, channel: Option<Channel>,
                       account: Account, now: Micros): Option<ErrorCode>
  {
    match presented
    case None => Some(AUTH_REQUIRED)
    case Some(Unreadable) => Some(TOKEN_INVALID)
    case Some(Signed(token)) =>
      if Expired(token, now) then Some(TOKEN_EXPIRED)
      else if token.Refresh? then Some(TOKEN_TYPE_NOT_ALLOWED)
      else if channel.Some? && token.channel != channel.value then Some(TOKEN_CHANNEL_MISMATCH)
      else if token.sessionType !in allowed then Some(TOKEN_TYPE_NOT_ALLOWED)
      else if token.sessionId !in t || t[token.sessionId].user != token.sub then Some(SESSION_REVOKED)
      else
        var row := t[token.sessionId];
        if row.channel.Some? && row.channel.value != token.channel then Some(SESSION_REVOKED)
        else if row.sessionType.Some? && row.sessionType.value != token.sessionType then Some(SESSION_REVOKED)
        else if account.Missing? then Some(SESSION_REVOKED)
        else if account.Denied? then Some(ACCOUNT_DENIED(account.code))
        else if !row.Live() then Some(SESSION_REVOKED)
        else if row.expiresAt.Some? && row.expiresAt.value <= now then Some(SESSION_EXPIRED)
        else None
  }

  /** A refresh token that was rotated away is presented after its grace period. */
  predicate IsReplay(s: Settings, row: Session, now: Micros) {
    row.rotatedAt.Some? && row.rotatedAt.value + s.graceSeconds * SECOND < now
  }

  function NewDeviceId(r: RefreshRequest, row: Session): Option<string> {
    if r.device.Some? && IsText(r.device.value.deviceId) then r.device.value.deviceId
    else if IsText(r.payloadDeviceId) then r.payloadDeviceId
    else row.deviceId
  }

  /** The table after a successful refresh of session `id`. */
  function Rotated(t: Table, s: Settings, r: RefreshRequest, id: SessionId): Table
    requires id in t && r.presented.Signed? && r.presented.token.Refresh?
  {
    var row := t[id];
    var kind := RefreshedType(row, r.presented.token);
    var next := NewRow(s, row.user, r.newId, kind, r.channel, Family(t, id), r.secret, NewDeviceId(r, row), r.device,
                       Some(row), r.now);
    t[r.newId := next][id := Revoked(row.(rotatedAt := Some(r.now)), ROTATED, r.now)]
  }

  /** What a refresh request leads to, before anything is written. */
  datatype RefreshOutcome =
    | Refuse(code: ErrorCode)                            // nothing changes
    | Mismatch(id: SessionId)                            // this session is revoked
    | Reuse(id: SessionId)                               // its whole family is revoked
    | Rotate(id: SessionId)

  function RefreshOutcomeOf(t: Table, s: Settings, r: RefreshRequest): RefreshOutcome {
    match r.presented
    case Unreadable => Refuse(TOKEN_INVALID)
    case Signed(token) =>
      if Expired(token, r.now) then Refuse(SESSION_EXPIRED)
      else if token.Access? then Refuse(TOKEN_TYPE_NOT_ALLOWED)
      else if token.channel != r.channel then Refuse(TOKEN_CHANNEL_MISMATCH)
      else if token.sessionId !in t || t[token.sessionId].user != token.sub then Refuse(SESSION_REVOKED)
      else
        var row := t[token.sessionId];
        if RefreshedType(row, token) !in r.allowed then Refuse(TOKEN_TYPE_NOT_ALLOWED)
        else if token != row.token then Mismatch(token.sessionId)
        else if !row.Live() then if IsReplay(s, row, r.now) then Reuse(token.sessionId) else Refuse(SESSION_REVOKED)
        else if row.expiresAt.Some? && row.expiresAt.value <= r.now then Refuse(SESSION_EXPIRED)
        else if r.account.Missing? then Refuse(SESSION_REVOKED)
        else if r.account.Denied? then Refuse(ACCOUNT_DENIED(r.account.code))
        else Rotate(token.sessionId)
  }

  function SignOutTarget(t: Table, presented: Presented, onChannel: Option<Channel>, now: Micros): Option<SessionId> {
    match presented
    case Unreadable => None
    case Signed(token) =>
      if Expired(token, now) || token.Access? then None
      else if onChannel.Some? && token.channel != onChannel.value then None
      else if token.sessionId !in t || t[token.sessionId].token != token || !t[token.sessionId].Live() then None
      else Some(token.sessionId)
  }

  // --- one request ----------------------------------------------------------------------

  function Next(t: Table, s: Settings, e: Event): Table {
    match e
    case SignIn(user, channel, kind, deviceId, device, newId, secret, now) =>
      t[newId := NewRow(s, user, newId, kind, channel, newId, secret, deviceId, device, None, now)]
    case RefreshToken(r) =>
      (match RefreshOutcomeOf(t, s, r)
       case Refuse(_) => t
       case Mismatch(id) => t[id := Revoked(t[id], REFRESH_TOKEN_MISMATCH, r.now)]
       case Reuse(id) => RevokedAmong(t, Members(t, Family(t, id)), REFRESH_TOKEN_REUSED, r.now)
       case Rotate(id) => Rotated(t, s, r, id))
    case SignOut(presented, onChannel, now) =>
      (match SignOutTarget(t, presented, onChannel, now)
       case None => t
       case Some(id) => t[id := Revoked(t[id], LOGOUT, now)])
    case SignOutAll(presented, channel, allowed, account, now) =>
      if AccessError(t, Some(presented), allowed, Some(channel), account, now).Some? then t
      else RevokedAmong(t, OwnedBy(t, {presented.token.sub}), LOGOUT_ALL, now)
    case AdminRevoke(id, now) => if id in t && t[id].Live() then t[id := Revoked(t[id], ADMIN_REVOKED, now)] else t
    case RevokeUsers(users, now) =>
      map id | id in t :: if t[id].user in users && t[id].Live() then t[id].(revokedAt := Some(now)) else t[id]
    case ForgetPush(pushToken) =>
      map id | id in t :: if t[id].pushToken == Some(pushToken) then t[id].(pushToken := None) else t[id]
  }

  function ReplyTo(t: Table, s: Settings, e: Event): Reply {
    match e
    case SignIn(user, channel, kind, _, _, newId, secret, now) =>
      Issued(AccessTokenOf(s, user, newId, kind, channel, now),
             RefreshTokenOf(s, user, newId, kind, channel, secret, now))
    case RefreshToken(r) =>
      (match RefreshOutcomeOf(t, s, r)
       case Refuse(code) => Error(code)
       case Mismatch(_) => Error(SESSION_REVOKED)
       case Reuse(_) => Error(SESSION_REVOKED)
       case Rotate(id) =>
         var kind := RefreshedType(t[id], r.presented.token);
         Issued(AccessTokenOf(s, t[id].user, r.newId, kind, r.channel, r.now),
                RefreshTokenOf(s, t[id].user, r.newId, kind, r.channel, r.secret, r.now)))
    case SignOut(_, _, _) => NoContent
    case SignOutAll(presented, channel, allowed, account, now) =>
      (match AccessError(t, Some(presented), allowed, Some(channel), account, now)
       case Some(code) => Error(code)
       case None => NoContent)
    case AdminRevoke(id, _) => if id in t then NoContent else Error(SESSION_NOT_FOUND)
    case RevokeUsers(_, _) => NoContent
    case ForgetPush(_) => NoContent
  }

  /** The requests as the service performs them, one write after another. */
  class SessionService {
    const settings: Settings
    var rows: Table

    constructor (settings: Settings)
      ensures rows == map[] && this.settings == settings
    {
      this.settings := settings;
      rows := map[];
    }

    method IssueTokenPair(user: UserId, channel: Channel, deviceId: Option<string>, kind: SessionType,
                          familyId: Option<SessionId>,
                          device: Option<Device>, previous: Option<Session>, newId: SessionId, secret: nat, now: Micros)
      returns (reply: Reply)
      modifies this`rows
      ensures rows == old(rows)[newId := NewRow(settings, user, newId, kind, channel, familyId.GetOr(newId), secret,
                                                deviceId, device, previous, now)]
      ensures reply == Issued(AccessTokenOf(settings, user, newId, kind, channel, now),
                              RefreshTokenOf(settings, user, newId, kind, channel, secret, now))
    {
      var accessExp := FloorSeconds(now + settings.accessMinutes * 60 * SECOND);
      var refreshExp := now + settings.refreshDays * DAY;
      var access := Access(user, newId, kind, channel, accessExp);
      var refresh := Refresh(user, newId, Some(kind), channel, FloorSeconds(refreshExp), secret);
      var deviceType, deviceName, appVersion, pushToken := None, None, None, None;
      if previous.Some? {
        deviceType, deviceName := previous.value.deviceType, previous.value.deviceName;
        appVersion, pushToken := previous.value.appVersion, previous.value.pushToken;
      }
      if device.Some? {
        deviceType, deviceName := Pick(device.value.deviceType, deviceType), Pick(device.value.deviceName, deviceName);
        appVersion, pushToken := Pick(device.value.appVersion, appVersion), Pick(device.value.fcmToken, pushToken);
      }
      rows := rows[newId := Session(user, refresh, Some(channel), Some(kind), Some(familyId.GetOr(newId)), deviceId,
                                    deviceType, deviceName, appVersion, pushToken, Some(refreshExp), None, None, None)];
      return Issued(access, refresh);
    }

    method Revoke(id: SessionId, reason: Reason, now: Micros)
      requires id in rows
      modifies this`rows
      ensures rows == old(rows)[id := Revoked(old(rows)[id], reason, now)]
    {
      if rows[id].revokedAt.None? {
        rows := rows[id := rows[id].(revokedAt := Some(now), revokedReason := Some(reason))];
      }
      rows := rows[id := rows[id].(pushToken := None)];
    }

    /** The sign-in at the end of a verified code. */
    method CompleteSignIn(user: UserId, channel: Channel, kind: SessionType, deviceId: Option<string>,
                          device: Option<Device>, newId: SessionId, secret: nat, now: Micros)
      returns (reply: Reply)
      modifies this`rows
      ensures var e := SignIn(user, channel, kind, deviceId, device, newId, secret, now);
              rows == Next(old(rows), settings, e) && reply == ReplyTo(old(rows), settings, e)
    {
      reply := IssueTokenPair(user, channel, deviceId, kind, None, device, None, newId, secret, now);
    }

    method RefreshSession(r: RefreshRequest) returns (reply: Reply)
      requires r.newId !in rows
      modifies this`rows
      ensures rows == Next(old(rows), settings, RefreshToken(r))
      ensures reply == ReplyTo(old(rows), settings, RefreshToken(r))
    {
      if r.presented.Unreadable? {
        return Error(TOKEN_INVALID);
      }
      var token := r.presented.token;
      if Expired(token, r.now) {
        return Error(SESSION_EXPIRED);
      }
      if token.Access? {
        return Error(TOKEN_TYPE_NOT_ALLOWED);
      }
      if token.channel != r.channel {
        return Error(TOKEN_CHANNEL_MISMATCH);
      }
      var id := token.sessionId;
      if id !in rows || rows[id].user != token.sub {
        return Error(SESSION_REVOKED);
      }
      var row := rows[id];
      var kind := row.sessionType.GetOr(token.claimedType.GetOr(ACCESS));
      if kind !in r.allowed {
        return Error(TOKEN_TYPE_NOT_ALLOWED);
      }
      if token != row.token {
        Revoke(id, REFRESH_TOKEN_MISMATCH, r.now);
        return Error(SESSION_REVOKED);
      }
      if row.revokedAt.Some? {
        reply := HandleRevokedRefresh(id, r.now);
        return;
      }
      if row.expiresAt.Some? && row.expiresAt.value <= r.now {
        return Error(SESSION_EXPIRED);
      }
      if r.account.Missing? {
        return Error(SESSION_REVOKED);
      }
      if r.account.Denied? {
        return Error(ACCOUNT_DENIED(r.account.code));
      }
      reply := IssueTokenPair(row.user, r.channel, NewDeviceId(r, row), kind, Some(row.familyId.GetOr(id)), r.device,
                              Some(row), r.newId, r.secret, r.now);
      // Revoked only after the device details were copied: revoking clears the old push token.
      rows := rows[id := rows[id].(rotatedAt := Some(r.now))];
      Revoke(id, ROTATED, r.now);
    }

    method HandleRevokedRefresh(id: SessionId, now: Micros) returns (reply: Reply)
      requires id in rows
      modifies this`rows
      ensures rows == if IsReplay(settings, old(rows)[id], now)
                      then RevokedAmong(old(rows), Members(old(rows), Family(old(rows), id)), REFRESH_TOKEN_REUSED, now)
                      else old(rows)
      ensures reply == Error(SESSION_REVOKED)
    {
      var rotatedAt := rows[id].rotatedAt;
      if rotatedAt.Some? && rotatedAt.value + settings.graceSeconds * SECOND < now {
        var family := rows[id].familyId.GetOr(id);
        rows := RevokedAmong(rows, Members(rows, family), REFRESH_TOKEN_REUSED, now);
      }
      return Error(SESSION_REVOKED);
    }

    method Logout(presented: Presented, onChannel: Option<Channel>, now: Micros)
      modifies this`rows
      ensures rows == Next(old(rows), settings, SignOut(presented, onChannel, now))
    {
      if presented.Unreadable? || Expired(presented.token, now) || presented.token.Access? {
        return;
      }
      var token := presented.token;
      if onChannel.Some? && token.channel != onChannel.value {
        return;
      }
      if token.sessionId !in rows || rows[token.sessionId].token != token {
        return;
      }
      if rows[token.sessionId].revokedAt.None? {
        Revoke(token.sessionId, LOGOUT, now);
      }
    }

    method ValidateAccessToken(presented: Option<Presented>, allowed: set<SessionType>, channel: Option<Channel>,
                               account: Account, now: Micros)
      returns (error: Option<ErrorCode>)
      ensures error == AccessError(rows, presented, allowed, channel, account, now)
    {
      if presented.None? {
        return Some(AUTH_REQUIRED);
      }
      if presented.value.Unreadable? {
        return Some(TOKEN_INVALID);
      }
      var token := presented.value.token;
      if Expired(token, now) {
        return Some(TOKEN_EXPIRED);
      }
      if token.Refresh? {
        return Some(TOKEN_TYPE_NOT_ALLOWED);
      }
      if channel.Some? && token.channel != channel.value {
        return Some(TOKEN_CHANNEL_MISMATCH);
      }
      if token.sessionType !in allowed {
        return Some(TOKEN_TYPE_NOT_ALLOWED);
      }
      if token.sessionId !in rows || rows[token.sessionId].user != token.sub {
        return Some(SESSION_REVOKED);
      }
      var row := rows[token.sessionId];
      if row.channel.Some? && row.channel.value != token.channel {
        return Some(SESSION_REVOKED);
      }
      if row.sessionType.Some? && row.sessionType.value != token.sessionType {
        return Some(SESSION_REVOKED);
      }
      if account.Missing? {
        return Some(SESSION_REVOKED);
      }
      if account.Denied? {
        return Some(ACCOUNT_DENIED(account.code));
      }
      if row.revokedAt.Some? {
        return Some(SESSION_REVOKED);
      }
      if row.expiresAt.Some? && row.expiresAt.value <= now {
        return Some(SESSION_EXPIRED);
      }
      return None;
    }

    method LogoutAll(presented: Presented, channel: Channel, allowed: set<SessionType>, account: Account, now: Micros)
      returns (reply: Reply)
      modifies this`rows
      ensures var e := SignOutAll(presented, channel, allowed, account, now);
              rows == Next(old(rows), settings, e) && reply == ReplyTo(old(rows), settings, e)
    {
      var error := ValidateAccessToken(Some(presented), allowed, Some(channel), account, now);
      if error.Some? {
        return Error(error.value);
      }
      rows := RevokedAmong(rows, OwnedBy(rows, {presented.token.sub}), LOGOUT_ALL, now);
      return NoContent;
    }

    /** The admin panel's "end this session". */
    method RevokeSession(id: SessionId, now: Micros) returns (reply: Reply)
      modifies this`rows
      ensures rows == Next(old(rows), settings, AdminRevoke(id, now))
          && reply == ReplyTo(old(rows), settings, AdminRevoke(id, now))
    {
      if id !in rows {
        return Error(SESSION_NOT_FOUND);
      }
      if rows[id].revokedAt.None? {
        rows := rows[id := rows[id].(revokedAt := Some(now), revokedReason := Some(ADMIN_REVOKED), pushToken := None)];
      }
      return NoContent;
    }
  }
}
