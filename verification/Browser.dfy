/** The web client's half of the session protocol: stored tokens, one shared refresh, one retry.

    Steps are the points at which the browser runs: sending a request, handling a 401, the arrival of a
    refresh response, and each waiting request resuming after it. */
module Browser {
  import opened Wrappers
  import opened Sessions

  datatype Stored = Stored(channel: Channel, access: Token, refresh: Token)

  /** How the shared refresh ended. `keep` marks a failure that is no reason to sign out. */
  datatype Result = Renewed(next: Stored) | Failed(keep: bool)

  datatype Stage =
    | InFlight
    | Waiting(session: Stored)                     // awaits the shared refresh
    | Settled(session: Stored, result: Result)     // the refresh is over; about to resume
    | Done

  datatype HttpRequest = HttpRequest(sends: nat, retried: bool, authorization: Option<Token>, stage: Stage)

  datatype State = State(cache: Option<Stored>, refreshing: Option<Stored>, requests: map<nat, HttpRequest>)

  function AccessOf(cache: Option<Stored>): Option<Token> {
    if cache.Some? then Some(cache.value.access) else None
  }

  function Sent(b: State, id: nat): State {
    b.(requests := b.requests[id := HttpRequest(1, false, AccessOf(b.cache), InFlight)])
  }

  function Resent(request: HttpRequest, session: Stored): HttpRequest {
    HttpRequest(request.sends + 1, true, Some(session.access), InFlight)
  }

  /** The interceptor on a 401: retry with a session renewed meanwhile, or wait for the shared refresh,
      starting it if nobody has. */
  function Unauthorized(b: State, id: nat): State
    requires id in b.requests
  {
    var request := b.requests[id];
    if b.cache.None? || request.retried then b.(requests := b.requests[id := request.(stage := Done)])
    else
      var session := b.cache.value;
      if request.authorization == Some(session.access) then
        b.(requests := b.requests[id := request.(retried := true, stage := Waiting(session))],
           refreshing := if b.refreshing.Some? then b.refreshing else Some(session))
      else b.(requests := b.requests[id := Resent(request, session)])
  }

  /** What the refresh promise resolves to when its response arrives. */
  function ResultOf(b: State, reply: Reply, keep: bool): Result
    requires b.refreshing.Some?
  {
    if !reply.Issued? then Failed(keep)
    else if b.cache.None? || b.cache.value.refresh != b.refreshing.value.refresh then Failed(false)
    else Renewed(Stored(b.refreshing.value.channel, reply.access, reply.refresh))
  }

  function Settle(requests: map<nat, HttpRequest>, result: Result): map<nat, HttpRequest> {
    map id | id in requests ::
      if requests[id].stage.Waiting? then requests[id].(stage := Settled(requests[id].stage.session, result))
      else requests[id]
  }

  function Answered(b: State, reply: Reply, keep: bool): State
    requires b.refreshing.Some?
  {
    var result := ResultOf(b, reply, keep);
    State(if result.Renewed? then Some(result.next) else b.cache, None, Settle(b.requests, result))
  }

  /** A request that waited goes on: it is sent again, or the session is given up. */
  function Resumed(b: State, id: nat): State
    requires id in b.requests && b.requests[id].stage.Settled?
  {
    var request := b.requests[id];
    match request.stage.result
    case Renewed(next) => b.(requests := b.requests[id := Resent(request, next)])
    case Failed(keep) =>
      var gone := !keep && b.cache.Some? && b.cache.value.refresh == request.stage.session.refresh;
      b.(cache := if gone then None else b.cache, requests := b.requests[id := request.(stage := Done)])
  }

  /** The module variables of the client and what its callbacks do to them. */
  class Client {
    var cache: Option<Stored>
    var refreshPromise: Option<Stored>
    var requests: map<nat, HttpRequest>

    constructor ()
      ensures Contents() == State(None, None, map[])
    {
      cache, refreshPromise, requests := None, None, map[];
    }

    function Contents(): State
      reads this
    {
      State(cache, refreshPromise, requests)
    }

    method SetSession(session: Stored)
      modifies this`cache
      ensures Contents() == old(Contents()).(cache := Some(session))
    {
      cache := Some(session);
    }

    method ClearSession()
      modifies this`cache
      ensures Contents() == old(Contents()).(cache := None)
    {
      cache := None;
    }

    method Send(id: nat)
      modifies this`requests
      ensures Contents() == Sent(old(Contents()), id)
    {
      var authorization := None;
      if cache.Some? {
        authorization := Some(cache.value.access);
      }
      requests := requests[id := HttpRequest(1, false, authorization, InFlight)];
    }

    /** Join the refresh under way or start one; with no stored session the promise is rejected. */
    method RefreshSession() returns (rejected: bool)
      modifies this`refreshPromise
      ensures rejected <==> old(refreshPromise).None? && cache.None?
      ensures refreshPromise == if old(refreshPromise).Some? then old(refreshPromise) else cache
    {
      if refreshPromise.Some? {
        return false;
      }
      if cache.None? {
        return true;
      }
      refreshPromise := cache;
      return false;
    }

    method OnUnauthorized(id: nat)
      requires id in requests
      modifies this`requests, this`refreshPromise
      ensures Contents() == Unauthorized(old(Contents()), id)
    {
      var request := requests[id];
      if cache.Some? && !request.retried {
        var session := cache.value;
        requests := requests[id := request.(retried := true)];
        if request.authorization == Some(session.access) {
          var rejected := RefreshSession();
          assert !rejected;
          requests := requests[id := requests[id].(stage := Waiting(session))];
        } else {
          requests := requests[id := HttpRequest(request.sends + 1, true, Some(session.access), InFlight)];
        }
      } else {
        requests := requests[id := request.(stage := Done)];
      }
    }

    method OnRefreshSettled(reply: Reply, keep: bool)
      requires refreshPromise.Some?
      modifies this
      ensures Contents() == Answered(old(Contents()), reply, keep)
    {
      var current := refreshPromise.value;
      var result := Failed(keep);
      if reply.Issued? {
        if cache.None? || cache.value.refresh != current.refresh {
          result := Failed(false);
        } else {
          var next := Stored(current.channel, reply.access, reply.refresh);
          SetSession(next);
          result := Renewed(next);
        }
      }
      refreshPromise := None;
      requests := Settle(requests, result);
    }

    method Resume(id: nat)
      requires id in requests && requests[id].stage.Settled?
      modifies this
      ensures Contents() == Resumed(old(Contents()), id)
    {
      var request := requests[id];
      if request.stage.result.Failed? {
        if !request.stage.result.keep && cache.Some? && cache.value.refresh == request.stage.session.refresh {
          ClearSession();
        }
        requests := requests[id := request.(stage := Done)];
      } else {
        var next := request.stage.result.next;
        requests := requests[id := HttpRequest(request.sends + 1, true, Some(next.access), InFlight)];
      }
    }
  }
}
