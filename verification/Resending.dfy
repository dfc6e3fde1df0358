/** What becomes of a request that was answered 401: it is sent again with a newer token, or given up. */
module Resending {
  import opened Wrappers
  import opened RefreshProtocol
  import SessionHistory
  import B = Browser
  import S = Sessions

  // --- one 401, one answer --------------------------------------------------------------

  /** A 401 under another token than the stored one sends the request again, once, with the stored one. Under the
      stored token it waits for the refresh under way, or for the one it starts. A request that was retried before,
      or that finds no session, is given up. Nothing else changes. */
  lemma UnauthorizedByCases(w: World, s: S.Settings, id: nat)
    requires Enabled(w, Unauthorized(id))
    ensures var before, after := w.browser, Next(w, s, Unauthorized(id)).browser;
            var request := before.requests[id];
            && after.cache == before.cache && after.requests.Keys == before.requests.Keys
            && (forall other :: other in before.requests && other != id ==>
                  after.requests[other] == before.requests[other])
            && (if request.retried || before.cache.None? then
                  && after.requests[id].stage == B.Done && after.requests[id].sends == request.sends
                  && after.refreshing == before.refreshing
                else
                  var session := before.cache.value;
                  if request.authorization != Some(session.access) then
                    && after.requests[id] == B.HttpRequest(request.sends + 1, true, Some(session.access), B.InFlight)
                    && after.refreshing == before.refreshing
                  else
                    && after.requests[id] == request.(retried := true, stage := B.Waiting(session))
                    && after.refreshing == if before.refreshing.Some? then before.refreshing else before.cache)
  {
  }

  /** The answer to the shared refresh replaces the stored session exactly when it is a pair and the session is still
      the one that was refreshed; it reaches every request that waits, and no other. */
  lemma ArrivalByCases(w: World, s: S.Settings, keep: bool)
    requires Enabled(w, RefreshArrives(keep))
    ensures var before, after := w.browser, Next(w, s, RefreshArrives(keep)).browser;
            var answer := w.answer.value;
            var renews := answer.Issued? && before.cache.Some?
                          && before.cache.value.refresh == before.refreshing.value.refresh;
            var result := if renews
                          then B.Renewed(B.Stored(before.refreshing.value.channel, answer.access, answer.refresh))
                          else B.Failed(keep && !answer.Issued?);
            && after.cache == (if renews then Some(result.next) else before.cache) && after.refreshing.None?
            && after.requests.Keys == before.requests.Keys
            && forall id :: id in before.requests ==>
                 var request := before.requests[id];
                 after.requests[id] == if request.stage.Waiting?
                                       then request.(stage := B.Settled(request.stage.session, result)) else request
  {
  }

  /** A request goes out with the stored access token, or with none if there is no session. */
  lemma SentWithTheStoredToken(w: World, s: S.Settings, id: nat)
    requires Enabled(w, Send(id))
    ensures var before, after := w.browser, Next(w, s, Send(id)).browser;
            var token := if before.cache.Some? then Some(before.cache.value.access) else None;
            after == before.(requests := before.requests[id := B.HttpRequest(1, false, token, B.InFlight)])
  {
  }

  /** A request whose refresh failed is given up. The session is given up with it unless the connection was to blame or
      another session is stored by now. */
  lemma FailedRefreshGivesUp(w: World, s: S.Settings, id: nat)
    requires Enabled(w, Resume(id)) && w.browser.requests[id].stage.result.Failed?
    ensures var before, after := w.browser, Next(w, s, Resume(id)).browser;
            var request := before.requests[id];
            var refused := !request.stage.result.keep && before.cache.Some?
                           && before.cache.value.refresh == request.stage.session.refresh;
            after == before.(cache := if refused then None else before.cache,
                             requests := before.requests[id := request.(stage := B.Done)])
  {
  }

  lemma {:induction false} SettledStays(w: World, s: S.Settings, steps: seq<Step>, id: nat)
    requires LegalRun(w, s, steps) && Resume(id) !in steps
    requires id in w.browser.requests && w.browser.requests[id].stage.Settled?
    ensures var u := Run(w, s, steps); id in u.browser.requests && u.browser.requests[id] == w.browser.requests[id]
    decreases |steps|
  {
    if steps != [] {
      assert steps[0] != Resume(id);
      SettledSurvivesAStep(w, s, steps[0], id);
      SettledStays(Next(w, s, steps[0]), s, steps[1..], id);
    }
  }

  lemma SettledSurvivesAStep(w: World, s: S.Settings, step: Step, id: nat)
    requires Enabled(w, step) && step != Resume(id)
    requires id in w.browser.requests && w.browser.requests[id].stage.Settled?
    ensures var u := Next(w, s, step); id in u.browser.requests && u.browser.requests[id] == w.browser.requests[id]
  {
  }

  /** A request that waits for a refresh that is answered with a pair, the stored session still being the one refreshed:
      whatever happens before it goes on, it then goes out once more, with exactly the access token of that answer. */
  lemma WaitingRequestIsResentWithTheAnswer(w: World, s: S.Settings, id: nat, keep: bool, between: seq<Step>)
    requires Enabled(w, RefreshArrives(keep)) && w.answer.value.Issued?
    requires w.browser.cache.Some? && w.browser.cache.value.refresh == w.browser.refreshing.value.refresh
    requires id in w.browser.requests && w.browser.requests[id].stage.Waiting?
    requires LegalRun(Next(w, s, RefreshArrives(keep)), s, between) && Resume(id) !in between
    ensures var u := Run(Next(w, s, RefreshArrives(keep)), s, between);
            && Enabled(u, Resume(id))
            && var after := Next(u, s, Resume(id)).browser;
            && after == u.browser.(requests := after.requests)
            && after.requests == u.browser.requests[
                 id := B.HttpRequest(w.browser.requests[id].sends + 1, true, Some(w.answer.value.access), B.InFlight)]
  {
    ArrivalByCases(w, s, keep);
    SettledStays(Next(w, s, RefreshArrives(keep)), s, between, id);
  }

  // --- never the refused token again ----------------------------------------------------

  /** Every access token the browser holds, has sent or is about to send is of one of these sessions. */
  ghost predicate KnowsOnly(w: World, ids: set<S.SessionId>) {
    && (w.browser.cache.Some? ==> w.browser.cache.value.access.sessionId in ids)
    && (forall l :: l in w.logins ==> l.access.sessionId in ids)
    && (forall id :: id in w.browser.requests ==>
          var request := w.browser.requests[id];
          && (request.authorization.Some? ==> request.authorization.value.sessionId in ids)
          && (request.stage.Settled? && request.stage.result.Renewed? ==>
                request.stage.result.next.access.sessionId in ids))
  }

  /** An answer on its way carries a token for a session of the table that nothing in the browser knows yet. */
  ghost predicate AnswerIsNew(w: World) {
    w.answer.Some? && w.answer.value.Issued? ==>
      var newId := w.answer.value.access.sessionId;
      newId in w.table && KnowsOnly(w, w.table.Keys - {newId})
  }

  /** A request about to go on has been given another token than it was refused with. */
  ghost predicate ResultsAreNew(w: World) {
    forall id :: id in w.browser.requests && w.browser.requests[id].stage.Settled?
                 && w.browser.requests[id].stage.result.Renewed? ==>
      w.browser.requests[id].authorization != Some(w.browser.requests[id].stage.result.next.access)
  }

  ghost predicate Newness(w: World) {
    KnowsOnly(w, w.table.Keys) && AnswerIsNew(w) && ResultsAreNew(w)
  }

  lemma TableOnlyGrows(t: S.Table, s: S.Settings, e: S.Event)
    requires SessionHistory.Fresh(t, e)
    ensures t.Keys <= S.Next(t, s, e).Keys
  {
    SessionHistory.NextContinues(t, s, e);
  }

  lemma ServingKeepsNewness(w: World, s: S.Settings, r: S.RefreshRequest)
    requires Newness(w) && Enabled(w, ServeRefresh(r))
    ensures Newness(Next(w, s, ServeRefresh(r)))
  {
    TableOnlyGrows(w.table, s, S.RefreshToken(r));
    if S.RefreshOutcomeOf(w.table, s, r).Rotate? {
      assert Next(w, s, ServeRefresh(r)).answer.value.access.sessionId == r.newId;
    }
  }

  lemma SigningInKeepsNewness(w: World, s: S.Settings, e: S.Event)
    requires Newness(w) && Enabled(w, Step.SignIn(e))
    ensures Newness(Next(w, s, Step.SignIn(e)))
  {
    TableOnlyGrows(w.table, s, e);
  }

  lemma ElsewhereKeepsNewness(w: World, s: S.Settings, e: S.Event)
    requires Newness(w) && Enabled(w, Elsewhere(e))
    ensures Newness(Next(w, s, Elsewhere(e)))
  {
    TableOnlyGrows(w.table, s, e);
  }

  lemma ArrivalKeepsNewness(w: World, s: S.Settings, keep: bool)
    requires Newness(w) && Enabled(w, RefreshArrives(keep))
    ensures Newness(Next(w, s, RefreshArrives(keep)))
  {
    ArrivalByCases(w, s, keep);
  }

  lemma ResumingKeepsNewness(w: World, s: S.Settings, id: nat)
    requires Newness(w) && Enabled(w, Resume(id))
    ensures Newness(Next(w, s, Resume(id)))
  {
  }

  lemma UnauthorizedKeepsNewness(w: World, s: S.Settings, id: nat)
    requires Newness(w) && Enabled(w, Unauthorized(id))
    ensures Newness(Next(w, s, Unauthorized(id)))
  {
    UnauthorizedByCases(w, s, id);
  }

  lemma OtherStepsKeepNewness(w: World, s: S.Settings, step: Step)
    requires Newness(w) && Enabled(w, step)
    requires step.Send? || step.Finish? || step.Clear? || step.StoreLogin? || step.RefreshNeverReachedServer?
    ensures Newness(Next(w, s, step))
  {
  }

  lemma NextKeepsNewness(w: World, s: S.Settings, step: Step)
    requires Newness(w) && Enabled(w, step)
    ensures Newness(Next(w, s, step))
  {
    match step
    case ServeRefresh(r) => ServingKeepsNewness(w, s, r);
    case SignIn(e) => SigningInKeepsNewness(w, s, e);
    case Elsewhere(e) => ElsewhereKeepsNewness(w, s, e);
    case RefreshArrives(keep) => ArrivalKeepsNewness(w, s, keep);
    case Resume(id) => ResumingKeepsNewness(w, s, id);
    case Unauthorized(id) => UnauthorizedKeepsNewness(w, s, id);
    case _ => OtherStepsKeepNewness(w, s, step);
  }

  lemma {:induction false} RunKeepsNewness(w: World, s: S.Settings, steps: seq<Step>)
    requires LegalRun(w, s, steps) && Newness(w)
    ensures Newness(Run(w, s, steps))
    decreases |steps|
  {
    if steps != [] {
      NextKeepsNewness(w, s, steps[0]);
      RunKeepsNewness(Next(w, s, steps[0]), s, steps[1..]);
    }
  }

  /** Under any interleaving: a step that sends a request again sends it exactly once more, and with another token than
      the one it was refused with. */
  lemma ResendUsesAnotherToken(t: S.Table, s: S.Settings, steps: seq<Step>, step: Step, id: nat)
    requires LegalRun(Opened(t), s, steps) && Enabled(Run(Opened(t), s, steps), step)
    requires var w := Run(Opened(t), s, steps);
             id in w.browser.requests && Next(w, s, step).browser.requests[id].sends != w.browser.requests[id].sends
    ensures var before := Run(Opened(t), s, steps).browser.requests[id];
            var after := Next(Run(Opened(t), s, steps), s, step).browser.requests[id];
            && after.sends == before.sends + 1 && after.stage.InFlight?
            && after.authorization.Some? && after.authorization != before.authorization
  {
    var w := Run(Opened(t), s, steps);
    RunKeepsNewness(Opened(t), s, steps);
    match step
    case Unauthorized(_) => UnauthorizedByCases(w, s, step.id);
    case RefreshArrives(keep) => ArrivalByCases(w, s, keep);
    case _ =>
  }
}
