/**
  The token-refresh protocol of the browser's API client as a sequential state machine.

  The client runs on one event loop, so its interceptors are a sequence of discrete events.
  The response interceptor's `await` on the refresh call splits it into two events:
  `OnError` (a request failed) and `RefreshDone` (the refresh call settled).
  The class `ApiReusable.Coordinator` runs these transitions in place; this module states
  them as functions of the old state and proves what they guarantee.
*/
module TokenRefresh {
  import opened Wrappers
  import opened Text

  const AuthorizationHeader := "Authorization"
  const BearerPrefix := "Bearer "
  const StatusUnauthorized := 401
  const StatusOk := 200

  /** A request configuration: the headers it carries and whether it is marked `_retry`. */
  datatype Request = Request(id: nat, headers: map<string, string>, retry: bool)

  /** An error of a request sent through the API client; `status` is None when no response came back. */
  datatype ApiError = ApiError(config: Request, status: Option<int>)

  /** Why a caller's promise is rejected: its own error, or the error the refresh call threw. */
  datatype Cause = Original(error: ApiError) | RefreshThrew(errorStatus: Option<int>)

  /** The three `localStorage` keys the client reads and removes. */
  datatype Store = Store(access: Option<string>, refresh: Option<string>, user: Option<string>)

  const Cleared := Store(None, None, None)

  /**
    The module-level state of the client and what it has done so far:
    - refreshing:   the `isRefreshing` flag;
    - queue:        `failedQueue`, the requests suspended while a refresh runs, oldest first;
    - store:        `localStorage`;
    - defaultAuth:  the Authorization header among the instance's default headers;
    - awaiting:     the requests whose handler is suspended on an outstanding refresh call;
    - refreshCalls: how many refresh calls have been issued;
    - redirects:    how many times the page was sent to `/login`.
  */
  datatype State = State(
    refreshing: bool,
    queue: seq<Request>,
    store: Store,
    defaultAuth: Option<string>,
    awaiting: seq<ApiError>,
    refreshCalls: nat,
    redirects: nat)

  /** The state when the module is loaded, with whatever the store already holds. */
  function Initial(store: Store): State
  {
    State(false, [], store, None, [], 0, 0)
  }

  /** The request interceptor: attach `Bearer <access>` when a (truthy) access token is stored. */
  function Authorize(config: Request, access: Option<string>): (r: Request)
    ensures r.id == config.id && r.retry == config.retry
    ensures Truthy(access) ==>
              AuthorizationHeader in r.headers && r.headers[AuthorizationHeader] == BearerPrefix + access.value
    ensures !Truthy(access) ==> r == config
    ensures forall h :: h != AuthorizationHeader ==>
              (h in r.headers <==> h in config.headers)
              && (h in r.headers ==> r.headers[h] == config.headers[h])
  {
    if Truthy(access) then config.(headers := config.headers[AuthorizationHeader := BearerPrefix + access.value])
    else config
  }

  /** A request carrying `Bearer <token>`, as a replay does. */
  function WithBearer(config: Request, token: string): Request
  {
    config.(headers := config.headers[AuthorizationHeader := BearerPrefix + token])
  }

  /** An error the interceptor tries to recover from: a 401 on a request not yet marked `_retry`. */
  predicate Qualifies(e: ApiError)
  {
    e.status == Some(StatusUnauthorized) && !e.config.retry
  }

  /** The error with its request marked `_retry`: the flag is set on the very object the error holds. */
  function Marked(e: ApiError): ApiError
  {
    e.(config := e.config.(retry := true))
  }

  /** What the response interceptor does with a failed request. */
  datatype Reaction =
    | Reject(cause: Cause)                 // the caller's promise is rejected
    | Enqueued                             // the request waits in `failedQueue`
    | RefreshIssued(refreshToken: string)  // the handler waits on a refresh call sent with this token

  /** The error handler of the response interceptor, up to its `await` on the refresh call. */
  function OnError(s: State, e: ApiError): (r: (State, Reaction))
    ensures !Qualifies(e) ==> r == (s, Reject(Original(e)))
    ensures Qualifies(e) && s.refreshing ==> r == (s.(queue := s.queue + [e.config]), Enqueued)
    ensures r.1.RefreshIssued? <==> Qualifies(e) && !s.refreshing && Truthy(s.store.refresh)
    ensures r.0.refreshCalls == s.refreshCalls + (if r.1.RefreshIssued? then 1 else 0)
    ensures Qualifies(e) ==> r.0.refreshing
  {
    if !Qualifies(e) then
      (s, Reject(Original(e)))
    else if s.refreshing then
      (s.(queue := s.queue + [e.config]), Enqueued)
    else if !Truthy(s.store.refresh) then
      // logged out: the flag stays set and the queue is not drained
      (s.(refreshing := true, store := Cleared, redirects := s.redirects + 1), Reject(Original(Marked(e))))
    else
      (s.(refreshing := true, awaiting := s.awaiting + [Marked(e)], refreshCalls := s.refreshCalls + 1),
       RefreshIssued(s.store.refresh.value))
  }

  /** What the refresh endpoint did: answered with a status and a token, or gave no response. */
  datatype RefreshResult = Responded(status: int, access: string) | Threw(errorStatus: Option<int>)

  /** axios's default `validateStatus`: only a 2xx response resolves the call. */
  predicate IsSuccessStatus(status: int)
  {
    200 <= status < 300
  }

  /**
    How `axios.post` settles on a result: a response outside 2xx is thrown as an error carrying
    its status, so after it only 2xx responses remain.
  */
  function AxiosSettle(result: RefreshResult): (r: RefreshResult)
    ensures r.Responded? ==> result == r && IsSuccessStatus(r.status)
    ensures r.Threw? && result.Responded? ==> !IsSuccessStatus(result.status) && r.errorStatus == Some(result.status)
    ensures result.Threw? ==> r == result
  {
    match result
    case Responded(status, _) => if IsSuccessStatus(status) then result else Threw(Some(status))
    case Threw(_) => result
  }

  /** The value `processQueue` settles every queued promise with. */
  datatype Verdict = Grant(token: string) | Deny(cause: Cause)

  /** One queued promise settled: resolved, so its request is replayed, or rejected with a cause. */
  datatype Settlement = Resolved(request: Request, replay: Request) | Failed(request: Request, cause: Cause)

  function SettleOne(r: Request, v: Verdict): Settlement
  {
    match v
    case Grant(token) => Resolved(r, WithBearer(r, token))
    case Deny(cause) => Failed(r, cause)
  }

  /** `processQueue`: every queued promise is settled once, in the order it was queued. */
  function Settle(q: seq<Request>, v: Verdict): (r: seq<Settlement>)
    ensures |r| == |q|
    ensures forall i :: 0 <= i < |q| ==> r[i] == SettleOne(q[i], v)
  {
    if q == [] then [] else [SettleOne(q[0], v)] + Settle(q[1..], v)
  }

  /** What became of the request that started the refresh. */
  datatype LeaderOutcome = Replayed(request: Request) | LeaderRejected(cause: Cause)

  datatype Completion = Completion(leader: LeaderOutcome, settled: seq<Settlement>)

  /** The rest of the error handler, after the refresh call it issued has settled. */
  function RefreshDone(s: State, result: RefreshResult): (r: (State, Completion))
    requires s.awaiting != []
    ensures r.0.awaiting == s.awaiting[1..]
    ensures r.0.refreshCalls == s.refreshCalls
  {
    var leader := s.awaiting[0];
    var rest := s.awaiting[1..];
    match AxiosSettle(result)
    case Responded(status, token) =>
      if status == StatusOk then
        (s.(store := s.store.(access := Some(token)), defaultAuth := Some(BearerPrefix + token),
            queue := [], refreshing := false, awaiting := rest),
         Completion(Replayed(WithBearer(leader.config, token)), Settle(s.queue, Grant(token))))
      else
        // no branch for another 2xx status: the original error is rejected and the flag stays set
        (s.(awaiting := rest), Completion(LeaderRejected(Original(leader)), []))
    case Threw(status) =>
      (s.(queue := [], refreshing := false, store := Cleared, redirects := s.redirects + 1, awaiting := rest),
       Completion(LeaderRejected(RefreshThrew(status)), Settle(s.queue, Deny(RefreshThrew(status)))))
  }

  /**
    The invariant every reachable state keeps: at most one refresh call is outstanding, and only
    while the flag is set; requests wait in the queue only while the flag is set, and never marked.
  */
  predicate Inv(s: State)
  {
    && |s.awaiting| <= 1
    && (s.awaiting != [] ==> s.refreshing)
    && (s.queue != [] ==> s.refreshing)
    && (forall i :: 0 <= i < |s.queue| ==> !s.queue[i].retry)
    && (forall i :: 0 <= i < |s.awaiting| ==> s.awaiting[i].config.retry)
  }

  lemma InitialInv(store: Store)
    ensures Inv(Initial(store))
  {
  }

  /** A failed request never starts a second refresh while one is outstanding. */
  lemma OnErrorKeepsInv(s: State, e: ApiError)
    requires Inv(s)
    ensures Inv(OnError(s, e).0)
  {
  }

  lemma RefreshDoneKeepsInv(s: State, result: RefreshResult)
    requires Inv(s) && s.awaiting != []
    ensures Inv(RefreshDone(s, result).0)
  {
  }

  /** The state after a run of failed requests, with no refresh settling in between. */
  function Run(s: State, es: seq<ApiError>): State
    decreases |es|
  {
    if es == [] then s else Run(OnError(s, es[0]).0, es[1..])
  }

  function Configs(es: seq<ApiError>): (r: seq<Request>)
    ensures |r| == |es| && forall i :: 0 <= i < |es| ==> r[i] == es[i].config
  {
    if es == [] then [] else [es[0].config] + Configs(es[1..])
  }

  /** The requests of the errors in es that the interceptor would act on, in order. */
  function Qualifying(es: seq<ApiError>): seq<Request>
  {
    if es == [] then []
    else if Qualifies(es[0]) then [es[0].config] + Qualifying(es[1..])
    else Qualifying(es[1..])
  }

  /**
    While the flag is set and no refresh settles, failed requests only join the end of the
    queue: nothing else changes, and in particular no refresh call is issued.
  */
  lemma {:induction false} RunWhileRefreshing(s: State, es: seq<ApiError>)
    requires s.refreshing
    ensures Run(s, es) == s.(queue := s.queue + Qualifying(es))
    decreases |es|
  {
    if es != [] {
      var s1 := OnError(s, es[0]).0;
      RunWhileRefreshing(s1, es[1..]);
      if Qualifies(es[0]) {
        assert s.queue + Qualifying(es) == s1.queue + Qualifying(es[1..]);
      }
    }
  }

  /**
    No thundering herd: when any number of requests fail with 401 while the client is idle and
    holds a refresh token, exactly one refresh call is issued, for the first of them, and all the
    others wait in the queue in the order they failed.
  */
  lemma {:induction false} OneRefreshPerBurst(s: State, es: seq<ApiError>)
    requires Inv(s) && !s.refreshing && Truthy(s.store.refresh)
    requires es != [] && forall i :: 0 <= i < |es| ==> Qualifies(es[i])
    ensures Run(s, es).refreshCalls == s.refreshCalls + 1
    ensures Run(s, es).awaiting == [Marked(es[0])]
    ensures Run(s, es).queue == Configs(es[1..])
    ensures Run(s, es).refreshing
  {
    var s1 := OnError(s, es[0]).0;
    assert s.awaiting == [] && s.queue == [];
    RunWhileRefreshing(s1, es[1..]);
    AllQualifying(es[1..]);
  }

  lemma {:induction false} AllQualifying(es: seq<ApiError>)
    requires forall i :: 0 <= i < |es| ==> Qualifies(es[i])
    ensures Qualifying(es) == Configs(es)
  {
    if es != [] {
      AllQualifying(es[1..]);
    }
  }

  /**
    From any reachable state, a run of failed requests issues at most one refresh call,
    and none at all if a refresh is already under way.
  */
  lemma {:induction false} AtMostOneRefreshPerRun(s: State, es: seq<ApiError>)
    requires Inv(s)
    ensures Inv(Run(s, es))
    ensures Run(s, es).refreshCalls <= s.refreshCalls + (if s.refreshing then 0 else 1)
    decreases |es|
  {
    if es != [] {
      var s1 := OnError(s, es[0]).0;
      OnErrorKeepsInv(s, es[0]);
      AtMostOneRefreshPerRun(s1, es[1..]);
      if Qualifies(es[0]) {
        assert s1.refreshing;
      } else {
        assert s1 == s;
      }
    }
  }

  /**
    A successful refresh stores the new token, empties the queue, clears the flag, replays the
    request that started it with the new token and resolves every queued request, in FIFO
    order, with a replay carrying the same token.
  */
  lemma RefreshSucceeded(s: State, token: string)
    requires Inv(s) && s.awaiting != []
    ensures var (t, c) := RefreshDone(s, Responded(StatusOk, token));
      && t.store == s.store.(access := Some(token))
      && t.queue == [] && !t.refreshing && t.awaiting == []
      && c.leader == Replayed(WithBearer(s.awaiting[0].config, token))
      && |c.settled| == |s.queue|
      && forall i :: 0 <= i < |s.queue| ==>
           c.settled[i] == Resolved(s.queue[i], WithBearer(s.queue[i], token))
           && c.settled[i].replay.headers[AuthorizationHeader] == BearerPrefix + token
  {
  }

  /**
    A refresh call that throws rejects every queued request with the refresh error rather than
    their own 401, empties the queue, clears the flag, removes all three stored keys and sends
    the page to `/login` once.
  */
  lemma RefreshFailed(s: State, status: Option<int>)
    requires Inv(s) && s.awaiting != []
    ensures var (t, c) := RefreshDone(s, Threw(status));
      && t.store == Cleared && t.queue == [] && !t.refreshing && t.awaiting == []
      && t.redirects == s.redirects + 1
      && c.leader == LeaderRejected(RefreshThrew(status))
      && |c.settled| == |s.queue|
      && forall i :: 0 <= i < |s.queue| ==> c.settled[i] == Failed(s.queue[i], RefreshThrew(status))
  {
  }

  /**
    A state the client cannot leave by itself: the flag is set but no refresh call is outstanding,
    so no event will ever clear it.
  */
  predicate Stuck(s: State)
  {
    s.refreshing && s.awaiting == []
  }

  /**
    Once stuck, every later failed request only waits in the queue: no refresh call is issued
    and the state stays stuck, however many requests fail.
  */
  lemma StuckForever(s: State, es: seq<ApiError>)
    requires Stuck(s)
    ensures Stuck(Run(s, es))
    ensures Run(s, es).refreshCalls == s.refreshCalls
    ensures Run(s, es).queue == s.queue + Qualifying(es)
  {
    RunWhileRefreshing(s, es);
  }

  /**
    With no refresh token stored, the first qualifying 401 removes all three keys, redirects
    to `/login` and rejects its own error, issues no refresh call, and leaves the flag set and the
    queue as it was: the client is stuck.
  */
  lemma NoRefreshTokenLeavesFlagSet(s: State, e: ApiError)
    requires Inv(s) && !s.refreshing && !Truthy(s.store.refresh) && Qualifies(e)
    ensures var (t, reaction) := OnError(s, e);
      && t.store == Cleared && t.redirects == s.redirects + 1
      && reaction == Reject(Original(Marked(e)))
      && t.refreshCalls == s.refreshCalls && t.queue == s.queue
      && Stuck(t)
  {
  }

  /**
    A refresh answered with a 2xx status other than 200 rejects the original error and settles no
    queued request: the flag stays set and the client is stuck.
  */
  lemma NonOkRefreshLeavesFlagSet(s: State, status: int, token: string)
    requires Inv(s) && s.awaiting != [] && IsSuccessStatus(status) && status != StatusOk
    ensures var (t, c) := RefreshDone(s, Responded(status, token));
      && c == Completion(LeaderRejected(Original(s.awaiting[0])), [])
      && t.queue == s.queue && t.store == s.store
      && Stuck(t)
  {
  }

  /**
    A refresh answered outside 2xx (an expired refresh token gets 401) is thrown by axios: it ends
    exactly as a refresh that threw with that status, so the client logs out and is not stuck.
  */
  lemma ErrorStatusRefreshLogsOut(s: State, status: int, token: string)
    requires Inv(s) && s.awaiting != [] && !IsSuccessStatus(status)
    ensures RefreshDone(s, Responded(status, token)) == RefreshDone(s, Threw(Some(status)))
    ensures var t := RefreshDone(s, Responded(status, token)).0;
      t.store == Cleared && !t.refreshing && t.queue == [] && !Stuck(t)
  {
  }

  /**
    The replay of the request that started a refresh is marked `_retry`: if it fails with 401
    again, the error is rejected unchanged and no new refresh starts.
  */
  lemma LeaderReplayIsNotRetried(s: State, token: string, t: State)
    requires Inv(s) && s.awaiting != []
    ensures var c := RefreshDone(s, Responded(StatusOk, token)).1;
      var e := ApiError(c.leader.request, Some(StatusUnauthorized));
      OnError(t, e) == (t, Reject(Original(e)))
  {
  }

  /**
    Queued requests are replayed without the `_retry` mark: if a replay fails with 401 once the
    client is idle again, it starts a new refresh.
  */
  lemma QueuedReplayMayRefreshAgain(s: State, token: string, i: nat)
    requires Inv(s) && s.awaiting != [] && i < |s.queue| && Truthy(s.store.refresh)
    ensures var (t, c) := RefreshDone(s, Responded(StatusOk, token));
      var e := ApiError(c.settled[i].replay, Some(StatusUnauthorized));
      OnError(t, e).1.RefreshIssued?
  {
  }
}
