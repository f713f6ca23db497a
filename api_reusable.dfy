/**
  The API client module as the browser runs it: module-level variables updated in place by the
  request interceptor, the response interceptor and `processQueue`. Each method is proved to
  perform the transition `TokenRefresh` specifies, so the lemmas proved there hold of it.
*/
module ApiReusable {
  import opened Wrappers
  import opened Text
  import opened TokenRefresh

  class Coordinator {
    var isRefreshing: bool
    var failedQueue: seq<Request>
    // localStorage
    var access: Option<string>
    var refresh: Option<string>
    var user: Option<string>
    // api.defaults.headers.common["Authorization"]
    var defaultAuthorization: Option<string>
    // handlers suspended on the outstanding refresh call, with the error each one handles
    var awaiting: seq<ApiError>
    var refreshCalls: nat
    var redirects: nat

    /** The state of the client, as `TokenRefresh` describes it. */
    function Snapshot(): State
      reads this
    {
      State(isRefreshing, failedQueue, Store(access, refresh, user), defaultAuthorization,
            awaiting, refreshCalls, redirects)
    }

    ghost predicate Valid()
      reads this
    {
      Inv(Snapshot())
    }

    /** The module is loaded with whatever `localStorage` already holds. */
    constructor (store: Store)
      ensures Snapshot() == Initial(store) && Valid()
    {
      isRefreshing := false;
      failedQueue := [];
      access, refresh, user := store.access, store.refresh, store.user;
      defaultAuthorization := None;
      awaiting := [];
      refreshCalls, redirects := 0, 0;
    }

    /** The request interceptor: the configuration as it is sent. */
    method Dispatch(config: Request) returns (sent: Request)
      ensures sent == Authorize(config, access)
    {
      sent := config;
      var token := access;
      if Truthy(token) {
        sent := sent.(headers := sent.headers[AuthorizationHeader := BearerPrefix + token.value]);
      }
    }

    /** The response interceptor's error handler, up to the point where it awaits the refresh call. */
    method OnResponseError(e: ApiError) returns (reaction: Reaction)
      requires Valid()
      modifies this
      ensures Valid()
      ensures (Snapshot(), reaction) == OnError(old(Snapshot()), e)
    {
      OnErrorKeepsInv(Snapshot(), e);
      var originalRequest := e.config;
      if e.status == Some(StatusUnauthorized) && !originalRequest.retry {
        if isRefreshing {
          failedQueue := failedQueue + [originalRequest];
          return Enqueued;
        }
        originalRequest := originalRequest.(retry := true);
        isRefreshing := true;
        var refreshToken := refresh;
        if !Truthy(refreshToken) {
          access, refresh, user := None, None, None;
          redirects := redirects + 1;
          return Reject(Original(e.(config := originalRequest)));
        }
        awaiting := awaiting + [e.(config := originalRequest)];
        refreshCalls := refreshCalls + 1;
        return RefreshIssued(refreshToken.value);
      }
      return Reject(Original(e));
    }

    /** `processQueue`: settle every queued promise, in order, then empty the queue. */
    method ProcessQueue(v: Verdict) returns (settled: seq<Settlement>)
      modifies this`failedQueue
      ensures settled == Settle(old(failedQueue), v)
      ensures failedQueue == []
    {
      settled := [];
      var q := failedQueue;
      var i := 0;
      while i < |q|
        invariant 0 <= i <= |q|
        invariant settled == Settle(q[..i], v)
      {
        assert q[..i + 1] == q[..i] + [q[i]];
        SettleAppend(q[..i], q[i], v);
        settled := settled + [SettleOne(q[i], v)];
        i := i + 1;
      }
      assert q[..i] == q;
      failedQueue := [];
    }

    /** The error handler resumes when the refresh call it issued settles. */
    method OnRefreshDone(result: RefreshResult) returns (c: Completion)
      requires Valid() && awaiting != []
      modifies this
      ensures Valid()
      ensures (Snapshot(), c) == RefreshDone(old(Snapshot()), result)
    {
      RefreshDoneKeepsInv(Snapshot(), result);
      var leader := awaiting[0];
      awaiting := awaiting[1..];
      match AxiosSettle(result)
      case Responded(status, token) =>
        if status == StatusOk {
          access := Some(token);
          defaultAuthorization := Some(BearerPrefix + token);
          var replay := WithBearer(leader.config, token);
          var settled := ProcessQueue(Grant(token));
          isRefreshing := false;
          return Completion(Replayed(replay), settled);
        }
        return Completion(LeaderRejected(Original(leader)), []);
      case Threw(status) =>
        var settled := ProcessQueue(Deny(RefreshThrew(status)));
        isRefreshing := false;
        access, refresh, user := None, None, None;
        redirects := redirects + 1;
        return Completion(LeaderRejected(RefreshThrew(status)), settled);
    }
  }

  /** Appending one request to the queue appends its settlement. */
  lemma SettleAppend(q: seq<Request>, r: Request, v: Verdict)
    ensures Settle(q + [r], v) == Settle(q, v) + [SettleOne(r, v)]
  {
    assert forall i :: 0 <= i < |q| ==> (q + [r])[i] == q[i];
  }

  function Unauthorized(id: nat): ApiError
  {
    ApiError(Request(id, map[], false), Some(StatusUnauthorized))
  }

  /**
    Five requests fail with 401 at once and the refresh returns `T2`: one refresh call is made,
    and all five requests are replayed, each carrying `Bearer T2`.
  */
  method FiveFailuresOneRefresh() returns (calls: nat, replays: seq<Request>)
    ensures calls == 1
    ensures |replays| == 5
    ensures forall i :: 0 <= i < |replays| ==>
              AuthorizationHeader in replays[i].headers && replays[i].headers[AuthorizationHeader] == "Bearer T2"
  {
    var client := new Coordinator(Store(Some("T1"), Some("R1"), Some("u1")));
    var r0 := client.OnResponseError(Unauthorized(0));
    var r1 := client.OnResponseError(Unauthorized(1));
    var r2 := client.OnResponseError(Unauthorized(2));
    var r3 := client.OnResponseError(Unauthorized(3));
    var r4 := client.OnResponseError(Unauthorized(4));
    var done := client.OnRefreshDone(Responded(StatusOk, "T2"));
    calls := client.refreshCalls;
    replays := [done.leader.request] + [done.settled[0].replay, done.settled[1].replay,
                                        done.settled[2].replay, done.settled[3].replay];
  }

  /**
    One request fails with 401 and the refresh call throws: the store ends empty, the caller's
    promise is rejected with the refresh error and the page is sent to `/login` exactly once.
  */
  method RefreshThrows() returns (store: Store, outcome: LeaderOutcome, redirects: nat)
    ensures store == Cleared
    ensures outcome == LeaderRejected(RefreshThrew(Some(StatusUnauthorized)))
    ensures redirects == 1
  {
    var client := new Coordinator(Store(Some("T1"), Some("R1"), Some("u1")));
    var r := client.OnResponseError(Unauthorized(0));
    var done := client.OnRefreshDone(Threw(Some(StatusUnauthorized)));
    store := client.Snapshot().store;
    outcome := done.leader;
    redirects := client.redirects;
  }

  /**
    The refresh endpoint answers 401 (an expired refresh token): axios throws it, so the store ends
    empty, the caller is rejected with that error and the client is idle again.
  */
  method ExpiredRefreshToken() returns (store: Store, outcome: LeaderOutcome, refreshing: bool)
    ensures store == Cleared
    ensures outcome == LeaderRejected(RefreshThrew(Some(StatusUnauthorized)))
    ensures !refreshing
  {
    var client := new Coordinator(Store(Some("T1"), Some("R1"), Some("u1")));
    var r := client.OnResponseError(Unauthorized(0));
    var done := client.OnRefreshDone(Responded(StatusUnauthorized, ""));
    store := client.Snapshot().store;
    outcome := done.leader;
    refreshing := client.isRefreshing;
  }

  /**
    The leader's replay that fails with 401 again: it carries `_retry`, so its failure goes
    straight back to the caller and no second refresh call is made. A queued replay carries no
    `_retry` and can start a new refresh (`TokenRefresh.QueuedReplayMayRefreshAgain`).
  */
  method ReplayFailsAgain() returns (reaction: Reaction, calls: nat)
    ensures reaction.Reject? && reaction.cause.Original? && reaction.cause.error.config.retry
    ensures calls == 1
  {
    var client := new Coordinator(Store(Some("T1"), Some("R1"), Some("u1")));
    var r := client.OnResponseError(Unauthorized(0));
    var done := client.OnRefreshDone(Responded(StatusOk, "T2"));
    reaction := client.OnResponseError(ApiError(done.leader.request, Some(StatusUnauthorized)));
    calls := client.refreshCalls;
  }
}
