/**
 * The HTTP client's two interceptors: the request interceptor signs every
 * outgoing request with the stored access token; the response interceptor
 * unwraps bodies and, on a 401, refreshes the token pair once per request
 * object and replays the request.
 *
 * The network is a parameter: each request's transport result, the refresh
 * call's outcome and the replay's transport result are inputs, and `wire`
 * lists what was sent, in order. There is no shared "refresh in flight"
 * state: each failing request refreshes on its own (see `TwoUnauthorized`).
 */
module Api {
  import opened Wrappers
  import opened Storage

  // ---------------------------------------------------------------------
  // Paths

  predicate StartsWith(s: string, prefix: string) {
    |prefix| <= |s| && s[..|prefix|] == prefix
  }

  /** `s.includes(part)`, scanning from the left. */
  predicate Includes(s: string, part: string)
    decreases |s|
  {
    StartsWith(s, part) || (|s| > 0 && Includes(s[1..], part))
  }

  predicate OccursAt(s: string, part: string, i: int) {
    0 <= i && i + |part| <= |s| && s[i..i + |part|] == part
  }

  /** `Includes` agrees with the positional definition of a substring. */
  lemma {:induction false} IncludesIff(s: string, part: string)
    ensures Includes(s, part) <==> exists i :: OccursAt(s, part, i)
    decreases |s|
  {
    assert StartsWith(s, part) <==> OccursAt(s, part, 0);
    if |s| > 0 {
      IncludesIff(s[1..], part);
      forall i | OccursAt(s[1..], part, i) ensures OccursAt(s, part, i + 1) {
        assert s[1..][i..i + |part|] == s[i + 1..i + 1 + |part|];
      }
      forall i | OccursAt(s, part, i) && i > 0 ensures OccursAt(s[1..], part, i - 1) {
        assert s[1..][i - 1..i - 1 + |part|] == s[i..i + |part|];
      }
    }
  }

  lemma {:induction false} TooLongNotIncluded(s: string, part: string)
    requires |part| > |s|
    ensures !Includes(s, part)
    decreases |s|
  {
    if |s| > 0 {
      TooLongNotIncluded(s[1..], part);
    }
  }

  const LoginPath := "/auth/login"
  const RegisterPath := "/auth/register"

  /**
   * The requests exempt from refreshing: a URL containing the login or the
   * registration path. A request without a URL is not exempt.
   */
  predicate IsAuthPath(url: Option<string>)
    ensures url.None? ==> !IsAuthPath(url)
    ensures url.Some? && (url.value == LoginPath || url.value == RegisterPath) ==> IsAuthPath(url)
  {
    url.Some? && (Includes(url.value, LoginPath) || Includes(url.value, RegisterPath))
  }

  /**
   * A URL is exempt exactly when the login or the registration path occurs
   * somewhere in it, whatever comes before or after.
   */
  lemma IsAuthPathIff(url: string)
    ensures IsAuthPath(Some(url)) <==>
      (exists i :: OccursAt(url, LoginPath, i)) || (exists i :: OccursAt(url, RegisterPath, i))
  {
    IncludesIff(url, LoginPath);
    IncludesIff(url, RegisterPath);
  }

  /**
   * `/auth/me` and `/auth/logout` are not exempt: a 401 on a logout request
   * triggers a refresh like any other.
   */
  lemma MeAndLogoutNotExempt()
    ensures !IsAuthPath(Some("/auth/me"))
    ensures !IsAuthPath(Some("/auth/logout"))
  {
    TooLongNotIncluded("/auth/me", LoginPath);
    TooLongNotIncluded("/auth/me", RegisterPath);
    var u := "/auth/logout";
    assert u[..11][10] != LoginPath[10];
    assert u[1..][..11][0] != LoginPath[0];
    TooLongNotIncluded(u[1..][1..], LoginPath);
    TooLongNotIncluded(u, RegisterPath);
  }

  // ---------------------------------------------------------------------
  // Requests and responses

  type Headers = map<string, string>

  const Authorization := "Authorization"

  function Bearer(token: string): string {
    "Bearer " + token
  }

  /**
   * The request interceptor's effect on the headers: with a stored (truthy)
   * access token, `Authorization` becomes its bearer value; otherwise the
   * headers are left exactly as they were.
   */
  function SignedHeaders(h: Headers, stored: Option<string>): (r: Headers)
    ensures Truthy(stored) ==> Authorization in r && r[Authorization] == Bearer(stored.value)
    ensures !Truthy(stored) ==> r == h
    ensures r.Keys == h.Keys + (if Truthy(stored) then {Authorization} else {})
    ensures forall k | k in h && k != Authorization :: r[k] == h[k]
    ensures Authorization !in h ==> (Authorization in r <==> Truthy(stored))
  {
    if Truthy(stored) then h[Authorization := Bearer(stored.value)] else h
  }

  /** A request object as the interceptors see it; `retry` is `_retry`. */
  class RequestConfig {
    var url: Option<string>
    var headers: Headers
    var retry: bool

    constructor (url: Option<string>, headers: Headers)
      ensures this.url == url && this.headers == headers && !retry
    {
      this.url := url;
      this.headers := headers;
      this.retry := false;
    }
  }

  /** The response the server sent with a failure; `body` is missing when absent or falsy. */
  datatype HttpResponse<B> = HttpResponse(status: int, body: Option<B>)

  /**
   * The transport's answer to one request: a 2xx response's body, or a
   * failure (an `Error` with a message) that may carry the server's response.
   */
  datatype Transport<B> = Delivered(body: B) | Failed(response: Option<HttpResponse<B>>, message: string)

  /** Why a call rejected: a response body, or an `Error` with its message. */
  datatype Reason<B> = BodyReason(body: B) | ErrorReason(message: string)

  datatype Settled<B> = Resolved(value: B) | Rejected(reason: Reason<B>)

  /** The new pair in the refresh endpoint's envelope. */
  datatype RefreshReply = RefreshReply(accessToken: string, refreshToken: string)

  /**
   * The refresh call's outcome: it resolved with the envelope's `data` (which
   * may be missing), or it rejected with an `Error`.
   */
  datatype RefreshOutcome = RefreshResolved(data: Option<RefreshReply>) | RefreshRejected(message: string)

  /** What went on the wire. */
  datatype WireCall = ApiCall(url: Option<string>, headers: Headers) | RefreshTokenCall(refreshToken: string)

  const NoRefreshTokenMessage := "No refresh token"
  /** Stands for the engine's TypeError when the refresh envelope has no `data`. */
  const MissingRefreshDataMessage := "Cannot destructure property 'accessToken' of 'response.data.data'"

  function StatusOf<B>(e: Transport<B>): Option<int> {
    if e.Failed? && e.response.Some? then Some(e.response.value.status) else None
  }

  /**
   * The condition for a refresh: a 401 response, a request object not yet
   * retried, and not a login or registration request.
   */
  predicate ShouldRefresh(status: Option<int>, retry: bool, url: Option<string>)
    ensures ShouldRefresh(status, retry, url) ==> !IsAuthPath(url) && !retry
    ensures status != Some(401) ==> !ShouldRefresh(status, retry, url)
  {
    status == Some(401) && !retry && !IsAuthPath(url)
  }

  /** The rejection for a failure that is not refreshed: the response body if any, else the error. */
  function PlainRejection<B>(e: Transport<B>): (r: Reason<B>)
    requires e.Failed?
    ensures r.BodyReason? <==> e.response.Some? && e.response.value.body.Some?
    ensures r.BodyReason? ==> r.body == e.response.value.body.value
    ensures r.ErrorReason? ==> r.message == e.message
  {
    if e.response.Some? && e.response.value.body.Some? then BodyReason(e.response.value.body.value)
    else ErrorReason(e.message)
  }

  /** The refresh call yields a new pair. */
  predicate RefreshSucceeds(refresh: RefreshOutcome) {
    refresh.RefreshResolved? && refresh.data.Some?
  }

  /** The message of the error a failed refresh rejects with. */
  function RefreshError(refresh: RefreshOutcome): string
    requires !RefreshSucceeds(refresh)
  {
    if refresh.RefreshRejected? then refresh.message else MissingRefreshDataMessage
  }

  function CountRefreshCalls(wire: seq<WireCall>): nat {
    if wire == [] then 0
    else (if wire[0].RefreshTokenCall? then 1 else 0) + CountRefreshCalls(wire[1..])
  }

  // ---------------------------------------------------------------------
  // The interceptors

  /** The request interceptor. */
  method OnRequest(config: RequestConfig, storage: LocalStorage)
    modifies config
    ensures config.headers == SignedHeaders(old(config.headers), storage.accessToken)
    ensures config.url == old(config.url) && config.retry == old(config.retry)
  {
    var token := storage.GetItem(AccessTokenKey);
    if token.Some? && token.value != "" {
      config.headers := config.headers[Authorization := Bearer(token.value)];
    }
  }

  /**
   * One call through the client: the request interceptor, the transport,
   * then the response interceptor. `attempt` is the transport's answer;
   * `refresh` and `replay` are only consulted if the response interceptor
   * refreshes.
   */
  method Request<B>(config: RequestConfig, storage: LocalStorage,
                    attempt: Transport<B>, refresh: RefreshOutcome, replay: Transport<B>)
    returns (r: Settled<B>, wire: seq<WireCall>)
    modifies config, storage
    decreases if config.retry then 0 else 1, 1
    ensures |wire| >= 1
    ensures wire[0] == ApiCall(old(config.url), SignedHeaders(old(config.headers), old(storage.accessToken)))
    ensures config.url == old(config.url)
    ensures attempt.Delivered? ==>
      && r == Resolved(attempt.body) && wire == [wire[0]]
      && storage.Snapshot() == old(storage.Snapshot()) && config.retry == old(config.retry)
    ensures attempt.Failed? && !ShouldRefresh(StatusOf(attempt), old(config.retry), old(config.url)) ==>
      && r == Rejected(PlainRejection(attempt)) && wire == [wire[0]]
      && storage.Snapshot() == old(storage.Snapshot()) && config.retry == old(config.retry)
    ensures attempt.Failed? && ShouldRefresh(StatusOf(attempt), old(config.retry), old(config.url)) ==>
      RefreshEffect(r, wire[1..], config.url, old(storage.Snapshot()), storage.Snapshot(), config.retry, refresh, replay)
    ensures Paired(old(storage.Snapshot())) ==> Paired(storage.Snapshot())
    ensures CountRefreshCalls(wire) <= 1
  {
    OnRequest(config, storage);
    wire := [ApiCall(config.url, config.headers)];
    if attempt.Delivered? {
      r := Resolved(attempt.body);
    } else {
      var more;
      r, more := OnResponseError(attempt, config, storage, refresh, replay);
      CountAppend(wire, more);
      wire := wire + more;
    }
  }

  /**
   * What a refresh does, stated on its observable results: the refresh
   * call is made with the stored refresh token, or not at all when there is
   * none; on success the slots hold the new pair and the request is
   * replayed once, to the same URL, with the new bearer token, and the caller gets the
   * replay's result; on failure (no token, a rejected call, an envelope
   * without data) both slots are cleared and the caller gets the refresh
   * error. The request object is marked as retried either way.
   */
  ghost predicate RefreshEffect<B>(r: Settled<B>, wire: seq<WireCall>, url: Option<string>,
                                   before: Tokens, after: Tokens,
                                   retried: bool, refresh: RefreshOutcome, replay: Transport<B>)
  {
    && retried
    && (!Truthy(before.refresh) ==>
         r == Rejected(ErrorReason(NoRefreshTokenMessage)) && wire == [] && after == NoTokens)
    && (Truthy(before.refresh) ==>
         |wire| >= 1 && wire[0] == RefreshTokenCall(before.refresh.value)
         && CountRefreshCalls(wire[1..]) == 0
         && (!RefreshSucceeds(refresh) ==>
              r == Rejected(ErrorReason(RefreshError(refresh))) && |wire| == 1 && after == NoTokens)
         && (RefreshSucceeds(refresh) ==>
              var pair := refresh.data.value;
              && after == Tokens(Some(pair.accessToken), Some(pair.refreshToken))
              && |wire| == 2 && wire[1].ApiCall? && wire[1].url == url
              && Authorization in wire[1].headers
              && wire[1].headers[Authorization] == Bearer(pair.accessToken)
              && r == (if replay.Delivered? then Resolved(replay.body) else Rejected(PlainRejection(replay)))))
  }

  /** The response interceptor's error handler. */
  method OnResponseError<B>(error: Transport<B>, config: RequestConfig, storage: LocalStorage,
                            refresh: RefreshOutcome, replay: Transport<B>)
    returns (r: Settled<B>, wire: seq<WireCall>)
    requires error.Failed?
    modifies config, storage
    decreases if config.retry then 0 else 1, 0
    ensures config.url == old(config.url)
    ensures !ShouldRefresh(StatusOf(error), old(config.retry), old(config.url)) ==>
      && r == Rejected(PlainRejection(error)) && wire == []
      && storage.Snapshot() == old(storage.Snapshot()) && config.retry == old(config.retry)
    ensures ShouldRefresh(StatusOf(error), old(config.retry), old(config.url)) ==>
      RefreshEffect(r, wire, config.url, old(storage.Snapshot()), storage.Snapshot(), config.retry, refresh, replay)
    ensures Paired(old(storage.Snapshot())) ==> Paired(storage.Snapshot())
    ensures CountRefreshCalls(wire) <= 1
  {
    var isAuthPath := config.url.Some? &&
      (Includes(config.url.value, LoginPath) || Includes(config.url.value, RegisterPath));
    if error.response.Some? && error.response.value.status == 401 && !config.retry && !isAuthPath {
      config.retry := true;
      // Everything below sits in one try block whose catch clears both
      // tokens; the replay is returned without being awaited, so its own
      // rejection passes through the catch untouched.
      var refreshToken := storage.GetItem(RefreshTokenKey);
      if !(refreshToken.Some? && refreshToken.value != "") {
        storage.RemoveItem(AccessTokenKey);
        storage.RemoveItem(RefreshTokenKey);
        r, wire := Rejected(ErrorReason(NoRefreshTokenMessage)), [];
        return;
      }
      wire := [RefreshTokenCall(refreshToken.value)];
      if refresh.RefreshRejected? || refresh.data.None? {
        storage.RemoveItem(AccessTokenKey);
        storage.RemoveItem(RefreshTokenKey);
        r := Rejected(ErrorReason(RefreshError(refresh)));
        return;
      }
      var pair := refresh.data.value;
      storage.SetItem(AccessTokenKey, pair.accessToken);
      storage.SetItem(RefreshTokenKey, pair.refreshToken);
      config.headers := config.headers[Authorization := Bearer(pair.accessToken)];
      var more;
      r, more := Request(config, storage, replay, refresh, replay);
      assert more[1..] == [];
      wire := wire + more;
      assert wire[1..] == more;
    } else {
      r, wire := Rejected(PlainRejection(error)), [];
    }
  }

  /**
   * An expired session seen from the service: `getMe` and `logout` go
   * through this client, and their paths are not exempt, so a 401 on them
   * refreshes before the service sees the outcome. When that refresh fails,
   * both token slots are already empty by the time the call rejects.
   */
  method ExpiredSessionClearsTokens<B>(config: RequestConfig, storage: LocalStorage,
                                       attempt: Transport<B>, refresh: RefreshOutcome, replay: Transport<B>)
    returns (r: Settled<B>, wire: seq<WireCall>)
    requires config.url == Some("/auth/me") || config.url == Some("/auth/logout")
    requires !config.retry
    requires attempt.Failed? && StatusOf(attempt) == Some(401)
    requires !RefreshSucceeds(refresh)
    modifies config, storage
    ensures r.Rejected? && r.reason.ErrorReason?
    ensures storage.accessToken.None? && storage.refreshToken.None?
    ensures CountRefreshCalls(wire) <= 1
  {
    MeAndLogoutNotExempt();
    r, wire := Request(config, storage, attempt, refresh, replay);
  }

  lemma {:induction false} CountAppend(a: seq<WireCall>, b: seq<WireCall>)
    ensures CountRefreshCalls(a + b) == CountRefreshCalls(a) + CountRefreshCalls(b)
  {
    if a != [] {
      assert (a + b)[0] == a[0];
      assert (a + b)[1..] == a[1..] + b;
      CountAppend(a[1..], b);
    } else {
      assert a + b == b;
    }
  }

  /**
   * Two requests that both meet a 401, handled one after the other with the
   * shared storage: nothing coordinates them, so when the first refresh
   * succeeds the second request refreshes again, with the pair the first
   * one stored. Two refresh calls go out.
   */
  method TwoUnauthorized<B>(a: RequestConfig, b: RequestConfig, storage: LocalStorage,
                            failure: Transport<B>, refreshA: RefreshOutcome, refreshB: RefreshOutcome,
                            replay: Transport<B>)
    returns (wireA: seq<WireCall>, wireB: seq<WireCall>)
    requires a != b
    requires failure.Failed? && StatusOf(failure) == Some(401)
    requires !a.retry && !b.retry && !IsAuthPath(a.url) && !IsAuthPath(b.url)
    requires Truthy(storage.refreshToken)
    requires RefreshSucceeds(refreshA) && Truthy(Some(refreshA.data.value.refreshToken))
    modifies a, b, storage
    ensures CountRefreshCalls(wireA) + CountRefreshCalls(wireB) == 2
    ensures |wireB| >= 1 && wireB[0] == RefreshTokenCall(refreshA.data.value.refreshToken)
  {
    var settledA, settledB;
    settledA, wireA := OnResponseError(failure, a, storage, refreshA, replay);
    settledB, wireB := OnResponseError(failure, b, storage, refreshB, replay);
    assert wireA[1..][0].ApiCall?;
    CountAppend([wireA[0]], wireA[1..]);
    assert wireA == [wireA[0]] + wireA[1..];
    CountAppend([wireB[0]], wireB[1..]);
    assert wireB == [wireB[0]] + wireB[1..];
  }
}
