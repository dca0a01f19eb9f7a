/**
 * The authentication service: it forwards each call to the repository
 * (whose outcome is a parameter here) and keeps the two token slots of
 * `localStorage` in step with the answers.
 *
 * Each repository call is taken as one atomic step that leaves the slots
 * alone. In the application the repository goes through the HTTP client,
 * whose response interceptor may refresh (replacing or clearing both slots)
 * while the call is in flight; that is modelled in `Api`
 * (`Api.ExpiredSessionClearsTokens`), not here.
 */
module Service {
  import opened Wrappers
  import opened AuthSchema
  import opened Remote
  import opened Storage

  /** A service call together with the repository's outcome for it. */
  datatype Call =
    | LoginCall(auth: Outcome<AuthResponse>)
    | RegisterCall(auth: Outcome<AuthResponse>)
    | LogoutCall(done: Outcome<()>)
    | GetMeCall(me: Outcome<MeData>)
    | RefreshCall(auth: Outcome<AuthResponse>)

  /** The repository call resolved with an envelope that passes `success && data`. */
  predicate IssuesPair(o: Outcome<AuthResponse>) {
    o.Returned? && Delivers(o.response)
  }

  /** The pair `setTokens` writes for an issuing outcome. */
  function IssuedTokens(o: Outcome<AuthResponse>): (t: Tokens)
    requires IssuesPair(o)
    ensures Paired(t) && t.access.Some?
  {
    Tokens(Some(o.response.data.value.accessToken), Some(o.response.data.value.refreshToken))
  }

  /**
   * The token slots after one call. Login, registration and refresh store
   * the issued pair and otherwise leave the slots alone; logout clears them
   * once the repository call has resolved, whatever the envelope says, and
   * leaves them when it rejects; `getMe` never touches them. Every call
   * keeps the two slots paired. "Leave" is relative to the slots as the
   * repository call left them: a failed refresh inside that call has
   * already cleared them.
   */
  function TokensAfter(t: Tokens, c: Call): (t': Tokens)
    ensures Paired(t) ==> Paired(t')
    ensures c.GetMeCall? ==> t' == t
    ensures c.LogoutCall? ==> t' == (if c.done.Returned? then NoTokens else t)
    ensures !c.LogoutCall? && !c.GetMeCall? ==>
      t' == (if IssuesPair(c.auth) then IssuedTokens(c.auth) else t)
  {
    match c
    case LoginCall(o) => if IssuesPair(o) then IssuedTokens(o) else t
    case RegisterCall(o) => if IssuesPair(o) then IssuedTokens(o) else t
    case RefreshCall(o) => if IssuesPair(o) then IssuedTokens(o) else t
    case LogoutCall(o) => if o.Returned? then NoTokens else t
    case GetMeCall(_) => t
  }

  /** The token slots after a sequence of calls, in order. */
  function RunTokens(t: Tokens, calls: seq<Call>): Tokens
    decreases |calls|
  {
    if calls == [] then t else RunTokens(TokensAfter(t, calls[0]), calls[1..])
  }

  /** From "both present" or "both absent", any sequence of calls ends in one of the two. */
  lemma {:induction false} RunKeepsPaired(t: Tokens, calls: seq<Call>)
    requires Paired(t)
    ensures Paired(RunTokens(t, calls))
    decreases |calls|
  {
    if calls != [] {
      RunKeepsPaired(TokensAfter(t, calls[0]), calls[1..]);
    }
  }

  /**
   * After any sequence of calls, the slots hold either what they held at the
   * start, nothing, or the last pair some call issued.
   */
  lemma {:induction false} RunTokensOrigin(t: Tokens, calls: seq<Call>)
    ensures var t' := RunTokens(t, calls);
      t' == t || t' == NoTokens ||
      exists k | 0 <= k < |calls| :: !calls[k].LogoutCall? && !calls[k].GetMeCall? &&
        IssuesPair(calls[k].auth) && t' == IssuedTokens(calls[k].auth)
    decreases |calls|
  {
    if calls != [] {
      var t1 := TokensAfter(t, calls[0]);
      RunTokensOrigin(t1, calls[1..]);
      var t' := RunTokens(t1, calls[1..]);
      if t' != t1 && t' != NoTokens {
        var k :| 0 <= k < |calls[1..]| && !calls[1..][k].LogoutCall? && !calls[1..][k].GetMeCall? &&
          IssuesPair(calls[1..][k].auth) && t' == IssuedTokens(calls[1..][k].auth);
        assert calls[k + 1] == calls[1..][k];
      }
    }
  }

  class AuthService {
    const storage: LocalStorage

    constructor (storage: LocalStorage)
      ensures this.storage == storage
    {
      this.storage := storage;
    }

    /** Writes both keys: the access token first, then the refresh token. */
    method SetTokens(accessToken: string, refreshToken: string)
      modifies storage
      ensures storage.Snapshot() == Tokens(Some(accessToken), Some(refreshToken))
    {
      storage.SetItem(AccessTokenKey, accessToken);
      storage.SetItem(RefreshTokenKey, refreshToken);
    }

    /** Removes both keys. */
    method ClearTokens()
      modifies storage
      ensures storage.Snapshot() == NoTokens
    {
      storage.RemoveItem(AccessTokenKey);
      storage.RemoveItem(RefreshTokenKey);
    }

    /** Stores the issued pair on success and hands the outcome back unchanged. */
    method Login(auth: Outcome<AuthResponse>) returns (r: Outcome<AuthResponse>)
      modifies storage
      ensures r == auth
      ensures storage.Snapshot() == TokensAfter(old(storage.Snapshot()), LoginCall(auth))
    {
      r := auth;
      if auth.Returned? && auth.response.success && auth.response.data.Some? {
        SetTokens(auth.response.data.value.accessToken, auth.response.data.value.refreshToken);
      }
    }

    method Register(auth: Outcome<AuthResponse>) returns (r: Outcome<AuthResponse>)
      modifies storage
      ensures r == auth
      ensures storage.Snapshot() == TokensAfter(old(storage.Snapshot()), RegisterCall(auth))
    {
      r := auth;
      if auth.Returned? && auth.response.success && auth.response.data.Some? {
        SetTokens(auth.response.data.value.accessToken, auth.response.data.value.refreshToken);
      }
    }

    /**
     * Clears the tokens only once the repository call has resolved; a
     * rejection propagates before `clearTokens` runs.
     */
    method Logout(done: Outcome<()>) returns (r: Outcome<()>)
      modifies storage
      ensures r == done
      ensures storage.Snapshot() == TokensAfter(old(storage.Snapshot()), LogoutCall(done))
    {
      r := done;
      if done.Returned? {
        ClearTokens();
      }
    }

    /** Forwards the repository's answer and changes nothing. */
    method GetMe(me: Outcome<MeData>) returns (r: Outcome<MeData>)
      ensures r == me
    {
      r := me;
    }

    /** `token` is what the repository posts; its answer is `auth`. */
    method RefreshToken(token: string, auth: Outcome<AuthResponse>) returns (r: Outcome<AuthResponse>)
      modifies storage
      ensures r == auth
      ensures storage.Snapshot() == TokensAfter(old(storage.Snapshot()), RefreshCall(auth))
    {
      r := auth;
      if auth.Returned? && auth.response.success && auth.response.data.Some? {
        SetTokens(auth.response.data.value.accessToken, auth.response.data.value.refreshToken);
      }
    }
  }
}
