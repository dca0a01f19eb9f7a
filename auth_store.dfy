/**
 * The session store: `{user, isAuthenticated, isLoading, error}` and its
 * actions. Each action is first given as a function from the session and
 * the token slots before it to a `Step` (the final state, the states that
 * each `set(...)` published on the way, and what the action throws); the
 * `AuthStore` class below performs the same actions by successive
 * assignments and is proved to agree with those functions.
 */
module Store {
  import opened Wrappers
  import opened AuthSchema
  import opened Remote
  import opened Storage
  import opened Service

  datatype Session = Session(user: Option<User>, isAuthenticated: bool, isLoading: bool, error: Option<string>)

  const InitialSession := Session(None, false, false, None)

  /** The session together with the token slots it shares with the service. */
  datatype World = World(session: Session, tokens: Tokens)

  /**
   * One action's effect: the final world, every state published by a
   * `set(...)` in order (the last one is the final session), and the value
   * the action throws, if any.
   */
  datatype Step = Step(world: World, published: seq<Session>, raised: Option<Thrown>)

  const LoginFailedMessage := "Login failed"
  const RegistrationFailedMessage := "Registration failed"

  /** `message || fallback`: an empty message is replaced. */
  function OrDefault(message: string, fallback: string): (m: string)
    ensures message == "" ==> m == fallback
    ensures message != "" ==> m == message
    ensures fallback != "" ==> m != ""
  {
    if message != "" then message else fallback
  }

  /** A session that claims to be authenticated has a user. */
  predicate AuthenticatedHasUser(s: Session) {
    s.isAuthenticated ==> s.user.Some?
  }

  /** `setUser(u)`: the flag follows the presence of the user; nothing else changes. */
  function SetUserStep(w: World, u: Option<User>): (st: Step)
    ensures st.world.session.user == u
    ensures st.world.session.isAuthenticated <==> u.Some?
    ensures st.world.session.isLoading == w.session.isLoading && st.world.session.error == w.session.error
    ensures st.world.tokens == w.tokens && st.raised.None?
    ensures AuthenticatedHasUser(st.world.session)
  {
    var s := w.session.(user := u, isAuthenticated := u.Some?);
    Step(World(s, w.tokens), [s], None)
  }

  /** `setError(e)`. */
  function SetErrorStep(w: World, e: Option<string>): (st: Step)
    ensures st.world.session.error == e
    ensures st.world.session.user == w.session.user
    ensures st.world.session.isAuthenticated == w.session.isAuthenticated
    ensures st.world.session.isLoading == w.session.isLoading
    ensures st.world.tokens == w.tokens && st.raised.None?
  {
    var s := w.session.(error := e);
    Step(World(s, w.tokens), [s], None)
  }

  /**
   * `login` (with `LoginCall`) and `register` (with `RegisterCall`): they
   * differ only in the service call and the fallback message.
   *
   * First `isLoading` goes up and `error` is cleared. On an issuing answer
   * the user is taken from it and the session becomes authenticated. On
   * any other answer, or a rejection, `user` and `isAuthenticated` stay as
   * they were, `isLoading` comes down, `error` is the message of what is
   * thrown, and the action throws: a new `Error` carrying the envelope's
   * message (or the fallback when it is empty), or the service's own
   * rejection unchanged.
   *
   * Registration authenticates exactly as login does, although the unit
   * test at src/tests/unit/auth.store.spec.ts:66-80 expects it not to; and
   * on a failed envelope the store throws a new `Error`, not the envelope
   * that src/tests/unit/auth.store.spec.ts:82-101 expects.
   */
  function AuthenticateStep(w: World, call: Call): (st: Step)
    requires call.LoginCall? || call.RegisterCall?
    ensures |st.published| == 2 && st.published[1] == st.world.session
    ensures st.published[0] == w.session.(isLoading := true, error := None)
    ensures st.world.tokens == TokensAfter(w.tokens, call)
    ensures !st.world.session.isLoading
    ensures IssuesPair(call.auth) ==>
      && st.raised.None? && st.world.session.isAuthenticated && st.world.session.error.None?
      && st.world.session.user == Some(call.auth.response.data.value.user)
    ensures !IssuesPair(call.auth) ==>
      && st.raised.Some?
      && st.world.session.user == w.session.user
      && st.world.session.isAuthenticated == w.session.isAuthenticated
      && st.world.session.error == MessageOf(st.raised.value)
    ensures call.auth.Threw? ==> st.raised == Some(call.auth.thrown)
    ensures call.auth.Returned? && !IssuesPair(call.auth) ==>
      st.raised == Some(ErrorInstance(OrDefault(call.auth.response.message,
        if call.LoginCall? then LoginFailedMessage else RegistrationFailedMessage)))
    ensures call.auth.Returned? && !IssuesPair(call.auth) && call.auth.response.message == "" ==>
      st.raised == Some(ErrorInstance(if call.LoginCall? then LoginFailedMessage else RegistrationFailedMessage))
      && st.world.session.error == Some(if call.LoginCall? then LoginFailedMessage else RegistrationFailedMessage)
  {
    var fallback := if call.LoginCall? then LoginFailedMessage else RegistrationFailedMessage;
    var loading := w.session.(isLoading := true, error := None);
    var tokens := TokensAfter(w.tokens, call);
    match call.auth
    case Returned(r) =>
      if r.success && r.data.Some? then
        var s := loading.(user := Some(r.data.value.user), isAuthenticated := true, isLoading := false);
        Step(World(s, tokens), [loading, s], None)
      else
        var e := ErrorInstance(OrDefault(r.message, fallback));
        var s := loading.(error := MessageOf(e), isLoading := false);
        Step(World(s, tokens), [loading, s], Some(e))
    case Threw(e) =>
      var s := loading.(error := MessageOf(e), isLoading := false);
      Step(World(s, tokens), [loading, s], Some(e))
  }

  /**
   * `logout`: the final reset sits in a `finally`, so it happens whether or
   * not the service call rejects, and a rejection is rethrown after it.
   * `error` is left alone. The tokens are cleared only when the service
   * call resolved.
   */
  function LogoutStep(w: World, done: Outcome<()>): (st: Step)
    ensures |st.published| == 2 && st.published[0] == w.session.(isLoading := true)
    ensures st.published[1] == st.world.session
    ensures st.world.session == Session(None, false, false, w.session.error)
    ensures st.world.tokens == (if done.Returned? then NoTokens else w.tokens)
    ensures st.raised == (if done.Threw? then Some(done.thrown) else None)
  {
    var loading := w.session.(isLoading := true);
    var s := loading.(user := None, isAuthenticated := false, isLoading := false);
    Step(World(s, TokensAfter(w.tokens, LogoutCall(done))), [loading, s], if done.Threw? then Some(done.thrown) else None)
  }

  /**
   * `checkAuth`: without a stored access token it only lowers the two
   * flags and never asks the server; with one it asks `getMe`, takes the
   * user on an answer that passes `success && data`, and otherwise (a
   * failed answer or a rejection) only lowers the two flags, keeping
   * `user`; the store itself never touches the tokens (a failed refresh
   * inside `getMe` may already have cleared them). It never throws.
   */
  function CheckAuthStep(w: World, me: Outcome<MeData>): (st: Step)
    ensures st.world.tokens == w.tokens && st.raised.None?
    ensures !st.world.session.isLoading && st.world.session.error == w.session.error
    ensures |st.published| >= 1 && st.published[|st.published| - 1] == st.world.session
    ensures !Truthy(w.tokens.access) ==>
      && st.world.session == w.session.(isAuthenticated := false, isLoading := false)
      && |st.published| == 1
    ensures Truthy(w.tokens.access) ==>
      && |st.published| == 2 && st.published[0] == w.session.(isLoading := true)
      && (st.world.session.isAuthenticated <==> me.Returned? && Delivers(me.response))
      && (if me.Returned? && Delivers(me.response)
          then st.world.session.user == Some(me.response.data.value.user)
          else st.world.session.user == w.session.user)
  {
    var s := w.session;
    if !Truthy(w.tokens.access) then
      var s1 := s.(isAuthenticated := false, isLoading := false);
      Step(World(s1, w.tokens), [s1], None)
    else
      var loading := s.(isLoading := true);
      var s1 :=
        if me.Returned? && me.response.success && me.response.data.Some?
        then loading.(user := Some(me.response.data.value.user), isAuthenticated := true, isLoading := false)
        else loading.(isAuthenticated := false, isLoading := false);
      Step(World(s1, w.tokens), [loading, s1], None)
  }

  /** Without a stored access token the server's answer plays no part. */
  lemma CheckAuthWithoutTokenIgnoresServer(w: World, me1: Outcome<MeData>, me2: Outcome<MeData>)
    requires !Truthy(w.tokens.access)
    ensures CheckAuthStep(w, me1) == CheckAuthStep(w, me2)
  {
  }

  datatype Action =
    | SetUser(u: Option<User>)
    | SetError(e: Option<string>)
    | Login(auth: Outcome<AuthResponse>)
    | Register(auth: Outcome<AuthResponse>)
    | Logout(done: Outcome<()>)
    | CheckAuth(me: Outcome<MeData>)

  function Apply(w: World, a: Action): Step {
    match a
    case SetUser(u) => SetUserStep(w, u)
    case SetError(e) => SetErrorStep(w, e)
    case Login(o) => AuthenticateStep(w, LoginCall(o))
    case Register(o) => AuthenticateStep(w, RegisterCall(o))
    case Logout(o) => LogoutStep(w, o)
    case CheckAuth(o) => CheckAuthStep(w, o)
  }

  function Run(w: World, actions: seq<Action>): World
    decreases |actions|
  {
    if actions == [] then w else Run(Apply(w, actions[0]).world, actions[1..])
  }

  /** Paired token slots, and an authenticated session that has a user. */
  predicate Consistent(w: World) {
    Paired(w.tokens) && AuthenticatedHasUser(w.session)
  }

  /** Every action keeps the world consistent. */
  lemma ApplyKeepsConsistent(w: World, a: Action)
    requires Consistent(w)
    ensures Consistent(Apply(w, a).world)
  {
  }

  /** From the initial world, or any consistent one, every run of actions stays consistent. */
  lemma {:induction false} RunKeepsConsistent(w: World, actions: seq<Action>)
    requires Consistent(w)
    ensures Consistent(Run(w, actions))
    decreases |actions|
  {
    if actions != [] {
      ApplyKeepsConsistent(w, actions[0]);
      RunKeepsConsistent(Apply(w, actions[0]).world, actions[1..]);
    }
  }

  /**
   * The converse does not hold: a failed `checkAuth` keeps the user while
   * lowering the flag, so "authenticated exactly when a user is present"
   * is not kept.
   */
  lemma FailedCheckKeepsStaleUser(u: User, access: string, refresh: string, failure: Thrown)
    requires access != ""
    ensures var w := World(Session(Some(u), true, false, None), Tokens(Some(access), Some(refresh)));
      var after := CheckAuthStep(w, Threw(failure)).world;
      after.session.user == Some(u) && !after.session.isAuthenticated && after.tokens == w.tokens
  {
  }

  /**
   * A logout whose remote call rejects for a reason other than a failed
   * refresh (which clears the tokens first) leaves the tokens stored, so a
   * later `checkAuth` asks the server again and, if it answers,
   * authenticates without any new login.
   */
  lemma RejectedLogoutThenCheckAuth(w: World, failure: Thrown, me: ApiResponse<MeData>)
    requires Truthy(w.tokens.access) && Delivers(me)
    ensures var out := LogoutStep(w, Threw(failure)).world;
      && !out.session.isAuthenticated && out.tokens == w.tokens
      && CheckAuthStep(out, Returned(me)).world.session.isAuthenticated
  {
  }

  // ---------------------------------------------------------------------
  // Persistence

  /** What the persistence layer writes: `user` and `isAuthenticated` only. */
  datatype Persisted = Persisted(user: Option<User>, isAuthenticated: bool)

  function Partialize(s: Session): (p: Persisted)
    ensures p.user == s.user && p.isAuthenticated == s.isAuthenticated
  {
    Persisted(s.user, s.isAuthenticated)
  }

  /** `isLoading` and `error` never reach storage. */
  lemma PartializeIgnoresTransient(s: Session, loading: bool, e: Option<string>)
    ensures Partialize(s.(isLoading := loading, error := e)) == Partialize(s)
  {
  }

  /** Rehydration merges the persisted fields over the current state, shallowly. */
  function Rehydrate(s: Session, p: Persisted): (r: Session)
    ensures Partialize(r) == p
    ensures r.isLoading == s.isLoading && r.error == s.error
  {
    s.(user := p.user, isAuthenticated := p.isAuthenticated)
  }

  /** Reloading the page restores the persisted pair over a fresh store. */
  lemma ReloadRestores(s: Session)
    ensures Rehydrate(InitialSession, Partialize(s)) == Session(s.user, s.isAuthenticated, false, None)
  {
  }

  // ---------------------------------------------------------------------
  // The store object

  class AuthStore {
    var user: Option<User>
    var isAuthenticated: bool
    var isLoading: bool
    var error: Option<string>
    /** Every state published by `set(...)`, oldest first. */
    ghost var published: seq<Session>
    const service: AuthService

    constructor (service: AuthService)
      ensures State() == InitialSession && published == [] && this.service == service
    {
      user, isAuthenticated, isLoading, error := None, false, false, None;
      published := [];
      this.service := service;
    }

    function State(): Session
      reads this
    {
      Session(user, isAuthenticated, isLoading, error)
    }

    function Snapshot(): World
      reads this, service.storage
    {
      World(State(), service.storage.Snapshot())
    }

    /** `set(...)`: the new state becomes visible to subscribers. */
    method Publish(s: Session)
      modifies this
      ensures State() == s && published == old(published) + [s]
    {
      user, isAuthenticated, isLoading, error := s.user, s.isAuthenticated, s.isLoading, s.error;
      published := published + [s];
    }

    method SetUser(u: Option<User>)
      modifies this
      ensures var st := SetUserStep(old(Snapshot()), u);
        Snapshot() == st.world && published == old(published) + st.published
    {
      Publish(State().(user := u, isAuthenticated := u.Some?));
    }

    method SetError(e: Option<string>)
      modifies this
      ensures var st := SetErrorStep(old(Snapshot()), e);
        Snapshot() == st.world && published == old(published) + st.published
    {
      Publish(State().(error := e));
    }

    method Login(auth: Outcome<AuthResponse>) returns (raised: Option<Thrown>)
      modifies this, service.storage
      ensures var st := AuthenticateStep(old(Snapshot()), LoginCall(auth));
        Snapshot() == st.world && published == old(published) + st.published && raised == st.raised
    {
      Publish(State().(isLoading := true, error := None));
      var response := service.Login(auth);
      match response
      case Returned(r) =>
        if r.success && r.data.Some? {
          Publish(State().(user := Some(r.data.value.user), isAuthenticated := true, isLoading := false));
          raised := None;
        } else {
          var e := ErrorInstance(if r.message != "" then r.message else LoginFailedMessage);
          Publish(State().(error := MessageOf(e), isLoading := false));
          raised := Some(e);
        }
      case Threw(e) =>
        Publish(State().(error := MessageOf(e), isLoading := false));
        raised := Some(e);
    }

    method Register(auth: Outcome<AuthResponse>) returns (raised: Option<Thrown>)
      modifies this, service.storage
      ensures var st := AuthenticateStep(old(Snapshot()), RegisterCall(auth));
        Snapshot() == st.world && published == old(published) + st.published && raised == st.raised
    {
      Publish(State().(isLoading := true, error := None));
      var response := service.Register(auth);
      match response
      case Returned(r) =>
        if r.success && r.data.Some? {
          Publish(State().(user := Some(r.data.value.user), isAuthenticated := true, isLoading := false));
          raised := None;
        } else {
          var e := ErrorInstance(if r.message != "" then r.message else RegistrationFailedMessage);
          Publish(State().(error := MessageOf(e), isLoading := false));
          raised := Some(e);
        }
      case Threw(e) =>
        Publish(State().(error := MessageOf(e), isLoading := false));
        raised := Some(e);
    }

    method Logout(done: Outcome<()>) returns (raised: Option<Thrown>)
      modifies this, service.storage
      ensures var st := LogoutStep(old(Snapshot()), done);
        Snapshot() == st.world && published == old(published) + st.published && raised == st.raised
    {
      Publish(State().(isLoading := true));
      var response := service.Logout(done);
      Publish(State().(user := None, isAuthenticated := false, isLoading := false));
      raised := if response.Threw? then Some(response.thrown) else None;
    }

    /** `calledGetMe` reports whether the server was asked. */
    method CheckAuth(me: Outcome<MeData>) returns (calledGetMe: bool)
      modifies this
      ensures var st := CheckAuthStep(old(Snapshot()), me);
        Snapshot() == st.world && published == old(published) + st.published
      ensures calledGetMe <==> Truthy(service.storage.accessToken)
    {
      var token := service.storage.GetItem(AccessTokenKey);
      if !(token.Some? && token.value != "") {
        Publish(State().(isAuthenticated := false, isLoading := false));
        calledGetMe := false;
        return;
      }
      Publish(State().(isLoading := true));
      calledGetMe := true;
      var response := service.GetMe(me);
      if response.Returned? && response.response.success && response.response.data.Some? {
        Publish(State().(user := Some(response.response.data.value.user), isAuthenticated := true, isLoading := false));
      } else {
        Publish(State().(isAuthenticated := false, isLoading := false));
      }
    }
  }
}
