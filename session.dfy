/** The authentication context (`context/AuthContext.jsx`): who is signed in,
    whether the initial session restore has finished, and the transitions of
    sign-in, registration and sign-out. The server's answer is an input;
    `JSON.parse` and `JSON.stringify` are parameters. */
module Session {
  import opened Js
  import opened Records
  import opened AuthStore

  /** `{ ...u, _id: u._id || u.id }`: the server may identify a user by `_id` or by `id`. */
  function Normalize(u: User): (r: User)
    ensures Truthy(u.mongoId) ==> r.mongoId == u.mongoId
    ensures !Truthy(u.mongoId) ==> r.mongoId == u.id
    ensures r.id == u.id && r.fullName == u.fullName && r.email == u.email
    ensures r.role == u.role && r.department == u.department && r.employeeId == u.employeeId
  {
    u.(mongoId := OrElse(u.mongoId, u.id))
  }

  /** Normalising an already normalised user changes nothing. */
  lemma NormalizeIdempotent(u: User)
    ensures Normalize(Normalize(u)) == Normalize(u)
  {
  }

  /** `user?.role === 'Admin'`. */
  predicate IsAdminUser(user: Option<User>)
    ensures IsAdminUser(user) ==> user.Some?
    ensures user.Some? && user.value.role.None? ==> !IsAdminUser(user)
  {
    user.Some? && user.value.role == Some("Admin")
  }

  /** The body of a successful sign-in or registration response. */
  datatype AuthPayload = AuthPayload(token: string, user: Option<User>)

  /** What `login` and `register` resolve to. */
  datatype SignInResult = SignedIn(user: User) | Rejected(error: string)

  /** The state the provider shares with every page. */
  class AuthProvider {
    var user: Option<User>
    var loading: bool
    var isAuthenticated: bool
    const session: WebStorage
    const local: WebStorage

    /** A user is present exactly when the session counts as authenticated. */
    ghost predicate Valid()
      reads this
    {
      session != local && (isAuthenticated <==> user.Some?)
    }

    /** The state before the mount effect has run. */
    constructor (session: WebStorage, local: WebStorage)
      requires session != local
      ensures Valid()
      ensures user.None? && loading && !isAuthenticated
      ensures this.session == session && this.local == local
    {
      this.session := session;
      this.local := local;
      user := None;
      loading := true;
      isAuthenticated := false;
    }

    /** `isAdmin()`: a user is present and its role is exactly 'Admin'. */
    function IsAdmin(): (r: bool)
      reads this
      ensures r <==> user.Some? && user.value.role == Some("Admin")
      ensures user.None? ==> !r
    {
      IsAdminUser(user)
    }

    /** The mount effect: restore a session from the stores, session first. */
    method Init(parse: string -> Option<User>)
      requires Valid()
      modifies this, session
      ensures Valid() && !loading
      ensures local.entries == old(local.entries)
      ensures var token := ReadFirst(old(session.entries), old(local.entries), TOKEN);
              var data := ReadFirst(old(session.entries), old(local.entries), USER);
              if Truthy(token) && Truthy(data) then
                match parse(data.value)
                case Some(p) =>
                  user == Some(Normalize(p)) && isAuthenticated && session.entries == old(session.entries)
                case None =>
                  user == old(user) && isAuthenticated == old(isAuthenticated) &&
                  session.entries == old(session.entries) - {TOKEN, USER}
              else
                user == old(user) && isAuthenticated == old(isAuthenticated) &&
                session.entries == old(session.entries)
    {
      var token := GetToken(session, local);
      var data := ReadFirst(session.entries, local.entries, USER);
      if Truthy(token) && Truthy(data) {
        var parsed := parse(data.value);
        if parsed.Some? {
          user := Some(Normalize(parsed.value));
          isAuthenticated := true;
        } else {
          session.RemoveItem(TOKEN);
          session.RemoveItem(USER);
        }
      }
      loading := false;
    }

    /** The shared body of `login` and `register`; `fallback` is the message used
        when the failure carries no server error. A response without a user object
        fails on reading its id, before anything is stored. */
    method Authenticate(response: Outcome<AuthPayload>, fallback: string, stringify: User -> string)
      returns (result: SignInResult)
      requires Valid()
      modifies this, session
      ensures Valid()
      ensures loading == old(loading) && local.entries == old(local.entries)
      ensures response.Done? && response.data.user.Some? ==>
                var n := Normalize(response.data.user.value);
                && result == SignedIn(n)
                && user == Some(n) && isAuthenticated
                && session.entries == old(session.entries)[TOKEN := response.data.token][USER := stringify(n)]
      ensures response.Done? && response.data.user.None? ==>
                result == Rejected(fallback)
      ensures response.Failed? ==> result == Rejected(Or(ServerError(response.failure), fallback))
      ensures result.Rejected? ==>
                user == old(user) && isAuthenticated == old(isAuthenticated) &&
                session.entries == old(session.entries)
    {
      match response
      case Done(payload) =>
        if payload.user.None? {
          result := Rejected(fallback);
        } else {
          var n := Normalize(payload.user.value);
          session.SetItem(TOKEN, payload.token);
          session.SetItem(USER, stringify(n));
          user := Some(n);
          isAuthenticated := true;
          result := SignedIn(n);
        }
      case Failed(f) =>
        result := Rejected(Or(ServerError(f), fallback));
    }

    /** `login(username, password)`, given the server's answer. */
    method Login(response: Outcome<AuthPayload>, stringify: User -> string)
      returns (result: SignInResult)
      requires Valid()
      modifies this, session
      ensures Valid()
      ensures loading == old(loading) && local.entries == old(local.entries)
      ensures response.Done? && response.data.user.Some? ==>
                var n := Normalize(response.data.user.value);
                && result == SignedIn(n)
                && user == Some(n) && isAuthenticated
                && session.entries == old(session.entries)[TOKEN := response.data.token][USER := stringify(n)]
      ensures response.Failed? ==> result == Rejected(Or(ServerError(response.failure), "Login failed"))
      ensures response.Done? && response.data.user.None? ==> result == Rejected("Login failed")
      ensures result.Rejected? ==>
                user == old(user) && isAuthenticated == old(isAuthenticated) &&
                session.entries == old(session.entries)
    {
      result := Authenticate(response, "Login failed", stringify);
    }

    /** `register(userData)`, given the server's answer. */
    method Register(response: Outcome<AuthPayload>, stringify: User -> string)
      returns (result: SignInResult)
      requires Valid()
      modifies this, session
      ensures Valid()
      ensures loading == old(loading) && local.entries == old(local.entries)
      ensures response.Done? && response.data.user.Some? ==>
                var n := Normalize(response.data.user.value);
                && result == SignedIn(n)
                && user == Some(n) && isAuthenticated
                && session.entries == old(session.entries)[TOKEN := response.data.token][USER := stringify(n)]
      ensures response.Failed? ==> result == Rejected(Or(ServerError(response.failure), "Registration failed"))
      ensures response.Done? && response.data.user.None? ==> result == Rejected("Registration failed")
      ensures result.Rejected? ==>
                user == old(user) && isAuthenticated == old(isAuthenticated) &&
                session.entries == old(session.entries)
    {
      result := Authenticate(response, "Registration failed", stringify);
    }

    /** `logout()`: forgets the session's token and user; the local store is left alone. */
    method Logout()
      requires Valid()
      modifies this, session
      ensures Valid()
      ensures user.None? && !isAuthenticated && !IsAdmin()
      ensures session.entries == old(session.entries) - {TOKEN, USER}
      ensures local.entries == old(local.entries) && loading == old(loading)
    {
      session.RemoveItem(TOKEN);
      session.RemoveItem(USER);
      user := None;
      isAuthenticated := false;
    }
  }
}
