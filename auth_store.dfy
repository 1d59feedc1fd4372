/** The browser's two key-value stores (`sessionStorage` and `localStorage`)
    and the token helpers of `library/auth.js` over them. */
module AuthStore {
  import opened Js
  import opened Records

  const TOKEN := "token"
  const USER := "user"

  /** One Web Storage area: string keys to string values, updated in place. */
  class WebStorage {
    var entries: map<string, string>

    constructor (initial: map<string, string>)
      ensures entries == initial
    {
      entries := initial;
    }

    /** `getItem(key)`: the stored value, or `null` when the key is absent. */
    function GetItem(key: string): (r: Option<string>)
      reads this
      ensures r.Some? <==> key in entries
      ensures r.Some? ==> r.value == entries[key]
    {
      if key in entries then Some(entries[key]) else None
    }

    /** `setItem(key, value)`. */
    method SetItem(key: string, value: string)
      modifies this
      ensures entries == old(entries)[key := value]
    {
      entries := entries[key := value];
    }

    /** `removeItem(key)`; removing an absent key changes nothing. */
    method RemoveItem(key: string)
      modifies this
      ensures entries == old(entries) - {key}
    {
      entries := entries - {key};
    }
  }

  /** `session.getItem(key) || local.getItem(key)`, over the two stores' contents. */
  function ReadFirst(session: map<string, string>, local: map<string, string>, key: string): (r: Option<string>)
    ensures key in session && session[key] != "" ==> r == Some(session[key])
    ensures !(key in session && session[key] != "") ==>
              (r.Some? <==> key in local) && (r.Some? ==> r.value == local[key])
  {
    if key in session && session[key] != "" then Some(session[key])
    else if key in local then Some(local[key])
    else None
  }

  /** `getToken()`: the session token when it is truthy, otherwise the local one. */
  function GetToken(session: WebStorage, local: WebStorage): (r: Option<string>)
    reads session, local
    ensures Truthy(session.GetItem(TOKEN)) ==> r == session.GetItem(TOKEN)
    ensures !Truthy(session.GetItem(TOKEN)) ==> r == local.GetItem(TOKEN)
  {
    ReadFirst(session.entries, local.entries, TOKEN)
  }

  /** The token read never consults the local store while the session holds a
      truthy token, and yields nothing only when neither store can supply one. */
  lemma TokenAbsent(session: map<string, string>, local: map<string, string>)
    ensures ReadFirst(session, local, TOKEN).None? <==>
              (TOKEN !in local && !(TOKEN in session && session[TOKEN] != ""))
  {
  }

  /** `setSessionAuth(token, user)`: writes each argument that is truthy, to the
      session store only; `stringify` stands for `JSON.stringify`. */
  method SetSessionAuth(session: WebStorage, token: Option<string>, user: Option<User>,
                        stringify: User -> string)
    modifies session
    ensures Truthy(token) ==> TOKEN in session.entries && session.entries[TOKEN] == token.value
    ensures !Truthy(token) ==> session.GetItem(TOKEN) == old(session.GetItem(TOKEN))
    ensures user.Some? ==> USER in session.entries && session.entries[USER] == stringify(user.value)
    ensures user.None? ==> session.GetItem(USER) == old(session.GetItem(USER))
    ensures forall k :: k != TOKEN && k != USER ==> session.GetItem(k) == old(session.GetItem(k))
  {
    if Truthy(token) {
      session.SetItem(TOKEN, token.value);
    }
    if user.Some? {
      session.SetItem(USER, stringify(user.value));
    }
  }

  /** `clearAuth()`: removes the token and the user from both stores. */
  method ClearAuth(session: WebStorage, local: WebStorage)
    modifies session, local
    ensures TOKEN !in session.entries && USER !in session.entries
    ensures TOKEN !in local.entries && USER !in local.entries
    ensures GetToken(session, local).None?
    ensures forall k :: k != TOKEN && k != USER ==>
              session.GetItem(k) == old(session.GetItem(k)) && local.GetItem(k) == old(local.GetItem(k))
  {
    session.RemoveItem(TOKEN);
    session.RemoveItem(USER);
    local.RemoveItem(TOKEN);
    local.RemoveItem(USER);
  }
}
