/** The localStorage effects of services/authService.js. Each request to the
    server is an input: the way the awaited call ended (the response body, or
    the error it threw). */
module AuthService {
  import opened JsValue
  import opened WebStorage

  const TOKEN := "token"
  const REFRESH_TOKEN := "refreshToken"
  const USER := "user"

  // ------------------------------------------------------------ store effects

  /** The store after `login` received the response body `data`: both tokens
      are written when `data.access` is truthy, nothing otherwise. */
  function LoginStore(items: map<string, string>, data: Val): map<string, string> {
    if Truthy(Get(data, "access")) then
      items[TOKEN := ToJsString(Get(data, "access"))][REFRESH_TOKEN := ToJsString(Get(data, "refresh"))]
    else items
  }

  /** The store after `logout`. */
  function LogoutStore(items: map<string, string>): map<string, string> {
    items - {TOKEN, REFRESH_TOKEN}
  }

  /** The store after a refresh that received the body `data`. */
  function RefreshStore(items: map<string, string>, data: Val): map<string, string> {
    if Truthy(Get(data, "access")) then items[TOKEN := ToJsString(Get(data, "access"))] else items
  }

  /** Every key other than the two tokens (the stored user among them) is
      left as it was by login, logout and refresh. */
  lemma OnlyTokensChange(items: map<string, string>, data: Val, k: string)
    requires k != TOKEN && k != REFRESH_TOKEN
    ensures (k in LoginStore(items, data)) == (k in items)
    ensures (k in LogoutStore(items)) == (k in items)
    ensures (k in RefreshStore(items, data)) == (k in items)
    ensures k in items ==>
      LoginStore(items, data)[k] == items[k] && LogoutStore(items)[k] == items[k]
      && RefreshStore(items, data)[k] == items[k]
  {
  }

  /** A login whose response has a truthy access token stores it and the
      refresh token, and a later refresh keeps the refresh token. */
  lemma LoginStoresTokens(items: map<string, string>, data: Val, again: Val)
    requires Truthy(Get(data, "access"))
    ensures var m := LoginStore(items, data);
      TOKEN in m && m[TOKEN] == ToJsString(Get(data, "access"))
      && REFRESH_TOKEN in m && m[REFRESH_TOKEN] == ToJsString(Get(data, "refresh"))
      && RefreshStore(m, again)[REFRESH_TOKEN] == m[REFRESH_TOKEN]
  {
  }

  /** Logging out twice leaves the same store as logging out once, and no token
      survives it. */
  lemma LogoutIdempotent(items: map<string, string>)
    ensures LogoutStore(LogoutStore(items)) == LogoutStore(items)
    ensures TOKEN !in LogoutStore(items) && REFRESH_TOKEN !in LogoutStore(items)
  {
  }

  // ------------------------------------------------------------ operations

  /** `login(credentials)`; `reply` is how `api.post(LOGIN, credentials)` ended,
      holding the response body. Returns the body. */
  method Login(store: LocalStorage, reply: Completion) returns (c: Completion)
    modifies store
    ensures reply.Threw? ==> c == reply && store.items == old(store.items)
    ensures reply.Returned? && Nullish(reply.value) ==>
      c == Threw(TypeErrorObj()) && store.items == old(store.items)
    ensures reply.Returned? && !Nullish(reply.value) ==>
      c == reply && store.items == LoginStore(old(store.items), reply.value)
  {
    if reply.Threw? {
      return reply;
    }
    var data := reply.value;
    if Nullish(data) {
      return Threw(TypeErrorObj());
    }
    if Truthy(Get(data, "access")) {
      store.SetItem(TOKEN, Get(data, "access"));
      store.SetItem(REFRESH_TOKEN, Get(data, "refresh"));
    }
    return Returned(data);
  }

  /** `logout()` */
  method Logout(store: LocalStorage)
    modifies store
    ensures store.items == LogoutStore(old(store.items))
  {
    store.RemoveItem(TOKEN);
    store.RemoveItem(REFRESH_TOKEN);
  }

  /** `refreshToken()`. `sent` is the body posted to the refresh endpoint, None
      when no request is made; `reply` is how that request ended. */
  method RefreshToken(store: LocalStorage, reply: Completion) returns (c: Completion, sent: Option<Val>)
    modifies store
    ensures !Truthy(old(store.GetItem(REFRESH_TOKEN))) ==>
        sent == None && c == Threw(ErrorObj(Str("No refresh token available")))
        && store.items == old(store.items)
    ensures Truthy(old(store.GetItem(REFRESH_TOKEN))) ==>
      sent == Some(Obj([Field("refresh", old(store.GetItem(REFRESH_TOKEN)))]))
    ensures Truthy(old(store.GetItem(REFRESH_TOKEN))) && reply.Threw? ==>
      c == reply && store.items == old(store.items)
    ensures Truthy(old(store.GetItem(REFRESH_TOKEN))) && reply.Returned? && Nullish(reply.value) ==>
      c == Threw(TypeErrorObj()) && store.items == old(store.items)
    ensures Truthy(old(store.GetItem(REFRESH_TOKEN))) && reply.Returned? && !Nullish(reply.value) ==>
      c == reply && store.items == RefreshStore(old(store.items), reply.value)
  {
    var refresh := store.GetItem(REFRESH_TOKEN);
    if !Truthy(refresh) {
      return Threw(ErrorObj(Str("No refresh token available"))), None;
    }
    sent := Some(Obj([Field("refresh", refresh)]));
    if reply.Threw? {
      return reply, sent;
    }
    var data := reply.value;
    if Nullish(data) {
      return Threw(TypeErrorObj()), sent;
    }
    if Truthy(Get(data, "access")) {
      store.SetItem(TOKEN, Get(data, "access"));
    }
    c := Returned(data);
  }
}
