/** How the session store and the delete button share state: the button reads the
    token the store writes under the same `localStorage` key, and every request
    sent through the app's instance carries the default header the store sets. */
module Scenarios {
  import opened Js
  import opened Http
  import opened Auth
  import opened DeleteBtn

  /** A login whose token is text: a delete confirmed afterwards carries that token,
      and so does any other request through the app's instance (`listHeaders`, for an
      instance with no request interceptor). */
  method LoginThenDelete(h: Host, email: Value, password: Value, data: Value,
                         resource: Value, id: Value, deleteOutcome: Outcome)
    returns (delete: Option<Request>, listHeaders: map<string, string>)
    requires PickToken(data).Str? && PickToken(data).s != ""
    ensures delete == Some(DeleteRequest(h, resource, id, PickToken(data)))
    ensures "Authorization" in listHeaders && listHeaders["Authorization"] == Bearer(h, PickToken(data))
  {
    var session := new Session(map[], map[]);
    var login, settled := session.OnLogin(h, email, password, Success(data));
    assert session.storage == map[TokenKey := PickToken(data).s];
    var button := new DeleteButton(resource, id, true);
    button.ClickTrash();
    var notice, callback;
    delete, notice, callback := button.OnDelete(h, session.storage, deleteOutcome);
    listHeaders := SentHeaders(Request(AppClient, Get, "/doctors", map[], Undefined), session.defaults);
  }

  /** After a logout no token is stored and no default header is left, so a delete is
      refused without a request whatever the earlier session held; a request through
      the app's instance then has no `Authorization`, unless an interceptor adds one. */
  method LogoutThenDelete(h: Host, storage0: map<string, string>, defaults0: map<string, string>,
                          resource: Value, id: Value, deleteOutcome: Outcome)
    returns (delete: Option<Request>, notice: Option<Notice>, listHeaders: map<string, string>)
    ensures delete == None && notice == Some(Alert(NotAuthenticatedText))
    ensures "Authorization" !in listHeaders
  {
    var session := new Session(storage0, defaults0);
    session.OnLogout();
    var button := new DeleteButton(resource, id, true);
    button.ClickTrash();
    var callback;
    delete, notice, callback := button.OnDelete(h, session.storage, deleteOutcome);
    listHeaders := SentHeaders(Request(AppClient, Get, "/doctors", map[], Undefined), session.defaults);
  }

  /** A successful login followed by a logout leaves no token, no header and no user:
      the session is as it was before the login, less any token and header it held. */
  method LoginThenLogout(h: Host, storage0: map<string, string>, defaults0: map<string, string>,
                         email: Value, password: Value, data: Value)
    returns (session: Session)
    requires Truthy(PickToken(data))
    ensures TokenKey !in session.storage && "Authorization" !in session.defaults && session.user == Null
    ensures session.storage == storage0 - {TokenKey} && session.defaults == defaults0 - {"Authorization"}
  {
    session := new Session(storage0, defaults0);
    var login, settled := session.OnLogin(h, email, password, Success(data));
    session.OnLogout();
    ForgetUpdate(storage0, TokenKey, StringOf(h, PickToken(data)));
    ForgetUpdate(defaults0, "Authorization", Bearer(h, PickToken(data)));
  }

  /** Writing a key and then removing it leaves the map as removing it alone does. */
  lemma ForgetUpdate<V>(m: map<string, V>, k: string, v: V)
    ensures m[k := v] - {k} == m - {k}
  {
  }

  /** Logging out twice leaves the session as logging out once does. */
  method LogoutTwice(session: Session)
    modifies session
    ensures session.storage == old(session.storage) - {TokenKey}
    ensures session.defaults == old(session.defaults) - {"Authorization"}
    ensures session.user == Null
  {
    session.OnLogout();
    session.OnLogout();
  }

  /** A rejected login leaves a signed-out session signed out. */
  method FailedLoginKeepsSignedOut(h: Host, storage0: map<string, string>, defaults0: map<string, string>,
                                   email: Value, password: Value, outcome: Outcome)
    returns (session: Session, result: Settled)
    requires LoginToken(outcome).None?
    ensures result == Rejected(LoginErrorText(h, outcome))
    ensures session.storage == storage0 && session.defaults == defaults0 && session.user == Null
  {
    session := new Session(storage0, defaults0);
    var login;
    login, result := session.OnLogin(h, email, password, outcome);
  }
}
