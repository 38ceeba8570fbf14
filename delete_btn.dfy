/** The delete button with its "Are you sure?" confirmation. */
module DeleteBtn {
  import opened Js
  import opened Http

  const ConflictText := "Conflict: resource cannot be deleted."
  const DeleteFailedPrefix := "Delete failed: "

  /** `localStorage.getItem('token')`: the stored string, or `null`. */
  function StoredToken(storage: map<string, string>): (r: Value)
    ensures TokenKey in storage ==> r == Str(storage[TokenKey])
    ensures TokenKey !in storage ==> r == Null
    ensures Truthy(r) <==> TokenKey in storage && storage[TokenKey] != ""
  {
    if TokenKey in storage then Str(storage[TokenKey]) else Null
  }

  /** `DELETE /${resource}/${id}` with a bearer header, sent by the app's instance. */
  function DeleteRequest(h: Host, resource: Value, id: Value, token: Value): (r: Request)
    ensures r.client == AppClient && r.verb == Delete
    ensures r.path == "/" + StringOf(h, resource) + "/" + StringOf(h, id)
    ensures r.headers.Keys == {"Authorization"} && r.headers["Authorization"] == Bearer(h, token)
  {
    Request(AppClient, Delete, "/" + StringOf(h, resource) + "/" + StringOf(h, id), AuthHeaders(h, token), Undefined)
  }

  /** The alert for a failed delete: the server's message when it sent a truthy one,
      else a text that depends on whether the status is 409 Conflict. */
  function FailureText(h: Host, outcome: Outcome): (r: string)
    requires !outcome.Success?
    ensures outcome.NoResponse? ==> r == NetworkErrorText
    ensures outcome.HttpError? && Truthy(Prop(outcome.data, "message")) ==> r == StringOf(h, Prop(outcome.data, "message"))
    ensures outcome.HttpError? && !Truthy(Prop(outcome.data, "message")) ==>
      r == if outcome.status == 409 then ConflictText else DeleteFailedPrefix + h.numberText(outcome.status)
  {
    match outcome
    case HttpError(status, data, _) =>
      var msg := Prop(data, "message");
      if Truthy(msg) then StringOf(h, msg)
      else if status == 409 then ConflictText
      else DeleteFailedPrefix + h.numberText(status)
    case NoResponse(_) => NetworkErrorText
  }

  /** Without a server message the three kinds of failure have distinct texts. */
  lemma FailureTextsDistinct(h: Host, s: int, d: Value, m: string, m': string)
    requires !Truthy(Prop(d, "message"))
    ensures s != 409 ==> FailureText(h, HttpError(s, d, m)) != FailureText(h, HttpError(409, d, m'))
    ensures FailureText(h, HttpError(s, d, m)) != FailureText(h, NoResponse(m'))
  {
    var r := FailureText(h, HttpError(s, d, m));
    if s != 409 {
      assert r[0] == 'D' && ConflictText[0] == 'C';
    }
    assert r[0] != NetworkErrorText[0];
  }

  class DeleteButton {
    const resource: Value
    const id: Value
    /** whether an `onDeleteCallback` prop was passed */
    const hasCallback: bool
    var isDeleting: bool
    var loading: bool

    constructor(resource0: Value, id0: Value, hasCallback0: bool)
      ensures resource == resource0 && id == id0 && hasCallback == hasCallback0
      ensures !isDeleting && !loading
    {
      resource := resource0;
      id := id0;
      hasCallback := hasCallback0;
      isDeleting := false;
      loading := false;
    }

    /** The trash button, shown while not confirming. */
    method ClickTrash()
      requires !isDeleting
      modifies this
      ensures isDeleting && loading == old(loading)
    {
      isDeleting := true;
    }

    /** "No", shown while confirming and disabled while loading. */
    method ClickNo()
      requires isDeleting && !loading
      modifies this
      ensures !isDeleting && loading == old(loading)
    {
      isDeleting := false;
    }

    /** "Yes", shown while confirming and disabled while loading: `onDelete`, where
        `storage` is `localStorage` as it was at the last render. */
    method OnDelete(h: Host, storage: map<string, string>, outcome: Outcome)
      returns (request: Option<Request>, notice: Option<Notice>, callback: Option<Value>)
      requires isDeleting && !loading
      modifies this
      ensures !loading
      ensures !Truthy(StoredToken(storage)) ==>
        request == None && notice == Some(Alert(NotAuthenticatedText)) && callback == None && !isDeleting
      ensures Truthy(StoredToken(storage)) ==> request == Some(DeleteRequest(h, resource, id, StoredToken(storage)))
      ensures Truthy(StoredToken(storage)) && outcome.Success? ==>
        notice == None && callback == (if hasCallback then Some(id) else None) && !isDeleting
      ensures Truthy(StoredToken(storage)) && !outcome.Success? ==>
        notice == Some(Alert(FailureText(h, outcome))) && callback == None && isDeleting
    {
      var token := StoredToken(storage);
      callback := None;
      if !Truthy(token) {
        request := None;
        notice := Some(Alert(NotAuthenticatedText));
        isDeleting := false;
        return;
      }
      request := Some(DeleteRequest(h, resource, id, token));
      loading := true;
      if outcome.Success? {
        notice := None;
        if hasCallback {
          callback := Some(id);
        }
        isDeleting := false;
      } else {
        notice := Some(Alert(FailureText(h, outcome)));
      }
      loading := false;
    }
  }
}
