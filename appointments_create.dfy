/** The new-appointment form's submit handler, which runs on data the form library
    has already validated. */
module AppointmentsCreate {
  import opened Js
  import opened Http
  import opened CreateFlow

  const CreatedText := "Appointment created successfully"
  const CreateFailedText := "Create failed"

  /** `err.response?.data?.message || "Create failed"`, shown for every failure but 422. */
  function OtherFailureText(h: Host, outcome: Outcome): (r: string)
    requires !outcome.Success?
    ensures outcome.NoResponse? ==> r == CreateFailedText
    ensures outcome.HttpError? && Truthy(Prop(outcome.data, "message")) ==> r == StringOf(h, Prop(outcome.data, "message"))
    ensures outcome.HttpError? && !Truthy(Prop(outcome.data, "message")) ==> r == CreateFailedText
  {
    if outcome.HttpError? && Truthy(Prop(outcome.data, "message")) then StringOf(h, Prop(outcome.data, "message"))
    else CreateFailedText
  }

  /** `createAppointment(data)`, with `now` the ISO timestamp and `outcome` how the POST
      settles. */
  method CreateAppointment(h: Host, token: Value, data: map<string, Value>, now: string, outcome: Outcome)
    returns (request: Option<Request>, notice: Notice, nav: Option<Nav>)
    ensures !Truthy(token) ==>
      request == None && notice == ToastError(LogInText) && nav == Some(Nav("/login", From("/appointments/create")))
    ensures Truthy(token) ==>
      request == Some(Request(AppClient, Post, "/appointments", AuthJsonHeaders(h, token), Obj(Stamped(data, Str(now)))))
    ensures Truthy(token) && outcome.Success? ==>
      notice == ToastSuccess(CreatedText) && nav == Some(Nav("/appointments", NoState))
    ensures Truthy(token) && outcome.HttpError? && outcome.status == 422 ==>
      && notice == ToastError(ValidationPrefix + h.stringify(FirstTruthy(outcome.data, ["errors", "message"], outcome.data)))
      && nav == None
    ensures Truthy(token) && (outcome.NoResponse? || (outcome.HttpError? && outcome.status != 422)) ==>
      notice == ToastError(OtherFailureText(h, outcome)) && nav == None
  {
    if !Truthy(token) {
      request, notice, nav := None, ToastError(LogInText), Some(Nav("/login", From("/appointments/create")));
      return;
    }
    var payload := Stamped(data, Str(now));
    request := Some(Request(AppClient, Post, "/appointments", AuthJsonHeaders(h, token), Obj(payload)));
    nav := None;
    match outcome
    case Success(_) =>
      notice, nav := ToastSuccess(CreatedText), Some(Nav("/appointments", NoState));
    case HttpError(status, body, _) =>
      if status == 422 {
        FailureKinds(h, status, body);
        notice := ToastError(ValidationPrefix + h.stringify(ValidationDetails(body)));
      } else {
        notice := ToastError(OtherFailureText(h, outcome));
      }
    case NoResponse(_) =>
      notice := ToastError(OtherFailureText(h, outcome));
  }
}
