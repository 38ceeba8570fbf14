/** The new-patient form: four required text fields checked in order, timestamps
    stamped on the payload, and an authenticated POST. */
module PatientsCreate {
  import opened Js
  import opened Http
  import opened CreateFlow

  const LoggedOutText := "You must be logged in to create appointments"

  const Spec := CreateSpec("/patients", "patient", ["name", "first_name"])

  /** The `handleSubmit` checks, in the order they run. */
  const Checks: seq<(string, string)> := [
    ("first_name", "Please provide first name."),
    ("last_name", "Please provide last name."),
    ("email", "Please provide email."),
    ("phone", "Please provide phone.")]

  const InitialForm: map<string, string> := map[
    "date_of_birth" := "", "first_name" := "", "last_name" := "",
    "email" := "", "phone" := "", "address" := ""]

  /** The mount effect: nothing while the token is still `undefined`, a toast once it
      is known to be falsy. */
  function MountNotice(token: Value): (r: Option<Notice>)
    ensures r.Some? <==> !token.Undefined? && !Truthy(token)
    ensures r.Some? ==> r.value == ToastError(LoggedOutText)
  {
    if token.Undefined? || Truthy(token) then None else Some(ToastError(LoggedOutText))
  }

  /** Each check fires only when every earlier field is filled, and the form passes
      once all four are. */
  lemma ChecksInOrder(form: map<string, string>)
    ensures !Filled(form, "first_name") ==> FirstMissing(form, Checks) == Some("Please provide first name.")
    ensures Filled(form, "first_name") && !Filled(form, "last_name") ==>
      FirstMissing(form, Checks) == Some("Please provide last name.")
    ensures Filled(form, "first_name") && Filled(form, "last_name") && !Filled(form, "email") ==>
      FirstMissing(form, Checks) == Some("Please provide email.")
    ensures Filled(form, "first_name") && Filled(form, "last_name") && Filled(form, "email") && !Filled(form, "phone") ==>
      FirstMissing(form, Checks) == Some("Please provide phone.")
    ensures Filled(form, "first_name") && Filled(form, "last_name") && Filled(form, "email") && Filled(form, "phone") ==>
      FirstMissing(form, Checks) == None
  {
    var phone := [("phone", "Please provide phone.")];
    var email := [("email", "Please provide email.")] + phone;
    var last := [("last_name", "Please provide last name.")] + email;
    assert Checks == [("first_name", "Please provide first name.")] + last;
    FirstMissingStep(form, ("first_name", "Please provide first name."), last);
    FirstMissingStep(form, ("last_name", "Please provide last name."), email);
    FirstMissingStep(form, ("email", "Please provide email."), phone);
    FirstMissingStep(form, ("phone", "Please provide phone."), []);
    assert phone == [("phone", "Please provide phone.")] + [];
  }

  /** The address and the date of birth are never checked. */
  lemma UncheckedFields(form: map<string, string>, v: string)
    ensures FirstMissing(form["address" := v], Checks) == FirstMissing(form, Checks)
    ensures FirstMissing(form["date_of_birth" := v], Checks) == FirstMissing(form, Checks)
  {
    FirstMissingIgnores(form, Checks, "address", v);
    FirstMissingIgnores(form, Checks, "date_of_birth", v);
  }

  class Page {
    var form: map<string, string>
    var submitting: bool

    constructor()
      ensures form == InitialForm && !submitting
    {
      form := InitialForm;
      submitting := false;
    }

    /** `handleChange`: one input's value replaces its field. */
    method HandleChange(name: string, value: string)
      modifies this
      ensures form == old(form)[name := value] && submitting == old(submitting)
    {
      form := form[name := value];
    }

    /** `createappointment(data)`: the token guard, then the POST with `submitting`
        raised until it settles. */
    method CreateAppointment(h: Host, token: Value, data: map<string, string>, outcome: Outcome)
      returns (request: Option<Request>, notice: Option<Notice>, nav: Option<Nav>)
      modifies this
      ensures form == old(form)
      ensures !Truthy(token) ==>
        && request == None && notice == Some(ToastError(LogInText))
        && nav == Some(Nav("/patients", From("/patients/create"))) && submitting == old(submitting)
      ensures Truthy(token) ==>
        && request == Some(Request(AppClient, Post, "/patients", AuthJsonHeaders(h, token), Body(data)))
        && Reaction(notice, nav) == AfterCreate(h, Spec, outcome)
        && !submitting
    {
      if !Truthy(token) {
        request, notice, nav := None, Some(ToastError(LogInText)), Some(Nav("/patients", From("/patients/create")));
        return;
      }
      request := Some(Request(AppClient, Post, "/patients", AuthJsonHeaders(h, token), Body(data)));
      submitting := true;
      var reaction := AfterCreate(h, Spec, outcome);
      notice, nav := reaction.notice, reaction.nav;
      submitting := false;
    }

    /** `handleSubmit`: the checks, then `createappointment` with the stamped form, where
        `now` is the ISO timestamp and `outcome` how the POST settles. */
    method HandleSubmit(h: Host, token: Value, now: string, outcome: Outcome)
      returns (request: Option<Request>, notice: Option<Notice>, nav: Option<Nav>)
      modifies this
      ensures form == old(form)
      ensures FirstMissing(form, Checks).Some? ==>
        request == None && notice == Some(Alert(FirstMissing(form, Checks).value)) && nav == None
        && submitting == old(submitting)
      ensures FirstMissing(form, Checks).None? && !Truthy(token) ==>
        && request == None && notice == Some(ToastError(LogInText))
        && nav == Some(Nav("/patients", From("/patients/create"))) && submitting == old(submitting)
      ensures FirstMissing(form, Checks).None? && Truthy(token) ==>
        && request == Some(Request(AppClient, Post, "/patients", AuthJsonHeaders(h, token), Body(Stamped(form, now))))
        && Reaction(notice, nav) == AfterCreate(h, Spec, outcome)
        && !submitting
    {
      var missing := FirstMissing(form, Checks);
      if missing.Some? {
        request, notice, nav := None, Some(Alert(missing.value)), None;
        return;
      }
      request, notice, nav := CreateAppointment(h, token, Stamped(form, now), outcome);
    }
  }
}
