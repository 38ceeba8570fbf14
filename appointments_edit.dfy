/** The appointment edit page: the record fetched into the form, field edits and
    the date picker, the numeric check of the two ids, and the PATCH. */
module AppointmentsEdit {
  import opened Js
  import opened Http

  const DoctorIdText := "Doctor ID must be a number"
  const PatientIdText := "Patient ID must be a number"
  const UpdateFailedPrefix := "Update failed: "

  const InitialForm: map<string, Value> := map[
    "appointment_date" := Str(""), "doctor_id" := Str(""), "patient_id" := Str("")]

  /** The two id fields hold input text, as every writer of the form leaves them. */
  predicate IdsAreText(form: map<string, Value>) {
    && "doctor_id" in form && form["doctor_id"].Str?
    && "patient_id" in form && form["patient_id"].Str?
  }

  /** `v?.toString?.() || ""` */
  function IdText(h: Host, v: Value): (r: string)
    ensures Nullish(v) ==> r == ""
    ensures !Nullish(v) ==> r == StringOf(h, v)
  {
    if Nullish(v) then "" else StringOf(h, v)
  }

  /** The `setForm` of the fetch: None when the body is `null` or `undefined`, where
      reading a field throws and the `catch` leaves the form as it was. */
  function FormFromRecord(h: Host, a: Value): (r: Option<map<string, Value>>)
    ensures r.None? <==> Nullish(a)
    ensures r.Some? ==> IdsAreText(r.value)
    ensures r.Some? ==> r.value.Keys == {"appointment_date", "doctor_id", "patient_id", "phone"}
    ensures r.Some? ==> r.value["appointment_date"] == Or(Prop(a, "appointment_date"), Str(""))
    ensures r.Some? ==> r.value["doctor_id"] == Str(IdText(h, Prop(a, "doctor_id")))
    ensures r.Some? ==> r.value["patient_id"] == Str(IdText(h, Prop(a, "patient_id")))
    ensures r.Some? ==> r.value["phone"] == Or(Prop(a, "phone"), Str(""))
  {
    if Nullish(a) then None
    else Some(map[
      "appointment_date" := Or(Prop(a, "appointment_date"), Str("")),
      "doctor_id" := Str(IdText(h, Prop(a, "doctor_id"))),
      "patient_id" := Str(IdText(h, Prop(a, "patient_id"))),
      "phone" := Or(Prop(a, "phone"), Str(""))])
  }

  /** `field && Number.isNaN(Number(field))`: an empty field and a number are never
      reported, and neither is text that is blank after trimming. */
  predicate NotANumber(h: Host, v: Value)
    ensures NotANumber(h, v) ==> Truthy(v) && !v.Num?
    ensures v.Str? && Blank(v.s) ==> !NotANumber(h, v)
  {
    Truthy(v) && NumberOf(h, v).None?
  }

  /** The two checks of `handleSubmit`, the doctor id first. */
  function CheckIds(h: Host, form: map<string, Value>): (r: Option<string>)
    requires IdsAreText(form)
    ensures r == None <==> !NotANumber(h, form["doctor_id"]) && !NotANumber(h, form["patient_id"])
    ensures NotANumber(h, form["doctor_id"]) ==> r == Some(DoctorIdText)
    ensures !NotANumber(h, form["doctor_id"]) && NotANumber(h, form["patient_id"]) ==> r == Some(PatientIdText)
  {
    if NotANumber(h, form["doctor_id"]) then Some(DoctorIdText)
    else if NotANumber(h, form["patient_id"]) then Some(PatientIdText)
    else None
  }

  /** Ids that pass the checks are numbers: an empty field is `Number("")`, which is 0. */
  lemma PassedIdsAreNumbers(h: Host, form: map<string, Value>)
    requires IdsAreText(form) && CheckIds(h, form) == None
    ensures NumberOf(h, form["doctor_id"]).Some? && NumberOf(h, form["patient_id"]).Some?
    ensures form["doctor_id"] == Str("") ==> NumberOf(h, form["doctor_id"]) == Some(0)
    ensures form["patient_id"] == Str("") ==> NumberOf(h, form["patient_id"]) == Some(0)
  {
    assert Blank("");
  }

  /** `{ ...form, doctor_id: doctorId, patient_id: patientId }` */
  function Payload(h: Host, form: map<string, Value>): (r: map<string, Value>)
    requires IdsAreText(form) && CheckIds(h, form) == None
    ensures r.Keys == form.Keys
    ensures r["doctor_id"].Num? && NumberOf(h, form["doctor_id"]) == Some(r["doctor_id"].n)
    ensures r["patient_id"].Num? && NumberOf(h, form["patient_id"]) == Some(r["patient_id"].n)
    ensures forall k | k in form && k != "doctor_id" && k != "patient_id" :: r[k] == form[k]
  {
    PassedIdsAreNumbers(h, form);
    var doctor, patient := NumberOf(h, form["doctor_id"]).value, NumberOf(h, form["patient_id"]).value;
    var r := form["doctor_id" := Num(doctor)]["patient_id" := Num(patient)];
    assert r.Keys == form.Keys;
    r
  }

  /** `d.toISOString().slice(0, 10)`, or `""` when the picker clears the date. */
  function DayOf(iso: Option<string>): (r: string)
    ensures iso.None? ==> r == ""
    ensures iso.Some? ==> r <= iso.value && |r| == if |iso.value| < 10 then |iso.value| else 10
  {
    if iso.None? then "" else if |iso.value| <= 10 then iso.value else iso.value[..10]
  }

  /** The path of the record, `/appointments/${id}`. */
  function RecordPath(h: Host, id: Value): (r: string)
    ensures |r| >= 14 && r[..14] == "/appointments/" && r[14..] == StringOf(h, id)
  {
    "/appointments/" + StringOf(h, id)
  }

  class Page {
    /** the route's `:id` */
    const id: Value
    var form: map<string, Value>

    constructor(id0: Value)
      ensures id == id0 && form == InitialForm && IdsAreText(form)
    {
      id := id0;
      form := InitialForm;
    }

    /** The mount effect: without an id or a token nothing is fetched; a record
        replaces the form, anything else leaves it. */
    method Fetch(h: Host, token: Value, outcome: Outcome) returns (request: Option<Request>)
      requires IdsAreText(form)
      modifies this
      ensures IdsAreText(form)
      ensures !Truthy(id) || !Truthy(token) ==> request == None && form == old(form)
      ensures Truthy(id) && Truthy(token) ==>
        request == Some(Request(AppClient, Get, RecordPath(h, id), AuthHeaders(h, token), Undefined))
      ensures outcome.Success? && Truthy(id) && Truthy(token) && FormFromRecord(h, outcome.data).Some? ==>
        form == FormFromRecord(h, outcome.data).value
      ensures !(outcome.Success? && FormFromRecord(h, outcome.data).Some?) ==> form == old(form)
    {
      if !Truthy(id) || !Truthy(token) {
        request := None;
        return;
      }
      request := Some(Request(AppClient, Get, RecordPath(h, id), AuthHeaders(h, token), Undefined));
      if outcome.Success? {
        var filled := FormFromRecord(h, outcome.data);
        if filled.Some? {
          form := filled.value;
        }
      }
    }

    /** `handleChange`: one input's value replaces its field. */
    method HandleChange(name: string, value: string)
      requires IdsAreText(form)
      modifies this
      ensures IdsAreText(form)
      ensures form == old(form)[name := Str(value)]
    {
      form := form[name := Str(value)];
    }

    /** The calendar's `onSelect`. */
    method PickDate(iso: Option<string>)
      requires IdsAreText(form)
      modifies this
      ensures IdsAreText(form)
      ensures form == old(form)["appointment_date" := Str(DayOf(iso))]
    {
      form := form["appointment_date" := Str(DayOf(iso))];
    }

    /** `updateappointment(payload)`: sent whether or not there is a token.  Success
        goes back to the list; a failure is reported only when it carries a body. */
    method UpdateAppointment(h: Host, token: Value, payload: map<string, Value>, outcome: Outcome)
      returns (request: Request, notice: Option<Notice>, nav: Option<Nav>)
      ensures request == Request(AppClient, Patch, RecordPath(h, id), AuthHeaders(h, token), Obj(payload))
      ensures outcome.Success? ==> notice == None && nav == Some(Nav("/appointments", NoState))
      ensures outcome.HttpError? && Truthy(outcome.data) ==>
        notice == Some(Alert(UpdateFailedPrefix + h.stringify(outcome.data))) && nav == None
      ensures (outcome.HttpError? && !Truthy(outcome.data)) || outcome.NoResponse? ==> notice == None && nav == None
    {
      request := Request(AppClient, Patch, RecordPath(h, id), AuthHeaders(h, token), Obj(payload));
      notice, nav := None, None;
      if outcome.Success? {
        nav := Some(Nav("/appointments", NoState));
      } else if outcome.HttpError? && Truthy(outcome.data) {
        notice := Some(Alert(UpdateFailedPrefix + h.stringify(outcome.data)));
      }
    }

    /** `handleSubmit`: the id checks, then `updateappointment` with the ids as numbers. */
    method HandleSubmit(h: Host, token: Value, outcome: Outcome)
      returns (request: Option<Request>, notice: Option<Notice>, nav: Option<Nav>)
      requires IdsAreText(form)
      ensures CheckIds(h, form).Some? ==> request == None && notice == Some(Alert(CheckIds(h, form).value)) && nav == None
      ensures CheckIds(h, form).None? ==>
        request == Some(Request(AppClient, Patch, RecordPath(h, id), AuthHeaders(h, token), Obj(Payload(h, form))))
      ensures CheckIds(h, form).None? && outcome.Success? ==> notice == None && nav == Some(Nav("/appointments", NoState))
      ensures CheckIds(h, form).None? && outcome.HttpError? && Truthy(outcome.data) ==>
        notice == Some(Alert(UpdateFailedPrefix + h.stringify(outcome.data))) && nav == None
      ensures CheckIds(h, form).None? && ((outcome.HttpError? && !Truthy(outcome.data)) || outcome.NoResponse?) ==>
        notice == None && nav == None
    {
      var problem := CheckIds(h, form);
      if problem.Some? {
        request, notice, nav := None, Some(Alert(problem.value)), None;
        return;
      }
      var sent;
      sent, notice, nav := UpdateAppointment(h, token, Payload(h, form), outcome);
      request := Some(sent);
    }
  }
}
