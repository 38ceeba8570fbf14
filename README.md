# Clinic front-end: session, delete button, list filters and form submits

This project models the logic of the clinic CRUD front-end (a React client for doctors,
patients, appointments, prescriptions and diagnoses) and proves properties of it in
Dafny. The model has four parts.

- **Session store.** `Auth.Session` mirrors the `useAuth` provider. It holds
  `localStorage`, the default headers of the app's axios instance, and the user. Logging in
  picks the token, stores it under `"token"` and sets the bearer `Authorization` default
  header (section 2.1 of RFC 6750). Logging out clears all three.
- **Delete button.** `DeleteBtn.DeleteButton` is the `isDeleting`/`loading` state machine.
  It has a token guard that reads the same `"token"` key, and it sorts each failure into
  409 Conflict (section 15.5.10 of RFC 9110), any other status, or no response.
- **List pages.** Doctors and prescriptions have a search filter, a speciality filter,
  removal by id after a delete, and avatar colours and initials. The filters are proved to
  keep exactly the matching records, in order, with their multiplicities.
- **Form submits.** Seven form pages are modelled, and they do not all have the same parts:
  - The patient, doctor and diagnosis create forms each run ordered checks with early
    return, build the payload, and have a token guard before the authenticated POST. Their
    responses map to alerts and navigation for 422 Unprocessable Content (section 15.5.21
    of RFC 9110), any other status, and no response.
  - The user sign-up form runs the same kind of checks and has the same response mapping.
    It has no token guard: it posts through bare axios.
  - The appointment create page has no checks of its own, because its form library
    validates the data. It has a token guard, and its toasts distinguish 422 from every
    other failure.
  - The appointment edit page checks that both ids are numbers. It has no token guard: it
    sends the PATCH with whatever token there is. It has no 422 branch: any failure with a
    body alerts that body.
  - The log-in page requires both fields. It has no token guard and no 422 branch: a
    failure alerts the server message, "Login failed" or the error's own message.

Nothing is sent over a network. A request is recorded as a `Http.Request` value, and how it
settles is an input (`Http.Outcome`). Alerts, toasts and navigations are recorded as values.
JavaScript values are `Js.Value`. Truthiness, `||`, optional property reads, `String()`,
`Number()`, `%`, `trim()`, `includes()`, `split(" ")` and `join` are defined. Library
behaviour the client does not define is a field of a `Js.Host` record and is left
uninterpreted: case mapping, number printing and parsing, `String()` of objects,
`JSON.stringify`, and the message of a TypeError.

Files:
- `js.dfy`: JavaScript values and string operations.
- `seqs.dfy`: `filter` and its order and multiset lemmas.
- `http.dfy`: requests, outcomes, headers and the texts several pages share.
- `avatar.dfy`: the avatar palette of the list cards.
- `create_flow.dfy`: validation, name join and failure texts shared by the create forms.
- `auth.dfy`, `delete_btn.dfy`: the session store and the delete button.
- `doctors_index.dfy`, `prescriptions_index.dfy`: the two list pages.
- `patients_create.dfy`, `register_create.dfy`, `register_form.dfy`, `diagnoses_create.dfy`,
  `appointments_create.dfy`, `appointments_edit.dfy`, `login_page.dfy`: the form pages.
- `scenarios.dfy`: the session store and the delete button used together.

## Model

| member | source | states |
|---|---|---|
| Js.Truthy | src/hooks/useAuth.jsx:18 | the falsy values are exactly `undefined`, `null`, `false`, `0` and `""` |
| Js.Prop | src/hooks/useAuth.jsx:18 | `v?.key` is `undefined` on `null` or `undefined` instead of throwing; it is a defined value only when `v` is an object that has the field, and then it is that field |
| Js.StringOf | src/components/DeleteBtn.jsx:23 | `String(v)` of a string is the string itself; `undefined`, `null` and booleans print as their names |
| Js.NumberOf | src/pages/appointments/Edit.jsx:81-82 | `Number(v)` is the number itself for a number, NaN for `undefined`, 0 for `null`, `false` and blank text, and otherwise parses the trimmed text |
| Js.Or | src/hooks/useAuth.jsx:18 | `a \|\| b` is truthy iff either operand is; it is `a` when `a` is truthy, else `b` |
| Js.StringToNumber | src/pages/appointments/Edit.jsx:81-82 | `Number(s)` is 0 for blank text and otherwise parses the trimmed text |
| Js.Rem | src/pages/prescriptions/index.jsx:115 | `%` truncates: the remainder lies strictly between `-b` and `b`, equals Euclidean `%` for a non-negative dividend, and for a negative dividend is minus the remainder of its absolute value, so never positive |
| Js.TrimStart | src/pages/patients/Create.jsx:109 | the result is the suffix left after a blank prefix and does not start with whitespace |
| Js.TrimEnd | src/pages/patients/Create.jsx:109 | the result is the prefix left before a blank suffix and does not end with whitespace |
| Js.Trim | src/pages/patients/Create.jsx:109 | `s.trim()` is empty iff `s` is all whitespace; a non-empty result neither starts nor ends with whitespace |
| Js.TrimStartAppend | src/pages/register/create.jsx:38 | leading whitespace of `x + y` is taken from `x` unless `x` is blank |
| Js.TrimEndAppend | src/pages/register/create.jsx:38 | trailing whitespace of `x + y` is taken from `y` unless `y` is blank |
| Js.TrimBlankSuffix | src/pages/register/create.jsx:38 | trimming ignores a blank tail |
| Js.TrimBlankPrefix | src/pages/register/create.jsx:38 | trimming ignores a blank head |
| Js.TrimAround | src/pages/register/create.jsx:38 | trimming text that starts and ends with non-blank parts strips only the outer ends and keeps the middle as it is |
| Js.Includes | src/pages/doctors/Index.jsx:57-60 | `s.includes(t)` holds for every prefix `t` of `s`, so for the empty text, and never for a `t` longer than `s` |
| Js.FieldHas | src/pages/doctors/Index.jsx:57-59 | `field?.toLowerCase().includes(term)` is false for a missing field and otherwise is whether the lowercased field includes the term |
| Js.IncludesIff | src/pages/doctors/Index.jsx:57-60 | `s.includes(t)` holds iff `t` occurs in `s` at some position |
| Js.Split | src/pages/doctors/Index.jsx:112 | `split` yields at least one part and no part contains the separator |
| Js.Join | src/pages/doctors/Index.jsx:112 | joining no parts gives `""`; otherwise the result starts with the first part |
| Js.JoinSplit | src/pages/doctors/Index.jsx:112 | joining the parts of a split with the same separator gives back the text |
| Seqs.Filter | src/pages/doctors/Index.jsx:52 | `filter` keeps only elements the predicate accepts and never grows the list |
| Seqs.FilterKeepsOrder | src/pages/doctors/Index.jsx:52 | the filtered list is the subsequence of all accepted positions, in the original order |
| Seqs.FilterCount | src/pages/doctors/Index.jsx:69 | each accepted value keeps all its occurrences; each rejected value loses all of them |
| Seqs.FilterMembership | src/pages/prescriptions/index.jsx:74 | a value is in the filtered list iff it is in the list and accepted |
| Seqs.FilterAll | src/pages/prescriptions/index.jsx:74 | a predicate that accepts everything leaves the list unchanged |
| Http.Bearer | src/components/DeleteBtn.jsx:23 | the header value is `"Bearer "` followed by the token's text |
| Http.AuthHeaders | src/components/DeleteBtn.jsx:22-24 | the headers are exactly one `Authorization`, `"Bearer "` followed by the token's text |
| Http.AuthJsonHeaders | src/pages/patients/Create.jsx:69-72 | the headers are the bearer `Authorization` plus `Content-Type: application/json`, and nothing else |
| Http.Body | src/pages/patients/Create.jsx:73 | the JSON body has the form's keys, each holding that field's text |
| Http.Stamped | src/pages/patients/Create.jsx:126-131 | the payload adds `created_at` and `updated_at`, both the same timestamp, and leaves every other field unchanged |
| Http.SentHeaders | src/hooks/useAuth.jsx:25-26 | on the app's instance, the default headers go out unless a request overrides them; on bare axios only the request's own headers go out |
| Avatar.Colour | src/pages/doctors/Index.jsx:31 | `COLORS[i]` is defined exactly for `0 <= i < 5` |
| CreateFlow.FirstMissing | src/pages/patients/Create.jsx:109-124 | the checks report nothing iff every checked field is non-blank; otherwise they report one of the checks' texts |
| CreateFlow.FirstMissingIsFirst | src/pages/patients/Create.jsx:109-124 | the text reported is that of the first check, in order, whose field is blank |
| CreateFlow.FirstMissingIgnores | src/pages/patients/Create.jsx:109-124 | changing a field no check looks at never changes the outcome of the checks |
| CreateFlow.Field | src/pages/register/create.jsx:38 | `form.key \|\| ""` is the field's text, or `""` when the field is absent |
| CreateFlow.WithName | src/pages/register/create.jsx:36-39 | the payload is the form plus a `name` joined from two fields; every other field is unchanged |
| CreateFlow.NameJoinEmpty | src/pages/register/create.jsx:38 | the joined `name` is empty exactly when both parts are blank |
| CreateFlow.NameJoinSpec | src/pages/register/create.jsx:38 | the trimmed join keeps inner whitespace; when both parts are non-blank it is `trimStart(a) + " " + trimEnd(b)`; a blank part contributes nothing |
| CreateFlow.FirstTruthy | src/pages/register/create.jsx:57 | `data.k1 \|\| … \|\| fallback` is the fallback or a truthy field of one of the keys |
| CreateFlow.FirstTruthyPicksFirst | src/pages/register/create.jsx:57 | the chain yields the field of the first key holding a truthy value |
| CreateFlow.FirstTruthyFallback | src/pages/register/create.jsx:57 | the chain yields the fallback when no key holds a truthy value |
| CreateFlow.ValidationDetails | src/pages/register/create.jsx:67 | the 422 details are the first truthy of `errors` and `message`, else the whole body; they are truthy iff one of the three is |
| CreateFlow.FailureText | src/pages/register/create.jsx:61-75 | a failure text starts with "Validation failed: " iff the status is 422 and with "Create failed: " iff it is not; for any other status it is "Create failed: " followed by the server's truthy `message`, else by the JSON of the whole body |
| CreateFlow.FailureKinds | src/pages/register/create.jsx:61-75 | a failure text is never the network text, and the 422 text shows the first truthy of `errors`, `message` and the body |
| CreateFlow.AfterCreate | src/pages/register/create.jsx:51-75 | navigation to the list happens iff the request succeeded with a body; a status failure alerts its failure text; no response, or a success without a body, alerts the network text |
| CreateFlow.Announce | src/pages/register/create.jsx:57 | the message is the noun, then the name in quotes, then ` created successfully`, each at a fixed offset, so the name can be read back from it |
| CreateFlow.SuccessText | src/pages/register/create.jsx:55-58 | the success message names the record by one of its truthy label fields, or by "created" |
| CreateFlow.SuccessLabel | src/pages/patients/Create.jsx:80-83 | the success message names the record by its first truthy label field |
| CreateFlow.SuccessLabelFallback | src/pages/patients/Create.jsx:80-83 | the success message says "created" when no label field is truthy |
| Auth.PickToken | src/hooks/useAuth.jsx:18 | the token is the response's `token`, or its `access_token` when `token` is missing or empty |
| Auth.SignedInUser | src/hooks/useAuth.jsx:29 | the user is the response's `user` when present, else a record of the submitted email; either way it is signed in |
| Auth.LoginRequest | src/hooks/useAuth.jsx:12-14 | the login is a POST to `/login` on the app's instance with a JSON content type and the email and password as body |
| Auth.LoginToken | src/hooks/useAuth.jsx:18-21 | a login yields a token iff the request succeeded and the picked token is truthy |
| Auth.ServerMessage | src/hooks/useAuth.jsx:18-37 | the rethrown message is always truthy. A missing token gives "Login response did not include a token". A response gives its truthy `message`, else a truthy body, else the non-empty transport message, else "Login failed". No response gives the non-empty transport message, else "Login failed" |
| Auth.LoginErrorText | src/hooks/useAuth.jsx:18-38 | covers four cases: a missing token fails with "Login response did not include a token"; otherwise the message is the server's truthy `message`, else the truthy server body, each as is when it is text and as its JSON otherwise, else the transport message, else "Login failed" |
| Auth.Session.constructor | src/hooks/useAuth.jsx:7 | the store starts with no user |
| Auth.Session.OnLogin | src/hooks/useAuth.jsx:9-40 | with a token, stores it under `"token"`, sets the default `Authorization` to its bearer value, sets the user and resolves with the body; otherwise changes nothing and rejects with the error text |
| Auth.Session.OnLogout | src/hooks/useAuth.jsx:42-46 | removes `"token"`, deletes the default `Authorization` header and sets the user to null |
| DeleteBtn.StoredToken | src/components/DeleteBtn.jsx:10 | the button's token is the stored `"token"` text or `null`; it is truthy iff a non-empty token is stored |
| DeleteBtn.DeleteRequest | src/components/DeleteBtn.jsx:19-25 | the delete is `DELETE /<resource>/<id>` on the app's instance with exactly a bearer `Authorization` header |
| DeleteBtn.FailureText | src/components/DeleteBtn.jsx:37-49 | a truthy server message is shown as is; otherwise 409 shows the conflict text and other statuses show "Delete failed: <status>"; no response shows the network text |
| DeleteBtn.FailureTextsDistinct | src/components/DeleteBtn.jsx:40-49 | without a server message, a 409, another status and no response give three different texts |
| DeleteBtn.DeleteButton.constructor | src/components/DeleteBtn.jsx:7-8 | the button starts neither confirming nor loading |
| DeleteBtn.DeleteButton.ClickTrash | src/components/DeleteBtn.jsx:56-62 | the trash button starts confirming and leaves `loading` alone |
| DeleteBtn.DeleteButton.ClickNo | src/components/DeleteBtn.jsx:75-81 | "No" stops confirming and leaves `loading` alone |
| DeleteBtn.DeleteButton.OnDelete | src/components/DeleteBtn.jsx:12-53 | covers three cases. With no token: no request, the not-authenticated alert, confirming ends. With a token: exactly one delete request. On success: the callback, if any, gets the id and confirming ends. On failure: the failure alert, no callback, still confirming. `loading` is always false at the end |
| DoctorsIndex.TextOr | src/pages/doctors/Index.jsx:54 | `field \|\| fallback` is a non-empty field's text, else the fallback |
| DoctorsIndex.Speciality | src/pages/doctors/Index.jsx:54 | the speciality is the lowercased `specialisation` when that is non-empty, else the lowercased `specialization`, else the lowercased `""` |
| DoctorsIndex.Keep | src/pages/doctors/Index.jsx:55-64 | a kept doctor has the filtered speciality unless the filter is "all"; an empty term with "all" keeps every doctor |
| DoctorsIndex.Filtered | src/pages/doctors/Index.jsx:52-65 | every listed doctor is one of the page's doctors that the search and filter keep, and the list never grows |
| DoctorsIndex.FilteredIff | src/pages/doctors/Index.jsx:52-65 | a doctor is listed iff the lowercased term occurs in its lowercased first name, last name, email or speciality, and the filter is "all" or equals that speciality |
| DoctorsIndex.AllAndEmptyKeepsEveryone | src/pages/doctors/Index.jsx:52-65 | with the "all" filter and an empty search every doctor is listed |
| DoctorsIndex.FilteredKeepsOrder | src/pages/doctors/Index.jsx:52 | the listed doctors are a subsequence of the page's doctors, in order |
| DoctorsIndex.WithoutId | src/pages/doctors/Index.jsx:69 | no doctor with the deleted id is left, and deleting an id that is not on the page leaves the list as it was |
| DoctorsIndex.WithoutIdExact | src/pages/doctors/Index.jsx:67-70 | deleting an id removes every doctor with it and keeps each other doctor as often as it occurred, in order |
| DoctorsIndex.ColourIndex | src/pages/doctors/Index.jsx:110-111 | the colour index is `abs(Number(id)) mod 5`, with a non-numeric id counted as 0, so every card has a palette colour |
| DoctorsIndex.WordStarts | src/pages/doctors/Index.jsx:112 | the word-start characters are characters of the name, none of them a space |
| DoctorsIndex.Heads | src/pages/doctors/Index.jsx:112 | `map(n => n[0]).join("")` has at most one character per part, and exactly one when no part is empty |
| DoctorsIndex.HeadsOfSplit | src/pages/doctors/Index.jsx:112 | taking `n[0]` of every space-separated part picks exactly the first character of every word |
| DoctorsIndex.Prefix3 | src/pages/doctors/Index.jsx:112 | `slice(0, 3)` is a prefix of at most three characters |
| DoctorsIndex.Initials | src/pages/doctors/Index.jsx:112 | the initials are the uppercased first letters of the first three words of the first name |
| DoctorsIndex.Badge | src/pages/doctors/Index.jsx:121 | the avatar shows the initials, or "?" when there are none |
| DoctorsIndex.Page.constructor | src/pages/doctors/Index.jsx:25-27 | the page starts with no doctors, the "all" filter and an empty search |
| DoctorsIndex.Page.Load | src/pages/doctors/Index.jsx:33-50 | the `GET /doctors` has no headers of its own, so only the app instance's default headers go out (the bearer token after a login); a list replaces the doctors on success and a failure leaves them |
| DoctorsIndex.Page.SetSearchTerm | src/pages/doctors/Index.jsx:79 | the search box sets only the search term |
| DoctorsIndex.Page.SetFilter | src/pages/doctors/Index.jsx:99 | a speciality button sets only the filter |
| DoctorsIndex.Page.Visible | src/pages/doctors/Index.jsx:52 | every card shown is one of the page's doctors |
| DoctorsIndex.Page.OnDeleteCallback | src/pages/doctors/Index.jsx:67-70 | the callback toasts success and the list becomes the list without that id |
| PrescriptionsIndex.Matches | src/pages/prescriptions/index.jsx:76-83 | the empty term matches every prescription |
| PrescriptionsIndex.Filtered | src/pages/prescriptions/index.jsx:74-84 | every listed prescription is one of the page's that matches the search, and the list never grows |
| PrescriptionsIndex.FilteredIff | src/pages/prescriptions/index.jsx:74-84 | a prescription is listed iff the lowercased term occurs in the text of its id, patient id or doctor id, or in its lowercased medication or dosage |
| PrescriptionsIndex.EmptySearchKeepsEveryone | src/pages/prescriptions/index.jsx:74-84 | an empty search lists every prescription |
| PrescriptionsIndex.FilteredKeepsOrder | src/pages/prescriptions/index.jsx:74 | the listed prescriptions are a subsequence of the page's, in order |
| PrescriptionsIndex.WithoutId | src/pages/prescriptions/index.jsx:88 | no prescription with the deleted id is left, and deleting an id that is not on the page leaves the list as it was |
| PrescriptionsIndex.WithoutIdExact | src/pages/prescriptions/index.jsx:86-89 | deleting an id removes every prescription with it and keeps each other one as often as it occurred, in order |
| PrescriptionsIndex.ColourIndex | src/pages/prescriptions/index.jsx:115 | the colour index is `id mod 5` for a non-negative id, NaN for a non-numeric id, and at most 0 for a negative id |
| PrescriptionsIndex.ColourDefinedIff | src/pages/prescriptions/index.jsx:115 | a card has a palette colour iff its id is a number that is non-negative or a multiple of five |
| PrescriptionsIndex.Initials | src/pages/prescriptions/index.jsx:116 | the avatar text is "P" followed by the patient id's text |
| PrescriptionsIndex.Page.constructor | src/pages/prescriptions/index.jsx:28-29 | the page starts with no prescriptions and an empty search |
| PrescriptionsIndex.Page.Fetch | src/pages/prescriptions/index.jsx:39-72 | covers four cases. With no token: no request, an error toast and navigation to `/login`. Otherwise one authenticated `GET /prescriptions`, and a list (or `[]` for a falsy body) replaces the prescriptions unless cancelled. A 401 toasts and navigates to `/login`. Any other failure only toasts; failures leave the list |
| PrescriptionsIndex.Page.SetSearchTerm | src/pages/prescriptions/index.jsx:98 | the search box sets only the search term |
| PrescriptionsIndex.Page.OnDeleteCallback | src/pages/prescriptions/index.jsx:86-89 | the callback toasts success and the list becomes the list without that id |
| PatientsCreate.MountNotice | src/pages/patients/Create.jsx:43-48 | the mount toast appears iff the token is known (not `undefined`) and falsy |
| PatientsCreate.ChecksInOrder | src/pages/patients/Create.jsx:109-124 | first name, last name, email and phone are checked in that order; the first blank one reports its own text |
| PatientsCreate.UncheckedFields | src/pages/patients/Create.jsx:109-124 | the address and the date of birth never affect validation |
| PatientsCreate.Page.constructor | src/pages/patients/Create.jsx:26-36 | the form starts with its six empty fields and not submitting |
| PatientsCreate.Page.HandleChange | src/pages/patients/Create.jsx:50-55 | an edit replaces only the named field |
| PatientsCreate.Page.CreateAppointment | src/pages/patients/Create.jsx:57-104 | with no token: no request, an error toast and navigation to `/patients` from `/patients/create`. Otherwise one authenticated JSON `POST /patients` of the data, the create reaction, and `submitting` false at the end |
| PatientsCreate.Page.HandleSubmit | src/pages/patients/Create.jsx:106-134 | a failed check alerts its text and sends nothing; otherwise the stamped form goes through the token guard and the POST |
| RegisterCreate.ChecksReject | src/pages/register/create.jsx:85-88 | the form is rejected, always with the names-and-email text, iff first name, last name or email is blank |
| RegisterCreate.UncheckedFields | src/pages/register/create.jsx:85-88 | the phone and the speciality never affect validation |
| RegisterCreate.Page.constructor | src/pages/register/create.jsx:9-18 | the form starts with its five empty fields and not submitting |
| RegisterCreate.Page.HandleChange | src/pages/register/create.jsx:22-27 | an edit replaces only the named field |
| RegisterCreate.Page.CreateDoctor | src/pages/register/create.jsx:29-80 | with no token: the not-authenticated alert and no request. Otherwise one authenticated JSON `POST /doctors` of the form with its joined `name`, the create reaction, and `submitting` false at the end |
| RegisterCreate.Page.HandleSubmit | src/pages/register/create.jsx:82-91 | a blank name or email alerts and sends nothing; otherwise the form goes through the token guard and the POST |
| RegisterForm.ChecksReject | src/components/registerForm.jsx:69-72 | the form is rejected, always with the names-and-email text, iff first name, last name or email is blank |
| RegisterForm.PasswordUnchecked | src/components/registerForm.jsx:69-72 | the password never affects validation |
| RegisterForm.SignUpRequest | src/components/registerForm.jsx:33-40 | the sign-up goes through bare axios with only a JSON content type; whatever the app's default headers, no `Authorization` header is sent |
| RegisterForm.Page.constructor | src/components/registerForm.jsx:9-17 | the form starts with its six empty fields and not submitting |
| RegisterForm.Page.HandleChange | src/components/registerForm.jsx:20-25 | an edit replaces only the named field |
| RegisterForm.Page.CreateUser | src/components/registerForm.jsx:27-65 | exactly one sign-up request with the joined `name`, the create reaction for `/users`, and `submitting` false at the end |
| RegisterForm.Page.HandleSubmit | src/components/registerForm.jsx:67-75 | a blank name or email alerts and sends nothing; otherwise the sign-up is sent without consulting any token |
| DiagnosesCreate.ChecksReject | src/pages/diagnoses/Create.jsx:84-87 | the form is rejected, with the names-and-email text, iff the patient id or the condition is blank |
| DiagnosesCreate.UncheckedFields | src/pages/diagnoses/Create.jsx:84-87 | the diagnosis date and the diagnosis never affect validation |
| DiagnosesCreate.Page.constructor | src/pages/diagnoses/Create.jsx:9-17 | the form starts with its six empty fields and not submitting |
| DiagnosesCreate.Page.HandleChange | src/pages/diagnoses/Create.jsx:21-26 | an edit replaces only the named field |
| DiagnosesCreate.Page.CreateAppointment | src/pages/diagnoses/Create.jsx:28-79 | with no token: the not-authenticated alert and no request. Otherwise one authenticated JSON `POST /appointments` of the form with `name` joined from patient id and condition, the create reaction for `/appointments`, and `submitting` false at the end |
| DiagnosesCreate.Page.HandleSubmit | src/pages/diagnoses/Create.jsx:81-90 | a blank patient id or condition alerts and sends nothing; otherwise the form goes through the token guard and the POST |
| AppointmentsCreate.OtherFailureText | src/pages/appointments/Create.jsx:74-76 | a non-422 failure shows the server's truthy message, else "Create failed", including when there is no response |
| AppointmentsCreate.CreateAppointment | src/pages/appointments/Create.jsx:41-79 | covers four cases. With no token: no request, an error toast and navigation to `/login` from `/appointments/create`. Otherwise one authenticated JSON `POST /appointments` of the stamped data. Success toasts and navigates to `/appointments`. A 422 toasts the validation details; other failures toast the server message or "Create failed" |
| AppointmentsEdit.IdText | src/pages/appointments/Edit.jsx:41-42 | `v?.toString?.() \|\| ""` is `""` for a missing id and the id's text otherwise |
| AppointmentsEdit.FormFromRecord | src/pages/appointments/Edit.jsx:36-44 | a record fills date (or ""), doctor and patient ids as text (or ""), and phone (or ""); a `null` body leaves the form |
| AppointmentsEdit.NotANumber | src/pages/appointments/Edit.jsx:83-84 | only a truthy non-number is reported; an empty or blank id field never is |
| AppointmentsEdit.CheckIds | src/pages/appointments/Edit.jsx:81-84 | a non-empty non-numeric doctor id is reported before the patient id is looked at; the check passes iff neither id is such |
| AppointmentsEdit.PassedIdsAreNumbers | src/pages/appointments/Edit.jsx:81-88 | ids that pass the check convert to numbers; an empty id converts to 0 |
| AppointmentsEdit.Payload | src/pages/appointments/Edit.jsx:85-89 | the payload is the form with both ids replaced by their numbers and every other field unchanged |
| AppointmentsEdit.DayOf | src/pages/appointments/Edit.jsx:113-117 | the picked date is the first ten characters of its ISO text, or `""` when cleared |
| AppointmentsEdit.RecordPath | src/pages/appointments/Edit.jsx:33 | the record path is `/appointments/` followed by the id's text |
| AppointmentsEdit.Page.constructor | src/pages/appointments/Edit.jsx:17-25 | the form starts with empty date and ids |
| AppointmentsEdit.Page.Fetch | src/pages/appointments/Edit.jsx:27-50 | without an id or a token nothing is fetched; otherwise one authenticated GET, and a record replaces the form while anything else leaves it |
| AppointmentsEdit.Page.HandleChange | src/pages/appointments/Edit.jsx:54-59 | an edit replaces only the named field |
| AppointmentsEdit.Page.PickDate | src/pages/appointments/Edit.jsx:113-117 | the calendar replaces only the date |
| AppointmentsEdit.Page.UpdateAppointment | src/pages/appointments/Edit.jsx:61-76 | the PATCH is sent with whatever token there is. Success navigates to `/appointments`. A failure with a body alerts "Update failed: " and its JSON. A failure without a body reports nothing |
| AppointmentsEdit.Page.HandleSubmit | src/pages/appointments/Edit.jsx:78-91 | a failed id check alerts its text and sends nothing; otherwise the payload with numeric ids is PATCHed, with the outcomes of the update |
| LoginPage.FailureAlert | src/pages/Login.jsx:32-50 | covers four cases. A response failure shows its `message` or "Login failed". With no response, the error's own message. A `null` body of a success gives a TypeError's message. A `null` body of a failure makes the `catch` throw, so there is no alert |
| LoginPage.Page.constructor | src/pages/Login.jsx:9-13 | the form starts with empty email and password and not submitting |
| LoginPage.Page.HandleChange | src/pages/Login.jsx:17-19 | an edit replaces only the named field |
| LoginPage.Page.HandleSubmit | src/pages/Login.jsx:21-54 | covers four cases. An empty email or password alerts and sends nothing. Otherwise one `POST /login` of the form. A truthy `token` is passed to the login callback and navigates to `/`. No token does nothing. A failure alerts as above. `submitting` is false at the end |
| Scenarios.LoginThenDelete | src/components/DeleteBtn.jsx:10-25 | after a login with a text token, the delete button sends its request with that token, and a request through the app's instance carries the same bearer header |
| Scenarios.LogoutThenDelete | src/hooks/useAuth.jsx:42-46 | after a logout a delete is refused without a request, and no request through the app's instance carries `Authorization` |
| Scenarios.LoginThenLogout | src/hooks/useAuth.jsx:24-46 | a login followed by a logout leaves no `"token"`, no default `Authorization` and no user |
| Scenarios.LogoutTwice | src/hooks/useAuth.jsx:42-46 | logging out twice leaves the session as logging out once does |
| Scenarios.FailedLoginKeepsSignedOut | src/hooks/useAuth.jsx:31-39 | a rejected login leaves storage, headers and the signed-out user as they were |

## Left out

- Http.SentHeaders: the comment at `src/components/registerForm.jsx:4` says the app has an interceptor that adds `Authorization`. Interceptors are not modelled: the sent headers are the instance's defaults plus the request's own. So two clauses hold only for an instance without that interceptor: the `listHeaders` clause of `Scenarios.LoginThenDelete`, and `"Authorization" !in listHeaders` in `Scenarios.LogoutThenDelete`.
- HTTP transport is not modelled. A response is an input. `src/config/api` (the app's axios instance, its base URL and any interceptor) is not part of this model. The sign-up form's absolute URL is modelled as the path `/registerForm` on bare axios.
- Rendering is not modelled: JSX, component libraries, tooltips and animation. Alerts, toasts and navigations keep only their text, kind, path and state.
- React scheduling is not modelled. `cancelled` on the prescriptions page is a boolean input. Each handler runs to completion within one method call, so `submitting = true` and `loading = true` during a request are never observable. The disabled "Yes"/"No" buttons become preconditions instead.
- DoctorsIndex.Page.OnDeleteCallback: the source filters the `doctors` captured by the render that created the callback. The model filters the current list, and these differ only when the list changed in between.
- The token and the login callback are parameters. The auth context provides only `user`, `onLogin` and `onLogout`, so in the running app the pages that read `token` get `undefined`, and `Login.jsx`'s `login` is `undefined`.
- LoginPage.Page.HandleSubmit records the call of the login callback instead of running it. It also leaves out the console logging of `error.issues`, which throws, and so skips the alert, when `issues` is not a list of issues.
- List bodies are taken as already read into records (`Doctor`, `Prescription`). A body that is not a list would make the page throw while rendering, and the doctors page's `setDoctors(undefined)` for a missing body is likewise not modelled.
- The zod schema of the appointment create form (coercion, `int`, `positive`) is library behaviour. `CreateAppointment` receives the data the form library has already validated.
- Dates come in as text parameters: `toISOString()` and the date picker's `Date`. `formatDate` and locale formatting are not modelled.
- Numbers are integers. A number parse that gives a non-integer, or `Infinity`, is outside the model; `None` stands for NaN.
- Case mapping, number printing, `JSON.stringify` and `String()` of objects are uninterpreted `Js.Host` functions.
- Strings are sequences of Unicode code points. JavaScript's `n[0]` and `slice(0, 3)` count UTF-16 code units, which differs for characters outside the Basic Multilingual Plane.
- Pages outside the core are not modelled:
  - the Show pages, with their random colour fallback;
  - the patient, diagnosis and doctor edit pages;
  - the doctor and prescription create pages, which are validated by zod;
  - the table index pages;
  - the module-level delete scripts;
  - routing and the sidebars.
- The code has no token restore at start-up, no session clearing on a 401 or 403 response, and no central token policy; neither does the model. Each page reads the token on its own, and only the prescriptions page reacts to 401, by navigating to `/login`.
