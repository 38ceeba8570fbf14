/** What the four hand-written create forms (patients, doctor registration, user
    sign-up, diagnoses) share: the trimmed-field checks, the `name` join, the
    label of the success message, and the mapping of a settled request to an
    alert or a navigation. */
module CreateFlow {
  import opened Js
  import opened Http

  const NamesAndEmailText := "Please provide first name, last name and email."
  const ValidationPrefix := "Validation failed: "
  const CreateFailedPrefix := "Create failed: "

  /** `form[key]?.trim()` is a non-empty string. */
  predicate Filled(form: map<string, string>, key: string) {
    key in form && Trim(form[key]) != ""
  }

  /** A chain of `if (!form[key]?.trim()) { alert(text); return; }` checks: the text
      of the first check whose field is empty, or None when every field is filled. */
  function FirstMissing(form: map<string, string>, checks: seq<(string, string)>): (r: Option<string>)
    ensures r == None <==> forall i | 0 <= i < |checks| :: Filled(form, checks[i].0)
    ensures r != None ==> exists i | 0 <= i < |checks| :: r == Some(checks[i].1)
    decreases |checks|
  {
    if checks == [] then None
    else if !Filled(form, checks[0].0) then Some(checks[0].1)
    else FirstMissing(form, checks[1..])
  }

  /** The check that reports is the first one, in order, whose field is empty. */
  lemma {:induction false} FirstMissingIsFirst(form: map<string, string>, checks: seq<(string, string)>, i: int)
    requires 0 <= i < |checks| && !Filled(form, checks[i].0)
    requires forall j | 0 <= j < i :: Filled(form, checks[j].0)
    ensures FirstMissing(form, checks) == Some(checks[i].1)
    decreases i
  {
    if i > 0 {
      FirstMissingIsFirst(form, checks[1..], i - 1);
    }
  }

  /** A check that looks at `key` never fires differently when `key` changes. */
  lemma {:induction false} FirstMissingIgnores(form: map<string, string>, checks: seq<(string, string)>, key: string, v: string)
    requires forall i | 0 <= i < |checks| :: checks[i].0 != key
    ensures FirstMissing(form[key := v], checks) == FirstMissing(form, checks)
    decreases |checks|
  {
    if checks != [] {
      assert Filled(form[key := v], checks[0].0) == Filled(form, checks[0].0);
      FirstMissingIgnores(form, checks[1..], key, v);
    }
  }

  /** One step of the chain: the first check fires, or the rest decide. */
  lemma FirstMissingStep(form: map<string, string>, check: (string, string), rest: seq<(string, string)>)
    ensures FirstMissing(form, [check] + rest) ==
      if !Filled(form, check.0) then Some(check.1) else FirstMissing(form, rest)
  {
    assert ([check] + rest)[1..] == rest;
  }

  /** Two checks that report the same text: it is reported exactly when either field
      is empty. */
  lemma FirstMissingOfTwo(form: map<string, string>, a: string, b: string, text: string)
    ensures FirstMissing(form, [(a, text), (b, text)]) ==
      if !Filled(form, a) || !Filled(form, b) then Some(text) else None
  {
    var last := [(b, text)];
    assert ([(a, text)] + last)[1..] == last;
    assert last[1..] == [];
    assert FirstMissing(form, last) == if !Filled(form, b) then Some(text) else None;
    assert [(a, text), (b, text)] == [(a, text)] + last;
  }

  /** Three checks that report the same text: it is reported exactly when any of the
      fields is empty. */
  lemma FirstMissingOfThree(form: map<string, string>, a: string, b: string, c: string, text: string)
    ensures FirstMissing(form, [(a, text), (b, text), (c, text)]) ==
      if !Filled(form, a) || !Filled(form, b) || !Filled(form, c) then Some(text) else None
  {
    var tail := [(b, text), (c, text)];
    assert ([(a, text)] + tail)[1..] == tail;
    FirstMissingOfTwo(form, b, c, text);
    assert [(a, text), (b, text), (c, text)] == [(a, text)] + tail;
  }

  /** `form.key || ""` for a form of text inputs. */
  function Field(form: map<string, string>, key: string): (r: string)
    ensures key in form ==> r == form[key]
    ensures key !in form ==> r == ""
  {
    if key in form then form[key] else ""
  }

  /** `` `${a} ${b}`.trim() ``, the `name` field the create payloads add; what it
      yields is stated by NameJoinEmpty and NameJoinSpec below. */
  function NameJoin(a: string, b: string): (r: string)
  {
    Trim(a + " " + b)
  }

  /** The joined name is empty exactly when both parts are blank. */
  lemma NameJoinEmpty(a: string, b: string)
    ensures NameJoin(a, b) == "" <==> Blank(a) && Blank(b)
  {
    BlankAppend(a, " ");
    BlankAppend(a + " ", b);
  }

  lemma NameJoinBoth(a: string, b: string)
    requires !Blank(a) && !Blank(b)
    ensures NameJoin(a, b) == TrimStart(a) + " " + TrimEnd(b)
  {
    TrimAround(a, " ", b);
  }

  lemma NameJoinBlankSecond(a: string, b: string)
    requires Blank(b)
    ensures NameJoin(a, b) == Trim(a)
  {
    assert a + " " + b == a + (" " + b);
    BlankAppend(" ", b);
    TrimBlankSuffix(a, " " + b);
  }

  lemma NameJoinBlankFirst(a: string, b: string)
    requires Blank(a)
    ensures NameJoin(a, b) == Trim(b)
  {
    var u := " " + b;
    assert a + " " + b == a + u;
    TrimBlankPrefix(a, u);
    assert Blank(" ");
    TrimBlankPrefix(" ", b);
  }

  /** The join trims only the outer ends: the inner whitespace of both parts is kept,
      and a blank part contributes nothing. */
  lemma NameJoinSpec(a: string, b: string)
    ensures !Blank(a) && !Blank(b) ==> NameJoin(a, b) == TrimStart(a) + " " + TrimEnd(b)
    ensures Blank(b) ==> NameJoin(a, b) == Trim(a)
    ensures Blank(a) ==> NameJoin(a, b) == Trim(b)
  {
    if !Blank(a) && !Blank(b) { NameJoinBoth(a, b); }
    if Blank(b) { NameJoinBlankSecond(a, b); }
    if Blank(a) { NameJoinBlankFirst(a, b); }
  }

  /** `{ ...form, name: `${form.first || ""} ${form.second || ""}`.trim() }` */
  function WithName(form: map<string, string>, first: string, second: string): (r: map<string, string>)
    ensures r.Keys == form.Keys + {"name"}
    ensures r["name"] == NameJoin(Field(form, first), Field(form, second))
    ensures forall k | k in form && k != "name" :: r[k] == form[k]
  {
    form["name" := NameJoin(Field(form, first), Field(form, second))]
  }

  /** `data.k1 || data.k2 || ... || fallback` */
  function FirstTruthy(data: Value, keys: seq<string>, fallback: Value): (r: Value)
    ensures r == fallback || exists i | 0 <= i < |keys| :: r == Prop(data, keys[i]) && Truthy(r)
    decreases |keys|
  {
    if keys == [] then fallback
    else Or(Prop(data, keys[0]), FirstTruthy(data, keys[1..], fallback))
  }

  /** The chain yields the field of the first key that holds a truthy value... */
  lemma {:induction false} FirstTruthyPicksFirst(data: Value, keys: seq<string>, fallback: Value, i: int)
    requires 0 <= i < |keys| && Truthy(Prop(data, keys[i]))
    requires forall j | 0 <= j < i :: !Truthy(Prop(data, keys[j]))
    ensures FirstTruthy(data, keys, fallback) == Prop(data, keys[i])
    decreases i
  {
    if i > 0 {
      FirstTruthyPicksFirst(data, keys[1..], fallback, i - 1);
    }
  }

  /** ...and the fallback when no key does. */
  lemma {:induction false} FirstTruthyFallback(data: Value, keys: seq<string>, fallback: Value)
    requires forall j | 0 <= j < |keys| :: !Truthy(Prop(data, keys[j]))
    ensures FirstTruthy(data, keys, fallback) == fallback
    decreases |keys|
  {
    if keys != [] {
      FirstTruthyFallback(data, keys[1..], fallback);
    }
  }

  /** Where a create form goes after success, and how its message names the record. */
  datatype CreateSpec = CreateSpec(listPath: string, noun: string, labelKeys: seq<string>)

  /** `` `${noun} "${name}" created successfully` ``: the noun, then the name in quotes. */
  function Announce(noun: string, name: string): (r: string)
    ensures |r| == |noun| + |name| + 24
    ensures noun <= r && r[|noun|..|noun| + 2] == " \""
    ensures r[|noun| + 2..|noun| + 2 + |name|] == name
    ensures r[|noun| + 2 + |name|..] == "\" created successfully"
  {
    noun + " \"" + name + "\" created successfully"
  }

  /** The success message, labelled by `data.k1 || ... || 'created'`: it names the
      record by one of its truthy label fields, or by "created". */
  function SuccessText(h: Host, spec: CreateSpec, data: Value): (r: string)
    ensures || r == Announce(spec.noun, "created")
            || exists i | 0 <= i < |spec.labelKeys| ::
                 Truthy(Prop(data, spec.labelKeys[i])) && r == Announce(spec.noun, StringOf(h, Prop(data, spec.labelKeys[i])))
  {
    Announce(spec.noun, StringOf(h, FirstTruthy(data, spec.labelKeys, Str("created"))))
  }

  /** `serverData?.errors || serverData?.message || serverData`: the first truthy of
      `errors` and `message`, else the body itself. */
  function ValidationDetails(data: Value): (r: Value)
    ensures r == FirstTruthy(data, ["errors", "message"], data)
    ensures Truthy(r) <==> Truthy(Prop(data, "errors")) || Truthy(Prop(data, "message")) || Truthy(data)
  {
    assert ["errors", "message"][1..] == ["message"];
    assert ["message"][1..] == [];
    Or(Or(Prop(data, "errors"), Prop(data, "message")), data)
  }

  /** The alert for a response with a status: 422 shows the server's field errors, any
      other status the server's message or the whole body. */
  function FailureText(h: Host, status: int, data: Value): (r: string)
    ensures ValidationPrefix <= r <==> status == 422
    ensures CreateFailedPrefix <= r <==> status != 422
    ensures status != 422 && Truthy(Prop(data, "message")) ==> r == CreateFailedPrefix + StringOf(h, Prop(data, "message"))
    ensures status != 422 && !Truthy(Prop(data, "message")) ==> r == CreateFailedPrefix + h.stringify(data)
  {
    assert ValidationPrefix[0] != CreateFailedPrefix[0];
    if status == 422 then
      ValidationPrefix + h.stringify(ValidationDetails(data))
    else
      var msg := Prop(data, "message");
      CreateFailedPrefix + (if Truthy(msg) then StringOf(h, msg) else h.stringify(data))
  }

  /** The three kinds of failure are told apart by their text, and the 422 details are
      the first truthy of `errors`, `message` and the body itself. */
  lemma FailureKinds(h: Host, status: int, data: Value)
    ensures FailureText(h, status, data) != NetworkErrorText
    ensures status == 422 ==>
      FailureText(h, status, data) == ValidationPrefix + h.stringify(FirstTruthy(data, ["errors", "message"], data))
  {
    var r := FailureText(h, status, data);
    assert r[0] == if status == 422 then 'V' else 'C';
  }

  datatype Reaction = Reaction(notice: Option<Notice>, nav: Option<Nav>)

  /** The `try { await request; navigate(...) } catch { alert(...) }` of a create form.
      A success whose body is null or undefined makes `response.data.name` throw a
      TypeError inside the `try`; the `catch` sees no `err.response` and reports a
      network error. */
  function AfterCreate(h: Host, spec: CreateSpec, outcome: Outcome): (r: Reaction)
    ensures r.nav.Some? <==> outcome.Success? && !Nullish(outcome.data)
    ensures r.nav.Some? ==>
      r.notice == None && r.nav.value == Nav(spec.listPath, Flash("success", SuccessText(h, spec, outcome.data)))
    ensures outcome.HttpError? ==> r.notice == Some(Alert(FailureText(h, outcome.status, outcome.data)))
    ensures outcome.NoResponse? || (outcome.Success? && Nullish(outcome.data)) ==> r.notice == Some(Alert(NetworkErrorText))
  {
    match outcome
    case Success(data) =>
      if Nullish(data) then Reaction(Some(Alert(NetworkErrorText)), None)
      else Reaction(None, Some(Nav(spec.listPath, Flash("success", SuccessText(h, spec, data)))))
    case HttpError(status, data, _) => Reaction(Some(Alert(FailureText(h, status, data))), None)
    case NoResponse(_) => Reaction(Some(Alert(NetworkErrorText)), None)
  }

  /** The success message names the record by the first truthy label field, else "created". */
  lemma SuccessLabel(h: Host, spec: CreateSpec, data: Value, i: int)
    requires 0 <= i < |spec.labelKeys| && Truthy(Prop(data, spec.labelKeys[i]))
    requires forall j | 0 <= j < i :: !Truthy(Prop(data, spec.labelKeys[j]))
    ensures SuccessText(h, spec, data) == Announce(spec.noun, StringOf(h, Prop(data, spec.labelKeys[i])))
  {
    FirstTruthyPicksFirst(data, spec.labelKeys, Str("created"), i);
  }

  lemma SuccessLabelFallback(h: Host, spec: CreateSpec, data: Value)
    requires forall j | 0 <= j < |spec.labelKeys| :: !Truthy(Prop(data, spec.labelKeys[j]))
    ensures SuccessText(h, spec, data) == Announce(spec.noun, "created")
  {
    FirstTruthyFallback(data, spec.labelKeys, Str("created"));
  }
}
