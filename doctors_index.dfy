/** The doctors list page: search and speciality filter, removal after a delete,
    and each card's avatar colour and initials. */
module DoctorsIndex {
  import opened Js
  import opened Http
  import opened Seqs
  import Avatar

  const DeletedText := "Doctor deleted successfully"

  /** A doctor as the list endpoint returns it; a missing or `null` text field is None. */
  datatype Doctor = Doctor(
    id: Value,
    firstName: Option<string>,
    lastName: Option<string>,
    email: Option<string>,
    specialisation: Option<string>,
    specialization: Option<string>)

  /** `field || fallback` for a text field. */
  function TextOr(field: Option<string>, fallback: string): (r: string)
    ensures field.Some? && field.value != "" ==> r == field.value
    ensures field.None? || field.value == "" ==> r == fallback
  {
    if field.Some? && field.value != "" then field.value else fallback
  }

  /** `(doctor.specialisation || doctor.specialization || "").toLowerCase()`: the
      British spelling wins when it is non-empty. */
  function Speciality(h: Host, d: Doctor): (r: string)
    ensures d.specialisation.Some? && d.specialisation.value != "" ==> r == h.lower(d.specialisation.value)
    ensures (d.specialisation.None? || d.specialisation.value == "") && d.specialization.Some? ==>
      r == h.lower(d.specialization.value)
    ensures (d.specialisation.None? || d.specialisation.value == "") && d.specialization.None? ==> r == h.lower("")
  {
    h.lower(TextOr(d.specialisation, TextOr(d.specialization, "")))
  }

  /** `matchesSearch && matchesFilter` for an already lowercased term: a kept doctor
      has the filtered speciality, and an empty term with "all" keeps everyone. */
  predicate Keep(h: Host, term: string, filter: string, d: Doctor)
    ensures Keep(h, term, filter, d) ==> filter == "all" || Speciality(h, d) == filter
    ensures term == "" && filter == "all" ==> Keep(h, term, filter, d)
  {
    var spec := Speciality(h, d);
    && (FieldHas(h, d.firstName, term) || FieldHas(h, d.lastName, term) || FieldHas(h, d.email, term)
        || Includes(spec, term))
    && (filter == "all" || spec == filter)
  }

  /** `filteredDoctors`: only doctors of the page that the search and filter keep. */
  function Filtered(h: Host, doctors: seq<Doctor>, searchTerm: string, filter: string): (r: seq<Doctor>)
    ensures |r| <= |doctors|
    ensures forall k | 0 <= k < |r| :: r[k] in doctors && Keep(h, h.lower(searchTerm), filter, r[k])
  {
    var term := h.lower(searchTerm);
    var r := Filter(doctors, d => Keep(h, term, filter, d));
    forall k | 0 <= k < |r| ensures r[k] in doctors {
      FilterMembership(doctors, d => Keep(h, term, filter, d), r[k]);
    }
    r
  }

  /** A doctor is listed exactly when it is on the page, the lowercased term occurs in
      its lowercased first name, last name, email or speciality, and the filter is
      "all" or that speciality. */
  lemma FilteredIff(h: Host, doctors: seq<Doctor>, searchTerm: string, filter: string, d: Doctor)
    ensures d in Filtered(h, doctors, searchTerm, filter) <==>
      var term, spec := h.lower(searchTerm), Speciality(h, d);
      && d in doctors
      && (FieldHas(h, d.firstName, term) || FieldHas(h, d.lastName, term) || FieldHas(h, d.email, term)
          || exists i :: OccursAt(spec, term, i))
      && (filter == "all" || spec == filter)
  {
    var term := h.lower(searchTerm);
    FilterMembership(doctors, d => Keep(h, term, filter, d), d);
    IncludesIff(Speciality(h, d), term);
  }

  /** With the "all" filter and an empty search every doctor is listed. */
  lemma AllAndEmptyKeepsEveryone(h: Host, doctors: seq<Doctor>)
    requires h.lower("") == ""
    ensures Filtered(h, doctors, "", "all") == doctors
  {
    FilterAll(doctors, d => Keep(h, "", "all", d));
  }

  /** The listed doctors appear on the page in the same order. */
  lemma FilteredKeepsOrder(h: Host, doctors: seq<Doctor>, searchTerm: string, filter: string) returns (idx: seq<nat>)
    ensures Embeds(Filtered(h, doctors, searchTerm, filter), doctors, idx)
  {
    idx := FilterKeepsOrder(doctors, d => Keep(h, h.lower(searchTerm), filter, d));
  }

  /** `doctors.filter(doctor => doctor.id !== id)`: no doctor with the id is left, and
      an id that is not on the page changes nothing. */
  function WithoutId(doctors: seq<Doctor>, id: Value): (r: seq<Doctor>)
    ensures |r| <= |doctors|
    ensures forall k | 0 <= k < |r| :: r[k].id != id
    ensures (forall k | 0 <= k < |doctors| :: doctors[k].id != id) ==> r == doctors
  {
    var p := (d: Doctor) => d.id != id;
    var r := Filter(doctors, p);
    assert (forall k | 0 <= k < |doctors| :: doctors[k].id != id) ==> r == doctors by {
      if forall k | 0 <= k < |doctors| :: doctors[k].id != id {
        FilterAll(doctors, p);
      }
    }
    r
  }

  /** Removal drops every doctor with the id and keeps every other one, as often as it
      occurs and in the same order. */
  lemma WithoutIdExact(doctors: seq<Doctor>, id: Value, d: Doctor) returns (idx: seq<nat>)
    ensures d.id == id ==> d !in WithoutId(doctors, id)
    ensures d.id != id ==> multiset(WithoutId(doctors, id))[d] == multiset(doctors)[d]
    ensures Embeds(WithoutId(doctors, id), doctors, idx)
  {
    FilterCount(doctors, (x: Doctor) => x.id != id, d);
    idx := FilterKeepsOrder(doctors, (x: Doctor) => x.id != id);
  }

  /** `Math.abs(Number(doctor.id) || 0) % COLORS.length`: a NaN id counts as 0, and
      every card gets a palette colour. */
  function ColourIndex(h: Host, id: Value): (r: nat)
    ensures Avatar.Colour(r).Some?
    ensures NumberOf(h, id).None? ==> r == 0
    ensures NumberOf(h, id).Some? ==> r == Abs(NumberOf(h, id).value) % 5
  {
    var n := NumberOf(h, id);
    var idx := if n.Some? then n.value else 0;
    Abs(idx) % |Avatar.Palette|
  }

  /** `parts.map(n => n[0]).join("")`: `n[0]` of an empty part is `undefined`, which
      `join` writes as nothing. */
  function Heads(parts: seq<string>): (r: string)
    ensures |r| <= |parts|
    ensures (forall k | 0 <= k < |parts| :: parts[k] != "") ==> |r| == |parts|
    decreases |parts|
  {
    if parts == [] then ""
    else (if parts[0] == "" then "" else [parts[0][0]]) + Heads(parts[1..])
  }

  /** Reference definition: the characters of `s` that start a word, a word starting
      where a non-space follows a space or, when `atStart`, the start of the text. */
  function WordStarts(s: string, atStart: bool): (r: string)
    ensures |r| <= |s|
    ensures forall k | 0 <= k < |r| :: r[k] in s && r[k] != ' '
    decreases |s|
  {
    if s == [] then ""
    else (if atStart && s[0] != ' ' then [s[0]] else "") + WordStarts(s[1..], s[0] == ' ')
  }

  /** Taking the head of every space-separated part picks exactly the word starts. */
  lemma {:induction false} HeadsOfSplit(s: string)
    ensures Heads(Split(s, ' ')) == WordStarts(s, true)
    ensures Heads(Split(s, ' ')[1..]) == WordStarts(s, false)
    decreases |s|
  {
    if s != [] {
      var rest := Split(s[1..], ' ');
      HeadsOfSplit(s[1..]);
      if s[0] == ' ' {
        assert Split(s, ' ') == [""] + rest;
        assert ([""] + rest)[1..] == rest;
      } else {
        var parts := [[s[0]] + rest[0]] + rest[1..];
        assert Split(s, ' ') == parts;
        assert parts[1..] == rest[1..];
        assert Heads(parts) == [s[0]] + Heads(rest[1..]);
      }
    }
  }

  /** `text.slice(0, 3)` */
  function Prefix3(text: string): (r: string)
    ensures |r| == if |text| < 3 then |text| else 3
    ensures r <= text
  {
    if |text| <= 3 then text else text[..3]
  }

  /** `(doctor.first_name || "").split(" ").map(n => n[0]).join("").slice(0, 3).toUpperCase()`:
      the uppercased first letters of the first three words of the first name. */
  function Initials(h: Host, firstName: Option<string>): (r: string)
    ensures r == h.upper(Prefix3(WordStarts(TextOr(firstName, ""), true)))
  {
    HeadsOfSplit(TextOr(firstName, ""));
    h.upper(Prefix3(Heads(Split(TextOr(firstName, ""), ' '))))
  }

  /** `initials || "?"` */
  function Badge(h: Host, firstName: Option<string>): (r: string)
    ensures r != ""
    ensures Initials(h, firstName) != "" ==> r == Initials(h, firstName)
  {
    var i := Initials(h, firstName);
    if i == "" then "?" else i
  }

  class Page {
    var doctors: seq<Doctor>
    var filter: string
    var searchTerm: string

    constructor()
      ensures doctors == [] && filter == "all" && searchTerm == ""
    {
      doctors := [];
      filter := "all";
      searchTerm := "";
    }

    /** The mount fetch `GET /doctors`: it has no headers of its own, so only the
        app instance's default headers go out (the bearer token after a login).  A
        list replaces the doctors, a failure is only logged. */
    method Load(listing: Option<seq<Doctor>>) returns (request: Request)
      modifies this
      ensures request == Request(AppClient, Get, "/doctors", map[], Undefined)
      ensures listing.Some? ==> doctors == listing.value
      ensures listing.None? ==> doctors == old(doctors)
      ensures filter == old(filter) && searchTerm == old(searchTerm)
    {
      request := Request(AppClient, Get, "/doctors", map[], Undefined);
      if listing.Some? {
        doctors := listing.value;
      }
    }

    /** The search box. */
    method SetSearchTerm(value: string)
      modifies this
      ensures searchTerm == value && doctors == old(doctors) && filter == old(filter)
    {
      searchTerm := value;
    }

    /** A speciality button. */
    method SetFilter(item: string)
      modifies this
      ensures filter == item && doctors == old(doctors) && searchTerm == old(searchTerm)
    {
      filter := item;
    }

    /** The cards on screen. */
    function Visible(h: Host): (r: seq<Doctor>)
      reads this
      ensures forall k | 0 <= k < |r| :: r[k] in doctors
    {
      Filtered(h, doctors, searchTerm, filter)
    }

    /** `onDeleteCallback(id)` passed to each card's delete button. */
    method OnDeleteCallback(id: Value) returns (notice: Notice)
      modifies this
      ensures notice == ToastSuccess(DeletedText)
      ensures doctors == WithoutId(old(doctors), id)
      ensures filter == old(filter) && searchTerm == old(searchTerm)
    {
      notice := ToastSuccess(DeletedText);
      doctors := WithoutId(doctors, id);
    }
  }
}
