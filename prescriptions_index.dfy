/** The prescriptions list page: the authenticated fetch on mount, the search
    box, removal after a delete, and each card's avatar. */
module PrescriptionsIndex {
  import opened Js
  import opened Http
  import opened Seqs
  import Avatar

  const NotAuthorizedText := "Not authorized — please log in."
  const UnauthorizedText := "Unauthorized — please log in."
  const LoadFailedText := "Failed to load prescriptions"
  const DeletedText := "Prescription deleted successfully"

  /** A prescription as the list endpoint returns it; the ids are whatever JSON the
      server sends, a missing or `null` text field is None. */
  datatype Prescription = Prescription(
    id: Value,
    patientId: Value,
    doctorId: Value,
    medication: Option<string>,
    dosage: Option<string>)

  /** The search predicate for an already lowercased term: the empty term matches
      every prescription. */
  predicate Matches(h: Host, term: string, p: Prescription)
    ensures term == "" ==> Matches(h, term, p)
  {
    || Includes(StringOf(h, p.id), term)
    || Includes(StringOf(h, p.patientId), term)
    || Includes(StringOf(h, p.doctorId), term)
    || FieldHas(h, p.medication, term)
    || FieldHas(h, p.dosage, term)
  }

  /** `filteredPrescriptions`: only prescriptions of the page that match the search. */
  function Filtered(h: Host, prescriptions: seq<Prescription>, searchTerm: string): (r: seq<Prescription>)
    ensures |r| <= |prescriptions|
    ensures forall k | 0 <= k < |r| :: r[k] in prescriptions && Matches(h, h.lower(searchTerm), r[k])
  {
    var term := h.lower(searchTerm);
    var r := Filter(prescriptions, p => Matches(h, term, p));
    forall k | 0 <= k < |r| ensures r[k] in prescriptions {
      FilterMembership(prescriptions, p => Matches(h, term, p), r[k]);
    }
    r
  }

  /** A prescription is listed exactly when it is on the page and the lowercased term
      occurs in the text of its id, patient id or doctor id, or in its lowercased
      medication or dosage. */
  lemma FilteredIff(h: Host, prescriptions: seq<Prescription>, searchTerm: string, p: Prescription)
    ensures p in Filtered(h, prescriptions, searchTerm) <==>
      var term := h.lower(searchTerm);
      && p in prescriptions
      && (|| (exists i :: OccursAt(StringOf(h, p.id), term, i))
          || (exists i :: OccursAt(StringOf(h, p.patientId), term, i))
          || (exists i :: OccursAt(StringOf(h, p.doctorId), term, i))
          || FieldHas(h, p.medication, term)
          || FieldHas(h, p.dosage, term))
  {
    var term := h.lower(searchTerm);
    FilterMembership(prescriptions, q => Matches(h, term, q), p);
    IncludesIff(StringOf(h, p.id), term);
    IncludesIff(StringOf(h, p.patientId), term);
    IncludesIff(StringOf(h, p.doctorId), term);
  }

  /** An empty search lists every prescription. */
  lemma EmptySearchKeepsEveryone(h: Host, prescriptions: seq<Prescription>)
    requires h.lower("") == ""
    ensures Filtered(h, prescriptions, "") == prescriptions
  {
    FilterAll(prescriptions, p => Matches(h, "", p));
  }

  /** The listed prescriptions appear on the page in the same order. */
  lemma FilteredKeepsOrder(h: Host, prescriptions: seq<Prescription>, searchTerm: string) returns (idx: seq<nat>)
    ensures Embeds(Filtered(h, prescriptions, searchTerm), prescriptions, idx)
  {
    idx := FilterKeepsOrder(prescriptions, p => Matches(h, h.lower(searchTerm), p));
  }

  /** `prev.filter((p) => p.id !== id)`: no prescription with the id is left, and an
      id that is not on the page changes nothing. */
  function WithoutId(prescriptions: seq<Prescription>, id: Value): (r: seq<Prescription>)
    ensures |r| <= |prescriptions|
    ensures forall k | 0 <= k < |r| :: r[k].id != id
    ensures (forall k | 0 <= k < |prescriptions| :: prescriptions[k].id != id) ==> r == prescriptions
  {
    var p := (q: Prescription) => q.id != id;
    var r := Filter(prescriptions, p);
    assert (forall k | 0 <= k < |prescriptions| :: prescriptions[k].id != id) ==> r == prescriptions by {
      if forall k | 0 <= k < |prescriptions| :: prescriptions[k].id != id {
        FilterAll(prescriptions, p);
      }
    }
    r
  }

  /** Removal drops every prescription with the id and keeps every other one, as often
      as it occurs and in the same order. */
  lemma WithoutIdExact(prescriptions: seq<Prescription>, id: Value, p: Prescription) returns (idx: seq<nat>)
    ensures p.id == id ==> p !in WithoutId(prescriptions, id)
    ensures p.id != id ==> multiset(WithoutId(prescriptions, id))[p] == multiset(prescriptions)[p]
    ensures Embeds(WithoutId(prescriptions, id), prescriptions, idx)
  {
    FilterCount(prescriptions, (q: Prescription) => q.id != id, p);
    idx := FilterKeepsOrder(prescriptions, (q: Prescription) => q.id != id);
  }

  /** `p.id % COLORS.length`: NaN (None) for an id that is not a number, and negative
      for a negative id that is not a multiple of five. */
  function ColourIndex(h: Host, id: Value): (r: Option<int>)
    ensures NumberOf(h, id).None? <==> r.None?
    ensures NumberOf(h, id).Some? && NumberOf(h, id).value >= 0 ==> r == Some(NumberOf(h, id).value % 5)
    ensures NumberOf(h, id).Some? && NumberOf(h, id).value < 0 ==> r.Some? && r.value <= 0
  {
    var n := NumberOf(h, id);
    if n.Some? then Some(Rem(n.value, |Avatar.Palette|)) else None
  }

  /** A card has a palette colour exactly when its id is a number that is non-negative
      or a multiple of five; a negative id's remainder is off the palette. */
  lemma ColourDefinedIff(h: Host, id: Value)
    ensures (ColourIndex(h, id).Some? && Avatar.Colour(ColourIndex(h, id).value).Some?) <==>
      NumberOf(h, id).Some? && (NumberOf(h, id).value >= 0 || Abs(NumberOf(h, id).value) % 5 == 0)
  {
    var n := NumberOf(h, id);
    if n.Some? && n.value < 0 {
      var b: int := Abs(n.value);
      assert b == -n.value;
      assert ColourIndex(h, id).value == -(b % 5);
    }
  }

  /** `` `P${p.patient_id}` `` */
  function Initials(h: Host, p: Prescription): (r: string)
    ensures |r| >= 1 && r[0] == 'P' && r[1..] == StringOf(h, p.patientId)
  {
    "P" + StringOf(h, p.patientId)
  }

  class Page {
    var prescriptions: seq<Prescription>
    var searchTerm: string

    constructor()
      ensures prescriptions == [] && searchTerm == ""
    {
      prescriptions := [];
      searchTerm := "";
    }

    /** `fetchPrescriptions`, with `cancelled` the flag the effect's cleanup sets.  A
        missing token navigates to the login page without a request; a list (or `[]`
        for a falsy body) replaces the prescriptions unless the effect was cancelled;
        a 401 sends the user to log in; any other failure only reports. */
    method Fetch(h: Host, token: Value, cancelled: bool, listing: Listing<Prescription>)
      returns (request: Option<Request>, notice: Option<Notice>, nav: Option<Nav>)
      modifies this
      ensures searchTerm == old(searchTerm)
      ensures !Truthy(token) ==>
        && request == None && notice == Some(ToastError(NotAuthorizedText)) && nav == Some(Nav("/login", NoState))
        && prescriptions == old(prescriptions)
      ensures Truthy(token) ==> request == Some(Request(AppClient, Get, "/prescriptions", AuthHeaders(h, token), Undefined))
      ensures Truthy(token) && !listing.ListFailed? ==> notice == None && nav == None
      ensures Truthy(token) && listing.Listed? ==>
        prescriptions == if cancelled then old(prescriptions) else listing.items
      ensures Truthy(token) && listing.NoBody? ==>
        prescriptions == if cancelled then old(prescriptions) else []
      ensures Truthy(token) && listing.ListFailed? ==> prescriptions == old(prescriptions)
      ensures Truthy(token) && listing.ListFailed? && listing.status == Some(401) ==>
        notice == Some(ToastError(UnauthorizedText)) && nav == Some(Nav("/login", NoState))
      ensures Truthy(token) && listing.ListFailed? && listing.status != Some(401) ==>
        notice == Some(ToastError(LoadFailedText)) && nav == None
    {
      if !Truthy(token) {
        request, notice, nav := None, Some(ToastError(NotAuthorizedText)), Some(Nav("/login", NoState));
        return;
      }
      request := Some(Request(AppClient, Get, "/prescriptions", AuthHeaders(h, token), Undefined));
      notice, nav := None, None;
      match listing
      case Listed(items) =>
        if !cancelled { prescriptions := items; }
      case NoBody =>
        if !cancelled { prescriptions := []; }
      case ListFailed(status) =>
        if status == Some(401) {
          notice, nav := Some(ToastError(UnauthorizedText)), Some(Nav("/login", NoState));
        } else {
          notice := Some(ToastError(LoadFailedText));
        }
    }

    /** The search box. */
    method SetSearchTerm(value: string)
      modifies this
      ensures searchTerm == value && prescriptions == old(prescriptions)
    {
      searchTerm := value;
    }

    /** `onDeleteCallback(id)` passed to each card's delete button. */
    method OnDeleteCallback(id: Value) returns (notice: Notice)
      modifies this
      ensures notice == ToastSuccess(DeletedText)
      ensures prescriptions == WithoutId(old(prescriptions), id)
      ensures searchTerm == old(searchTerm)
    {
      notice := ToastSuccess(DeletedText);
      prescriptions := WithoutId(prescriptions, id);
    }
  }
}
