/**
 * Reservations: the optimistic page. Saving merges the draft into the list
 * without waiting for the PUT, deleting filters the list without waiting for
 * the DELETE, and adding appends the row the POST returns.
 */
module Reservations {
  import opened Rows
  import opened Text

  const Pending: Value := Str("Pending")

  /** The draft the page starts with: both statuses "Pending". */
  const InitialDraft: Fields := map["check_in_status" := Pending, "reservation_status" := Pending]

  /** `formData.reservation_date || new Date().toISOString().split('T')[0]`, rendered. */
  function ReservationDate(draft: Fields, nowIso: string): (d: string)
    ensures Truthy(Lookup(draft, "reservation_date")) ==> d == Render(Lookup(draft, "reservation_date"))
    ensures !Truthy(Lookup(draft, "reservation_date")) ==> IsPrefix(d, nowIso) && 'T' !in d
    ensures !Truthy(Lookup(draft, "reservation_date")) && |d| < |nowIso| ==> nowIso[|d|] == 'T'
  {
    var date := Lookup(draft, "reservation_date");
    if Truthy(date) then Render(date) else BeforeFirst(nowIso, 'T')
  }

  /** `value || 'Pending'` for a status key of the draft. */
  function StatusOrPending(draft: Fields, key: string): (v: Value)
    ensures Truthy(Some(v))
    ensures Truthy(Lookup(draft, key)) ==> v == draft[key]
    ensures !Truthy(Lookup(draft, key)) ==> v == Pending
  {
    if Truthy(Lookup(draft, key)) then draft[key] else Pending
  }

  /**
   * The body of the add request: the draft, with `reservation_time` turned
   * into `${date}T${time}:00Z` and both statuses defaulted to "Pending".
   */
  function Payload(draft: Fields, nowIso: string): (p: Fields)
    ensures p.Keys == draft.Keys + {"reservation_time", "reservation_status", "check_in_status"}
    ensures p["reservation_time"]
         == Str(ReservationDate(draft, nowIso) + "T" + Render(Lookup(draft, "reservation_time")) + ":00Z")
    ensures p["reservation_status"] == StatusOrPending(draft, "reservation_status")
    ensures p["check_in_status"] == StatusOrPending(draft, "check_in_status")
    ensures forall k :: k in draft && k != "reservation_time" && k != "reservation_status" && k != "check_in_status" ==> p[k] == draft[k]
  {
    var time := ReservationDate(draft, nowIso) + "T" + Render(Lookup(draft, "reservation_time")) + ":00Z";
    draft["reservation_time" := Str(time)]
         ["reservation_status" := StatusOrPending(draft, "reservation_status")]
         ["check_in_status" := StatusOrPending(draft, "check_in_status")]
  }

  /** The payload's date-time splits back into the date it was built from. */
  lemma PayloadDateRoundTrip(draft: Fields, nowIso: string)
    requires 'T' !in ReservationDate(draft, nowIso)
    ensures BeforeFirst(Payload(draft, nowIso)["reservation_time"].s, 'T') == ReservationDate(draft, nowIso)
  {
    var date := ReservationDate(draft, nowIso);
    var rest := Render(Lookup(draft, "reservation_time")) + ":00Z";
    assert Payload(draft, nowIso)["reservation_time"].s == date + ['T'] + rest;
    BeforeFirstOfJoin(date, 'T', rest);
  }

  /**
   * Without a truthy date in the draft (no key, or the "" a cleared input
   * leaves), the payload carries today's date taken from the ISO clock string.
   */
  lemma PayloadDefaultsToToday(draft: Fields, today: string, clock: string)
    requires !Truthy(Lookup(draft, "reservation_date")) && 'T' !in today
    ensures BeforeFirst(Payload(draft, today + "T" + clock)["reservation_time"].s, 'T') == today
  {
    BeforeFirstOfJoin(today, 'T', clock);
    assert today + "T" + clock == today + ['T'] + clock;
    PayloadDateRoundTrip(draft, today + "T" + clock);
  }

  /** The state of the Reservations page. */
  class ReservationsPage {
    var reservations: seq<Row>
    var editingId: Option<int>
    var formData: Fields
    var loading: bool
    var showAddForm: bool

    constructor ()
      ensures reservations == [] && editingId == None && formData == InitialDraft
      ensures loading && !showAddForm
    {
      reservations, editingId, formData := [], None, InitialDraft;
      loading, showAddForm := true, false;
    }

    /** `fetchData`: the list is replaced when the GET succeeds; loading ends either way. */
    method FetchData(fetched: Option<seq<Row>>)
      modifies this`reservations, this`loading
      ensures reservations == AfterFetch(old(reservations), fetched)
      ensures !loading
    {
      loading := true;
      reservations := AfterFetch(reservations, fetched);
      loading := false;
    }

    /** `handleInputChange`: only the named key of the draft changes. */
    method InputChange(name: string, value: Value)
      modifies this`formData
      ensures formData == WithField(old(formData), name, value)
    {
      formData := WithField(formData, name, value);
    }

    /** `handleEdit`: the row enters edit mode and the draft becomes a copy of it. */
    method Edit(row: Row)
      modifies this`editingId, this`formData
      ensures editingId == Some(row.id) && formData == row.fields
    {
      editingId := Some(row.id);
      formData := row.fields;
    }

    /** The Cancel button: edit mode ends; the list and the draft stay as they are. */
    method Cancel()
      modifies this`editingId
      ensures editingId == None
    {
      editingId := None;
    }

    /**
     * `handleSave`: the PUT is not awaited, so whatever it answers the rows
     * with this id get the draft merged over them and edit mode ends.
     */
    method Save(id: int)
      modifies this`reservations, this`editingId
      ensures reservations == OverlayById(old(reservations), id, formData)
      ensures editingId == None
    {
      reservations := OverlayById(reservations, id, formData);
      editingId := None;
    }

    /**
     * `handleAddReservation`: returns the payload it posts. On success the
     * returned row is appended, the form closes and the draft becomes empty;
     * on failure the list and draft stay and the form is open.
     */
    method AddReservation(nowIso: string, reply: Option<Row>) returns (payload: Fields)
      modifies this`reservations, this`showAddForm, this`formData
      ensures payload == Payload(old(formData), nowIso)
      ensures reply.Some? ==> reservations == old(reservations) + [reply.value] && !showAddForm && formData == map[]
      ensures reply.None? ==> reservations == old(reservations) && showAddForm && formData == old(formData)
    {
      showAddForm := true;
      payload := Payload(formData, nowIso);
      if reply.Some? {
        reservations := reservations + [reply.value];
        showAddForm := false;
        formData := map[];
      }
    }

    /** `handleDelete`: the DELETE is not awaited; the rows with this id leave the list at once. */
    method Delete(id: int)
      modifies this`reservations
      ensures reservations == WithoutId(old(reservations), id)
    {
      reservations := WithoutId(reservations, id);
    }

    /** The add button toggles the form; the draft is kept. */
    method ToggleAddForm()
      modifies this`showAddForm
      ensures showAddForm == !old(showAddForm)
    {
      showAddForm := !showAddForm;
    }
  }
}
