/**
 * WasteLog: entries are posted and the list refetched; a save decides
 * whether to send a PUT by testing `logId in wasteLog`, which in JavaScript
 * asks whether `logId` is an index of the array, not whether an entry has
 * that id.
 */
module WasteLog {
  import opened Rows

  /** A JavaScript array seen as an object: its index keys mapped to its entries. */
  function AsObject(log: seq<Row>): (o: map<int, Row>)
    ensures forall i :: i in o <==> 0 <= i < |log|
    ensures forall i :: i in o ==> o[i] == log[i]
  {
    map i | 0 <= i < |log| :: log[i]
  }

  /** `logId in wasteLog`: a test on the array's keys, true exactly for its indices. */
  predicate SendsPut(log: seq<Row>, logId: int)
    ensures SendsPut(log, logId) <==> 0 <= logId < |log|
  {
    logId in AsObject(log)
  }

  /** Whether a PUT is sent depends on the length of the list only, never on the entries' ids. */
  lemma SendsPutIgnoresIds(log: seq<Row>, other: seq<Row>, logId: int)
    requires |log| == |other|
    ensures SendsPut(log, logId) == SendsPut(other, logId)
  {
  }

  /** When every id is at least the length of the list, saving any entry sends no PUT. */
  lemma NoPutWhenIdsPastLength(log: seq<Row>, i: int)
    requires forall j :: 0 <= j < |log| ==> log[j].id >= |log|
    requires 0 <= i < |log|
    ensures !SendsPut(log, log[i].id)
  {
  }

  /**
   * With ids numbered 1, 2, ... in list order, as a fresh table hands them
   * out, saving the last entry sends no PUT.
   */
  lemma LastEntryGetsNoPut(log: seq<Row>)
    requires |log| > 0
    requires forall i :: 0 <= i < |log| ==> log[i].id == i + 1
    ensures !SendsPut(log, log[|log| - 1].id)
  {
  }

  /** The state of the waste log page. */
  class WasteLogPage {
    var wasteLog: seq<Row>
    var loading: bool
    var editingId: Option<int>
    var formData: Fields
    var showAddForm: bool
    /** Simulated role; nothing on the page ever changes it. */
    var isManager: bool

    /** The draft starts out holding only the clock's ISO timestamp as `waste_date`. */
    constructor (nowIso: string)
      ensures wasteLog == [] && loading && editingId == None
      ensures formData == map["waste_date" := Str(nowIso)]
      ensures !showAddForm && isManager
    {
      wasteLog, loading, editingId := [], true, None;
      formData := map["waste_date" := Str(nowIso)];
      showAddForm, isManager := false, true;
    }

    /**
     * The add button is rendered for managers only: exactly the users for
     * whom no row reads "View Only".
     */
    predicate AddButtonShown()
      reads this
      ensures AddButtonShown() ==> forall rowId :: Controls(rowId) != ViewOnly
      ensures !AddButtonShown() ==> forall rowId :: Controls(rowId) == ViewOnly
    {
      isManager
    }

    /** The form is rendered when it is open and the user is a manager, so never without the add button. */
    predicate AddFormShown()
      reads this
      ensures AddFormShown() ==> showAddForm && AddButtonShown()
    {
      showAddForm && isManager
    }

    /**
     * The action cell of a row: "View Only" for a non-manager, Save/Cancel
     * on the row being edited, Edit/Delete elsewhere.
     */
    function Controls(rowId: int): (c: RowControls)
      reads this
      ensures c == ViewOnly <==> !isManager
      ensures c == SaveCancel <==> isManager && editingId == Some(rowId)
      ensures c == EditDelete <==> isManager && editingId != Some(rowId)
    {
      ActionCell(isManager, editingId, rowId)
    }

    /** `fetchData`: the list is replaced when the GET succeeds; loading ends either way. */
    method FetchData(fetched: Option<seq<Row>>)
      modifies this`wasteLog, this`loading
      ensures wasteLog == AfterFetch(old(wasteLog), fetched)
      ensures !loading
    {
      loading := true;
      wasteLog := AfterFetch(wasteLog, fetched);
      loading := false;
    }

    /** `handleInputChange`: only the named key of the draft changes. */
    method InputChange(name: string, value: Value)
      modifies this`formData
      ensures formData == WithField(old(formData), name, value)
    {
      formData := WithField(formData, name, value);
    }

    /** `handleEdit`: the entry enters edit mode and the draft becomes a copy of it. */
    method Edit(log: Row)
      modifies this`editingId, this`formData
      ensures editingId == Some(log.id) && formData == log.fields
    {
      editingId := Some(log.id);
      formData := log.fields;
    }

    /** The Cancel button of a row: edit mode ends, the draft is kept. */
    method Cancel()
      modifies this`editingId
      ensures editingId == None
    {
      editingId := None;
    }

    /**
     * `handleDelete`: awaited and without a catch, so a failed DELETE leaves
     * the list as it was; a successful one filters the entry out locally.
     */
    method Delete(logId: int, deleteOk: bool)
      modifies this`wasteLog
      ensures deleteOk ==> wasteLog == WithoutId(old(wasteLog), logId)
      ensures !deleteOk ==> wasteLog == old(wasteLog)
    {
      if deleteOk {
        wasteLog := WithoutId(wasteLog, logId);
      }
    }

    /**
     * `handleAddWasteLog`: the form is opened first; a successful POST
     * refetches the list, closes the form and empties the draft, and a failed
     * one leaves the form open with its draft.
     */
    method AddWasteLog(postOk: bool, fetched: Option<seq<Row>>)
      requires AddFormShown()
      modifies this`wasteLog, this`loading, this`showAddForm, this`formData
      ensures postOk ==> wasteLog == AfterFetch(old(wasteLog), fetched) && !loading
      ensures postOk ==> !showAddForm && formData == map[]
      ensures !postOk ==> wasteLog == old(wasteLog) && loading == old(loading)
      ensures !postOk ==> showAddForm && formData == old(formData)
    {
      showAddForm := true;
      if postOk {
        FetchData(fetched);
        showAddForm := false;
        formData := map[];
      }
    }

    /**
     * `handleSave`: returns whether a PUT was sent, which happens exactly
     * when `logId` is an index of the list. A failed PUT changes nothing;
     * otherwise edit mode ends and the list is refetched, whether or not a
     * PUT was sent.
     */
    method Save(logId: int, putOk: bool, fetched: Option<seq<Row>>) returns (putSent: bool)
      modifies this`wasteLog, this`loading, this`editingId
      ensures putSent == SendsPut(old(wasteLog), logId)
      ensures putSent && !putOk ==> wasteLog == old(wasteLog) && loading == old(loading) && editingId == old(editingId)
      ensures !(putSent && !putOk) ==> wasteLog == AfterFetch(old(wasteLog), fetched) && !loading && editingId == None
    {
      putSent := SendsPut(wasteLog, logId);
      if putSent {
        if !putOk {
          return;
        }
        editingId := None;
        FetchData(fetched);
      }
      editingId := None;
      FetchData(fetched);
    }

    /** The add button toggles the form. */
    method ToggleAddForm()
      requires AddButtonShown()
      modifies this`showAddForm
      ensures showAddForm == !old(showAddForm)
    {
      showAddForm := !showAddForm;
    }
  }
}
