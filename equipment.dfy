/**
 * EquipmentPage: every change is posted first and the list is refetched
 * after a success; the table shows the rows that match the search term.
 */
module Equipment {
  import opened Rows
  import opened Search

  /** The state of the equipment page. */
  class EquipmentPage {
    var equipmentList: seq<Row>
    var loading: bool
    var editingId: Option<int>
    var formData: Fields
    var showAddForm: bool
    var searchTerm: string

    constructor ()
      ensures equipmentList == [] && loading && editingId == None
      ensures formData == map[] && !showAddForm && searchTerm == ""
    {
      equipmentList, loading, editingId := [], true, None;
      formData, showAddForm, searchTerm := map[], false, "";
    }

    /**
     * The rows the table shows: exactly those whose equipment name,
     * manufacturer and distributor, joined by spaces, include the term
     * ignoring case, in list order; all of them for an empty term.
     */
    function Visible(): (v: seq<Row>)
      reads this
      ensures IsSubsequence(v, equipmentList)
      ensures forall x :: x in v <==> x in equipmentList && Matches(x, EquipmentKeys, searchTerm)
      ensures forall x :: multiset(v)[x] == if Matches(x, EquipmentKeys, searchTerm) then multiset(equipmentList)[x] else 0
      ensures searchTerm == "" ==> v == equipmentList
    {
      EmptyTermShowsAll(equipmentList, EquipmentKeys);
      Filtered(equipmentList, EquipmentKeys, searchTerm)
    }

    /** The action cell of a row: Save/Cancel on the row being edited, Edit/Delete elsewhere. */
    function Controls(rowId: int): (c: RowControls)
      reads this
      ensures c == SaveCancel <==> editingId == Some(rowId)
      ensures c == EditDelete <==> editingId != Some(rowId)
    {
      ActionCell(true, editingId, rowId)
    }

    /** `fetchData`: both lists are fetched together; the equipment list is replaced on success. */
    method FetchData(fetched: Option<seq<Row>>)
      modifies this`equipmentList, this`loading
      ensures equipmentList == AfterFetch(old(equipmentList), fetched)
      ensures !loading
    {
      loading := true;
      equipmentList := AfterFetch(equipmentList, fetched);
      loading := false;
    }

    /** `handleAddEquipment`: on success the form closes, the draft empties and the list is refetched. */
    method AddEquipment(postOk: bool, fetched: Option<seq<Row>>)
      modifies this`equipmentList, this`loading, this`showAddForm, this`formData
      ensures postOk ==> equipmentList == AfterFetch(old(equipmentList), fetched) && !loading
      ensures postOk ==> !showAddForm && formData == map[]
      ensures !postOk ==> equipmentList == old(equipmentList) && loading == old(loading)
      ensures !postOk ==> showAddForm == old(showAddForm) && formData == old(formData)
    {
      if postOk {
        showAddForm := false;
        formData := map[];
        FetchData(fetched);
      }
    }

    /** `handleSave`: on success edit mode ends and the list is refetched; on failure nothing changes. */
    method Save(id: int, putOk: bool, fetched: Option<seq<Row>>)
      modifies this`equipmentList, this`loading, this`editingId
      ensures putOk ==> equipmentList == AfterFetch(old(equipmentList), fetched) && !loading && editingId == None
      ensures !putOk ==> equipmentList == old(equipmentList) && loading == old(loading) && editingId == old(editingId)
    {
      if putOk {
        editingId := None;
        FetchData(fetched);
      }
    }

    /** `handleInputChange`: only the named key of the draft changes. */
    method InputChange(name: string, value: Value)
      modifies this`formData
      ensures formData == WithField(old(formData), name, value)
    {
      formData := WithField(formData, name, value);
    }

    /** `handleEdit`: the row enters edit mode and the draft becomes a copy of it. */
    method Edit(row: Row)
      modifies this`editingId, this`formData
      ensures editingId == Some(row.id) && formData == row.fields
    {
      editingId := Some(row.id);
      formData := row.fields;
    }

    /** The Cancel button of a row: edit mode ends, the draft is kept. */
    method Cancel()
      modifies this`editingId
      ensures editingId == None
    {
      editingId := None;
    }

    /**
     * `handleDelete`: sends the request only when the user confirms; a
     * successful delete refetches the list, anything else leaves it alone.
     */
    method Delete(id: int, confirmed: bool, deleteOk: bool, fetched: Option<seq<Row>>) returns (sent: bool)
      modifies this`equipmentList, this`loading
      ensures sent == confirmed
      ensures sent && deleteOk ==> equipmentList == AfterFetch(old(equipmentList), fetched) && !loading
      ensures !(sent && deleteOk) ==> equipmentList == old(equipmentList) && loading == old(loading)
    {
      sent := confirmed;
      if confirmed && deleteOk {
        FetchData(fetched);
      }
    }

    /** The add button toggles the form. */
    method ToggleAddForm()
      modifies this`showAddForm
      ensures showAddForm == !old(showAddForm)
    {
      showAddForm := !showAddForm;
    }

    /** The search box: the term changes, the list does not. */
    method SetSearchTerm(term: string)
      modifies this`searchTerm
      ensures searchTerm == term
    {
      searchTerm := term;
    }
  }
}
