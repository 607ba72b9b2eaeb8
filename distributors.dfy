/**
 * DistributorPage: the same post-then-refetch cycle as the equipment page,
 * with a search over name, address and location and a manager flag that
 * gates the add button and the row actions.
 */
module Distributors {
  import opened Rows
  import opened Search

  /** The state of the distributor page. */
  class DistributorPage {
    var distributors: seq<Row>
    var loading: bool
    var editingId: Option<int>
    var formData: Fields
    var showAddForm: bool
    var searchTerm: string
    /** Simulated role; nothing on the page ever changes it. */
    var isManager: bool

    constructor ()
      ensures distributors == [] && loading && editingId == None
      ensures formData == map[] && !showAddForm && searchTerm == "" && isManager
    {
      isManager := true;
      distributors, loading, editingId := [], true, None;
      formData, showAddForm, searchTerm := map[], false, "";
    }

    /**
     * The rows the table shows: exactly those whose name, address and
     * location, joined by spaces, include the term
     * ignoring case, in list order; all of them for an empty term.
     */
    function Visible(): (v: seq<Row>)
      reads this
      ensures IsSubsequence(v, distributors)
      ensures forall x :: x in v <==> x in distributors && Matches(x, DistributorKeys, searchTerm)
      ensures forall x :: multiset(v)[x] == if Matches(x, DistributorKeys, searchTerm) then multiset(distributors)[x] else 0
      ensures searchTerm == "" ==> v == distributors
    {
      EmptyTermShowsAll(distributors, DistributorKeys);
      Filtered(distributors, DistributorKeys, searchTerm)
    }

    /**
     * The action cell of a row: "View Only" for a non-manager, Save/Cancel
     * on the row being edited, Edit/Delete elsewhere.
     */
    function Controls(rowId: int): (c: RowControls)
      reads this
      ensures c == ViewOnly <==> !isManager
      ensures c == SaveCancel <==> isManager && editingId == Some(rowId)
      ensures c == EditDelete <==> isManager && editingId != Some(rowId)
    {
      ActionCell(isManager, editingId, rowId)
    }

    /**
     * The add button is rendered for managers only, exactly the users for
     * whom no row reads "View Only"; the form itself is not gated by the role.
     */
    predicate AddButtonShown()
      reads this
      ensures AddButtonShown() ==> forall rowId :: Controls(rowId) != ViewOnly
      ensures !AddButtonShown() ==> forall rowId :: Controls(rowId) == ViewOnly
    {
      isManager
    }

    /** `fetchDistributors`: the list is replaced when the GET succeeds; loading ends either way. */
    method FetchData(fetched: Option<seq<Row>>)
      modifies this`distributors, this`loading
      ensures distributors == AfterFetch(old(distributors), fetched)
      ensures !loading
    {
      loading := true;
      distributors := AfterFetch(distributors, fetched);
      loading := false;
    }

    /** `handleAddDistributor`: on success the form closes, the draft empties and the list is refetched. */
    method AddDistributor(postOk: bool, fetched: Option<seq<Row>>)
      modifies this`distributors, this`loading, this`showAddForm, this`formData
      ensures postOk ==> distributors == AfterFetch(old(distributors), fetched) && !loading
      ensures postOk ==> !showAddForm && formData == map[]
      ensures !postOk ==> distributors == old(distributors) && loading == old(loading)
      ensures !postOk ==> showAddForm == old(showAddForm) && formData == old(formData)
    {
      if postOk {
        showAddForm := false;
        formData := map[];
        FetchData(fetched);
      }
    }

    /** `handleSave`: on success edit mode ends and the list is refetched; on failure nothing changes. */
    method Save(id: int, putOk: bool, fetched: Option<seq<Row>>)
      modifies this`distributors, this`loading, this`editingId
      ensures putOk ==> distributors == AfterFetch(old(distributors), fetched) && !loading && editingId == None
      ensures !putOk ==> distributors == old(distributors) && loading == old(loading) && editingId == old(editingId)
    {
      if putOk {
        editingId := None;
        FetchData(fetched);
      }
    }

    /** `handleInputChange`: only the named key of the draft changes. */
    method InputChange(name: string, value: Value)
      modifies this`formData
      ensures formData == WithField(old(formData), name, value)
    {
      formData := WithField(formData, name, value);
    }

    /** `handleEdit`: the row enters edit mode and the draft becomes a copy of it. */
    method Edit(row: Row)
      modifies this`editingId, this`formData
      ensures editingId == Some(row.id) && formData == row.fields
    {
      editingId := Some(row.id);
      formData := row.fields;
    }

    /** The Cancel button of a row: edit mode ends, the draft is kept. */
    method Cancel()
      modifies this`editingId
      ensures editingId == None
    {
      editingId := None;
    }

    /**
     * `handleDelete`: sends the request only when the user confirms; a
     * successful delete refetches the list, anything else leaves it alone.
     */
    method Delete(id: int, confirmed: bool, deleteOk: bool, fetched: Option<seq<Row>>) returns (sent: bool)
      modifies this`distributors, this`loading
      ensures sent == confirmed
      ensures sent && deleteOk ==> distributors == AfterFetch(old(distributors), fetched) && !loading
      ensures !(sent && deleteOk) ==> distributors == old(distributors) && loading == old(loading)
    {
      sent := confirmed;
      if confirmed && deleteOk {
        FetchData(fetched);
      }
    }

    /** The add button toggles the form. */
    method ToggleAddForm()
      requires AddButtonShown()
      modifies this`showAddForm
      ensures showAddForm == !old(showAddForm)
    {
      showAddForm := !showAddForm;
    }

    /** The search box: the term changes, the list does not. */
    method SetSearchTerm(term: string)
      modifies this`searchTerm
      ensures searchTerm == term
    {
      searchTerm := term;
    }
  }
}
