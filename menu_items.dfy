/**
 * MenuItems: one form serves both create and update. The list is changed
 * locally from the server's replies, and a failed request changes nothing.
 */
module MenuItems {
  import opened Rows

  /** The four fields the form holds; the id is kept apart in `editId`. */
  const FormKeys: set<string> := {"bar_item_name", "category", "description", "price"}

  /** The form after a successful create or update: empty texts and a zero price. */
  const EmptyForm: Fields := map["bar_item_name" := Str(""), "category" := Str(""), "description" := Str(""), "price" := Num(0)]

  /** `editMenuItem` copies these fields of the item into the form; the others are dropped. */
  function FormOf(item: Row): (f: Fields)
    ensures f.Keys == item.fields.Keys * FormKeys
    ensures forall k :: k in f ==> f[k] == item.fields[k]
  {
    map k | k in item.fields.Keys * FormKeys :: item.fields[k]
  }

  /** `editId ? updateMenuItem : createMenuItem`: a null or zero id means create. */
  predicate IsEditing(editId: Option<int>)
    ensures IsEditing(editId) <==> editId.Some? && Truthy(Some(Num(editId.value)))
  {
    editId.Some? && editId.value != 0
  }

  /** The submit button's label follows the same test as the dispatch. */
  function SubmitLabel(editId: Option<int>): (caption: string)
    ensures caption == "Update" <==> IsEditing(editId)
    ensures caption == "Create" <==> !IsEditing(editId)
  {
    if IsEditing(editId) then "Update" else "Create"
  }

  /** Editing the item with id 0 leaves the form in create mode: its submit would post a new item. */
  lemma ZeroIdCreates(item: Row)
    requires item.id == 0
    ensures SubmitLabel(Some(item.id)) == "Create"
  {
  }

  /** The state of the menu items component. */
  class MenuItemsPage {
    var menuItems: seq<Row>
    var form: Fields
    var editId: Option<int>

    constructor ()
      ensures menuItems == [] && form == EmptyForm && editId == None
    {
      menuItems, form, editId := [], EmptyForm, None;
    }

    /** `fetchMenuItems`: the list is replaced when the GET succeeds and kept otherwise. */
    method FetchMenuItems(fetched: Option<seq<Row>>)
      modifies this`menuItems
      ensures menuItems == AfterFetch(old(menuItems), fetched)
    {
      menuItems := AfterFetch(menuItems, fetched);
    }

    /** `handleChange`: only the named field of the form changes. */
    method Change(name: string, value: Value)
      modifies this`form
      ensures form == WithField(old(form), name, value)
    {
      form := WithField(form, name, value);
    }

    /**
     * `createMenuItem`: posts the form; the created item the server returns
     * is appended and the form is cleared. Edit mode is not touched.
     */
    method CreateMenuItem(reply: Option<Row>)
      modifies this`menuItems, this`form
      ensures reply.Some? ==> menuItems == old(menuItems) + [reply.value] && form == EmptyForm
      ensures reply.None? ==> menuItems == old(menuItems) && form == old(form)
    {
      if reply.Some? {
        menuItems := menuItems + [reply.value];
        form := EmptyForm;
      }
    }

    /**
     * `updateMenuItem`: returns whether a PUT was sent, which needs an
     * `editId`. The updated item replaces every item with that id, edit mode
     * ends and the form is cleared; a failed PUT changes nothing.
     */
    method UpdateMenuItem(reply: Option<Row>) returns (sent: bool)
      modifies this`menuItems, this`form, this`editId
      ensures sent == old(editId).Some?
      ensures sent && reply.Some? ==> menuItems == ReplaceById(old(menuItems), old(editId).value, reply.value)
      ensures sent && reply.Some? ==> editId == None && form == EmptyForm
      ensures !(sent && reply.Some?) ==> menuItems == old(menuItems) && form == old(form) && editId == old(editId)
    {
      if editId.None? {
        return false;
      }
      sent := true;
      if reply.Some? {
        menuItems := ReplaceById(menuItems, editId.value, reply.value);
        editId := None;
        form := EmptyForm;
      }
    }

    /** `deleteMenuItem`: on success every item with the id leaves the list; on failure nothing changes. */
    method DeleteMenuItem(id: int, ok: bool)
      modifies this`menuItems
      ensures ok ==> menuItems == WithoutId(old(menuItems), id)
      ensures !ok ==> menuItems == old(menuItems)
    {
      if ok {
        menuItems := WithoutId(menuItems, id);
      }
    }

    /** `editMenuItem`: the item enters edit mode and the form takes its four fields. */
    method EditMenuItem(item: Row)
      modifies this`editId, this`form
      ensures editId == Some(item.id) && form == FormOf(item)
    {
      editId := Some(item.id);
      form := FormOf(item);
    }

    /**
     * The form's submit: updates when `editId` is truthy and creates
     * otherwise; returns which of the two it did.
     */
    method Submit(reply: Option<Row>) returns (updated: bool)
      modifies this`menuItems, this`form, this`editId
      ensures updated == IsEditing(old(editId))
      ensures updated && reply.Some? ==> menuItems == ReplaceById(old(menuItems), old(editId).value, reply.value)
      ensures updated && reply.Some? ==> editId == None && form == EmptyForm
      ensures !updated && reply.Some? ==> menuItems == old(menuItems) + [reply.value] && form == EmptyForm
      ensures !updated ==> editId == old(editId)
      ensures reply.None? ==> menuItems == old(menuItems) && form == old(form) && editId == old(editId)
    {
      updated := IsEditing(editId);
      if updated {
        var sent := UpdateMenuItem(reply);
      } else {
        CreateMenuItem(reply);
      }
    }
  }
}
