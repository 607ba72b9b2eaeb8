/** Rows, drafts and the list operations that every page applies to its state. */
module Rows {

  /** A scalar field value of a JSON row. */
  datatype Value = Str(s: string) | Num(n: int) | Null

  /** The fields of a record keyed by their JSON names; also the shape of a draft (`formData`). */
  type Fields = map<string, Value>

  /** One row of a resource list: its primary key and its other fields. */
  datatype Row = Row(id: int, fields: Fields)

  datatype Option<T> = None | Some(value: T)

  /** Reading `record[key]`: None stands for `undefined`. */
  function Lookup(f: Fields, key: string): Option<Value>
  {
    if key in f then Some(f[key]) else None
  }

  /** JavaScript truthiness: undefined, null, "" and 0 are falsy. */
  predicate Truthy(v: Option<Value>)
    ensures Truthy(v) <==> v != None && v != Some(Null) && v != Some(Str("")) && v != Some(Num(0))
  {
    match v
    case None => false
    case Some(Null) => false
    case Some(Str(s)) => s != ""
    case Some(Num(n)) => n != 0
  }

  /** The list a page holds after a refetch: the response on success, the old list on failure. */
  function AfterFetch<T>(current: seq<T>, fetched: Option<seq<T>>): (r: seq<T>)
    ensures fetched.Some? ==> r == fetched.value
    ensures fetched.None? ==> r == current
  {
    match fetched
    case Some(list) => list
    case None => current
  }

  /** What the action cell of a row offers. */
  datatype RowControls = ViewOnly | SaveCancel | EditDelete

  /**
   * The action cell of WasteLog and DistributorPage: "View Only" unless the
   * user is a manager, Save/Cancel on the row being edited, Edit/Delete on
   * the others.
   */
  function ActionCell(isManager: bool, editingId: Option<int>, rowId: int): (c: RowControls)
    ensures c == ViewOnly <==> !isManager
    ensures c == SaveCancel <==> isManager && editingId == Some(rowId)
    ensures c == EditDelete <==> isManager && editingId != Some(rowId)
  {
    if !isManager then ViewOnly
    else if editingId == Some(rowId) then SaveCancel
    else EditDelete
  }

  /** `result` is `{...base, ...top}`: every key of either, the value of `top` where both have one. */
  predicate Overlaid(result: Fields, base: Fields, top: Fields)
  {
    && result.Keys == base.Keys + top.Keys
    && (forall k :: k in top ==> result[k] == top[k])
    && (forall k :: k in base && k !in top ==> result[k] == base[k])
  }

  /** `{ ...formData, [name]: value }`: only the named key changes. */
  function WithField(draft: Fields, name: string, value: Value): (d: Fields)
    ensures d.Keys == draft.Keys + {name}
    ensures d[name] == value
    ensures forall k :: k in draft && k != name ==> d[k] == draft[k]
  {
    draft[name := value]
  }

  // ---------------------------------------------------------------------------
  // Array.prototype.filter

  /** `a` is a subsequence of `b`: `b` with some elements dropped, order kept. */
  predicate IsSubsequence<T(==)>(a: seq<T>, b: seq<T>)
  {
    if a == [] then true
    else if b == [] then false
    else (a[0] == b[0] && IsSubsequence(a[1..], b[1..])) || IsSubsequence(a, b[1..])
  }

  /** `s.filter(p)`: the elements that satisfy `p`, in their original order. */
  function Keep<T>(s: seq<T>, p: T -> bool): (r: seq<T>)
    ensures |r| <= |s|
    ensures forall i :: 0 <= i < |r| ==> p(r[i])
  {
    if s == [] then [] else (if p(s[0]) then [s[0]] else []) + Keep(s[1..], p)
  }

  lemma {:induction false} KeepSubsequence<T>(s: seq<T>, p: T -> bool)
    ensures IsSubsequence(Keep(s, p), s)
  {
    if s != [] {
      KeepSubsequence(s[1..], p);
      if p(s[0]) {
        assert Keep(s, p) == [s[0]] + Keep(s[1..], p);
      } else {
        assert Keep(s, p) == Keep(s[1..], p);
        SubsequenceOfTail(Keep(s[1..], p), s);
      }
    }
  }

  lemma SubsequenceOfTail<T>(a: seq<T>, b: seq<T>)
    requires b != [] && IsSubsequence(a, b[1..])
    ensures IsSubsequence(a, b)
  {
  }

  /** Sound and complete: exactly the elements of `s` that satisfy `p` survive. */
  lemma {:induction false} KeepMembers<T>(s: seq<T>, p: T -> bool)
    ensures forall x :: x in Keep(s, p) <==> x in s && p(x)
  {
    if s != [] {
      KeepMembers(s[1..], p);
      assert s == [s[0]] + s[1..];
    }
  }

  /** Every surviving element keeps its multiplicity; every other one is gone. */
  lemma {:induction false} KeepCount<T>(s: seq<T>, p: T -> bool)
    ensures forall x :: multiset(Keep(s, p))[x] == if p(x) then multiset(s)[x] else 0
  {
    if s != [] {
      KeepCount(s[1..], p);
      assert s == [s[0]] + s[1..];
      assert multiset(s) == multiset{s[0]} + multiset(s[1..]);
      assert multiset(Keep(s, p)) == multiset(if p(s[0]) then [s[0]] else []) + multiset(Keep(s[1..], p));
    }
  }

  /** Filtering distributes over concatenation. */
  lemma {:induction false} KeepAppend<T>(a: seq<T>, b: seq<T>, p: T -> bool)
    ensures Keep(a + b, p) == Keep(a, p) + Keep(b, p)
  {
    if a != [] {
      KeepAppend(a[1..], b, p);
      var head := if p(a[0]) then [a[0]] else [];
      assert (a + b)[0] == a[0] && (a + b)[1..] == a[1..] + b;
      assert Keep(a + b, p) == head + Keep(a[1..] + b, p);
      assert Keep(a, p) == head + Keep(a[1..], p);
    } else {
      assert a + b == b;
    }
  }

  /** A filter that every element passes returns the list unchanged. */
  lemma {:induction false} KeepAll<T>(s: seq<T>, p: T -> bool)
    requires forall i :: 0 <= i < |s| ==> p(s[i])
    ensures Keep(s, p) == s
  {
    if s != [] {
      KeepAll(s[1..], p);
    }
  }

  /** A filter that no element passes returns the empty list. */
  lemma {:induction false} KeepNone<T>(s: seq<T>, p: T -> bool)
    requires forall i :: 0 <= i < |s| ==> !p(s[i])
    ensures Keep(s, p) == []
  {
    if s != [] {
      KeepNone(s[1..], p);
    }
  }

  /** Filters with the same verdict on every element agree. */
  lemma {:induction false} KeepSameVerdict<T>(s: seq<T>, p: T -> bool, q: T -> bool)
    requires forall i :: 0 <= i < |s| ==> p(s[i]) == q(s[i])
    ensures Keep(s, p) == Keep(s, q)
  {
    if s != [] {
      KeepSameVerdict(s[1..], p, q);
    }
  }

  // ---------------------------------------------------------------------------
  // The three list updates the pages perform

  /** `rows.filter(r => r.id !== id)`: the delete used by Reservations, WasteLog and MenuItems. */
  function WithoutId(rows: seq<Row>, id: int): (r: seq<Row>)
    ensures IsSubsequence(r, rows)
    ensures forall x :: x in r <==> x in rows && x.id != id
    ensures forall x :: multiset(r)[x] == if x.id != id then multiset(rows)[x] else 0
  {
    var p := (row: Row) => row.id != id;
    KeepSubsequence(rows, p);
    KeepMembers(rows, p);
    KeepCount(rows, p);
    Keep(rows, p)
  }

  /** `rows.map(r => r.id === id ? {...r, ...draft} : r)`: the optimistic merge of Reservations. */
  function OverlayById(rows: seq<Row>, id: int, draft: Fields): (r: seq<Row>)
    ensures |r| == |rows|
    ensures forall i :: 0 <= i < |rows| ==> r[i].id == rows[i].id
    ensures forall i :: 0 <= i < |rows| && rows[i].id != id ==> r[i] == rows[i]
    ensures forall i :: 0 <= i < |rows| && rows[i].id == id ==> Overlaid(r[i].fields, rows[i].fields, draft)
  {
    if rows == [] then []
    else
      [if rows[0].id == id then Row(id, rows[0].fields + draft) else rows[0]]
      + OverlayById(rows[1..], id, draft)
  }

  /** `rows.map(r => r.id === id ? item : r)`: the update of MenuItems. */
  function ReplaceById(rows: seq<Row>, id: int, item: Row): (r: seq<Row>)
    ensures |r| == |rows|
    ensures forall i :: 0 <= i < |rows| && rows[i].id == id ==> r[i] == item
    ensures forall i :: 0 <= i < |rows| && rows[i].id != id ==> r[i] == rows[i]
  {
    if rows == [] then []
    else [if rows[0].id == id then item else rows[0]] + ReplaceById(rows[1..], id, item)
  }

  /** Deleting the same id twice removes nothing more. */
  lemma WithoutIdIdempotent(rows: seq<Row>, id: int)
    ensures WithoutId(WithoutId(rows, id), id) == WithoutId(rows, id)
  {
    var once := WithoutId(rows, id);
    assert forall i :: 0 <= i < |once| ==> once[i].id != id by {
      forall i | 0 <= i < |once| ensures once[i].id != id {
        assert once[i] in once;
      }
    }
    KeepAll(once, (row: Row) => row.id != id);
  }

  /** Saving the same draft twice gives the same list as saving it once. */
  lemma OverlayByIdIdempotent(rows: seq<Row>, id: int, draft: Fields)
    ensures OverlayById(OverlayById(rows, id, draft), id, draft) == OverlayById(rows, id, draft)
  {
    var once := OverlayById(rows, id, draft);
    var twice := OverlayById(once, id, draft);
    forall i | 0 <= i < |rows| ensures twice[i] == once[i] {
      if rows[i].id == id {
        assert twice[i].fields == once[i].fields;
      }
    }
  }

  /** Replacing by the same id with the same item twice is the same as once. */
  lemma ReplaceByIdIdempotent(rows: seq<Row>, id: int, item: Row)
    ensures ReplaceById(ReplaceById(rows, id, item), id, item) == ReplaceById(rows, id, item)
  {
  }

  /**
   * Begin edit on row `i`, change field `k` to `v`, save: the row now holds `v` at `k`
   * and otherwise its old fields.
   */
  lemma EditChangeSave(rows: seq<Row>, i: int, k: string, v: Value)
    requires 0 <= i < |rows|
    ensures OverlayById(rows, rows[i].id, WithField(rows[i].fields, k, v))[i]
         == Row(rows[i].id, rows[i].fields[k := v])
  {
    var r := OverlayById(rows, rows[i].id, WithField(rows[i].fields, k, v));
    assert r[i].fields == rows[i].fields[k := v];
  }
}
