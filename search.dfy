/**
 * The case-insensitive search filters of EquipmentPage, DistributorPage and
 * ProductInventoryPage: a row is shown when the lower-cased text of some of
 * its fields includes the lower-cased search term.
 */
module Search {
  import opened Rows
  import opened Text

  /** `${r.equipment_name} ${r.manufacturer} ${r.distributor}` */
  const EquipmentKeys: seq<string> := ["equipment_name", "manufacturer", "distributor"]
  /** `${r.name} ${r.address} ${r.location}` */
  const DistributorKeys: seq<string> := ["name", "address", "location"]
  /** `product.name` */
  const ProductKeys: seq<string> := ["name"]

  /** The rendered values of `keys`, separated by single spaces: each rendered field is a part of it. */
  function SearchText(f: Fields, keys: seq<string>): (r: string)
    ensures forall i :: 0 <= i < |keys| ==> Contains(r, Render(Lookup(f, keys[i])))
  {
    if keys == [] then ""
    else
      var x := Render(Lookup(f, keys[0]));
      if |keys| == 1 then
        ContainsPrefix(x, "");
        assert x + "" == x;
        x
      else
        var rest := SearchText(f, keys[1..]);
        ContainsPrefix(x, " " + rest);
        ContainsAfterPrefix(x + " ", rest);
        assert x + " " + rest == x + (" " + rest);
        assert forall i :: 1 <= i < |keys| ==> keys[i] == keys[1..][i - 1];
        x + " " + rest
  }

  /** A row matches when its lower-cased search text includes the lower-cased term; every row matches "". */
  predicate Matches(r: Row, keys: seq<string>, term: string)
    ensures term == "" ==> Matches(r, keys, term)
  {
    Contains(Lower(SearchText(r.fields, keys)), Lower(term))
  }

  /** `rows.filter(r => text(r).toLowerCase().includes(term.toLowerCase()))` */
  function Filtered(rows: seq<Row>, keys: seq<string>, term: string): (v: seq<Row>)
    ensures IsSubsequence(v, rows)
    ensures forall x :: x in v <==> x in rows && Matches(x, keys, term)
    ensures forall x :: multiset(v)[x] == if Matches(x, keys, term) then multiset(rows)[x] else 0
  {
    var p := (r: Row) => Matches(r, keys, term);
    KeepSubsequence(rows, p);
    KeepMembers(rows, p);
    KeepCount(rows, p);
    Keep(rows, p)
  }

  /** An empty search term shows every row, in order. */
  lemma EmptyTermShowsAll(rows: seq<Row>, keys: seq<string>)
    ensures Filtered(rows, keys, "") == rows
  {
    forall i | 0 <= i < |rows| ensures Matches(rows[i], keys, "") {
      ContainsEmpty(Lower(SearchText(rows[i].fields, keys)));
    }
    KeepAll(rows, (r: Row) => Matches(r, keys, ""));
  }

  /** The search ignores the case of the term. */
  lemma TermCaseIgnored(rows: seq<Row>, keys: seq<string>, term: string)
    ensures Filtered(rows, keys, Lower(term)) == Filtered(rows, keys, term)
  {
    LowerIdempotent(term);
    KeepSameVerdict(rows, (r: Row) => Matches(r, keys, Lower(term)), (r: Row) => Matches(r, keys, term));
  }

  /** Lengthening the term can only hide rows: each row shown for `term + more` is shown for `term`. */
  lemma LongerTermNarrows(rows: seq<Row>, keys: seq<string>, term: string, more: string)
    ensures forall x :: x in Filtered(rows, keys, term + more) ==> x in Filtered(rows, keys, term)
  {
    LowerAppend(term, more);
    forall x | x in Filtered(rows, keys, term + more)
      ensures Matches(x, keys, term)
    {
      ContainsPrefixOfPart(Lower(SearchText(x.fields, keys)), Lower(term), Lower(more));
    }
  }

  /** A row whose one searched field includes the term, ignoring case, is shown. */
  lemma FieldMatchShowsRow(r: Row, keys: seq<string>, i: int, term: string)
    requires 0 <= i < |keys|
    requires Contains(Lower(Render(Lookup(r.fields, keys[i]))), Lower(term))
    ensures Matches(r, keys, term)
  {
    var text := SearchText(r.fields, keys);
    var field := Render(Lookup(r.fields, keys[i]));
    LowerKeepsContains(text, field);
    ContainsTransitive(Lower(text), Lower(field), Lower(term));
  }

  /** A row matches exactly when the lower-cased term occurs at some offset of its lower-cased text. */
  lemma MatchesAt(r: Row, keys: seq<string>, term: string)
    ensures Matches(r, keys, term) ==> exists i :: OccursAt(Lower(SearchText(r.fields, keys)), Lower(term), i)
    ensures (exists i :: OccursAt(Lower(SearchText(r.fields, keys)), Lower(term), i)) ==> Matches(r, keys, term)
  {
    ContainsAt(Lower(SearchText(r.fields, keys)), Lower(term));
  }
}
