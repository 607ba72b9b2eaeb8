/**
 * SalesTransactionPage: the client-side sort of the transaction list
 * (`[...list].sort(comparator)` re-run by an effect) and the
 * confirm-guarded submit of a new transaction.
 */
module Sales {
  import opened Rows
  import opened Text

  /** A sales transaction; `date` is the instant `new Date(transaction_date).getTime()`. */
  datatype Transaction = Transaction(id: int, menuItemId: int, menuItemName: string, quantity: int, date: int)

  /** A sort key: a number (quantity or date) or a lower-cased name. */
  datatype Key = ByNumber(n: int) | ByText(s: string)

  // ---------------------------------------------------------------------------
  // Ordering of keys

  /** JavaScript `<` on strings: lexicographic, a proper prefix comes first. */
  predicate TextLess(a: string, b: string)
    ensures TextLess(a, b) ==> a != b
    ensures |a| < |b| && a == b[..|a|] ==> TextLess(a, b)
  {
    if a == [] then b != []
    else if b == [] then false
    else a[0] < b[0] || (a[0] == b[0] && TextLess(a[1..], b[1..]))
  }

  /**
   * `<` on keys. One sort field yields keys of one kind only, so the order
   * between a number and a text (numbers first) never decides anything; it
   * is there to make the order total.
   */
  predicate KeyLess(a: Key, b: Key)
    ensures KeyLess(a, b) ==> a != b
  {
    match (a, b)
    case (ByNumber(x), ByNumber(y)) => x < y
    case (ByText(x), ByText(y)) => TextLess(x, y)
    case (ByNumber(_), ByText(_)) => true
    case (ByText(_), ByNumber(_)) => false
  }

  lemma {:induction false} TextLessIrreflexive(a: string)
    ensures !TextLess(a, a)
  {
    if a != [] {
      TextLessIrreflexive(a[1..]);
    }
  }

  lemma {:induction false} TextLessAsymmetric(a: string, b: string)
    requires TextLess(a, b)
    ensures !TextLess(b, a)
  {
    if a != [] && b != [] && a[0] == b[0] {
      TextLessAsymmetric(a[1..], b[1..]);
    }
  }

  lemma {:induction false} TextLessTotal(a: string, b: string)
    requires a != b
    ensures TextLess(a, b) || TextLess(b, a)
  {
    if a != [] && b != [] && a[0] == b[0] {
      assert a == [a[0]] + a[1..] && b == [b[0]] + b[1..];
      TextLessTotal(a[1..], b[1..]);
    }
  }

  lemma {:induction false} TextLessTransitive(a: string, b: string, c: string)
    requires TextLess(a, b) && TextLess(b, c)
    ensures TextLess(a, c)
  {
    if a != [] && a[0] == b[0] && b[0] == c[0] {
      TextLessTransitive(a[1..], b[1..], c[1..]);
    }
  }

  /** KeyLess is a strict total order. */
  lemma KeyLessStrictTotal(a: Key, b: Key, c: Key)
    ensures !KeyLess(a, a)
    ensures KeyLess(a, b) ==> !KeyLess(b, a)
    ensures a != b ==> KeyLess(a, b) || KeyLess(b, a)
    ensures KeyLess(a, b) && KeyLess(b, c) ==> KeyLess(a, c)
  {
    if a.ByText? {
      TextLessIrreflexive(a.s);
      if b.ByText? {
        if TextLess(a.s, b.s) { TextLessAsymmetric(a.s, b.s); }
        if a.s != b.s { TextLessTotal(a.s, b.s); }
        if c.ByText? && TextLess(a.s, b.s) && TextLess(b.s, c.s) { TextLessTransitive(a.s, b.s, c.s); }
      }
    }
  }

  // ---------------------------------------------------------------------------
  // The comparator

  /** The `switch (sortField)`: the name, the quantity, or (for any other field) the date. */
  function SortKey(field: string, t: Transaction): (k: Key)
    ensures field == "menu_item_name" ==> k == ByText(Lower(t.menuItemName))
    ensures field == "quantity_purchased" ==> k == ByNumber(t.quantity)
    ensures field != "menu_item_name" && field != "quantity_purchased" ==> k == ByNumber(t.date)
  {
    match field
    case "menu_item_name" => ByText(Lower(t.menuItemName))
    case "quantity_purchased" => ByNumber(t.quantity)
    case "transaction_date" => ByNumber(t.date)
    case _ => ByNumber(t.date)
  }

  /** The comparator on keys: -1, 1 or 0, with the signs swapped unless the order is "asc". */
  function CompareKeys(order: string, ka: Key, kb: Key): (c: int)
    ensures c == -1 || c == 0 || c == 1
  {
    if KeyLess(ka, kb) then (if order == "asc" then -1 else 1)
    else if KeyLess(kb, ka) then (if order == "asc" then 1 else -1)
    else 0
  }

  /** The comparator passed to `sort`: 0 exactly when the two transactions share a key. */
  function Compare(field: string, order: string, a: Transaction, b: Transaction): (c: int)
    ensures c == 0 <==> SortKey(field, a) == SortKey(field, b)
  {
    CompareKeysProperties(order, SortKey(field, a), SortKey(field, b));
    CompareKeys(order, SortKey(field, a), SortKey(field, b))
  }

  /** The comparator returns 0 exactly for equal keys, and is antisymmetric. */
  lemma CompareKeysProperties(order: string, ka: Key, kb: Key)
    ensures CompareKeys(order, ka, kb) == 0 <==> ka == kb
    ensures CompareKeys(order, kb, ka) == -CompareKeys(order, ka, kb)
  {
    KeyLessStrictTotal(ka, kb, ka);
  }

  /** "Comes no later than" is transitive. */
  lemma CompareKeysTransitive(order: string, ka: Key, kb: Key, kc: Key)
    requires CompareKeys(order, ka, kb) <= 0 && CompareKeys(order, kb, kc) <= 0
    ensures CompareKeys(order, ka, kc) <= 0
  {
    KeyLessStrictTotal(ka, kb, kc);
    KeyLessStrictTotal(kc, kb, ka);
    KeyLessStrictTotal(ka, kc, kb);
    KeyLessStrictTotal(kb, ka, kc);
    KeyLessStrictTotal(kc, ka, kb);
    KeyLessStrictTotal(kb, kc, ka);
  }

  /** The comparator for "asc" puts smaller keys first; for any other order, larger keys first. */
  lemma CompareDirection(order: string, ka: Key, kb: Key)
    ensures CompareKeys(order, ka, kb) <= 0 <==>
      if order == "asc" then KeyLess(ka, kb) || ka == kb else KeyLess(kb, ka) || ka == kb
  {
    KeyLessStrictTotal(ka, kb, ka);
  }

  // ---------------------------------------------------------------------------
  // The stable sort

  /** No adjacent pair is out of order for the comparator. */
  predicate Sorted(field: string, order: string, s: seq<Transaction>)
  {
    forall i :: 0 <= i < |s| - 1 ==> Compare(field, order, s[i], s[i + 1]) <= 0
  }

  /** The transactions whose key is `k`, in their order in `s`. */
  function SameKey(field: string, s: seq<Transaction>, k: Key): seq<Transaction>
  {
    Keep(s, (t: Transaction) => SortKey(field, t) == k)
  }

  /** Place `x` before the first element it does not come after. */
  function Insert(field: string, order: string, x: Transaction, t: seq<Transaction>): (r: seq<Transaction>)
    ensures |r| == |t| + 1
    ensures x in r
  {
    if t == [] then [x]
    else if Compare(field, order, x, t[0]) <= 0 then [x] + t
    else [t[0]] + Insert(field, order, x, t[1..])
  }

  /** Inserting adds `x` once and keeps every other transaction. */
  lemma {:induction false} InsertCount(field: string, order: string, x: Transaction, t: seq<Transaction>)
    ensures multiset(Insert(field, order, x, t)) == multiset(t) + multiset{x}
  {
    if t != [] && Compare(field, order, x, t[0]) > 0 {
      InsertCount(field, order, x, t[1..]);
      assert t == [t[0]] + t[1..];
    }
  }

  /** Inserting into a sorted list keeps it sorted. */
  lemma {:induction false} InsertSorted(field: string, order: string, x: Transaction, t: seq<Transaction>)
    requires Sorted(field, order, t)
    ensures Sorted(field, order, Insert(field, order, x, t))
    ensures |Insert(field, order, x, t)| == |t| + 1
    ensures Insert(field, order, x, t)[0] == x || Insert(field, order, x, t)[0] == t[0]
  {
    if t != [] && Compare(field, order, x, t[0]) > 0 {
      var rest := Insert(field, order, x, t[1..]);
      InsertSorted(field, order, x, t[1..]);
      CompareKeysProperties(order, SortKey(field, x), SortKey(field, t[0]));
      assert Compare(field, order, t[0], rest[0]) <= 0;
    }
  }

  /** Inserting `x` puts it before every element of its own key. */
  lemma {:induction false} InsertSameKey(field: string, order: string, x: Transaction, t: seq<Transaction>, k: Key)
    ensures SameKey(field, Insert(field, order, x, t), k)
         == (if SortKey(field, x) == k then [x] else []) + SameKey(field, t, k)
  {
    if t != [] && Compare(field, order, x, t[0]) > 0 {
      InsertSameKey(field, order, x, t[1..], k);
      CompareKeysProperties(order, SortKey(field, x), SortKey(field, t[0]));
      assert [t[0]] + Insert(field, order, x, t[1..]) == Insert(field, order, x, t);
    }
  }

  /**
   * `[...list].sort(comparator)`: a sorted permutation of the list. The copy
   * means the state's own list is left as it was.
   */
  function SortTransactions(list: seq<Transaction>, field: string, order: string): (r: seq<Transaction>)
    ensures |r| == |list|
    ensures multiset(r) == multiset(list)
    ensures Sorted(field, order, r)
  {
    if list == [] then []
    else
      var rest := SortTransactions(list[1..], field, order);
      InsertCount(field, order, list[0], rest);
      InsertSorted(field, order, list[0], rest);
      assert list == [list[0]] + list[1..];
      Insert(field, order, list[0], rest)
  }

  /** Stability: the transactions of each key appear in their input order. */
  lemma {:induction false} SortStable(list: seq<Transaction>, field: string, order: string, k: Key)
    ensures SameKey(field, SortTransactions(list, field, order), k) == SameKey(field, list, k)
  {
    if list != [] {
      SortStable(list[1..], field, order, k);
      InsertSameKey(field, order, list[0], SortTransactions(list[1..], field, order), k);
    }
  }

  /** With "asc" the keys never decrease along the result; with any other order they never increase. */
  lemma SortedKeysMonotone(list: seq<Transaction>, field: string, order: string, i: int)
    requires 0 <= i < |list| - 1
    ensures var r := SortTransactions(list, field, order);
      var ka, kb := SortKey(field, r[i]), SortKey(field, r[i + 1]);
      if order == "asc" then KeyLess(ka, kb) || ka == kb else KeyLess(kb, ka) || ka == kb
  {
    var r := SortTransactions(list, field, order);
    CompareDirection(order, SortKey(field, r[i]), SortKey(field, r[i + 1]));
  }

  lemma {:induction false} SortedFar(field: string, order: string, s: seq<Transaction>, i: int, j: int)
    requires Sorted(field, order, s) && 0 <= i <= j < |s|
    ensures Compare(field, order, s[i], s[j]) <= 0
    decreases j - i
  {
    if i == j {
      CompareKeysProperties(order, SortKey(field, s[i]), SortKey(field, s[i]));
    } else {
      SortedFar(field, order, s, i + 1, j);
      CompareKeysTransitive(order, SortKey(field, s[i]), SortKey(field, s[i + 1]), SortKey(field, s[j]));
    }
  }

  lemma SameKeyHead(field: string, s: seq<Transaction>, k: Key)
    requires s != []
    ensures SameKey(field, s, k) == (if SortKey(field, s[0]) == k then [s[0]] else []) + SameKey(field, s[1..], k)
  {
  }

  /** Two sorted lists with the same per-key subsequences start with the same key. */
  lemma SortedHeadsShareKey(field: string, order: string, r: seq<Transaction>, q: seq<Transaction>)
    requires Sorted(field, order, r) && Sorted(field, order, q) && r != [] && q != []
    requires forall k :: SameKey(field, r, k) == SameKey(field, q, k)
    ensures SortKey(field, r[0]) == SortKey(field, q[0])
  {
    var ka, kb := SortKey(field, r[0]), SortKey(field, q[0]);
    if ka != kb {
      // r[0] has key ka and lies later in q, while q[0] has key kb and lies later in r.
      var p := (t: Transaction) => SortKey(field, t) == ka;
      var p' := (t: Transaction) => SortKey(field, t) == kb;
      KeepMembers(q, p);
      KeepMembers(r, p');
      SameKeyHead(field, r, ka);
      SameKeyHead(field, q, kb);
      assert r[0] in SameKey(field, q, ka);
      assert q[0] in SameKey(field, r, kb);
      var j :| 0 <= j < |q| && q[j] == r[0];
      var i :| 0 <= i < |r| && r[i] == q[0];
      SortedFar(field, order, q, 0, j);
      SortedFar(field, order, r, 0, i);
      CompareKeysProperties(order, ka, kb);
      assert false;
    }
  }

  /** Lists with equal first elements and equal per-key subsequences have equal per-key tails. */
  lemma SameKeyTails(field: string, r: seq<Transaction>, q: seq<Transaction>)
    requires r != [] && q != [] && r[0] == q[0]
    requires forall k :: SameKey(field, r, k) == SameKey(field, q, k)
    ensures forall k :: SameKey(field, r[1..], k) == SameKey(field, q[1..], k)
  {
    forall k ensures SameKey(field, r[1..], k) == SameKey(field, q[1..], k) {
      SameKeyHead(field, r, k);
      SameKeyHead(field, q, k);
      var head := if SortKey(field, r[0]) == k then [r[0]] else [];
      assert SameKey(field, r[1..], k) == SameKey(field, r, k)[|head|..];
      assert SameKey(field, q[1..], k) == SameKey(field, q, k)[|head|..];
    }
  }

  /**
   * A sorted list is determined by the order of each key's transactions: two
   * sorted lists that agree on every key's subsequence are equal.
   */
  lemma {:induction false} SortedUnique(field: string, order: string, r: seq<Transaction>, q: seq<Transaction>)
    requires Sorted(field, order, r) && Sorted(field, order, q)
    requires forall k :: SameKey(field, r, k) == SameKey(field, q, k)
    ensures r == q
    decreases |r|
  {
    if r == [] || q == [] {
      if r != [] {
        SameKeyHead(field, r, SortKey(field, r[0]));
        assert false;
      } else if q != [] {
        SameKeyHead(field, q, SortKey(field, q[0]));
        assert false;
      }
    } else {
      var ka := SortKey(field, r[0]);
      SortedHeadsShareKey(field, order, r, q);
      SameKeyHead(field, r, ka);
      SameKeyHead(field, q, ka);
      assert SameKey(field, r, ka)[0] == r[0] && SameKey(field, q, ka)[0] == q[0];
      SameKeyTails(field, r, q);
      SortedUnique(field, order, r[1..], q[1..]);
      assert r == [r[0]] + r[1..] && q == [q[0]] + q[1..];
    }
  }

  /**
   * Every stable sort with this comparator gives the model's result: a sorted
   * list that keeps each key's transactions in input order is SortTransactions.
   */
  lemma StableSortIsUnique(list: seq<Transaction>, field: string, order: string, r: seq<Transaction>)
    requires Sorted(field, order, r)
    requires forall k :: SameKey(field, r, k) == SameKey(field, list, k)
    ensures r == SortTransactions(list, field, order)
  {
    forall k ensures SameKey(field, r, k) == SameKey(field, SortTransactions(list, field, order), k) {
      SortStable(list, field, order, k);
    }
    SortedUnique(field, order, r, SortTransactions(list, field, order));
  }

  // ---------------------------------------------------------------------------
  // Ascending versus descending

  function Reverse(s: seq<Transaction>): (r: seq<Transaction>)
    ensures |r| == |s|
  {
    seq(|s|, i requires 0 <= i < |s| => s[|s| - 1 - i])
  }

  lemma {:induction false} SameKeyReverse(field: string, s: seq<Transaction>, k: Key)
    ensures SameKey(field, Reverse(s), k) == Reverse(SameKey(field, s, k))
  {
    if s != [] {
      var p := (t: Transaction) => SortKey(field, t) == k;
      SameKeyReverse(field, s[1..], k);
      ReverseCons(s);
      KeepAppend(Reverse(s[1..]), [s[0]], p);
      var head := if p(s[0]) then [s[0]] else [];
      assert Keep(s, p) == head + Keep(s[1..], p);
      ReversePrependShort(head, Keep(s[1..], p));
    }
  }

  lemma ReverseCons(s: seq<Transaction>)
    requires s != []
    ensures Reverse(s) == Reverse(s[1..]) + [s[0]]
  {
  }

  lemma ReversePrependShort(h: seq<Transaction>, s: seq<Transaction>)
    requires |h| <= 1
    ensures Reverse(h + s) == Reverse(s) + h
  {
  }

  /** All keys of `s` differ. */
  predicate DistinctKeys(field: string, s: seq<Transaction>)
  {
    forall i, j :: 0 <= i < j < |s| ==> SortKey(field, s[i]) != SortKey(field, s[j])
  }

  lemma {:induction false} DistinctKeysSingle(field: string, s: seq<Transaction>, k: Key)
    requires DistinctKeys(field, s)
    ensures |SameKey(field, s, k)| <= 1
  {
    if s != [] {
      DistinctKeysSingle(field, s[1..], k);
      if SortKey(field, s[0]) == k {
        forall i | 0 <= i < |s[1..]| ensures SortKey(field, s[1..][i]) != k {
          assert s[1..][i] == s[i + 1];
        }
        KeepNone(s[1..], (t: Transaction) => SortKey(field, t) == k);
      }
    }
  }

  /** Reversing a list sorted ascending gives a list sorted descending. */
  lemma ReverseOfAscIsDesc(field: string, up: seq<Transaction>)
    requires Sorted(field, "asc", up)
    ensures Sorted(field, "desc", Reverse(up))
  {
    var down := Reverse(up);
    forall i | 0 <= i < |down| - 1 ensures Compare(field, "desc", down[i], down[i + 1]) <= 0 {
      var ka, kb := SortKey(field, down[i]), SortKey(field, down[i + 1]);
      assert down[i] == up[|up| - 1 - i] && down[i + 1] == up[|up| - 2 - i];
      assert CompareKeys("asc", kb, ka) <= 0;
      KeyLessStrictTotal(ka, kb, ka);
    }
  }

  lemma SameKeyOfReversedAsc(list: seq<Transaction>, field: string, k: Key)
    requires DistinctKeys(field, list)
    ensures SameKey(field, Reverse(SortTransactions(list, field, "asc")), k) == SameKey(field, list, k)
  {
    var up := SortTransactions(list, field, "asc");
    SortStable(list, field, "asc", k);
    SameKeyReverse(field, up, k);
    DistinctKeysSingle(field, list, k);
    ReverseShort(SameKey(field, up, k));
  }

  lemma ReverseShort(s: seq<Transaction>)
    requires |s| <= 1
    ensures Reverse(s) == s
  {
  }

  /**
   * For a list whose keys are all different, sorting descending gives exactly
   * the reverse of sorting ascending.
   */
  lemma AscDescReversed(list: seq<Transaction>, field: string)
    requires DistinctKeys(field, list)
    ensures Reverse(SortTransactions(list, field, "asc")) == SortTransactions(list, field, "desc")
  {
    var down := Reverse(SortTransactions(list, field, "asc"));
    ReverseOfAscIsDesc(field, SortTransactions(list, field, "asc"));
    forall k ensures SameKey(field, down, k) == SameKey(field, list, k) {
      SameKeyOfReversedAsc(list, field, k);
    }
    StableSortIsUnique(list, field, "desc", down);
  }

  // ---------------------------------------------------------------------------
  // The page

  /** The state of SalesTransactionPage. */
  class SalesTransactionPage {
    var transactions: seq<Transaction>
    var sortedTransactions: seq<Transaction>
    var sortField: string
    var sortOrder: string
    var menuItemId: string
    var quantity: string
    var transactionDate: string
    var isLoading: bool

    /** The sort effect has run for the current list, sort field and sort order. */
    predicate Valid()
      reads this
    {
      sortedTransactions == SortTransactions(transactions, sortField, sortOrder)
    }

    constructor ()
      ensures Valid()
      ensures transactions == [] && sortedTransactions == []
      ensures sortField == "transaction_date" && sortOrder == "asc"
      ensures menuItemId == "" && quantity == "" && transactionDate == ""
      ensures !isLoading
    {
      transactions, sortedTransactions := [], [];
      sortField, sortOrder := "transaction_date", "asc";
      menuItemId, quantity, transactionDate := "", "", "";
      isLoading := false;
    }

    /** The sort effect, run whenever the list, the sort field or the sort order changes. */
    method SortEffect()
      modifies this`sortedTransactions
      ensures Valid()
    {
      sortedTransactions := SortTransactions(transactions, sortField, sortOrder);
    }

    /** `fetchData`: the list is replaced on success and kept on failure; loading ends either way. */
    method FetchData(fetched: Option<seq<Transaction>>)
      modifies this`transactions, this`sortedTransactions, this`isLoading
      ensures transactions == AfterFetch(old(transactions), fetched)
      ensures !isLoading
      ensures Valid()
    {
      isLoading := true;
      if fetched.Some? {
        transactions := fetched.value;
      }
      isLoading := false;
      SortEffect();
    }

    /** `handleSortFieldChange` followed by the sort effect. */
    method SetSortField(field: string)
      modifies this`sortField, this`sortedTransactions
      ensures sortField == field
      ensures Valid()
    {
      sortField := field;
      SortEffect();
    }

    /** `handleSortOrderChange` followed by the sort effect. */
    method SetSortOrder(order: string)
      modifies this`sortOrder, this`sortedTransactions
      ensures sortOrder == order
      ensures Valid()
    {
      sortOrder := order;
      SortEffect();
    }

    /**
     * `handleSubmit`: nothing is sent unless the user confirms; a successful
     * POST clears the three inputs and refetches, a failed one keeps them.
     */
    method Submit(confirmed: bool, postOk: bool, fetched: Option<seq<Transaction>>) returns (sent: bool)
      requires Valid()
      modifies this`menuItemId, this`quantity, this`transactionDate
      modifies this`transactions, this`sortedTransactions, this`isLoading
      ensures sent == confirmed
      ensures Valid()
      ensures sent && postOk ==>
        && menuItemId == "" && quantity == "" && transactionDate == ""
        && transactions == AfterFetch(old(transactions), fetched) && !isLoading
      ensures !(sent && postOk) ==>
        && menuItemId == old(menuItemId) && quantity == old(quantity)
        && transactionDate == old(transactionDate)
        && transactions == old(transactions) && isLoading == old(isLoading)
        && sortedTransactions == old(sortedTransactions)
    {
      sent := confirmed;
      if confirmed && postOk {
        menuItemId, quantity, transactionDate := "", "", "";
        FetchData(fetched);
      }
    }
  }
}
