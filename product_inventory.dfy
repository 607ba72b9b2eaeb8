/**
 * ProductInventoryPage: a read-only list whose visible part is kept in its
 * own state variable and recomputed whenever the products or the search
 * term change.
 */
module ProductInventory {
  import opened Rows
  import opened Search

  /** The state of the product inventory page. */
  class ProductInventoryPage {
    var products: seq<Row>
    var filteredProducts: seq<Row>
    var loading: bool
    var searchTerm: string

    /** The filter effect has run: the shown list is the products whose name includes the term, ignoring case. */
    predicate Valid()
      reads this
    {
      filteredProducts == Filtered(products, ProductKeys, searchTerm)
    }

    constructor ()
      ensures products == [] && filteredProducts == [] && loading && searchTerm == ""
      ensures Valid()
    {
      products, filteredProducts, loading, searchTerm := [], [], true, "";
    }

    /** The filter effect, run after either of its dependencies changes. */
    method FilterEffect()
      modifies this`filteredProducts
      ensures Valid()
    {
      filteredProducts := Filtered(products, ProductKeys, searchTerm);
    }

    /**
     * The fetch effect: on success both lists take the response and the
     * filter effect then narrows the shown one; loading ends either way.
     */
    method Loaded(fetched: Option<seq<Row>>)
      requires Valid()
      modifies this`products, this`filteredProducts, this`loading
      ensures products == AfterFetch(old(products), fetched)
      ensures Valid() && !loading
      ensures fetched.Some? && searchTerm == "" ==> filteredProducts == fetched.value
    {
      if fetched.Some? {
        products := fetched.value;
        filteredProducts := fetched.value;
        FilterEffect();
        EmptyTermShowsAll(products, ProductKeys);
      }
      loading := false;
    }

    /** Typing in the search box: the term changes and the filter effect reruns. */
    method SetSearchTerm(term: string)
      modifies this`searchTerm, this`filteredProducts
      ensures searchTerm == term && Valid()
      ensures forall x :: x in filteredProducts <==> x in products && Matches(x, ProductKeys, term)
    {
      searchTerm := term;
      FilterEffect();
    }
  }
}
