/** The customers screen: the list-view controller over customers, searched by
    name, email and vehicle number. */
module Customers {
  import opened Wrappers
  import opened Text
  import opened Entities
  import opened Filtering
  import opened ListViews

  /** A customer matches a lower-cased term when its name, email or vehicle
      number contains it, ignoring case. */
  function Matches(c: Customer, term: string): bool
  {
    || Contains(Lower(c.customerName), term)
    || Contains(Lower(c.email), term)
    || Contains(Lower(c.vehicleNo), term)
  }

  function IdOf(c: Customer): Option<int>
  {
    c.id
  }

  /** The working copy of a new customer: four empty strings and no id. */
  const Blank: Customer := Customer(None, [], [], [], [])

  /** The component as it starts: empty list and page, blank search term, page
      1 of 1, nothing loading, the modal hidden and a blank working copy. */
  method NewCustomersView() returns (v: ListView<Customer>)
    ensures fresh(v)
    ensures v.matches == Matches && v.idOf == IdOf && v.blank == Blank
    ensures v.items == [] && v.paginated == [] && v.searchTerm == []
    ensures v.currentPage == 1 && v.totalPages == 1 && v.current == Blank
    ensures !v.loading && !v.showModal && !v.editMode
  {
    v := new ListView(Matches, IdOf, Blank);
  }

  /** `filteredCustomers()`: a blank term returns the list unchanged; any other
      term returns, in order, exactly the customers whose name, email or
      vehicle number contains it, ignoring case. */
  lemma SearchCustomers(xs: seq<Customer>, term: string)
    ensures Normalize(term) == [] ==> Search(xs, term, Matches) == xs
    ensures Normalize(term) != [] ==>
      && IsSubsequence(Search(xs, term, Matches), xs)
      && (forall c :: c in Search(xs, term, Matches) <==>
           && c in xs
           && (|| Contains(Lower(c.customerName), Normalize(term))
               || Contains(Lower(c.email), Normalize(term))
               || Contains(Lower(c.vehicleNo), Normalize(term))))
      && forall c :: multiset(Search(xs, term, Matches))[c]
                     == if Matches(c, Normalize(term)) then multiset(xs)[c] else 0
  {
    SearchSpec(xs, term, Matches);
  }

  /** `saveCustomer()`: issues the create or update and closes the modal at
      once, whatever the outcome; only a successful save then reloads the list,
      with the outcome `reload`. */
  method SaveCustomer(v: ListView<Customer>, saved: bool, reload: Option<seq<Customer>>)
    returns (request: Request<Customer>)
    requires v.idOf == IdOf
    modifies v`showModal, v`items, v`loading, v`totalPages, v`paginated
    ensures request == if old(v.editMode) then Update(old(v.current).id, old(v.current)) else Add(old(v.current))
    ensures !v.showModal
    ensures saved ==> !v.loading
    ensures saved && reload.Some? ==> v.items == reload.value && v.Synced()
    ensures !(saved && reload.Some?) ==>
      v.items == old(v.items) && v.totalPages == old(v.totalPages) && v.paginated == old(v.paginated)
    ensures !saved ==> v.loading == old(v.loading)
  {
    request := v.SaveRequest();
    v.CloseModal();
    if saved {
      v.Load(reload);
    }
  }
}
