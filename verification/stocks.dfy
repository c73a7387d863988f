/** The stocks screen: the list-view controller over stock items, searched by
    item name and category. */
module Stocks {
  import opened Wrappers
  import opened Text
  import opened Entities
  import opened Filtering
  import opened ListViews

  /** A stock item matches a lower-cased term when its item name or category
      contains it, ignoring case. */
  function Matches(s: Stock, term: string): bool
  {
    Contains(Lower(s.itemName), term) || Contains(Lower(s.category), term)
  }

  function IdOf(s: Stock): Option<int>
  {
    s.id
  }

  /** The working copy of a new stock item: empty name and category, quantity
      and price 0, no id. */
  const Blank: Stock := Stock(None, [], [], 0, 0)

  /** The component as it starts: empty list and page, blank search term, page
      1 of 1, nothing loading, the modal hidden and a blank working copy. */
  method NewStocksView() returns (v: ListView<Stock>)
    ensures fresh(v)
    ensures v.matches == Matches && v.idOf == IdOf && v.blank == Blank
    ensures v.items == [] && v.paginated == [] && v.searchTerm == []
    ensures v.currentPage == 1 && v.totalPages == 1 && v.current == Blank
    ensures !v.loading && !v.showModal && !v.editMode
  {
    v := new ListView(Matches, IdOf, Blank);
  }

  /** `filteredStocks()`: a blank term returns every stock item; any other term
      returns, in order, exactly the items whose name or category contains it,
      ignoring case. */
  lemma SearchStocks(xs: seq<Stock>, term: string)
    ensures Normalize(term) == [] ==> Search(xs, term, Matches) == xs
    ensures Normalize(term) != [] ==>
      && IsSubsequence(Search(xs, term, Matches), xs)
      && (forall s :: s in Search(xs, term, Matches) <==>
           && s in xs
           && (Contains(Lower(s.itemName), Normalize(term)) || Contains(Lower(s.category), Normalize(term))))
      && forall s :: multiset(Search(xs, term, Matches))[s]
                     == if Matches(s, Normalize(term)) then multiset(xs)[s] else 0
  {
    SearchSpec(xs, term, Matches);
  }

  /** `saveStock()`: issues the create or update; only a successful save
      closes the modal and reloads the list (with the outcome `reload`), so
      after a failure the modal stays open. */
  method SaveStock(v: ListView<Stock>, saved: bool, reload: Option<seq<Stock>>)
    returns (request: Request<Stock>)
    requires v.idOf == IdOf
    modifies v`showModal, v`items, v`loading, v`totalPages, v`paginated
    ensures request == if old(v.editMode) then Update(old(v.current).id, old(v.current)) else Add(old(v.current))
    ensures saved ==> !v.showModal && !v.loading
    ensures saved && reload.Some? ==> v.items == reload.value && v.Synced()
    ensures !(saved && reload.Some?) ==>
      v.items == old(v.items) && v.totalPages == old(v.totalPages) && v.paginated == old(v.paginated)
    ensures !saved ==> v.showModal == old(v.showModal) && v.loading == old(v.loading)
  {
    request := v.SaveRequest();
    if saved {
      v.CloseModal();
      v.Load(reload);
    }
  }
}
