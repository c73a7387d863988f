/** The servicing screen: the list-view controller over service records,
    searched by customer name, vehicle number and remarks, together with the
    composer that builds the record being edited — its customer, its stock line
    items and its total. */
module Servicing {
  import opened Wrappers
  import opened Text
  import opened Entities
  import opened Filtering
  import opened LineItems
  import opened ListViews
  import opened Paging

  /** A service record matches a lower-cased term when its customer's name or
      vehicle number, or its remarks, contain it, ignoring case. */
  function Matches(r: ServiceRecord, term: string): bool
  {
    || Contains(Lower(r.customer.customerName), term)
    || Contains(Lower(r.customer.vehicleNo), term)
    || Contains(Lower(r.remarks), term)
  }

  function IdOf(r: ServiceRecord): Option<int>
  {
    r.id
  }

  /** The working copy of a new service: a blank customer, no date, no
      remarks, no line items and a total of 0. */
  const Blank: ServiceRecord := ServiceRecord(None, Customer(None, [], [], [], []), [], 0, [], [])

  /** The stock picker matches on the item name only. */
  function ItemNameMatches(s: Stock, term: string): bool
  {
    Contains(Lower(s.itemName), term)
  }

  /** The customer picker matches on the vehicle number only. */
  function VehicleMatches(c: Customer, term: string): bool
  {
    Contains(Lower(c.vehicleNo), term)
  }

  /** `filteredServices()`: a blank term returns every record; any other term
      returns, in order, exactly the records whose customer name, vehicle
      number or remarks contain it, ignoring case. */
  lemma SearchServices(xs: seq<ServiceRecord>, term: string)
    ensures Normalize(term) == [] ==> Search(xs, term, Matches) == xs
    ensures Normalize(term) != [] ==>
      && IsSubsequence(Search(xs, term, Matches), xs)
      && (forall r :: r in Search(xs, term, Matches) <==>
           && r in xs
           && (|| Contains(Lower(r.customer.customerName), Normalize(term))
               || Contains(Lower(r.customer.vehicleNo), Normalize(term))
               || Contains(Lower(r.remarks), Normalize(term))))
      && forall r :: multiset(Search(xs, term, Matches))[r]
                     == if Matches(r, Normalize(term)) then multiset(xs)[r] else 0
  {
    SearchSpec(xs, term, Matches);
  }

  class ServicingPage {
    /** The list, page window and modal; its working copy `view.current` is
        the service being composed. */
    const view: ListView<ServiceRecord>
    /** The pickers' catalogues and their search state. */
    var customers: seq<Customer>
    var stocks: seq<Stock>
    var vehicleSearch: string
    var stockSearch: string
    var filteredCustomers: seq<Customer>
    var filteredStocks: seq<Stock>
    var grandTotal: int

    /** The view is the servicing instance of the list-view controller. */
    ghost predicate Valid()
    {
      view.matches == Matches && view.idOf == IdOf && view.blank == Blank
    }

    constructor ()
      ensures Valid() && fresh(view)
      ensures view.items == [] && view.paginated == [] && view.searchTerm == []
      ensures view.currentPage == 1 && view.totalPages == 1 && view.current == Blank
      ensures !view.loading && !view.showModal && !view.editMode
      ensures customers == [] && stocks == [] && filteredCustomers == [] && filteredStocks == []
      ensures vehicleSearch == [] && stockSearch == [] && grandTotal == 0
    {
      view := new ListView(Matches, IdOf, Blank);
      customers, stocks := [], [];
      vehicleSearch, stockSearch := [], [];
      filteredCustomers, filteredStocks := [], [];
      grandTotal := 0;
    }

    /** `loadServices()` as written: the callback stores the list but only
        names the page recompute without calling it, so the page count and the
        shown page keep their old values. */
    method LoadServicesAsWritten(response: Option<seq<ServiceRecord>>)
      modifies view`items, view`loading
      ensures !view.loading
      ensures response.Some? ==> view.items == response.value
      ensures response.None? ==> view.items == old(view.items)
    {
      view.loading := true;
      if response.Some? {
        view.items := response.value;
        view.loading := false;
      } else {
        view.loading := false;
      }
    }

    /** `loadServices()` as intended, and as the other two screens do it: a
        successful load also recomputes the page. */
    method LoadServices(response: Option<seq<ServiceRecord>>)
      modifies view`items, view`loading, view`totalPages, view`paginated
      ensures !view.loading
      ensures response.Some? ==> view.items == response.value && view.Synced()
      ensures response.None? ==>
        view.items == old(view.items) && view.totalPages == old(view.totalPages)
        && view.paginated == old(view.paginated)
      ensures view.searchTerm == old(view.searchTerm) && view.currentPage == old(view.currentPage)
    {
      view.Load(response);
    }

    /** `loadCustomersStockList()`: each catalogue is replaced when its fetch
        succeeds; a failed fetch leaves it as it was. */
    method LoadCatalogues(customersResponse: Option<seq<Customer>>, stocksResponse: Option<seq<Stock>>)
      modifies this`customers, this`stocks
      ensures customers == if customersResponse.Some? then customersResponse.value else old(customers)
      ensures stocks == if stocksResponse.Some? then stocksResponse.value else old(stocks)
    {
      if customersResponse.Some? {
        customers := customersResponse.value;
      }
      if stocksResponse.Some? {
        stocks := stocksResponse.value;
      }
    }

    /** `saveService()`: issues the create or update, closes the modal and
        reloads the list whatever the outcome (the source fires a second,
        identical reload on success), here with the corrected reload. */
    method SaveService(reload: Option<seq<ServiceRecord>>) returns (request: Request<ServiceRecord>)
      requires Valid()
      modifies view`showModal, view`items, view`loading, view`totalPages, view`paginated
      ensures request == if old(view.editMode) then Update(old(view.current).id, old(view.current)) else Add(old(view.current))
      ensures !view.showModal && !view.loading
      ensures reload.Some? ==> view.items == reload.value && view.Synced()
      ensures reload.None? ==>
        view.items == old(view.items) && view.totalPages == old(view.totalPages)
        && view.paginated == old(view.paginated)
    {
      request := view.SaveRequest();
      view.CloseModal();
      LoadServices(reload);
    }

    /** `downloadBill()`: a record without a truthy id is refused before any
        request; otherwise the bill is requested for that id. */
    method DownloadBill() returns (request: Option<int>)
      ensures request.Some? <==> HasId(view.current.id)
      ensures request.Some? ==> request == view.current.id
    {
      if HasId(view.current.id) {
        request := view.current.id;
      } else {
        request := None;
      }
    }

    /** `selectCustomer(c)`: the service's customer becomes a copy of `c`, the
        vehicle box shows its vehicle number and the suggestions close. */
    method SelectCustomer(c: Customer)
      modifies view`current, this`vehicleSearch, this`filteredCustomers
      ensures view.current == old(view.current).(customer := c)
      ensures vehicleSearch == c.vehicleNo && filteredCustomers == []
    {
      view.current := view.current.(customer := Customer(c.id, c.customerName, c.email, c.phone, c.vehicleNo));
      vehicleSearch := c.vehicleNo;
      filteredCustomers := [];
    }

    /** `filterStock()`: no suggestions for a blank term; otherwise, in order,
        exactly the catalogue items whose name contains the term, ignoring
        case. */
    method FilterStock()
      modifies this`filteredStocks
      ensures Normalize(stockSearch) == [] ==> filteredStocks == []
      ensures Normalize(stockSearch) != [] ==>
        && IsSubsequence(filteredStocks, stocks)
        && (forall s :: s in filteredStocks <==> s in stocks && Contains(Lower(s.itemName), Normalize(stockSearch)))
        && forall s :: multiset(filteredStocks)[s]
                       == if Contains(Lower(s.itemName), Normalize(stockSearch)) then multiset(stocks)[s] else 0
    {
      var term := Normalize(stockSearch);
      if term == [] {
        filteredStocks := [];
        return;
      }
      filteredStocks := Select(stocks, ItemNameMatches, term);
      SelectExactly(stocks, ItemNameMatches, term);
    }

    /** `filterVehicle()`: no suggestions for a blank term; otherwise, in
        order, exactly the customers whose vehicle number contains the term,
        ignoring case. */
    method FilterVehicle()
      modifies this`filteredCustomers
      ensures Normalize(vehicleSearch) == [] ==> filteredCustomers == []
      ensures Normalize(vehicleSearch) != [] ==>
        && IsSubsequence(filteredCustomers, customers)
        && (forall c :: c in filteredCustomers <==> c in customers && Contains(Lower(c.vehicleNo), Normalize(vehicleSearch)))
        && forall c :: multiset(filteredCustomers)[c]
                       == if Contains(Lower(c.vehicleNo), Normalize(vehicleSearch)) then multiset(customers)[c] else 0
    {
      var term := Normalize(vehicleSearch);
      if term == [] {
        filteredCustomers := [];
        return;
      }
      filteredCustomers := Select(customers, VehicleMatches, term);
      SelectExactly(customers, VehicleMatches, term);
    }

    /** `calculateTotal()`: the grand total and the record's total cost both
        become the sum of price times quantity over the current lines. */
    method CalculateTotal()
      modifies this`grandTotal, view`current
      ensures grandTotal == Total(view.current.stocks)
      ensures view.current == old(view.current).(totalCost := grandTotal)
    {
      grandTotal := Total(view.current.stocks);
      view.current := view.current.(totalCost := grandTotal);
    }

    /** `selectStock(s)`: one more of the line for `s`, or a new line for it at
        the end; the stock picker is cleared and the total recomputed. Distinct
        stock ids and positive quantities are kept. */
    method SelectStock(s: Stock)
      modifies view`current, this`stockSearch, this`filteredStocks, this`grandTotal
      ensures view.current.stocks == AddStock(old(view.current.stocks), s)
      ensures view.current == old(view.current).(stocks := view.current.stocks, totalCost := grandTotal)
      ensures grandTotal == Total(view.current.stocks)
      ensures stockSearch == [] && filteredStocks == []
      ensures DistinctStocks(old(view.current.stocks)) ==> DistinctStocks(view.current.stocks)
      ensures PositiveQuantities(old(view.current.stocks)) ==> PositiveQuantities(view.current.stocks)
    {
      var lines := view.current.stocks;
      ghost var before := lines;
      match FirstIndexOf(lines, s.id) {
        case Some(j) =>
          lines := lines[j := lines[j].(quantityUsed := lines[j].quantityUsed + 1)];
        case None =>
          lines := lines + [NewLine(s)];
      }
      assert lines == AddStock(before, s);
      view.current := view.current.(stocks := lines);
      stockSearch := [];
      filteredStocks := [];
      CalculateTotal();
      AddStockKeeps(old(view.current.stocks), s);
    }

    /** `updateQty(index, change)`: line `index` gets `change` more and is
        removed when that leaves it at 0 or below; the total is recomputed. */
    method UpdateQty(index: nat, change: int)
      requires index < |view.current.stocks|
      modifies view`current, this`grandTotal
      ensures view.current.stocks == AdjustQty(old(view.current.stocks), index, change)
      ensures view.current == old(view.current).(stocks := view.current.stocks, totalCost := grandTotal)
      ensures grandTotal == Total(view.current.stocks)
      ensures DistinctStocks(old(view.current.stocks)) ==> DistinctStocks(view.current.stocks)
      ensures PositiveQuantities(old(view.current.stocks)) ==> PositiveQuantities(view.current.stocks)
    {
      var lines := view.current.stocks;
      var item := lines[index].(quantityUsed := lines[index].quantityUsed + change);
      lines := lines[index := item];
      if item.quantityUsed <= 0 {
        lines := RemoveAt(lines, index);
      }
      view.current := view.current.(stocks := lines);
      CalculateTotal();
      AdjustQtyKeeps(old(view.current.stocks), index, change);
    }

    /** `removeStock(index)`: line `index` is removed, the others keep their
        order, and the total is recomputed. */
    method RemoveStock(index: nat)
      requires index < |view.current.stocks|
      modifies view`current, this`grandTotal
      ensures view.current.stocks == RemoveAt(old(view.current.stocks), index)
      ensures view.current == old(view.current).(stocks := view.current.stocks, totalCost := grandTotal)
      ensures grandTotal == Total(view.current.stocks)
      ensures grandTotal == Total(old(view.current.stocks)) - Cost(old(view.current.stocks)[index])
      ensures DistinctStocks(old(view.current.stocks)) ==> DistinctStocks(view.current.stocks)
      ensures PositiveQuantities(old(view.current.stocks)) ==> PositiveQuantities(view.current.stocks)
    {
      var lines := view.current.stocks;
      view.current := view.current.(stocks := RemoveAt(lines, index));
      CalculateTotal();
      RemoveAtTotal(lines, index);
      RemoveAtKeeps(lines, index);
    }
  }

  /** After a successful first load of one record, the page as written still
      shows nothing although the record matches the (empty) search term. */
  method StalePageAfterLoad(r: ServiceRecord) returns (shown: seq<ServiceRecord>, matching: seq<ServiceRecord>)
    ensures matching == [r] && shown == []
  {
    var page := new ServicingPage();
    page.LoadServicesAsWritten(Some([r]));
    shown := page.view.paginated;
    matching := page.view.Filtered();
  }

  /** A synced view holding one record, under a blank search term and on page
      1, matches that record and shows it. */
  lemma OneRecordShown(v: ListView<ServiceRecord>, r: ServiceRecord)
    requires v.Synced() && v.items == [r] && v.searchTerm == [] && v.currentPage == 1
    ensures v.Filtered() == [r] && v.paginated == [r]
  {
    assert Normalize([]) == [];
    assert PageSlice([r], 1) == [r];
  }

  /** With the corrected load the same record is shown on page 1. */
  method PageShownAfterLoad(r: ServiceRecord) returns (shown: seq<ServiceRecord>, matching: seq<ServiceRecord>)
    ensures matching == [r] && shown == [r]
  {
    var page := new ServicingPage();
    var v := page.view;
    page.LoadServices(Some([r]));
    OneRecordShown(v, r);
    matching := v.Filtered();
    shown := v.paginated;
  }
}
