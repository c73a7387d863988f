/** The list-view controller that the customers, stocks and servicing screens
    each repeat: the fetched list, the search term, the page window and the
    create/edit modal. The copies differ only in which fields the search looks
    at, how an entity's id is read, and what a blank entity is; those are the
    three constants of the class. */
module ListViews {
  import opened Wrappers
  import opened Entities
  import opened Filtering
  import opened Paging

  /** The gateway call a save issues: a create, or an update of the id the
      working copy carries (absent when the copy was never saved). */
  datatype Request<T> = Add(entity: T) | Update(id: Option<int>, entity: T)

  class ListView<T> {
    const matches: (T, string) -> bool
    const idOf: T -> Option<int>
    const blank: T

    var items: seq<T>
    var paginated: seq<T>
    var searchTerm: string
    var currentPage: int
    var totalPages: int
    var loading: bool
    var showModal: bool
    var editMode: bool
    var current: T

    constructor (matches: (T, string) -> bool, idOf: T -> Option<int>, blank: T)
      ensures this.matches == matches && this.idOf == idOf && this.blank == blank
      ensures items == [] && paginated == [] && searchTerm == []
      ensures currentPage == 1 && totalPages == 1
      ensures !loading && !showModal && !editMode && current == blank
    {
      this.matches, this.idOf, this.blank := matches, idOf, blank;
      items, paginated, searchTerm := [], [], [];
      currentPage, totalPages := 1, 1;
      loading, showModal, editMode := false, false, false;
      current := blank;
    }

    /** The entries the search term selects (`filteredCustomers()` and its
        twins): never more than the list holds. */
    function Filtered(): (r: seq<T>)
      reads this`items, this`searchTerm
      ensures |r| <= |items|
    {
      Search(items, searchTerm, matches)
    }

    /** The page count and the shown page agree with the list, the search term
        and the current page: what every recompute establishes. */
    ghost predicate Synced()
      reads this`items, this`searchTerm, this`currentPage, this`totalPages, this`paginated
    {
      && totalPages == TotalPages(|Filtered()|)
      && paginated == PageSlice(Filtered(), currentPage)
    }

    /** `getVisiblePages()`: at most five buttons, none past the last page, and
        the current page among them whenever it is a real page. */
    function VisiblePageNumbers(): (r: seq<int>)
      reads this`currentPage, this`totalPages
      ensures |r| <= VisibleCount
      ensures forall i :: 0 <= i < |r| ==> r[i] <= totalPages
      ensures 1 <= currentPage ==> forall i :: 0 <= i < |r| ==> 1 <= r[i]
      ensures currentPage <= totalPages <==> currentPage in r
    {
      VisiblePages(currentPage, totalPages)
    }

    /** `updatePaginatedX()`: recomputes the page count and the shown page,
        without clamping the current page. */
    method UpdatePaginated()
      modifies this`totalPages, this`paginated
      ensures Synced()
    {
      var filtered := Filtered();
      totalPages := TotalPages(|filtered|);
      var start := (currentPage - 1) * ItemsPerPage;
      paginated := Slice(filtered, start, start + ItemsPerPage);
    }

    /** `goToPage(page)`: moves to any page, unchecked, and recomputes. */
    method GoToPage(page: int)
      modifies this`currentPage, this`totalPages, this`paginated
      ensures currentPage == page && Synced()
    {
      currentPage := page;
      UpdatePaginated();
    }

    /** `prevPage()`: one page back unless already at page 1 or below. */
    method PrevPage()
      modifies this`currentPage, this`totalPages, this`paginated
      ensures old(currentPage) > 1 ==> currentPage == old(currentPage) - 1 && Synced()
      ensures old(currentPage) <= 1 ==>
        currentPage == old(currentPage) && totalPages == old(totalPages) && paginated == old(paginated)
      ensures old(Synced()) ==> Synced()
      ensures old(Synced()) && 1 <= old(currentPage) <= old(totalPages) ==> 1 <= currentPage <= totalPages
    {
      if currentPage > 1 {
        currentPage := currentPage - 1;
        UpdatePaginated();
      }
    }

    /** `nextPage()`: one page on unless already at the last page or past it. */
    method NextPage()
      modifies this`currentPage, this`totalPages, this`paginated
      ensures old(currentPage) < old(totalPages) ==> currentPage == old(currentPage) + 1 && Synced()
      ensures old(currentPage) >= old(totalPages) ==>
        currentPage == old(currentPage) && totalPages == old(totalPages) && paginated == old(paginated)
      ensures old(Synced()) ==> Synced()
      ensures old(Synced()) && 1 <= old(currentPage) <= old(totalPages) ==> 1 <= currentPage <= totalPages
    {
      if currentPage < totalPages {
        currentPage := currentPage + 1;
        UpdatePaginated();
      }
    }

    /** The list fetch and its callback: on success the list is replaced and
        the page recomputed; on failure the list and the page stay as they
        were. Either way loading ends. */
    method Load(response: Option<seq<T>>)
      modifies this`items, this`loading, this`totalPages, this`paginated
      ensures !loading
      ensures response.Some? ==> items == response.value && Synced()
      ensures response.None? ==>
        items == old(items) && totalPages == old(totalPages) && paginated == old(paginated)
    {
      loading := true;
      if response.Some? {
        items := response.value;
        loading := false;
        UpdatePaginated();
      } else {
        loading := false;
      }
    }

    /** `openModal(entity?)`: edit mode exactly when an entity is given, whose
        copy becomes the working copy; otherwise the working copy is blank. */
    method OpenModal(entity: Option<T>)
      modifies this`showModal, this`editMode, this`current
      ensures showModal
      ensures editMode <==> entity.Some?
      ensures current == if entity.Some? then entity.value else blank
    {
      showModal := true;
      editMode := entity.Some?;
      current := if entity.Some? then entity.value else blank;
    }

    method CloseModal()
      modifies this`showModal
      ensures !showModal
    {
      showModal := false;
    }

    /** The call a save issues, chosen by the edit-mode flag. */
    function SaveRequest(): Request<T>
      reads this`editMode, this`current
    {
      if editMode then Update(idOf(current), current) else Add(current)
    }

    /** `deleteX(entity)`: the confirmation is asked only for an entity with a
        truthy id, and the delete request goes out only when it is confirmed.
        A successful delete reloads the list with the outcome `reload`;
        otherwise nothing changes. */
    method Delete(entity: T, confirmed: bool, deleted: bool, reload: Option<seq<T>>)
      returns (asked: bool, request: Option<int>)
      modifies this`items, this`loading, this`totalPages, this`paginated
      ensures asked <==> HasId(idOf(entity))
      ensures request == if asked && confirmed then idOf(entity) else None
      ensures request.Some? ==> HasId(request)
      ensures request.Some? && deleted ==> !loading
      ensures request.Some? && deleted && reload.Some? ==> items == reload.value && Synced()
      ensures !(request.Some? && deleted && reload.Some?) ==>
        items == old(items) && totalPages == old(totalPages) && paginated == old(paginated)
      ensures !(request.Some? && deleted) ==> loading == old(loading)
    {
      asked := HasId(idOf(entity));
      request := None;
      if asked && confirmed {
        request := idOf(entity);
        if deleted {
          Load(reload);
        }
      }
    }
  }
}
