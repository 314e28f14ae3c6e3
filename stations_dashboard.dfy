/** src/app/dashboard/stations/page.tsx: the station management list. The
    page state (records, loading flag, search text, current page, page count)
    is changed step by step by the fetch, the search, the delete and the
    pagination handlers. The list and delete calls are parameters; their
    answers are abstract (None / false when the call fails). */
module StationsDashboard {
  import opened Wrappers
  import opened Schemas
  import Permissions
  import opened Paging

  datatype StationRow = StationRow(
    idFuelStation: real, name: string, municipality: string, address: string,
    gpsLatitude: real, gpsLongitude: real, createdAt: string)

  datatype StationsApi = StationsApi(
    getAll: Query -> Option<Listing<StationRow>>,
    delete: real -> bool)

  const ManagerRoles: seq<string> := ["ADMIN", "MANAGER"]

  /** Whether the create link and the action column are shown. */
  function CanManage(user: Option<SessionUser>): (r: bool)
    ensures r <==> user.Some? && (user.value.role == "ADMIN" || user.value.role == "MANAGER")
  {
    Permissions.HasPermission(user, ManagerRoles)
  }

  class StationsPage {
    const user: Option<SessionUser>
    var stations: seq<StationRow>
    var loading: bool
    var search: string
    var currentPage: int
    var totalPages: int
    /** List queries sent, oldest first. */
    var requests: seq<Query>
    /** Ids whose deletion was requested, oldest first. */
    var deletions: seq<real>

    constructor (user: Option<SessionUser>)
      ensures this.user == user
      ensures stations == [] && loading && search == "" && currentPage == 1 && totalPages == 1
      ensures requests == [] && deletions == []
    {
      this.user := user;
      stations := [];
      loading := true;
      search := "";
      currentPage := 1;
      totalPages := 1;
      requests := [];
      deletions := [];
    }

    /** The state a finished fetch of `q` leaves: loading is over; on success
        the records (or none) and the page count of the total; on failure an
        empty list and the page count `prevTotal` it had before. */
    predicate Loaded(q: Query, api: StationsApi, prevTotal: int)
      reads this
    {
      && !loading
      && (api.getAll(q).Some? ==>
            stations == ItemsOr(api.getAll(q).value) && totalPages == PageCount(TotalOr(api.getAll(q).value)))
      && (api.getAll(q).None? ==> stations == [] && totalPages == prevTotal)
    }

    /** `fetchStations(page, searchTerm)`: one list query; on success the
        records (or none) and the page count of the total; on failure an
        empty list and the page count left as it was. Loading ends false. */
    method FetchStations(page: int, searchTerm: string, api: StationsApi)
      modifies this
      ensures requests == old(requests) + [Query(page, PageSize, Some(searchTerm))]
      ensures api.getAll(Query(page, PageSize, Some(searchTerm))).Some? ==>
                var l := api.getAll(Query(page, PageSize, Some(searchTerm))).value;
                stations == ItemsOr(l) && totalPages == PageCount(TotalOr(l))
      ensures api.getAll(Query(page, PageSize, Some(searchTerm))).None? ==>
                stations == [] && totalPages == old(totalPages)
      ensures !loading
      ensures search == old(search) && currentPage == old(currentPage) && deletions == old(deletions)
    {
      loading := true;
      var query := Query(page, PageSize, Some(searchTerm));
      requests := requests + [query];
      var response := api.getAll(query);
      if response.Some? {
        stations := ItemsOr(response.value);
        totalPages := PageCount(TotalOr(response.value));
      } else {
        stations := [];
      }
      loading := false;
    }

    /** The fetch effect on `[currentPage, search]`: it runs on mount and
        after every change of the page or the search text, and fetches the
        current page with the current text. */
    method LoadCurrentPage(api: StationsApi)
      modifies this
      ensures requests == old(requests) + [Query(old(currentPage), PageSize, Some(old(search)))]
      ensures api.getAll(Query(old(currentPage), PageSize, Some(old(search)))).Some? ==>
                var l := api.getAll(Query(old(currentPage), PageSize, Some(old(search)))).value;
                stations == ItemsOr(l) && totalPages == PageCount(TotalOr(l))
      ensures api.getAll(Query(old(currentPage), PageSize, Some(old(search)))).None? ==>
                stations == [] && totalPages == old(totalPages)
      ensures !loading
      ensures search == old(search) && currentPage == old(currentPage) && deletions == old(deletions)
    {
      FetchStations(currentPage, search, api);
    }

    /** Typing in the search box: a changed text re-runs the fetch effect on
        the same page with the new text; the same text changes nothing. */
    method SetSearch(text: string, api: StationsApi)
      modifies this
      ensures search == text && currentPage == old(currentPage) && deletions == old(deletions)
      ensures text != old(search) ==> requests == old(requests) + [Query(old(currentPage), PageSize, Some(text))]
      ensures text != old(search) ==> Loaded(Query(old(currentPage), PageSize, Some(text)), api, old(totalPages))
      ensures text == old(search) ==>
                requests == old(requests) && stations == old(stations) && loading == old(loading)
                && totalPages == old(totalPages)
    {
      if text != search {
        search := text;
        LoadCurrentPage(api);
      }
    }

    /** `handleSearch`: back to page 1, then fetch page 1 with the search
        text. When the page was not already 1, the page change also re-runs
        the fetch effect, so page 1 is requested twice. */
    method HandleSearch(api: StationsApi)
      modifies this
      ensures currentPage == 1
      ensures old(currentPage) == 1 ==> requests == old(requests) + [Query(1, PageSize, Some(old(search)))]
      ensures old(currentPage) != 1 ==>
                requests == old(requests) + [Query(1, PageSize, Some(old(search))), Query(1, PageSize, Some(old(search)))]
      ensures Loaded(Query(1, PageSize, Some(old(search))), api, old(totalPages))
      ensures search == old(search) && deletions == old(deletions)
    {
      var pageChanged := currentPage != 1;
      currentPage := 1;
      FetchStations(1, search, api);
      if pageChanged {
        LoadCurrentPage(api);
      }
    }

    /** `handleDelete`: nothing at all unless confirmed; after a successful
        delete the current page is fetched again. */
    method HandleDelete(id: real, confirmed: bool, api: StationsApi)
      modifies this
      ensures !confirmed ==>
                requests == old(requests) && deletions == old(deletions) && stations == old(stations)
                && loading == old(loading) && totalPages == old(totalPages)
      ensures confirmed ==> deletions == old(deletions) + [id]
      ensures confirmed && api.delete(id) ==>
                && requests == old(requests) + [Query(old(currentPage), PageSize, Some(old(search)))]
                && Loaded(Query(old(currentPage), PageSize, Some(old(search))), api, old(totalPages))
      ensures confirmed && !api.delete(id) ==>
                requests == old(requests) && stations == old(stations) && loading == old(loading)
                && totalPages == old(totalPages)
      ensures currentPage == old(currentPage) && search == old(search)
    {
      if !confirmed {
        return;
      }
      deletions := deletions + [id];
      if api.delete(id) {
        FetchStations(currentPage, search, api);
      }
    }

    /** The previous-page button, present only when the bar is shown. An
        enabled button moves the page, and the fetch effect then loads it. */
    method ClickPrev(api: StationsApi)
      requires Shown(totalPages)
      modifies this
      ensures currentPage == AfterPrev(old(currentPage))
      ensures 1 <= old(currentPage) <= old(totalPages) ==> 1 <= currentPage <= old(totalPages)
      ensures PrevDisabled(old(currentPage)) ==>
                requests == old(requests) && stations == old(stations) && totalPages == old(totalPages)
      ensures !PrevDisabled(old(currentPage)) ==>
                && requests == old(requests) + [Query(currentPage, PageSize, Some(old(search)))]
                && Loaded(Query(currentPage, PageSize, Some(old(search))), api, old(totalPages))
      ensures search == old(search) && deletions == old(deletions)
    {
      if !PrevDisabled(currentPage) {
        currentPage := PrevPage(currentPage);
        LoadCurrentPage(api);
      }
    }

    /** The next-page button, present only when the bar is shown. An enabled
        button moves the page, and the fetch effect then loads it. */
    method ClickNext(api: StationsApi)
      requires Shown(totalPages)
      modifies this
      ensures currentPage == AfterNext(old(currentPage), old(totalPages))
      ensures 1 <= old(currentPage) <= old(totalPages) ==> 1 <= currentPage <= old(totalPages)
      ensures NextDisabled(old(currentPage), old(totalPages)) ==>
                requests == old(requests) && stations == old(stations) && totalPages == old(totalPages)
      ensures !NextDisabled(old(currentPage), old(totalPages)) ==>
                && requests == old(requests) + [Query(currentPage, PageSize, Some(old(search)))]
                && Loaded(Query(currentPage, PageSize, Some(old(search))), api, old(totalPages))
      ensures search == old(search) && deletions == old(deletions)
    {
      if !NextDisabled(currentPage, totalPages) {
        currentPage := NextPage(currentPage, totalPages);
        LoadCurrentPage(api);
      }
    }
  }
}
