/** src/app/dashboard/users/page.tsx: the user management list, for
    administrators only. The signed-in account comes from the page's auth
    hook: its session user (for the role check) and the `id_user` of its
    record (for the own-row check). The list and delete calls are
    parameters; their answers are abstract (None / false on failure). */
module UsersDashboard {
  import opened Wrappers
  import opened Schemas
  import Permissions
  import opened Paging

  datatype Viewer = Viewer(session: SessionUser, idUser: Option<real>)

  datatype UserRow = UserRow(idUser: real, name: string, email: string, roleName: string)

  datatype UsersApi = UsersApi(
    getAll: Query -> Option<Listing<UserRow>>,
    delete: real -> bool)

  datatype Badge = Red | Blue | Gray

  const DashboardRoute := "/dashboard"

  function SessionOf(viewer: Option<Viewer>): Option<SessionUser> {
    if viewer.Some? then Some(viewer.value.session) else None
  }

  /** `hasPermission(user, ["ADMIN"])`. */
  function IsAdmin(viewer: Option<Viewer>): (r: bool)
    ensures r <==> viewer.Some? && viewer.value.session.role == "ADMIN"
  {
    Permissions.HasPermission(SessionOf(viewer), ["ADMIN"])
  }

  /** `user?.id_user`. */
  function OwnId(viewer: Option<Viewer>): Option<real> {
    if viewer.Some? then viewer.value.idUser else None
  }

  /** The delete button is shown on a row unless it is the viewer's own. */
  function DeleteOffered(row: UserRow, viewer: Option<Viewer>): (r: bool)
    ensures OwnId(viewer) == Some(row.idUser) ==> !r
    ensures OwnId(viewer) != Some(row.idUser) ==> r
  {
    OwnId(viewer) != Some(row.idUser)
  }

  /** The colour of the role badge. */
  function RoleBadge(roleName: string): (b: Badge)
    ensures b == Red <==> roleName == "ADMIN"
    ensures b == Blue <==> roleName == "MANAGER"
    ensures b == Gray <==> roleName != "ADMIN" && roleName != "MANAGER"
  {
    if roleName == "ADMIN" then Red else if roleName == "MANAGER" then Blue else Gray
  }

  class UsersPage {
    const viewer: Option<Viewer>
    var users: seq<UserRow>
    var loading: bool
    var currentPage: int
    var totalPages: int
    /** Routes pushed to the router, oldest first. */
    var navigations: seq<string>
    var requests: seq<Query>
    var deletions: seq<real>

    constructor (viewer: Option<Viewer>)
      ensures this.viewer == viewer
      ensures users == [] && loading && currentPage == 1 && totalPages == 1
      ensures navigations == [] && requests == [] && deletions == []
    {
      this.viewer := viewer;
      users := [];
      loading := true;
      currentPage := 1;
      totalPages := 1;
      navigations := [];
      requests := [];
      deletions := [];
    }

    /** Whether the page renders anything: only for administrators. */
    function Rendered(): (r: bool)
      reads this
      ensures r <==> IsAdmin(viewer)
    {
      IsAdmin(viewer)
    }

    /** The access effect: a signed-in non-administrator is sent to the
        dashboard; nobody else is redirected. */
    method CheckAccess()
      modifies this
      ensures viewer.Some? && !IsAdmin(viewer) ==> navigations == old(navigations) + [DashboardRoute]
      ensures !(viewer.Some? && !IsAdmin(viewer)) ==> navigations == old(navigations)
      ensures users == old(users) && requests == old(requests) && currentPage == old(currentPage)
    {
      if viewer.Some? && !IsAdmin(viewer) {
        navigations := navigations + [DashboardRoute];
      }
    }

    /** The state a finished fetch of `q` leaves: loading is over; on success
        the users (or none) and the page count of the total; on failure an
        empty list and the page count `prevTotal` it had before. */
    predicate Loaded(q: Query, api: UsersApi, prevTotal: int)
      reads this
    {
      && !loading
      && (api.getAll(q).Some? ==>
            users == ItemsOr(api.getAll(q).value) && totalPages == PageCount(TotalOr(api.getAll(q).value)))
      && (api.getAll(q).None? ==> users == [] && totalPages == prevTotal)
    }

    /** `fetchUsers(page)`: one list query of ten records with no search key. */
    method FetchUsers(page: int, api: UsersApi)
      modifies this
      ensures requests == old(requests) + [Query(page, PageSize, None)]
      ensures api.getAll(Query(page, PageSize, None)).Some? ==>
                var l := api.getAll(Query(page, PageSize, None)).value;
                users == ItemsOr(l) && totalPages == PageCount(TotalOr(l))
      ensures api.getAll(Query(page, PageSize, None)).None? ==>
                users == [] && totalPages == old(totalPages)
      ensures !loading
      ensures currentPage == old(currentPage) && navigations == old(navigations) && deletions == old(deletions)
    {
      loading := true;
      var query := Query(page, PageSize, None);
      requests := requests + [query];
      var response := api.getAll(query);
      if response.Some? {
        users := ItemsOr(response.value);
        totalPages := PageCount(TotalOr(response.value));
      } else {
        users := [];
      }
      loading := false;
    }

    /** The fetch effect: users are fetched only for an administrator. */
    method LoadCurrentPage(api: UsersApi)
      modifies this
      ensures IsAdmin(viewer) ==>
                && requests == old(requests) + [Query(old(currentPage), PageSize, None)]
                && Loaded(Query(old(currentPage), PageSize, None), api, old(totalPages))
      ensures !IsAdmin(viewer) ==>
                requests == old(requests) && users == old(users) && loading == old(loading)
                && totalPages == old(totalPages)
      ensures currentPage == old(currentPage) && navigations == old(navigations) && deletions == old(deletions)
    {
      if IsAdmin(viewer) {
        FetchUsers(currentPage, api);
      }
    }

    /** `handleDelete`. */
    method HandleDelete(id: real, confirmed: bool, api: UsersApi)
      modifies this
      ensures !confirmed ==>
                requests == old(requests) && deletions == old(deletions) && users == old(users)
      ensures confirmed ==> deletions == old(deletions) + [id]
      ensures confirmed && api.delete(id) ==>
                && requests == old(requests) + [Query(old(currentPage), PageSize, None)]
                && Loaded(Query(old(currentPage), PageSize, None), api, old(totalPages))
      ensures confirmed && !api.delete(id) ==>
                requests == old(requests) && users == old(users) && loading == old(loading)
                && totalPages == old(totalPages)
      ensures currentPage == old(currentPage) && navigations == old(navigations)
    {
      if !confirmed {
        return;
      }
      deletions := deletions + [id];
      if api.delete(id) {
        FetchUsers(currentPage, api);
      }
    }

    /** The previous-page button, present only when the bar is shown. An
        enabled button moves the page, and the fetch effect then loads it for
        an administrator. */
    method ClickPrev(api: UsersApi)
      requires Shown(totalPages)
      modifies this
      ensures currentPage == AfterPrev(old(currentPage))
      ensures 1 <= old(currentPage) <= old(totalPages) ==> 1 <= currentPage <= old(totalPages)
      ensures !PrevDisabled(old(currentPage)) && IsAdmin(viewer) ==>
                && requests == old(requests) + [Query(currentPage, PageSize, None)]
                && Loaded(Query(currentPage, PageSize, None), api, old(totalPages))
      ensures PrevDisabled(old(currentPage)) || !IsAdmin(viewer) ==>
                requests == old(requests) && users == old(users) && totalPages == old(totalPages)
      ensures navigations == old(navigations) && deletions == old(deletions)
    {
      if !PrevDisabled(currentPage) {
        currentPage := PrevPage(currentPage);
        LoadCurrentPage(api);
      }
    }

    /** The next-page button, present only when the bar is shown. An enabled
        button moves the page, and the fetch effect then loads it for an
        administrator. */
    method ClickNext(api: UsersApi)
      requires Shown(totalPages)
      modifies this
      ensures currentPage == AfterNext(old(currentPage), old(totalPages))
      ensures 1 <= old(currentPage) <= old(totalPages) ==> 1 <= currentPage <= old(totalPages)
      ensures !NextDisabled(old(currentPage), old(totalPages)) && IsAdmin(viewer) ==>
                && requests == old(requests) + [Query(currentPage, PageSize, None)]
                && Loaded(Query(currentPage, PageSize, None), api, old(totalPages))
      ensures NextDisabled(old(currentPage), old(totalPages)) || !IsAdmin(viewer) ==>
                requests == old(requests) && users == old(users) && totalPages == old(totalPages)
      ensures navigations == old(navigations) && deletions == old(deletions)
    {
      if !NextDisabled(currentPage, totalPages) {
        currentPage := NextPage(currentPage, totalPages);
        LoadCurrentPage(api);
      }
    }
  }
}
