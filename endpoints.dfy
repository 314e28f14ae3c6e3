/** constants/api-endpoints.ts: the request paths of the REST backend, relative
    to the client's base URL. */
module Endpoints {
  import Text

  const AuthLogin := "/auth/login"
  const AuthRegister := "/auth/register"
  const AuthRefresh := "/auth/refresh"
  const AuthLogout := "/auth/logout"
  const AuthForgotPassword := "/auth/forgot-password"
  const AuthResetPassword := "/auth/reset-password"
  const Health := "/health"

  /** The resources that have a collection path and a per-id path. */
  datatype Resource =
    | Users | Roles | FuelStations | FuelTypes
    | FuelAvailabilities | StationImages | UserStationNotifications

  function Name(r: Resource): string {
    match r
    case Users => "users"
    case Roles => "roles"
    case FuelStations => "fuel-stations"
    case FuelTypes => "fuel-types"
    case FuelAvailabilities => "fuel-availabilities"
    case StationImages => "station-images"
    case UserStationNotifications => "user-station-notifications"
  }

  /** The collection path, `base` in the table. */
  function Base(r: Resource): string {
    "/" + Name(r)
  }

  predicate NoSlash(s: string) {
    forall k :: 0 <= k < |s| ==> s[k] != '/'
  }

  /** `byId(id)`: the template literal `${base}/${id}` for a numeric id. */
  function ById(r: Resource, id: int): (p: string)
    ensures Base(r) < p && p[|Base(r)|] == '/'
  {
    Base(r) + "/" + Text.DecimalText(id)
  }

  /** Every base is a `/` followed by a name that contains no further `/`. */
  lemma BaseShape(r: Resource)
    ensures |Base(r)| > 1 && Base(r)[0] == '/' && '/' !in Base(r)[1..]
  {
    NameHasNoSlash(r);
    assert Base(r)[1..] == Name(r);
  }

  lemma NameHasNoSlash(r: Resource)
    ensures |Name(r)| > 0 && '/' !in Name(r)
  {
    match r
    case Users => assert NoSlash("users");
    case Roles => assert NoSlash("roles");
    case FuelStations => assert NoSlash("fuel-stations");
    case FuelTypes => assert NoSlash("fuel-types");
    case FuelAvailabilities => assert NoSlash("fuel-availabilities");
    case StationImages => assert NoSlash("station-images");
    case UserStationNotifications => assert NoSlash("user-station-notifications");
  }

  /** Every path in the table begins with `/`. */
  lemma PathsStartWithSlash(r: Resource, id: int)
    ensures Base(r)[0] == '/' && ById(r, id)[0] == '/'
    ensures AuthLogin[0] == '/' && AuthRegister[0] == '/' && AuthRefresh[0] == '/'
    ensures AuthLogout[0] == '/' && AuthForgotPassword[0] == '/' && AuthResetPassword[0] == '/'
    ensures Health[0] == '/'
  {
    BaseShape(r);
  }

  /** Different resources have different bases, and no base is a prefix of
      another. */
  lemma BasesPrefixFree(r1: Resource, r2: Resource)
    requires r1 != r2
    ensures !(Base(r1) <= Base(r2))
  {
    var a, b := Base(r1), Base(r2);
    if |a| <= |b| {
      if Name(r1)[0] != Name(r2)[0] {
        DifferAt(a, b, 1);
      } else if |a| > 6 && a[6] != b[6] {
        DifferAt(a, b, 6);
      } else {
        DifferAt(a, b, 5);
      }
    }
  }

  lemma DifferAt(a: string, b: string, k: nat)
    requires k < |a| && k < |b| && a[k] != b[k]
    ensures !(a <= b) && !(b <= a)
  {
  }

  /** A string of the form `a/b` where `b` has no `/` determines `a` and `b`. */
  lemma SplitAtLastSlash(a1: string, b1: string, a2: string, b2: string)
    requires '/' !in b1 && '/' !in b2
    ensures a1 + "/" + b1 == a2 + "/" + b2 ==> a1 == a2 && b1 == b2
  {
    var s := a1 + "/" + b1;
    if s == a2 + "/" + b2 {
      assert forall k :: |a1| < k < |s| ==> s[k] == b1[k - |a1| - 1];
      assert forall k :: |a2| < k < |s| ==> s[k] == b2[k - |a2| - 1];
      assert s[|a1|] == '/' && s[|a2|] == '/';
      assert |a1| == |a2|;
      assert a1 == s[..|a1|] == a2;
      assert b1 == s[|a1| + 1..] == b2;
    }
  }

  /** Different ids give different paths. */
  lemma ByIdInjective(r: Resource, i: int, j: int)
    requires ById(r, i) == ById(r, j)
    ensures i == j
  {
    Text.DecimalTextHasNoSlash(i);
    Text.DecimalTextHasNoSlash(j);
    SplitAtLastSlash(Base(r), Text.DecimalText(i), Base(r), Text.DecimalText(j));
    Text.DecimalTextInjective(i, j);
  }

  /** A per-id path never equals a collection path, of its own resource or of
      any other. */
  lemma ByIdIsNotABase(r1: Resource, r2: Resource, id: int)
    ensures ById(r1, id) != Base(r2)
  {
    BaseShape(r1);
    BaseShape(r2);
    var p := ById(r1, id);
    if |p| == |Base(r2)| {
      assert p[|Base(r1)|] == '/';
      assert Base(r2)[|Base(r1)|] == Base(r2)[1..][|Base(r1)| - 1];
    }
  }

  /** Paths of different resources never collide. */
  lemma ByIdDistinctResources(r1: Resource, r2: Resource, i: int, j: int)
    requires r1 != r2
    ensures ById(r1, i) != ById(r2, j)
  {
    Text.DecimalTextHasNoSlash(i);
    Text.DecimalTextHasNoSlash(j);
    SplitAtLastSlash(Base(r1), Text.DecimalText(i), Base(r2), Text.DecimalText(j));
    BasesPrefixFree(r1, r2);
  }
}
