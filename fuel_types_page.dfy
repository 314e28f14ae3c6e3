/** src/app/dashboard/fuel-types/page.tsx: the administrators' fuel type
    list with one form used both to create and to edit. The form is open
    whenever a fuel type is being edited; the handlers keep that invariant.
    The form library keeps current values and default values: resetting to
    given values replaces both, a plain reset returns to the defaults. The
    calls are parameters with abstract answers. */
module FuelTypesPage {
  import opened Wrappers
  import opened Js
  import opened Schemas
  import Permissions

  datatype FuelTypeRow = FuelTypeRow(idFuelType: real, fuelName: string, description: Option<string>)

  datatype FuelTypeForm = FuelTypeForm(fuelName: string, description: string)

  /** A call the page made. */
  datatype Call = ListCall | CreateCall(data: FuelTypeForm) | UpdateCall(id: real, data: FuelTypeForm) | DeleteCall(id: real)

  datatype FuelTypesApi = FuelTypesApi(
    getAll: Option<Option<seq<FuelTypeRow>>>,
    create: FuelTypeForm -> Result<(), Value>,
    update: (real, FuelTypeForm) -> Result<(), Value>,
    delete: real -> bool)

  const EmptyForm := FuelTypeForm("", "")
  const SaveFailedMessage := "Error al guardar el tipo de combustible"
  const DashboardRoute := "/dashboard"

  /** The values the edit form starts from: the name, and the description
      or "" when there is none. */
  function EditValues(t: FuelTypeRow): (f: FuelTypeForm)
    ensures f.fuelName == t.fuelName
    ensures t.description.Some? ==> f.description == t.description.value
    ensures t.description.None? ==> f.description == ""
  {
    FuelTypeForm(t.fuelName, if t.description.Some? then t.description.value else "")
  }

  /** The call a submit makes: an update of the edited fuel type, else a create. */
  function SubmitCall(editing: Option<FuelTypeRow>, data: FuelTypeForm): (c: Call)
    ensures editing.Some? <==> c.UpdateCall?
    ensures editing.Some? ==> c == UpdateCall(editing.value.idFuelType, data)
    ensures editing.None? ==> c == CreateCall(data)
  {
    if editing.Some? then UpdateCall(editing.value.idFuelType, data) else CreateCall(data)
  }

  class FuelTypesManager {
    const user: Option<SessionUser>
    var fuelTypes: seq<FuelTypeRow>
    var loading: bool
    var showForm: bool
    var editing: Option<FuelTypeRow>
    var formValues: FuelTypeForm
    var formDefaults: FuelTypeForm
    var calls: seq<Call>
    var errorToasts: seq<Value>
    var navigations: seq<string>

    /** The form is open whenever a fuel type is being edited. */
    predicate Valid()
      reads this
    {
      editing.Some? ==> showForm
    }

    constructor (user: Option<SessionUser>)
      ensures Valid() && this.user == user
      ensures fuelTypes == [] && loading && !showForm && editing.None?
      ensures formValues == EmptyForm && formDefaults == EmptyForm
      ensures calls == [] && errorToasts == [] && navigations == []
    {
      this.user := user;
      fuelTypes := [];
      loading := true;
      showForm := false;
      editing := None;
      formValues := EmptyForm;
      formDefaults := EmptyForm;
      calls := [];
      errorToasts := [];
      navigations := [];
    }

    function IsAdmin(): (r: bool)
      reads this
      ensures r <==> user.Some? && user.value.role == "ADMIN"
    {
      Permissions.HasPermission(user, ["ADMIN"])
    }

    /** Only an administrator sees the page; everyone else gets nothing. */
    function Rendered(): (shown: bool)
      reads this
      ensures shown <==> user.Some? && user.value.role == "ADMIN"
    {
      IsAdmin()
    }

    /** The "new" button is shown exactly when the form is closed. */
    function NewButtonShown(): bool
      reads this
    {
      !showForm
    }

    /** The access effect: a signed-in non-administrator goes to the dashboard. */
    method CheckAccess()
      modifies this
      ensures navigations == old(navigations) + (if user.Some? && !IsAdmin() then [DashboardRoute] else [])
      ensures calls == old(calls) && showForm == old(showForm) && editing == old(editing)
    {
      if user.Some? && !IsAdmin() {
        navigations := navigations + [DashboardRoute];
      }
    }

    /** The state a finished list fetch leaves: loading is over, and the
        list is the answer's `data`, or empty when it is missing or the call
        failed. */
    predicate Loaded(api: FuelTypesApi)
      reads this
    {
      && !loading
      && (api.getAll.Some? && api.getAll.value.Some? ==> fuelTypes == api.getAll.value.value)
      && (api.getAll.None? || api.getAll.value.None? ==> fuelTypes == [])
    }

    /** `fetchFuelTypes`: the list (or none) on success, an empty list on failure. */
    method FetchFuelTypes(api: FuelTypesApi)
      requires Valid()
      modifies this
      ensures Valid()
      ensures calls == old(calls) + [ListCall]
      ensures api.getAll.None? ==> fuelTypes == []
      ensures api.getAll.Some? && api.getAll.value.None? ==> fuelTypes == []
      ensures api.getAll.Some? && api.getAll.value.Some? ==> fuelTypes == api.getAll.value.value
      ensures !loading
      ensures showForm == old(showForm) && editing == old(editing) && formValues == old(formValues)
      ensures formDefaults == old(formDefaults) && errorToasts == old(errorToasts)
    {
      loading := true;
      calls := calls + [ListCall];
      if api.getAll.Some? && api.getAll.value.Some? {
        fuelTypes := api.getAll.value.value;
      } else {
        fuelTypes := [];
      }
      loading := false;
    }

    /** The load effect: the list is fetched only for an administrator. */
    method LoadIfAdmin(api: FuelTypesApi)
      requires Valid()
      modifies this
      ensures Valid()
      ensures IsAdmin() ==> calls == old(calls) + [ListCall] && Loaded(api)
      ensures !IsAdmin() ==> calls == old(calls) && fuelTypes == old(fuelTypes) && loading == old(loading)
      ensures showForm == old(showForm) && editing == old(editing)
    {
      if IsAdmin() {
        FetchFuelTypes(api);
      }
    }

    /** The "new" button: opens the form with nothing being edited. */
    method OpenNew()
      requires Valid() && NewButtonShown()
      modifies this
      ensures Valid() && showForm && editing.None?
      ensures calls == old(calls) && formValues == old(formValues)
    {
      showForm := true;
    }

    /** `handleEdit`: the form opens on the fuel type's values. */
    method HandleEdit(t: FuelTypeRow)
      requires Valid()
      modifies this
      ensures Valid() && showForm && editing == Some(t)
      ensures formValues == EditValues(t) && formDefaults == EditValues(t)
      ensures calls == old(calls)
    {
      editing := Some(t);
      formValues := EditValues(t);
      formDefaults := EditValues(t);
      showForm := true;
    }

    /** `handleCancel`: closes the form and forgets the edit target. */
    method HandleCancel()
      requires Valid()
      modifies this
      ensures Valid() && !showForm && editing.None?
      ensures formValues == old(formDefaults) && formDefaults == old(formDefaults)
      ensures calls == old(calls)
    {
      formValues := formDefaults;
      showForm := false;
      editing := None;
    }

    /** `handleSubmit`: updates the edited fuel type or creates a new one.
        Success closes the form, forgets the edit target and refetches;
        failure shows a message and leaves the form as it was. */
    method HandleSubmit(data: FuelTypeForm, api: FuelTypesApi)
      requires Valid()
      modifies this
      ensures Valid()
      ensures |calls| >= |old(calls)| + 1 && calls[|old(calls)|] == SubmitCall(old(editing), data)
      ensures var outcome := if old(editing).Some? then api.update(old(editing).value.idFuelType, data)
                             else api.create(data);
              && (outcome.Success? ==>
                    !showForm && editing.None? && formValues == old(formDefaults)
                    && calls == old(calls) + [SubmitCall(old(editing), data), ListCall] && Loaded(api))
              && (outcome.Failure? ==>
                    showForm == old(showForm) && editing == old(editing) && formValues == old(formValues)
                    && calls == old(calls) + [SubmitCall(old(editing), data)]
                    && fuelTypes == old(fuelTypes) && loading == old(loading)
                    && var m := ResponseMessage(outcome.error, SaveFailedMessage);
                       errorToasts == old(errorToasts) + (if m.Some? then [m.value] else []))
    {
      var outcome: Result<(), Value>;
      if editing.Some? {
        outcome := api.update(editing.value.idFuelType, data);
      } else {
        outcome := api.create(data);
      }
      calls := calls + [SubmitCall(editing, data)];
      if outcome.Failure? {
        var m := ResponseMessage(outcome.error, SaveFailedMessage);
        if m.Some? {
          errorToasts := errorToasts + [m.value];
        }
        return;
      }
      formValues := formDefaults;
      showForm := false;
      editing := None;
      FetchFuelTypes(api);
    }

    /** `handleDelete`: nothing unless confirmed; a successful delete refetches. */
    method HandleDelete(id: real, confirmed: bool, api: FuelTypesApi)
      requires Valid()
      modifies this
      ensures Valid()
      ensures !confirmed ==> calls == old(calls) && fuelTypes == old(fuelTypes)
      ensures confirmed && api.delete(id) ==> calls == old(calls) + [DeleteCall(id), ListCall] && Loaded(api)
      ensures confirmed && !api.delete(id) ==>
                calls == old(calls) + [DeleteCall(id)] && fuelTypes == old(fuelTypes) && loading == old(loading)
      ensures showForm == old(showForm) && editing == old(editing)
    {
      if !confirmed {
        return;
      }
      calls := calls + [DeleteCall(id)];
      if api.delete(id) {
        FetchFuelTypes(api);
      }
    }
  }
}
