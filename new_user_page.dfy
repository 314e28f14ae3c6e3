/** src/app/dashboard/users/new/page.tsx: the administrators' form for
    creating a user. The form schema is the shared user schema of
    `@/lib/schemas` (not part of this model, so its issues are a parameter)
    extended with a password confirmation; a valid form is sent without the
    confirmation. */
module NewUserPage {
  import opened Wrappers
  import opened Js
  import opened Schemas
  import Permissions
  import Text

  /** The fields the user schema checks. */
  datatype UserData = UserData(
    name: string, lastName: string, email: string, password: string,
    phone: string, idRole: int, idFuelStation: Option<int>)

  /** The form: the user fields plus the confirmation. */
  datatype UserForm = UserForm(data: UserData, confirmPassword: string)

  datatype Issue = Issue(path: string, message: string)

  const ConfirmRequiredMessage := "Confirma la contraseña"
  const MismatchMessage := "Las contraseñas no coinciden"
  const CreateFailedMessage := "Error al crear el usuario"
  const UsersRoute := "/dashboard/users"
  const DashboardRoute := "/dashboard"
  const UserRoleId := 3

  /** The form's initial values: empty texts, the USER role, no station. */
  const Defaults := UserForm(UserData("", "", "", "", "", UserRoleId, None), "")

  /** The issues of `CreateUserSchema`: the user schema's own, then the
      confirmation's length check, then the refinement. The refinement runs
      after failed value checks (lengths, e-mail), which do not abort the
      object; `userIssues` is taken to report such check failures only. A type
      failure (a required field left undefined, a role read as NaN) would
      abort the object and drop the mismatch issue; that case is outside
      the model. */
  function FormIssues(f: UserForm, userIssues: UserData -> seq<Issue>): (issues: seq<Issue>)
    ensures f.data.password != f.confirmPassword ==>
              |issues| > 0 && issues[|issues| - 1] == Issue("confirmPassword", MismatchMessage)
    ensures f.confirmPassword == "" ==> Issue("confirmPassword", ConfirmRequiredMessage) in issues
    ensures issues == [] <==>
              userIssues(f.data) == [] && f.confirmPassword != "" && f.data.password == f.confirmPassword
  {
    userIssues(f.data)
    + (if |f.confirmPassword| >= 1 then [] else [Issue("confirmPassword", ConfirmRequiredMessage)])
    + (if f.data.password == f.confirmPassword then [] else [Issue("confirmPassword", MismatchMessage)])
  }

  /** `const { confirmPassword, ...userData } = data`. */
  function Payload(f: UserForm): UserData {
    f.data
  }

  /** Only the confirmation is dropped: putting it back gives the form. This
      holds by construction, because the form is modelled as the user data
      plus the confirmation (`UserForm(data, confirmPassword)`); it records
      that modelling choice rather than a property of the object spread. */
  lemma PayloadDropsOnlyConfirmation(f: UserForm)
    ensures UserForm(Payload(f), f.confirmPassword) == f
  {
  }

  /** The station select: "" is no station, any other value is the id it
      shows. */
  function StationChoice(value: string): (r: Option<int>)
    requires value == "" || Text.IsDecimalText(value)
    ensures value == "" <==> r.None?
  {
    if value == "" then None else Some(Text.DecimalValue(value))
  }

  /** Every station option maps back to its own id, and "Sin asignar" to none. */
  lemma StationChoiceRoundTrip(id: int)
    ensures Text.IsDecimalText(Text.DecimalText(id))
    ensures StationChoice(Text.DecimalText(id)) == Some(id)
    ensures StationChoice("") == None
  {
    Text.DecimalRoundTrip(id);
  }

  function IsAdmin(user: Option<SessionUser>): (r: bool)
    ensures r <==> user.Some? && user.value.role == "ADMIN"
  {
    Permissions.HasPermission(user, ["ADMIN"])
  }

  class NewUserForm {
    const user: Option<SessionUser>
    var isLoading: bool
    var navigations: seq<string>
    /** Payloads sent to the create call, oldest first. */
    var sent: seq<UserData>
    var errorToasts: seq<Value>
    /** The issues shown under the fields after the last submit. */
    var issues: seq<Issue>

    constructor (user: Option<SessionUser>)
      ensures this.user == user && !isLoading
      ensures navigations == [] && sent == [] && errorToasts == [] && issues == []
    {
      this.user := user;
      isLoading := false;
      navigations := [];
      sent := [];
      errorToasts := [];
      issues := [];
    }

    /** Nothing is rendered for non-administrators. */
    function Rendered(): (r: bool)
      reads this
      ensures r <==> user.Some? && user.value.role == "ADMIN"
    {
      IsAdmin(user)
    }

    /** The access effect: a signed-in non-administrator goes to the dashboard. */
    method CheckAccess()
      modifies this
      ensures navigations == old(navigations) + (if user.Some? && !IsAdmin(user) then [DashboardRoute] else [])
      ensures sent == old(sent) && isLoading == old(isLoading) && issues == old(issues)
    {
      if user.Some? && !IsAdmin(user) {
        navigations := navigations + [DashboardRoute];
      }
    }

    /** `onSubmit`: sends the payload; on success goes to the user list, on
        failure shows the error's message. Loading ends false either way. */
    method OnSubmit(f: UserForm, create: UserData -> Result<(), Value>)
      modifies this
      ensures sent == old(sent) + [Payload(f)]
      ensures !isLoading
      ensures create(Payload(f)).Success? ==>
                navigations == old(navigations) + [UsersRoute] && errorToasts == old(errorToasts)
      ensures create(Payload(f)).Failure? ==>
                navigations == old(navigations)
                && var m := ResponseMessage(create(Payload(f)).error, CreateFailedMessage);
                   errorToasts == old(errorToasts) + (if m.Some? then [m.value] else [])
      ensures issues == old(issues)
    {
      isLoading := true;
      var payload := Payload(f);
      sent := sent + [payload];
      var outcome := create(payload);
      if outcome.Success? {
        navigations := navigations + [UsersRoute];
      } else {
        var m := ResponseMessage(outcome.error, CreateFailedMessage);
        if m.Some? {
          errorToasts := errorToasts + [m.value];
        }
      }
      isLoading := false;
    }

    /** `form.handleSubmit(onSubmit)`: the resolver validates first; a form
        with issues shows them and sends nothing. */
    method Submit(f: UserForm, userIssues: UserData -> seq<Issue>, create: UserData -> Result<(), Value>)
      modifies this
      ensures issues == FormIssues(f, userIssues)
      ensures issues != [] ==> sent == old(sent) && navigations == old(navigations)
      ensures issues == [] ==> sent == old(sent) + [Payload(f)]
      ensures sent != old(sent) ==> f.data.password == f.confirmPassword
    {
      issues := FormIssues(f, userIssues);
      if issues == [] {
        OnSubmit(f, create);
      }
    }
  }
}
