/** src/app/profile/page.tsx: the signed-in user's own profile. Two forms:
    the profile form, validated by the user update schema without its
    password field, and the password form, validated by its own schema.
    Both submit through one update helper that raises a loading flag, shows
    a success or an error toast and drops the flag again. */
module ProfilePage {
  import opened Wrappers
  import opened Js
  import opened Schemas
  import Api

  // ------------------------------------------------------------ profile form

  /** The user update without its password. */
  datatype Profile = Profile(
    name: Option<string>, lastName: Option<string>, email: Option<string>,
    phone: Nullable<string>, idRole: Option<real>, idFuelStation: Nullable<real>)

  /** `profileSchema`: every field of the user update schema except the password. */
  predicate ValidProfile(p: Profile, c: Checks) {
    && (p.name.None? || LengthIn(p.name.value, 2, 255))
    && (p.lastName.None? || LengthIn(p.lastName.value, 2, 255))
    && (p.email.None? || (c.isEmail(p.email.value) && |p.email.value| <= 255))
    && (!p.phone.Given? || |p.phone.value| <= 20)
    && (p.idRole.None? || IsPositiveInt(p.idRole.value))
    && (!p.idFuelStation.Given? || IsPositiveInt(p.idFuelStation.value))
  }

  function AsUserUpdate(p: Profile): UserUpdate {
    UserUpdate(p.name, p.lastName, p.email, None, p.phone, p.idRole, p.idFuelStation)
  }

  function ProfileOf(u: UserUpdate): Profile {
    Profile(u.name, u.lastName, u.email, u.phone, u.idRole, u.idFuelStation)
  }

  /** Omitting the password from the update schema: a profile is valid exactly
      when it is a valid user update without a password, every such update is
      a profile, and the empty profile is valid. */
  lemma ProfileIsUpdateWithoutPassword(p: Profile, u: UserUpdate, c: Checks)
    ensures ValidProfile(p, c) <==> ValidUserUpdate(AsUserUpdate(p), c)
    ensures ProfileOf(AsUserUpdate(p)) == p
    ensures u.password.None? ==> AsUserUpdate(ProfileOf(u)) == u
    ensures ValidProfile(Profile(None, None, None, Omitted, None, Omitted), c)
  {
  }

  /** The body the profile form sends; absent fields have no key. */
  function ProfileValue(p: Profile): (v: Value)
    ensures v.Obj? && v.fields.Keys <= ProfileKeys
    ensures "password" !in v.fields
  {
    var names := OptionalField("name", p.name) + OptionalField("lastName", p.lastName);
    var contact := OptionalField("email", p.email) + NullableField("phone", p.phone, (s: string) => Str(s));
    var ids := (if p.idRole.Some? then map["idRole" := Num(p.idRole.value)] else map[])
               + NullableField("idFuelStation", p.idFuelStation, (x: real) => Num(x));
    Obj(names + contact + ids)
  }

  const ProfileKeys: set<string> := {"name", "lastName", "email", "phone", "idRole", "idFuelStation"}

  /** The profile body carries exactly the fields the form holds: a name or
      an e-mail is sent iff present, with its value. */
  lemma ProfileValueFields(p: Profile)
    ensures "name" in ProfileValue(p).fields <==> p.name.Some?
    ensures "email" in ProfileValue(p).fields <==> p.email.Some?
    ensures p.name.Some? ==> ProfileValue(p).fields["name"] == Str(p.name.value)
    ensures p.email.Some? ==> ProfileValue(p).fields["email"] == Str(p.email.value)
  {
    var contact := OptionalField("email", p.email) + NullableField("phone", p.phone, (s: string) => Str(s));
    var ids := (if p.idRole.Some? then map["idRole" := Num(p.idRole.value)] else map[])
               + NullableField("idFuelStation", p.idFuelStation, (x: real) => Num(x));
    assert "name" !in contact && "name" !in ids && "email" !in ids;
  }

  /** The values the profile form is reset to once the user is known: name,
      last name and email from the session; the phone line is commented out. */
  function ProfileDefaults(user: SessionUser): (p: Profile)
    ensures p.email == Some(user.email) && p.name == user.name && p.lastName == user.lastName
    ensures p.phone.Omitted? && p.idRole.None? && p.idFuelStation.Omitted?
  {
    Profile(user.name, user.lastName, Some(user.email), Omitted, None, Omitted)
  }

  /** A session user with a well-formed email gives a valid starting profile
      when its names are absent or of an accepted length. */
  lemma DefaultsAreValid(user: SessionUser, c: Checks)
    requires c.isEmail(user.email) && |user.email| <= 255
    requires user.name.None? || LengthIn(user.name.value, 2, 255)
    requires user.lastName.None? || LengthIn(user.lastName.value, 2, 255)
    ensures ValidProfile(ProfileDefaults(user), c)
  {
  }

  // ----------------------------------------------------------- password form

  /** What the password form's resolver is given. `currentPassword` is None
      when the form holds no value for it at all: the form has no default
      values, so a field without a rendered input stays undefined. */
  datatype PasswordForm = PasswordForm(currentPassword: Option<string>, newPassword: string, confirmPassword: string)

  datatype PasswordField = CurrentPassword | NewPassword | ConfirmPassword

  datatype Issue = Issue(field: PasswordField, message: string)

  const RequiredMessage := "Required"
  const CurrentRequiredMessage := "La contraseña actual es requerida"
  const NewTooShortMessage := "La nueva contraseña debe tener al menos 6 caracteres"
  const MismatchMessage := "Las contraseñas no coinciden"
  const MinNewPassword := 6

  /** `passwordSchema`: the field checks in field order, then the refinement.
      A missing `currentPassword` is a type error ("Required"), which aborts
      the object, so the refinement does not run; a failed length check does
      not abort, and the refinement still runs. */
  function PasswordIssues(f: PasswordForm): (issues: seq<Issue>)
    ensures issues == [] <==>
              && f.currentPassword.Some? && f.currentPassword.value != ""
              && |f.newPassword| >= MinNewPassword && f.newPassword == f.confirmPassword
    ensures Issue(CurrentPassword, RequiredMessage) in issues <==> f.currentPassword.None?
    ensures Issue(CurrentPassword, CurrentRequiredMessage) in issues <==> f.currentPassword == Some("")
    ensures Issue(NewPassword, NewTooShortMessage) in issues <==> |f.newPassword| < MinNewPassword
    ensures Issue(ConfirmPassword, MismatchMessage) in issues <==>
              f.currentPassword.Some? && f.newPassword != f.confirmPassword
    ensures f.currentPassword.Some? && f.newPassword != f.confirmPassword ==>
              issues[|issues| - 1] == Issue(ConfirmPassword, MismatchMessage)
    ensures |issues| <= 3
  {
    var fieldIssues :=
      (match f.currentPassword
       case None => [Issue(CurrentPassword, RequiredMessage)]
       case Some(current) => if |current| >= 1 then [] else [Issue(CurrentPassword, CurrentRequiredMessage)])
      + (if |f.newPassword| >= MinNewPassword then [] else [Issue(NewPassword, NewTooShortMessage)]);
    if f.currentPassword.None? then fieldIssues
    else fieldIssues + (if f.newPassword == f.confirmPassword then [] else [Issue(ConfirmPassword, MismatchMessage)])
  }

  /** The values the page's password form can hold: its current-password
      input is commented out, so that field is never set. */
  function PageForm(newPassword: string, confirmPassword: string): (f: PasswordForm)
    ensures f.currentPassword.None?
    ensures f.newPassword == newPassword && f.confirmPassword == confirmPassword
  {
    PasswordForm(None, newPassword, confirmPassword)
  }

  /** As written, the page's password form never passes: the missing current
      password is always reported, the refinement never runs, and so no
      password change can be submitted. Matching six-character passwords
      give the single "Required" issue. */
  lemma PageFormNeverPasses(newPassword: string, confirmPassword: string)
    ensures PasswordIssues(PageForm(newPassword, confirmPassword)) != []
    ensures Issue(CurrentPassword, RequiredMessage) in PasswordIssues(PageForm(newPassword, confirmPassword))
    ensures Issue(ConfirmPassword, MismatchMessage) !in PasswordIssues(PageForm(newPassword, confirmPassword))
    ensures PasswordIssues(PageForm("secret1", "secret1")) == [Issue(CurrentPassword, RequiredMessage)]
  {
    assert |"secret1"| >= MinNewPassword;
  }

  /** With the current-password input restored, a non-empty current password
      and a matching new password of at least six characters pass, and the
      body sent is a valid password-only update. */
  lemma RestoredFormPasses(current: string, newPassword: string, c: Checks)
    requires current != "" && MinNewPassword <= |newPassword| <= 255
    ensures PasswordIssues(PasswordForm(Some(current), newPassword, newPassword)) == []
    ensures ValidUserUpdate(UserUpdate(None, None, None, Some(newPassword), Omitted, None, Omitted), c)
  {
    PasswordBodyIsValidUpdate(PasswordForm(Some(current), newPassword, newPassword), c);
  }

  /** The body the password form sends: the new password only. */
  function PasswordBody(f: PasswordForm): (v: Value)
    ensures v.Obj? && v.fields.Keys == {"password"} && v.fields["password"] == Str(f.newPassword)
  {
    Obj(map["password" := Str(f.newPassword)])
  }

  /** The password body is a valid user update (password only) whenever the
      password form passes and the new password fits the update schema's limit. */
  lemma PasswordBodyIsValidUpdate(f: PasswordForm, c: Checks)
    requires PasswordIssues(f) == [] && |f.newPassword| <= 255
    ensures ValidUserUpdate(UserUpdate(None, None, None, Some(f.newPassword), Omitted, None, Omitted), c)
  {
  }

  // -------------------------------------------------------------------- page

  const ProfileSuccessMessage := "Perfil actualizado exitosamente"
  const PasswordSuccessMessage := "Contraseña actualizada exitosamente"
  const FallbackErrorMessage := "Ocurrió un error"
  const EmptyPasswordForm := PasswordForm(None, "", "")

  /** Which form an update belongs to. */
  datatype Form = ProfileForm | PasswordFormKind

  /** `usersAPI.update(id, body)` with an abstract answer. */
  type UpdateCall = (real, Value) -> Result<(), Value>

  /** The error toast of `handleUpdate` as written reads
      `error.response?.data?.message`. The users service calls the
      intercepted client, which rejects with the server's body itself or a
      message object, so unless that body happens to carry a `response` key
      the toast is always the fallback: the server's message is never shown. */
  lemma ServerMessageNeverShown(e: Api.AxiosError)
    requires !(e.response.Some? && e.response.value.Obj? && "response" in e.response.value.fields)
    ensures ResponseMessage(Api.Rejection(e), FallbackErrorMessage) == Some(Str(FallbackErrorMessage))
  {
  }

  /** An instance: a rejected update whose body is `{message: "Email ya
      registrado"}` toasts "Ocurrió un error". */
  lemma DuplicateEmailMessageLost()
    ensures ResponseMessage(Api.Rejection(Api.AxiosError(Some(MessageObject("Email ya registrado")), true)),
                            FallbackErrorMessage)
            == Some(Str(FallbackErrorMessage))
  {
    ServerMessageNeverShown(Api.AxiosError(Some(MessageObject("Email ya registrado")), true));
  }

  /** The toast evidently intended, over what the intercepted client rejects
      with: the rejection's own truthy `message`, else the fallback. */
  function RejectionMessage(rejection: Value, fallback: string): (m: Value)
    requires fallback != ""
    ensures Truthy(m)
    ensures Truthy(GetOpt(rejection, "message")) ==> m == GetOpt(rejection, "message")
    ensures !Truthy(GetOpt(rejection, "message")) ==> m == Str(fallback)
  {
    Or(GetOpt(rejection, "message"), Str(fallback))
  }

  /** With RejectionMessage, a server body carrying a message shows that
      message, and a call that got no response shows the client's own text. */
  lemma RejectionMessageShowsServerMessage(e: Api.AxiosError, message: string)
    requires message != ""
    ensures e.response == Some(MessageObject(message)) ==>
              RejectionMessage(Api.Rejection(e), FallbackErrorMessage) == Str(message)
    ensures e.response.None? ==>
              RejectionMessage(Api.Rejection(e), FallbackErrorMessage)
              == Str(if e.request then Api.NoConnectionMessage else Api.UnexpectedMessage)
  {
    if e.response == Some(MessageObject(message)) {
      assert Truthy(MessageObject(message));
      assert GetOpt(Api.Rejection(e), "message") == Str(message);
    } else if e.response.None? {
      Api.NoResponseMessages(e);
    }
  }

  class ProfileManager {
    const user: Option<SessionUser>
    var isLoadingProfile: bool
    var isLoadingPassword: bool
    var profileValues: Profile
    var passwordValues: PasswordForm
    var passwordIssues: seq<Issue>
    var sent: seq<(real, Value)>
    var successToasts: seq<string>
    var errorToasts: seq<Value>
    var reloads: nat

    constructor (user: Option<SessionUser>)
      ensures this.user == user && !isLoadingProfile && !isLoadingPassword
      ensures profileValues == Profile(None, None, None, Omitted, None, Omitted)
      ensures passwordValues == EmptyPasswordForm && passwordIssues == []
      ensures sent == [] && successToasts == [] && errorToasts == [] && reloads == 0
    {
      this.user := user;
      isLoadingProfile := false;
      isLoadingPassword := false;
      profileValues := Profile(None, None, None, Omitted, None, Omitted);
      passwordValues := EmptyPasswordForm;
      passwordIssues := [];
      sent := [];
      successToasts := [];
      errorToasts := [];
      reloads := 0;
    }

    /** The page shows only a spinner until the user is known. */
    function ShowsSpinner(): bool
      reads this
    {
      user.None?
    }

    /** The effect that fills the profile form once the user is known. */
    method LoadProfile()
      modifies this
      ensures user.Some? ==> profileValues == ProfileDefaults(user.value)
      ensures user.None? ==> profileValues == old(profileValues)
      ensures sent == old(sent) && passwordValues == old(passwordValues)
    {
      if user.Some? {
        profileValues := ProfileDefaults(user.value);
      }
    }

    /** `handleUpdate`: one call, then a success toast and the form's reset,
        or the server's message (or the fallback) as an error toast; the
        form's loading flag is down again afterwards. */
    method HandleUpdate(form: Form, id: real, body: Value, update: UpdateCall, successMessage: string)
      modifies this
      ensures sent == old(sent) + [(id, body)]
      ensures form.ProfileForm? ==> !isLoadingProfile && isLoadingPassword == old(isLoadingPassword)
      ensures form.PasswordFormKind? ==> !isLoadingPassword && isLoadingProfile == old(isLoadingProfile)
      ensures update(id, body).Success? ==>
                && successToasts == old(successToasts) + [successMessage] && errorToasts == old(errorToasts)
                && (form.ProfileForm? ==> reloads == old(reloads) + 1 && passwordValues == old(passwordValues))
                && (form.PasswordFormKind? ==> passwordValues == EmptyPasswordForm && reloads == old(reloads))
      ensures update(id, body).Failure? ==>
                && successToasts == old(successToasts) && reloads == old(reloads)
                && passwordValues == old(passwordValues)
                && var m := ResponseMessage(update(id, body).error, FallbackErrorMessage);
                   errorToasts == old(errorToasts) + (if m.Some? then [m.value] else [])
      ensures profileValues == old(profileValues) && passwordIssues == old(passwordIssues)
    {
      if form.ProfileForm? { isLoadingProfile := true; } else { isLoadingPassword := true; }
      var outcome := update(id, body);
      sent := sent + [(id, body)];
      if outcome.Success? {
        successToasts := successToasts + [successMessage];
        if form.ProfileForm? {
          reloads := reloads + 1;
        } else {
          passwordValues := EmptyPasswordForm;
        }
      } else {
        var m := ResponseMessage(outcome.error, FallbackErrorMessage);
        if m.Some? {
          errorToasts := errorToasts + [m.value];
        }
      }
      if form.ProfileForm? { isLoadingProfile := false; } else { isLoadingPassword := false; }
    }

    /** Submitting the profile form: an invalid profile sends nothing; a valid
        one is sent as an update of the signed-in user, and nothing happens
        without a user. */
    method SubmitProfile(data: Profile, c: Checks, update: UpdateCall)
      modifies this
      ensures user.Some? && ValidProfile(data, c) <==> |sent| == |old(sent)| + 1
      ensures user.Some? && ValidProfile(data, c) ==> sent == old(sent) + [(user.value.id, ProfileValue(data))]
      ensures !(user.Some? && ValidProfile(data, c)) ==> sent == old(sent) && successToasts == old(successToasts)
      ensures !isLoadingProfile || isLoadingProfile == old(isLoadingProfile)
    {
      if !ValidProfile(data, c) || user.None? {
        return;
      }
      HandleUpdate(ProfileForm, user.value.id, ProfileValue(data), update, ProfileSuccessMessage);
    }

    /** Submitting a password form whose current password is given, as the
        page would with its current-password input restored: the issues are
        shown and nothing is sent unless the form passes; the body holds the
        new password only. */
    method SubmitPassword(f: PasswordForm, update: UpdateCall)
      modifies this
      ensures passwordIssues == PasswordIssues(f)
      ensures user.Some? && PasswordIssues(f) == [] <==> |sent| == |old(sent)| + 1
      ensures user.Some? && PasswordIssues(f) == [] ==> sent == old(sent) + [(user.value.id, PasswordBody(f))]
      ensures PasswordIssues(f) != [] || user.None? ==>
                && sent == old(sent) && passwordValues == old(passwordValues)
                && successToasts == old(successToasts) && errorToasts == old(errorToasts)
                && isLoadingPassword == old(isLoadingPassword)
      ensures profileValues == old(profileValues)
    {
      passwordIssues := PasswordIssues(f);
      if passwordIssues != [] || user.None? {
        return;
      }
      HandleUpdate(PasswordFormKind, user.value.id, PasswordBody(f), update, PasswordSuccessMessage);
    }

    /** The page's password submit as written: the form holds no current
        password, so the issues always include "Required" and nothing is
        ever sent, whatever the two visible fields hold. */
    method SubmitPageForm(newPassword: string, confirmPassword: string, update: UpdateCall)
      modifies this
      ensures passwordIssues == PasswordIssues(PageForm(newPassword, confirmPassword))
      ensures Issue(CurrentPassword, RequiredMessage) in passwordIssues
      ensures sent == old(sent) && successToasts == old(successToasts) && errorToasts == old(errorToasts)
      ensures passwordValues == old(passwordValues) && profileValues == old(profileValues)
      ensures isLoadingPassword == old(isLoadingPassword)
    {
      PageFormNeverPasses(newPassword, confirmPassword);
      SubmitPassword(PageForm(newPassword, confirmPassword), update);
    }
  }
}
