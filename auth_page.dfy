/** src/app/auth/page.tsx: the sign-in / sign-up form. Its state is the mode,
    the three text fields and a partial map of field errors; the handlers
    replace that state. Submitting only records that the form went through
    (the page does nothing else with it). */
module AuthPage {
  import Text

  datatype Field = Name | Email | Password

  datatype FormState = FormState(name: string, email: string, password: string)

  const EmptyForm := FormState("", "", "")

  const NameRequired := "Nombre requerido"
  const EmailRequired := "Correo requerido"
  const PasswordRequired := "Contraseña requerida"

  function FieldValue(form: FormState, f: Field): string {
    match f
    case Name => form.name
    case Email => form.email
    case Password => form.password
  }

  /** `{ ...form, [field]: value }`: only `f` changes. */
  function WithField(form: FormState, f: Field, value: string): (r: FormState)
    ensures FieldValue(r, f) == value
    ensures forall g :: g != f ==> FieldValue(r, g) == FieldValue(form, g)
  {
    match f
    case Name => form.(name := value)
    case Email => form.(email := value)
    case Password => form.(password := value)
  }

  /** The errors `validate` reports: a name error only in sign-up mode, and
      an error for each field left empty or all white space. Exactly the
      failing fields are present, and the form is accepted iff none fails. */
  function ValidationErrors(isLogin: bool, form: FormState): (errors: map<Field, string>)
    ensures Name in errors <==> !isLogin && Text.Blank(form.name)
    ensures Email in errors <==> Text.Blank(form.email)
    ensures Password in errors <==> Text.Blank(form.password)
    ensures errors.Keys <= {Name, Email, Password}
    ensures Name in errors ==> errors[Name] == NameRequired
    ensures Email in errors ==> errors[Email] == EmailRequired
    ensures Password in errors ==> errors[Password] == PasswordRequired
    ensures errors == map[] <==>
              (isLogin || !Text.Blank(form.name)) && !Text.Blank(form.email) && !Text.Blank(form.password)
  {
    var e1: map<Field, string> := if !isLogin && Text.Blank(form.name) then map[Name := NameRequired] else map[];
    var e2 := if Text.Blank(form.email) then e1[Email := EmailRequired] else e1;
    var e3 := if Text.Blank(form.password) then e2[Password := PasswordRequired] else e2;
    assert Name in e3 || Email in e3 || Password in e3 ==> e3 != map[];
    e3
  }

  /** Signing in never reports a name error, whatever the name. */
  lemma LoginModeIgnoresName(form: FormState, name: string)
    ensures Name !in ValidationErrors(true, form)
    ensures ValidationErrors(true, form.(name := name)) == ValidationErrors(true, form)
  {
  }

  class AuthForm {
    var isLogin: bool
    var form: FormState
    var errors: map<Field, string>
    /** The forms that passed validation on submit, oldest first. */
    var submitted: seq<FormState>

    /** Sign-in mode, empty fields, no errors. */
    constructor ()
      ensures isLogin && form == EmptyForm && errors == map[] && submitted == []
    {
      isLogin := true;
      form := EmptyForm;
      errors := map[];
      submitted := [];
    }

    /** `handleChange`: sets the edited field and blanks that field's error only. */
    method HandleChange(f: Field, value: string)
      modifies this
      ensures form == WithField(old(form), f, value)
      ensures errors == old(errors)[f := ""]
      ensures isLogin == old(isLogin) && submitted == old(submitted)
    {
      form := WithField(form, f, value);
      errors := errors[f := ""];
    }

    /** `toggleMode`: flips the mode and clears the fields and the errors. */
    method ToggleMode()
      modifies this
      ensures isLogin == !old(isLogin)
      ensures form == EmptyForm && errors == map[]
      ensures submitted == old(submitted)
    {
      isLogin := !isLogin;
      errors := map[];
      form := EmptyForm;
    }

    /** `validate`: builds a fresh error map field by field, replaces the
        old errors with it, and reports whether it is empty. */
    method Validate() returns (ok: bool)
      modifies this
      ensures errors == ValidationErrors(isLogin, form)
      ensures ok <==> errors == map[]
      ensures isLogin == old(isLogin) && form == old(form) && submitted == old(submitted)
    {
      // `!s.trim()` is written as `Text.Blank(s)`; the two agree by
      // Text.TrimEmptyIffAllWhitespace.
      var newErrors: map<Field, string> := map[];
      if !isLogin && Text.Blank(form.name) {
        newErrors := newErrors[Name := NameRequired];
      }
      if Text.Blank(form.email) {
        newErrors := newErrors[Email := EmailRequired];
      }
      if Text.Blank(form.password) {
        newErrors := newErrors[Password := PasswordRequired];
      }
      errors := newErrors;
      ok := newErrors == map[];
    }

    /** `handleSubmit`: goes through only when `validate` succeeds. */
    method HandleSubmit()
      modifies this
      ensures errors == ValidationErrors(isLogin, form)
      ensures submitted == old(submitted) + (if errors == map[] then [form] else [])
      ensures isLogin == old(isLogin) && form == old(form)
    {
      var ok := Validate();
      if !ok {
        return;
      }
      submitted := submitted + [form];
    }
  }
}
