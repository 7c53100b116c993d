/** The registration form: a first step that picks the role, a second step
    with the fields, and the checks made before `register` is called. */
module RegisterForm {
  import opened Records
  import opened Auth

  /** The form's fields; `role` is `None` until a role is picked. */
  datatype FormData = FormData(
    name: string,
    email: string,
    password: string,
    confirmPassword: string,
    institution: string,
    role: Option<Role>)

  /** The text inputs `handleChange` serves, by their `name` attribute. */
  datatype Field = NameField | EmailField | PasswordField | ConfirmPasswordField | InstitutionField

  /** `{ ...formData, [name]: value }`: only the named field takes the value. */
  function SetField(f: FormData, field: Field, value: string): (r: FormData)
    ensures r.role == f.role
    ensures r.name == (if field == NameField then value else f.name)
    ensures r.email == (if field == EmailField then value else f.email)
    ensures r.password == (if field == PasswordField then value else f.password)
    ensures r.confirmPassword == (if field == ConfirmPasswordField then value else f.confirmPassword)
    ensures r.institution == (if field == InstitutionField then value else f.institution)
  {
    match field
    case NameField => f.(name := value)
    case EmailField => f.(email := value)
    case PasswordField => f.(password := value)
    case ConfirmPasswordField => f.(confirmPassword := value)
    case InstitutionField => f.(institution := value)
  }

  datatype FormError = PasswordsDontMatch | MissingInformation

  predicate AnyFieldMissing(f: FormData) {
    f.role.None? || f.name == "" || f.email == "" || f.password == "" || f.institution == ""
  }

  /** The checks of `handleSubmit`, in order: the password must equal its
      confirmation (checked before anything else), then role, name, email,
      password and institution must be non-empty. A form that passes gives
      `register` exactly name, email, password, role and institution. */
  function CheckForm(f: FormData): (r: Result<Registration, FormError>)
    ensures f.password != f.confirmPassword ==> r == Err(PasswordsDontMatch)
    ensures f.password == f.confirmPassword && AnyFieldMissing(f) ==> r == Err(MissingInformation)
    ensures r.Ok? <==> f.password == f.confirmPassword && !AnyFieldMissing(f)
    ensures r.Ok? ==> r.value == Registration(f.name, f.email, f.password, f.role, f.institution, None)
  {
    if f.password != f.confirmPassword then Err(PasswordsDontMatch)
    else if AnyFieldMissing(f) then Err(MissingInformation)
    else Ok(Registration(f.name, f.email, f.password, f.role, f.institution, None))
  }

  /** A registration that passes the form is never refused for a missing
      role: the account gets exactly the role picked at step 1. */
  lemma FormRoleReachesAccount(f: FormData, id: string)
    requires CheckForm(f).Ok?
    ensures NewAccount(CheckForm(f).value, id).profile.role == f.role.value
    ensures NewAccount(CheckForm(f).value, id).profile.points == (if f.role.value == Researcher then 100 else 0)
  {
  }

  datatype SubmitError = FormRefused(reason: FormError) | RegistrationFailed(cause: RegisterError)

  class Form {
    var formData: FormData
    var loading: bool
    var step: int

    constructor ()
      ensures formData == FormData("", "", "", "", "", None)
      ensures !loading && step == 1
    {
      formData := FormData("", "", "", "", "", None);
      loading := false;
      step := 1;
    }

    /** `handleChange`: only the named field changes. */
    method HandleChange(field: Field, value: string)
      modifies this
      ensures formData == SetField(old(formData), field, value)
      ensures loading == old(loading) && step == old(step)
    {
      formData := SetField(formData, field, value);
    }

    /** `handleRoleSelect`: the role is recorded and the form moves to step 2. */
    method HandleRoleSelect(role: Role)
      modifies this
      ensures formData == old(formData).(role := Some(role))
      ensures step == 2 && loading == old(loading)
    {
      formData := formData.(role := Some(role));
      step := 2;
    }

    /** The Back button: the form returns to step 1, keeping its fields. */
    method Back()
      modifies this
      ensures step == 1 && formData == old(formData) && loading == old(loading)
    {
      step := 1;
    }

    /** `handleSubmit`: a refused form leaves the store and `loading`
        untouched and `register` is not called; otherwise `register` runs
        with the form's values (`loading` is raised around the call and is
        lowered afterwards, whether it succeeds or fails). */
    method HandleSubmit(store: Store, id: string) returns (outcome: Result<User, SubmitError>)
      modifies this, store
      ensures formData == old(formData) && step == old(step)
      ensures CheckForm(old(formData)).Err? ==>
        && outcome == Err(FormRefused(CheckForm(old(formData)).error))
        && unchanged(store) && loading == old(loading)
      ensures CheckForm(old(formData)).Ok? ==>
        var req := CheckForm(old(formData)).value;
        && !loading
        && (EmailTaken(Items(old(store.users)), req.email) ==>
              outcome == Err(RegistrationFailed(UserAlreadyExists))
              && store.users == old(store.users) && store.session == old(store.session))
        && (!EmailTaken(Items(old(store.users)), req.email) ==>
              outcome == Ok(NewAccount(req, id).profile)
              && store.users == Some(Items(old(store.users)) + [NewAccount(req, id)])
              && store.session == Some(NewAccount(req, id).profile))
      ensures store.surveys == old(store.surveys) && store.submissions == old(store.submissions)
    {
      var checked := CheckForm(formData);
      if checked.Err? {
        return Err(FormRefused(checked.error));
      }
      loading := true;
      var registered := store.Register(checked.value, id);
      loading := false;
      if registered.Err? {
        return Err(RegistrationFailed(registered.error));
      }
      outcome := Ok(registered.value);
    }
  }
}
