/** The sign-in dialog: three modes over one five-field form, submitting
    to the authentication provider. */
module AuthModal {
  import opened Wrappers
  import opened AuthContext

  datatype Mode = Login | Register | Forgot

  datatype FormData = FormData(email: string, password: string, name: string, location: string, country: string)

  const EmptyForm := FormData("", "", "", "", "")

  datatype Field = Email | Password | Name | Location | Country

  /** The inputs the dialog renders in each mode. */
  function VisibleFields(mode: Mode): set<Field> {
    match mode
    case Login => {Email, Password}
    case Register => {Email, Password, Name, Location, Country}
    case Forgot => {Email}
  }

  /** A form field's current value. */
  function FieldValue(form: FormData, field: Field): string {
    match field
    case Email => form.email
    case Password => form.password
    case Name => form.name
    case Location => form.location
    case Country => form.country
  }

  /** What `handleSubmit` hands to the provider in each mode. */
  datatype Request =
    | LoginRequest(email: string, password: string)
    | RegisterRequest(email: string, password: string, name: string, location: string, country: string)
    | ForgotRequest(email: string)

  function SubmitRequest(mode: Mode, form: FormData): Request {
    match mode
    case Login => LoginRequest(form.email, form.password)
    case Register => RegisterRequest(form.email, form.password, form.name, form.location, form.country)
    case Forgot => ForgotRequest(form.email)
  }

  /** The request carries exactly the fields the dialog shows: two forms
      give the same request iff they agree on every visible field, so a
      hidden field left over from another mode is never sent. */
  lemma RequestCarriesVisibleFields(mode: Mode, a: FormData, b: FormData)
    ensures SubmitRequest(mode, a) == SubmitRequest(mode, b) <==>
              forall f :: f in VisibleFields(mode) ==> FieldValue(a, f) == FieldValue(b, f)
  {
    if forall f :: f in VisibleFields(mode) ==> FieldValue(a, f) == FieldValue(b, f) {
      assert FieldValue(a, Email) == FieldValue(b, Email);
      if mode != Forgot {
        assert FieldValue(a, Password) == FieldValue(b, Password);
      }
      if mode == Register {
        assert FieldValue(a, Name) == FieldValue(b, Name);
        assert FieldValue(a, Location) == FieldValue(b, Location);
        assert FieldValue(a, Country) == FieldValue(b, Country);
      }
    }
  }

  /** The mode-switch links each mode shows. */
  predicate LinkShown(from: Mode, to: Mode) {
    match from
    case Login => to == Forgot || to == Register
    case Register => to == Login
    case Forgot => to == Login
  }

  /** A form field's setter: `setFormData({ ...formData, [field]: value })`. */
  function WithField(form: FormData, field: Field, value: string): (r: FormData)
    ensures FieldValue(r, field) == value
    ensures forall g :: g != field ==> FieldValue(r, g) == FieldValue(form, g)
  {
    match field
    case Email => form.(email := value)
    case Password => form.(password := value)
    case Name => form.(name := value)
    case Location => form.(location := value)
    case Country => form.(country := value)
  }

  class AuthDialog {
    var mode: Mode
    var form: FormData
    /** Set once `onClose` has been called. */
    var closeRequested: bool
    const auth: AuthProvider

    /** `initialMode` defaults to login. */
    constructor (auth: AuthProvider, initialMode: Option<Mode>)
      ensures this.auth == auth && mode == initialMode.GetOr(Login)
      ensures form == EmptyForm && !closeRequested
    {
      this.auth := auth;
      mode := initialMode.GetOr(Login);
      form := EmptyForm;
      closeRequested := false;
    }

    /** The submit button is disabled while a request is in flight. */
    predicate SubmitEnabled()
      reads this, auth
    {
      !auth.isLoading
    }

    method Input(field: Field, value: string)
      modifies this
      ensures form == WithField(old(form), field, value)
      ensures mode == old(mode) && closeRequested == old(closeRequested)
    {
      form := WithField(form, field, value);
    }

    /** A mode-switch link: change mode and clear the form. */
    method FollowLink(to: Mode)
      requires LinkShown(mode, to)
      modifies this
      ensures mode == to && form == EmptyForm && closeRequested == old(closeRequested)
    {
      mode := to;
      form := EmptyForm;
    }

    /** `handleSubmit`. The close test reads the mode as it was when the
        submit started, so a successful reset request switches to login
        without closing. A failure changes neither mode nor form. */
    method HandleSubmit(newId: string, now: string) returns (success: bool)
      requires SubmitEnabled()
      modifies this, auth, auth.accounts
      ensures old(mode) == Login ==> success == LoginAccepted(old(auth.accounts.accounts), old(form).email, old(form).password)
      ensures old(mode) == Register ==> success == !EmailTaken(old(auth.accounts.accounts), old(form).email)
      ensures old(mode) == Forgot ==> success == EmailTaken(old(auth.accounts.accounts), old(form).email)
      ensures success && old(mode) != Forgot ==> closeRequested && form == EmptyForm && mode == old(mode)
      ensures success && old(mode) == Forgot ==>
                mode == Login && form == old(form) && closeRequested == old(closeRequested)
      ensures !success ==> mode == old(mode) && form == old(form) && closeRequested == old(closeRequested)
      ensures old(mode) != Register ==> auth.accounts.accounts == old(auth.accounts.accounts)
      ensures success && old(mode) == Login ==>
                var u := FindByEmail(old(auth.accounts.accounts), old(form).email).value.(lastLogin := Some(now));
                auth.user == Some(u) && auth.storage == old(auth.storage)[StorageKey := u]
      ensures success && old(mode) == Register ==>
                var f := old(form);
                var u := NewAccount(newId, f.email, f.name, f.location, f.country, now);
                auth.accounts.accounts == old(auth.accounts.accounts) + [u]
                && auth.user == Some(u) && auth.storage == old(auth.storage)[StorageKey := u]
      ensures (!success || old(mode) == Forgot) ==> auth.user == old(auth.user) && auth.storage == old(auth.storage)
      ensures !success ==> auth.accounts.accounts == old(auth.accounts.accounts)
      ensures !auth.isLoading
    {
      var submittedMode := mode;
      success := false;
      match SubmitRequest(mode, form) {
        case LoginRequest(email, password) =>
          success := auth.Login(email, password, now);
        case RegisterRequest(email, password, name, location, country) =>
          success := auth.Register(email, password, name, location, country, newId, now);
        case ForgotRequest(email) =>
          success := auth.ForgotPassword(email);
          if success {
            mode := Login;
          }
      }
      if success && submittedMode != Forgot {
        closeRequested := true;
        form := EmptyForm;
      }
    }
  }
}
