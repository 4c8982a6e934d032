/**
 * The registration screen: its form, the ordered validation chain in
 * `handleRegister`, and the payload handed to the auth store's `register`.
 */
module Register {

  datatype RegisterForm = RegisterForm(
    firstName: string,
    lastName: string,
    email: string,
    password: string,
    confirmPassword: string,
    company: string,
    phone: string,
    role: string)

  datatype FormField =
    FirstName | LastName | Email | Password | ConfirmPassword | Company | Phone | Role

  const DefaultRole: string := "Professional"

  const MinPasswordLength: nat := 6

  const InitialForm: RegisterForm := RegisterForm("", "", "", "", "", "", "", DefaultRole)

  function Get(form: RegisterForm, f: FormField): string {
    match f
    case FirstName => form.firstName
    case LastName => form.lastName
    case Email => form.email
    case Password => form.password
    case ConfirmPassword => form.confirmPassword
    case Company => form.company
    case Phone => form.phone
    case Role => form.role
  }

  /** `handleInputChange(field, value)`: only the named field takes the new value. */
  function HandleInputChange(form: RegisterForm, f: FormField, v: string): (r: RegisterForm)
    ensures Get(r, f) == v
    ensures forall g :: g != f ==> Get(r, g) == Get(form, g)
  {
    match f
    case FirstName => form.(firstName := v)
    case LastName => form.(lastName := v)
    case Email => form.(email := v)
    case Password => form.(password := v)
    case ConfirmPassword => form.(confirmPassword := v)
    case Company => form.(company := v)
    case Phone => form.(phone := v)
    case Role => form.(role := v)
  }

  /** Writing a field's own value back is a no-op. */
  lemma InputChangeKeepsForm(form: RegisterForm, f: FormField)
    ensures HandleInputChange(form, f, Get(form, f)) == form
  {
  }

  /** The outcome of the validation chain: the first alert raised, or ready to register. */
  datatype Check = MissingRequired | PasswordMismatch | PasswordTooShort | Ready

  /** The validation chain of `handleRegister`, in source order. */
  function Validate(form: RegisterForm): (r: Check)
    ensures r == MissingRequired <==>
              form.firstName == "" || form.lastName == "" || form.email == "" || form.password == ""
    ensures r == PasswordMismatch <==>
              && form.firstName != "" && form.lastName != "" && form.email != "" && form.password != ""
              && form.password != form.confirmPassword
    ensures r == PasswordTooShort <==>
              && form.firstName != "" && form.lastName != "" && form.email != "" && form.password != ""
              && form.password == form.confirmPassword && |form.password| < MinPasswordLength
    ensures r == Ready <==>
              && form.firstName != "" && form.lastName != "" && form.email != ""
              && form.password == form.confirmPassword && |form.password| >= MinPasswordLength
  {
    if form.firstName == "" || form.lastName == "" || form.email == "" || form.password == "" then
      MissingRequired
    else if form.password != form.confirmPassword then
      PasswordMismatch
    else if |form.password| < MinPasswordLength then
      PasswordTooShort
    else
      Ready
  }

  /** The alert body for each failed check. */
  function CheckMessage(c: Check): (r: string)
    ensures r == "" <==> c == Ready
  {
    match c
    case MissingRequired => "Please fill in all required fields"
    case PasswordMismatch => "Passwords do not match"
    case PasswordTooShort => "Password must be at least 6 characters long"
    case Ready => ""
  }

  /** Each failed check has its own alert body. */
  lemma CheckMessageInjective(c1: Check, c2: Check)
    requires CheckMessage(c1) == CheckMessage(c2)
    ensures c1 == c2
  {
  }

  /** Company, phone and role are optional: no value of them changes the validation outcome. */
  lemma OptionalFieldsIgnored(form: RegisterForm, f: FormField, v: string)
    requires f == Company || f == Phone || f == Role
    ensures Validate(HandleInputChange(form, f, v)) == Validate(form)
  {
  }

  /** The record handed to `register`. */
  datatype RegisterPayload = RegisterPayload(
    firstName: string,
    lastName: string,
    email: string,
    password: string,
    company: string,
    phone: string,
    role: string)

  /** The payload built from the form; the confirmation is not sent. */
  function Payload(form: RegisterForm): (p: RegisterPayload)
    ensures p.firstName == form.firstName && p.lastName == form.lastName && p.email == form.email
    ensures p.password == form.password && p.company == form.company && p.phone == form.phone
    ensures p.role == form.role
  {
    RegisterPayload(form.firstName, form.lastName, form.email, form.password,
                    form.company, form.phone, form.role)
  }

  /** The form a payload came from, when its confirmation matched its password. */
  function FormOf(p: RegisterPayload): RegisterForm {
    RegisterForm(p.firstName, p.lastName, p.email, p.password, p.password, p.company, p.phone, p.role)
  }

  /** A form that passed validation is recovered exactly from its payload: nothing but the redundant confirmation is dropped. */
  lemma PayloadLosesNothing(form: RegisterForm)
    requires Validate(form) == Ready
    ensures FormOf(Payload(form)) == form
  {
  }

  /** The payload does not depend on the confirmation field. */
  lemma PayloadIgnoresConfirmation(form: RegisterForm, v: string)
    ensures Payload(HandleInputChange(form, ConfirmPassword, v)) == Payload(form)
  {
  }

  /** What `handleRegister` does, given whether the store's `register` throws. */
  datatype RegisterResult =
    | Blocked(check: Check)             // validation alert; `register` not called
    | Registered(payload: RegisterPayload)   // success alert, then navigate to Login
    | RegisterFailed(payload: RegisterPayload)  // "Registration Failed" alert

  function HandleRegister(form: RegisterForm, registerThrows: bool): (r: RegisterResult)
    ensures r.Blocked? <==> Validate(form) != Ready
    ensures r.Blocked? ==> r.check == Validate(form)
    ensures !r.Blocked? ==> r.payload == Payload(form)
    ensures r.Registered? <==> Validate(form) == Ready && !registerThrows
  {
    var c := Validate(form);
    if c != Ready then Blocked(c)
    else if registerThrows then RegisterFailed(Payload(form))
    else Registered(Payload(form))
  }

  /** The untouched form never reaches the store. */
  lemma InitialFormIsBlocked(registerThrows: bool)
    ensures HandleRegister(InitialForm, registerThrows) == Blocked(MissingRequired)
  {
  }
}
