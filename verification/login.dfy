/**
 * The combined sign-in / sign-up screen: its mode toggle, the validation in
 * `handleSubmit`, which auth-store call it makes, and the resulting alert.
 */
module Login {

  /** `isLogin`: signing in, or creating an account. */
  datatype Mode = SignIn | SignUp

  const InitialMode: Mode := SignIn

  /** The "switch" link: `setIsLogin(!isLogin)`. */
  function Toggle(m: Mode): (r: Mode)
    ensures r != m
  {
    if m == SignIn then SignUp else SignIn
  }

  /** Toggling twice returns to the original mode. */
  lemma ToggleTwice(m: Mode)
    ensures Toggle(Toggle(m)) == m
  {
  }

  datatype LoginForm = LoginForm(mode: Mode, name: string, email: string, password: string, phone: string)

  /** The form as the screen mounts it: sign-in mode, every field empty. */
  const InitialForm: LoginForm := LoginForm(InitialMode, "", "", "", "")

  /** The one auth-store call a submission makes. */
  datatype AuthCall =
    | LoginCall(email: string, password: string)
    | RegisterCall(name: string, email: string, password: string, phone: string)

  /** Validation alerts, or the call to make. */
  datatype Dispatch = MissingCredentials | MissingName | Call(call: AuthCall)

  /** The validation and dispatch of `handleSubmit`. */
  function Submit(form: LoginForm): (r: Dispatch)
    ensures r.MissingCredentials? <==> form.email == "" || form.password == ""
    ensures r.MissingName? <==> form.email != "" && form.password != "" && form.mode == SignUp && form.name == ""
    ensures r.Call? && form.mode == SignIn ==> r.call == LoginCall(form.email, form.password)
    ensures r.Call? && form.mode == SignUp ==> r.call == RegisterCall(form.name, form.email, form.password, form.phone)
  {
    if form.email == "" || form.password == "" then MissingCredentials
    else if form.mode == SignUp && form.name == "" then MissingName
    else if form.mode == SignIn then Call(LoginCall(form.email, form.password))
    else Call(RegisterCall(form.name, form.email, form.password, form.phone))
  }

  /** Submitting the untouched form, in either mode, only asks for the credentials. */
  lemma InitialFormNeedsCredentials()
    ensures Submit(InitialForm) == MissingCredentials
    ensures Submit(InitialForm.(mode := Toggle(InitialForm.mode))) == MissingCredentials
  {
  }

  /** A call is made exactly when the fields its mode needs are filled. */
  lemma SubmitCallsIff(form: LoginForm)
    ensures Submit(form).Call? <==>
              form.email != "" && form.password != "" && (form.mode == SignIn || form.name != "")
  {
  }

  /** In sign-in mode the name field is never consulted. */
  lemma SignInIgnoresName(form: LoginForm, name: string)
    requires form.mode == SignIn
    ensures Submit(form.(name := name)) == Submit(form)
  {
  }

  /** The phone is optional: it never decides whether a call is made. */
  lemma PhoneNeverBlocks(form: LoginForm, phone: string)
    ensures Submit(form.(phone := phone)).Call? == Submit(form).Call?
  {
  }

  /** What the auth store's promise did. */
  datatype AuthReply = Resolved(success: bool) | Rejected

  /** The alert shown at the end of `handleSubmit`. */
  datatype Alert = Alert(title: string, message: string)

  /** The result alert after a call, chosen by the mode and the store's answer. */
  function ResultAlert(mode: Mode, success: bool): (r: Alert)
    ensures r.title == "Success" <==> success
    ensures !success ==> r.title == "Error"
  {
    if success then
      Alert("Success", if mode == SignIn then "Login successful!" else "Registration successful!")
    else
      Alert("Error", if mode == SignIn then "Login failed. Please check your credentials."
                     else "Registration failed. Please try again.")
  }

  /** Each (mode, success) pair has its own alert, so the alert tells both apart. */
  lemma ResultAlertInjective(m1: Mode, s1: bool, m2: Mode, s2: bool)
    requires ResultAlert(m1, s1) == ResultAlert(m2, s2)
    ensures m1 == m2 && s1 == s2
  {
  }

  /** `handleSubmit`, with the store's answer as a parameter. */
  function HandleSubmit(form: LoginForm, reply: AuthReply): (r: Alert)
    ensures form.email == "" || form.password == "" ==> r == Alert("Error", "Please fill in all required fields")
    ensures Submit(form).MissingName? ==> r == Alert("Error", "Please enter your name")
    ensures Submit(form).Call? && reply.Rejected? ==> r == Alert("Error", "An unexpected error occurred")
    ensures Submit(form).Call? && reply.Resolved? ==> r == ResultAlert(form.mode, reply.success)
    ensures r.title == "Success" <==> Submit(form).Call? && reply == Resolved(true)
  {
    match Submit(form)
    case MissingCredentials => Alert("Error", "Please fill in all required fields")
    case MissingName => Alert("Error", "Please enter your name")
    case Call(_) =>
      match reply
      case Rejected => Alert("Error", "An unexpected error occurred")
      case Resolved(success) => ResultAlert(form.mode, success)
  }
}
