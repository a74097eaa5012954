/**
 * The page component: its two state flags, the view they select and one
 * method per callback it hands to the forms. Each callback is reachable only
 * while the form that receives it is on screen, which is what keeps the two
 * flags from being set together.
 */
module Page {
  import opened Validation
  import opened Forms
  import opened Views

  class Home {
    var isSignUp: bool
    var isForgotPassword: bool

    /** The two flags as one value. */
    function State(): Flags
      reads this
    {
      Flags(isSignUp, isForgotPassword)
    }

    /** The page invariant: at most one flag set. */
    predicate Valid()
      reads this
    {
      AtMostOne(State())
    }

    /** The form on screen. */
    function CurrentView(): View
      reads this
    {
      ViewOf(State())
    }

    /** Both flags start false: the login form is shown. */
    constructor ()
      ensures State() == Initial && Valid() && CurrentView() == Login
    {
      isSignUp, isForgotPassword := false, false;
    }

    /** LoginForm's `toggleForm`: `setIsSignUp(true)`. */
    method ShowSignUp()
      requires Valid() && CurrentView() == Login
      modifies this
      ensures isSignUp && isForgotPassword == old(isForgotPassword)
      ensures State() == Step(old(State()), SignUpFree)
      ensures Valid() && CurrentView() == SignUp
    {
      isSignUp := true;
    }

    /** LoginForm's `onForgotPassword`: `setIsForgotPassword(true)`. */
    method ShowForgotPassword()
      requires Valid() && CurrentView() == Login
      modifies this
      ensures isForgotPassword && isSignUp == old(isSignUp)
      ensures State() == Step(old(State()), ForgotPasswordLink)
      ensures Valid() && CurrentView() == ForgotPassword
    {
      isForgotPassword := true;
    }

    /** ForgotPasswordForm's `toggleForm`: `setIsForgotPassword(false)`. */
    method BackFromForgotPassword()
      requires Valid() && CurrentView() == ForgotPassword
      modifies this
      ensures !isForgotPassword && isSignUp == old(isSignUp)
      ensures State() == Step(old(State()), BackFromForgot)
      ensures Valid() && CurrentView() == Login
    {
      isForgotPassword := false;
    }

    /**
     * SignUpForm's `toggleForm` and its `onSignUpSuccess`, which share one
     * body: `setIsSignUp(false)`.
     */
    method LeaveSignUp()
      requires Valid() && CurrentView() == SignUp
      modifies this
      ensures !isSignUp && isForgotPassword == old(isForgotPassword)
      ensures State() == Step(old(State()), BackFromSignUp)
      ensures State() == Step(old(State()), SignUpSucceeded)
      ensures Valid() && CurrentView() == Login
    {
      isSignUp := false;
    }

    /**
     * A submit of the sign-up form on screen, with its success callback wired
     * to this page: a successful request returns to the login form; a
     * rejected password or a failed request leaves the page on sign-up.
     */
    method SubmitSignUp(form: SignUpForm, outcome: PostOutcome) returns (request: Option<SignUpFormState>)
      requires Valid() && CurrentView() == SignUp
      modifies this, form
      ensures Valid()
      ensures form.formData == old(form.formData)
      ensures IsValidPassword(form.formData.password) && outcome == Succeeded ==>
                CurrentView() == Login && request == Some(form.formData) && form.error == old(form.error)
      ensures IsValidPassword(form.formData.password) && outcome == Failed ==>
                State() == old(State()) && request == Some(form.formData) && form.error == Some(SignUpFailedMessage)
      ensures !IsValidPassword(form.formData.password) ==>
                State() == old(State()) && request == None && form.error == Some(PasswordPolicyMessage)
    {
      var signedUp;
      request, signedUp := form.HandleSubmit(outcome);
      if signedUp {
        LeaveSignUp();
      }
    }
  }
}
