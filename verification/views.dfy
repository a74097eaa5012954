/**
 * Which form the page shows, as a function of its two flags, and how the
 * callbacks the forms receive move the flags. The callbacks exist only while
 * the form that receives them is shown, so an action that the current view
 * does not offer cannot happen.
 */
module Views {

  /** The page's two state flags, `isSignUp` and `isForgotPassword`. */
  datatype Flags = Flags(isSignUp: bool, isForgotPassword: bool)

  /** The form on screen. */
  datatype View = Login | SignUp | ForgotPassword

  /** The state the page starts in: both flags false. */
  const Initial := Flags(false, false)

  /** The page's invariant: at most one flag is set. */
  predicate AtMostOne(f: Flags)
  {
    !(f.isSignUp && f.isForgotPassword)
  }

  /** The conditional rendering of the page: `isForgotPassword` first, then `isSignUp`, else the login form. */
  function ViewOf(f: Flags): (v: View)
    ensures f.isForgotPassword ==> v == ForgotPassword
    ensures !f.isForgotPassword && f.isSignUp ==> v == SignUp
    ensures v == Login <==> !f.isSignUp && !f.isForgotPassword
  {
    if f.isForgotPassword then ForgotPassword
    else if f.isSignUp then SignUp
    else Login
  }

  /** The one state of the page satisfying the invariant that shows `v`. */
  function FlagsFor(v: View): (f: Flags)
    ensures AtMostOne(f) && ViewOf(f) == v
  {
    match v
    case Login => Flags(false, false)
    case SignUp => Flags(true, false)
    case ForgotPassword => Flags(false, true)
  }

  /** Under the invariant the view determines the flags: FlagsFor inverts ViewOf. */
  lemma ViewDeterminesFlags(f: Flags)
    requires AtMostOne(f)
    ensures FlagsFor(ViewOf(f)) == f
  {
  }

  /** The callbacks handed to the forms. */
  datatype Action =
    | SignUpFree          // LoginForm's "Sign up free": toggleForm
    | ForgotPasswordLink  // LoginForm's "Forgot Password?": onForgotPassword
    | BackFromForgot      // ForgotPasswordForm's "Back to Login": toggleForm
    | BackFromSignUp      // SignUpForm's "Back to Login": toggleForm
    | SignUpSucceeded     // SignUpForm after a successful request: onSignUpSuccess

  /** The form that receives `a` as a prop, and so the only one that can fire it. */
  function Owner(a: Action): (v: View)
    ensures v != Target(a)
    ensures v == Login <==> Target(a) != Login
  {
    match a
    case SignUpFree | ForgotPasswordLink => Login
    case BackFromForgot => ForgotPassword
    case BackFromSignUp | SignUpSucceeded => SignUp
  }

  /**
   * One user event: if its form is on screen the callback runs its one setter
   * call; otherwise nothing happens.
   */
  function Step(f: Flags, a: Action): (r: Flags)
    ensures Owner(a) == ViewOf(f) && (a == SignUpFree || a == ForgotPasswordLink) ==>
              r.isSignUp == (a == SignUpFree || f.isSignUp) &&
              r.isForgotPassword == (a == ForgotPasswordLink || f.isForgotPassword)
    ensures Owner(a) == ViewOf(f) && a == BackFromForgot ==>
              !r.isForgotPassword && r.isSignUp == f.isSignUp
    ensures Owner(a) == ViewOf(f) && (a == BackFromSignUp || a == SignUpSucceeded) ==>
              !r.isSignUp && r.isForgotPassword == f.isForgotPassword
    ensures AtMostOne(f) ==> AtMostOne(r)
    ensures AtMostOne(f) && Owner(a) == ViewOf(f) ==> ViewOf(r) == Target(a)
    ensures Owner(a) != ViewOf(f) ==> r == f
  {
    if Owner(a) != ViewOf(f) then f
    else
      match a
      case SignUpFree => f.(isSignUp := true)
      case ForgotPasswordLink => f.(isForgotPassword := true)
      case BackFromForgot => f.(isForgotPassword := false)
      case BackFromSignUp | SignUpSucceeded => f.(isSignUp := false)
  }

  /** The view each callback leads to. */
  function Target(a: Action): View
  {
    match a
    case SignUpFree => SignUp
    case ForgotPasswordLink => ForgotPassword
    case BackFromForgot | BackFromSignUp | SignUpSucceeded => Login
  }

  /** A sequence of events, applied in order. */
  function Run(f: Flags, actions: seq<Action>): Flags
    decreases |actions|
  {
    if |actions| == 0 then f else Run(Step(f, actions[0]), actions[1..])
  }

  /** Every sequence of events keeps the invariant. */
  lemma {:induction false} RunPreservesAtMostOne(f: Flags, actions: seq<Action>)
    requires AtMostOne(f)
    ensures AtMostOne(Run(f, actions))
    decreases |actions|
  {
    if |actions| > 0 {
      RunPreservesAtMostOne(Step(f, actions[0]), actions[1..]);
    }
  }

  /** Every reachable state of the page has at most one flag set. */
  lemma ReachableAtMostOne(actions: seq<Action>)
    ensures AtMostOne(Run(Initial, actions))
  {
    RunPreservesAtMostOne(Initial, actions);
  }

  /** From the sign-up or reset form, its "back" or "success" event returns to the login form. */
  lemma BackReturnsToLogin(actions: seq<Action>, a: Action)
    requires ViewOf(Run(Initial, actions)) != Login
    requires Owner(a) == ViewOf(Run(Initial, actions))
    ensures ViewOf(Run(Initial, actions + [a])) == Login
  {
    RunPreservesAtMostOne(Initial, actions);
    RunAppend(Initial, actions, a);
  }

  /** Running one more event is one more step. */
  lemma {:induction false} RunAppend(f: Flags, actions: seq<Action>, a: Action)
    ensures Run(f, actions + [a]) == Step(Run(f, actions), a)
    decreases |actions|
  {
    if |actions| == 0 {
      assert actions + [a] == [a];
    } else {
      assert (actions + [a])[1..] == actions[1..] + [a];
      RunAppend(Step(f, actions[0]), actions[1..], a);
    }
  }

  /** Without the invariant the back event need not return to login: both flags set, the reset form's back event shows sign-up. */
  lemma BackNeedsInvariant()
    ensures ViewOf(Step(Flags(true, true), BackFromForgot)) == SignUp
  {
  }
}
