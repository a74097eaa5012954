# Login page model

A Dafny model of the single page of a client-side authentication UI. The page
shows one of three forms: login, sign-up or password reset. Each form keeps its
own field state, runs a client-side check on submit, and then posts to a remote
API. The model covers:

- the sign-up password policy: at least 8 characters, an ASCII digit, and one
  of `!@#$%^&*(),.?":{}|<>`;
- the login e-mail check: the address must contain `'@'`;
- the three forms as classes whose fields their handlers update in place. Each
  submit either stops with a fixed message and sends no request, or returns the
  request body it posts. The request's outcome is an input that the environment
  chooses;
- the page's two flags `isSignUp` and `isForgotPassword`, the view they select,
  and one method per callback. It is proved that every reachable state has at
  most one flag set, and that a "back" or "success" event returns to the login
  form.

Files:

- `validation.dfy` (module `Validation`): the two checks, as pure functions.
  One recursive search, `ContainsAnyOf`, models a regular expression made of one
  character class (`/\d/`, `/[...]/`) and `includes` with a one-character
  needle.
- `forms.dfy` (module `Forms`): the form records and the classes `SignUpForm`,
  `LoginForm` and `ForgotPasswordForm`.
- `views.dfy` (module `Views`): the flags, the view selection, the callbacks as
  a pure step function, and the reachability lemmas.
- `home.dfy` (module `Page`): the `Home` class. Its callback methods are
  specified by `Views.Step`. `SubmitSignUp` connects a sign-up submit to
  `onSignUpSuccess`.

A callback exists only while the form that receives it is mounted. So
`Views.Step` ignores an event that the visible form does not own, and each
`Home` method requires that its form is the one shown. The invariant depends on
this. With both flags set, the reset form's "back" would show sign-up
(`Views.BackNeedsInvariant`).

Submitting does not clear the form fields. Only remounting a form, when the
view changes, starts it blank again (the constructors).

Only the sign-up form shows an error after a failed request. A failed login or
reset request changes nothing on screen. A login error left by an earlier
rejected e-mail stays after a later valid submit.

## Model

| member | source | states |
|---|---|---|
| `Validation.ContainsAnyOf` | src/app/page.tsx:33 | testing a one-class pattern against `s` is true exactly when some character of `s` is in the class |
| `Validation.DigitClass` | src/app/page.tsx:33 | `\d` without the Unicode flag matches exactly the characters '0' to '9' |
| `Validation.HasDigit` | src/app/page.tsx:33 | `/\d/.test(p)` holds exactly when some character of `p` is an ASCII digit |
| `Validation.HasSpecialChar` | src/app/page.tsx:33 | the special-character test holds exactly when some character of `p` is one of the 20 characters of the policy's special-character class |
| `Validation.IsValidPassword` | src/app/page.tsx:33 | a password passes exactly when its length is at least 8 AND it has a digit AND it has a special character; failing any one clause rejects it |
| `Validation.HasAtSign` | src/app/page.tsx:181 | the e-mail check passes exactly when `'@'` occurs in the address |
| `Validation.AcceptsCompliantPassword` | src/app/page.tsx:33 | "Secret1!" meets the policy |
| `Validation.RejectsShortPassword` | src/app/page.tsx:33 | a 5-character password with a digit and a special character is rejected: the length clause alone decides |
| `Validation.RejectsPasswordWithoutDigit` | src/app/page.tsx:33 | a long password with a special character but no digit is rejected |
| `Validation.RejectsPasswordWithoutSpecialChar` | src/app/page.tsx:33 | a long password with a digit but no special character is rejected |
| `Validation.AtSignIsAllThatIsChecked` | src/app/page.tsx:181 | the bare "@" passes the e-mail check; an address without '@' fails it |
| `Forms.SignUpFormState.With` | src/app/page.tsx:27 | the spread update `{ ...prev, [name]: value }` sets the named field to the value and keeps the other three |
| `Forms.WithOwnValue` | src/app/page.tsx:27 | writing a field's own value back leaves the record unchanged |
| `Forms.WithLastWriteWins` | src/app/page.tsx:27 | of two writes to one field, the later one wins |
| `Forms.SignUpForm.constructor` | src/app/page.tsx:17-23 | a mounted sign-up form has four empty fields and no error |
| `Forms.SignUpForm.HandleChange` | src/app/page.tsx:25-28 | the named field gets the value; the other three fields and the error are unchanged |
| `Forms.SignUpForm.HandleSubmit` | src/app/page.tsx:30-45 | a policy-failing password sets the policy message and sends nothing; otherwise the form data is posted, and success signals `onSignUpSuccess` while failure sets the generic sign-up message; the fields never change |
| `Forms.LoginForm.constructor` | src/app/page.tsx:174-176 | a mounted login form has an empty e-mail and password and no error |
| `Forms.LoginForm.SetEmail` | src/app/page.tsx:206 | the e-mail input's handler replaces the e-mail only |
| `Forms.LoginForm.SetPassword` | src/app/page.tsx:217 | the password input's handler replaces the password only |
| `Forms.LoginForm.HandleSubmit` | src/app/page.tsx:178-193 | an e-mail without '@' sets "Invalid email format" and sends nothing; otherwise the credentials are posted and the error, e-mail and password stay as they were, whatever the outcome |
| `Forms.ForgotPasswordForm.constructor` | src/app/page.tsx:126 | a mounted reset form has an empty e-mail |
| `Forms.ForgotPasswordForm.SetEmail` | src/app/page.tsx:151 | the e-mail input's handler replaces the e-mail |
| `Forms.ForgotPasswordForm.HandleSubmit` | src/app/page.tsx:128-138 | the e-mail is posted without any check and the form is left as it was, whatever the outcome |
| `Views.ViewOf` | src/app/page.tsx:267-273 | `isForgotPassword` shows the reset form whatever `isSignUp` is; otherwise `isSignUp` shows the sign-up form; the login form shows exactly when both flags are false |
| `Views.Owner` | src/app/page.tsx:268-272 | each callback is handed to one form and leads away from it: the login form's callbacks leave login, the other two forms' callbacks return to login |
| `Views.FlagsFor` | src/app/page.tsx:267-273 | every view is shown by one state that keeps the invariant |
| `Views.ViewDeterminesFlags` | src/app/page.tsx:261-273 | under the invariant, the view determines both flags |
| `Views.Step` | src/app/page.tsx:268-272 | an event owned by the visible form runs its setter (`setIsSignUp(true)`, `setIsForgotPassword(true)`, `setIsForgotPassword(false)`, `setIsSignUp(false)`), which changes only its own flag; an event keeps the at-most-one-flag invariant; under it, an event owned by the visible form leads to that event's target view; any other event changes nothing |
| `Views.RunPreservesAtMostOne` | src/app/page.tsx:268-272 | every sequence of events preserves the invariant |
| `Views.ReachableAtMostOne` | src/app/page.tsx:261-272 | from both flags false, every reachable state has at most one flag set |
| `Views.BackReturnsToLogin` | src/app/page.tsx:268-270 | in any reachable state showing sign-up or reset, that form's back or success event returns to the login form |
| `Views.BackNeedsInvariant` | src/app/page.tsx:267-268 | with both flags set, the reset form's back event would show sign-up, so the invariant is what makes "back" return to login |
| `Page.Home.constructor` | src/app/page.tsx:261-262 | the page starts with both flags false, showing the login form |
| `Page.Home.ShowSignUp` | src/app/page.tsx:272 | "Sign up free" sets `isSignUp`, keeps `isForgotPassword`, and shows the sign-up form |
| `Page.Home.ShowForgotPassword` | src/app/page.tsx:272 | "Forgot Password?" sets `isForgotPassword`, keeps `isSignUp`, and shows the reset form |
| `Page.Home.BackFromForgotPassword` | src/app/page.tsx:268 | the reset form's back clears `isForgotPassword` and returns to login |
| `Page.Home.LeaveSignUp` | src/app/page.tsx:270 | the sign-up form's back and its success callback both clear `isSignUp` and return to login |
| `Page.Home.SubmitSignUp` | src/app/page.tsx:37-44 | a successful sign-up with a valid password returns the page to the login form; a rejected password or a failed request leaves it on sign-up, with the matching message |

## Left out

- The HTTP client and its endpoint URLs. Each POST is the request body the submit returns, together with a success/failure outcome that the caller passes in. Response data is not modelled.
- `async`/`await`: each submit is one atomic step. An event arriving while a request is pending is not modelled.
- Console logging, which has no observable state.
- Markup, styling, the page layout component, the "Remember me" checkbox and the "Continue with Google" button, which have no handlers.
- React's hooks runtime and re-rendering. Mounting a form is its constructor. Which form instance is mounted is not tied to `Home`'s flags, apart from `Page.Home.SubmitSignUp`.
- `handleChange` reads the input's `name` attribute. The model takes it from the four sign-up input names (`Forms.Field`). A name outside these four, which would add a fifth key to the record, cannot arise from the rendered inputs.
- Password length is `|s|` over Unicode scalar values. JavaScript's `.length` counts UTF-16 code units, so a password with characters outside the Basic Multilingual Plane can be longer in JavaScript than in the model.
