/**
 * The three forms of the authentication page: their field state, their
 * change handlers and their submit handlers. The HTTP POST each submit
 * makes is reduced to the request body it would send and an outcome
 * (the request succeeded or threw) chosen by the environment.
 */
module Forms {
  import opened Validation

  datatype Option<T> = None | Some(value: T)

  /** How the awaited POST ended: it resolved, or it threw. */
  datatype PostOutcome = Succeeded | Failed

  const PasswordPolicyMessage: string :=
    "Password must be at least 8 characters long and contain at least one number and one special character."
  const SignUpFailedMessage: string := "An error occurred while signing up. Please try again."
  const InvalidEmailMessage: string := "Invalid email format"

  /** The `name` attribute of the four sign-up inputs. */
  datatype Field = FirstName | LastName | Email | Password

  /** The sign-up form record, which is also the body of the sign-up request. */
  datatype SignUpFormState = SignUpFormState(firstname: string, lastname: string, email: string, password: string)
  {
    /** The value of the input named `f`. */
    function Get(f: Field): string
    {
      match f
      case FirstName => firstname
      case LastName => lastname
      case Email => email
      case Password => password
    }

    /** The record `{ ...this, [f]: v }`: field `f` replaced, the other three kept. */
    function With(f: Field, v: string): (r: SignUpFormState)
      ensures r.Get(f) == v
      ensures forall g :: g != f ==> r.Get(g) == Get(g)
    {
      match f
      case FirstName => this.(firstname := v)
      case LastName => this.(lastname := v)
      case Email => this.(email := v)
      case Password => this.(password := v)
    }
  }

  /** The initial sign-up record: every field empty. */
  const BlankSignUp := SignUpFormState("", "", "", "")

  /** Replacing a field with the value it already holds changes nothing. */
  lemma WithOwnValue(d: SignUpFormState, f: Field)
    ensures d.With(f, d.Get(f)) == d
  {
  }

  /** Two writes to the same field: the later one wins. */
  lemma WithLastWriteWins(d: SignUpFormState, f: Field, v: string, w: string)
    ensures d.With(f, v).With(f, w) == d.With(f, w)
  {
  }

  /** The body of the sign-in request. */
  datatype Credentials = Credentials(email: string, password: string)

  /** The sign-up form: a record of four fields and an optional error message. */
  class SignUpForm {
    var formData: SignUpFormState
    var error: Option<string>

    /** A freshly mounted form: blank fields, no error. */
    constructor ()
      ensures formData == BlankSignUp && error == None
    {
      formData := BlankSignUp;
      error := None;
    }

    /** `handleChange`: the input named `name` now holds `value`; nothing else changes. */
    method HandleChange(name: Field, value: string)
      modifies this
      ensures formData == old(formData).With(name, value)
      ensures formData.Get(name) == value
      ensures forall g :: g != name ==> formData.Get(g) == old(formData).Get(g)
      ensures error == old(error)
    {
      formData := formData.With(name, value);
    }

    /**
     * `handleSubmit`. A password that fails the policy stops the submit with
     * the policy message and no request. Otherwise the form data is posted:
     * on success `onSignUpSuccess` is to be called (`signedUp`), on failure
     * the generic sign-up message is shown. The fields never change.
     */
    method HandleSubmit(outcome: PostOutcome) returns (request: Option<SignUpFormState>, signedUp: bool)
      modifies this
      ensures formData == old(formData)
      ensures !IsValidPassword(formData.password) ==>
                request == None && !signedUp && error == Some(PasswordPolicyMessage)
      ensures IsValidPassword(formData.password) ==> request == Some(formData)
      ensures IsValidPassword(formData.password) && outcome == Succeeded ==>
                signedUp && error == old(error)
      ensures IsValidPassword(formData.password) && outcome == Failed ==>
                !signedUp && error == Some(SignUpFailedMessage)
    {
      if !IsValidPassword(formData.password) {
        error := Some(PasswordPolicyMessage);
        return None, false;
      }
      request := Some(formData);
      if outcome == Succeeded {
        signedUp := true;
      } else {
        error := Some(SignUpFailedMessage);
        signedUp := false;
      }
    }
  }

  /** The login form: e-mail, password and an optional error message. */
  class LoginForm {
    var email: string
    var password: string
    var error: Option<string>

    constructor ()
      ensures email == "" && password == "" && error == None
    {
      email, password, error := "", "", None;
    }

    /** The e-mail input's change handler. */
    method SetEmail(value: string)
      modifies this
      ensures email == value && password == old(password) && error == old(error)
    {
      email := value;
    }

    /** The password input's change handler. */
    method SetPassword(value: string)
      modifies this
      ensures password == value && email == old(email) && error == old(error)
    {
      password := value;
    }

    /**
     * `handleSubmit`. An e-mail without '@' stops the submit with the
     * invalid-format message and no request. Otherwise the credentials are
     * posted, and whatever the outcome nothing on the form changes: a
     * message left by an earlier rejected submit stays.
     */
    method HandleSubmit(outcome: PostOutcome) returns (request: Option<Credentials>)
      modifies this
      ensures email == old(email) && password == old(password)
      ensures !HasAtSign(email) ==> request == None && error == Some(InvalidEmailMessage)
      ensures HasAtSign(email) ==> request == Some(Credentials(email, password)) && error == old(error)
    {
      if !HasAtSign(email) {
        error := Some(InvalidEmailMessage);
        return None;
      }
      request := Some(Credentials(email, password));
    }
  }

  /** The password-reset form: a single e-mail field, no error message. */
  class ForgotPasswordForm {
    var email: string

    constructor ()
      ensures email == ""
    {
      email := "";
    }

    /** The e-mail input's change handler. */
    method SetEmail(value: string)
      modifies this
      ensures email == value
    {
      email := value;
    }

    /** `handleSubmit`: posts `{ email }` unchecked, whatever it holds, and changes nothing whatever the outcome. */
    method HandleSubmit(outcome: PostOutcome) returns (request: string)
      ensures request == email
    {
      request := email;
    }
  }
}
