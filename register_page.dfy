/**
 * frontend/src/pages/Register.jsx: the registration form's check, what it sends, and how it
 * reports the outcome of `register`. `handleSubmit` is split at its `await` into
 * `BeginSubmit` and `FinishSubmit`; the delayed redirect to /login is not modelled.
 */
module RegisterPage {

  import opened Wrappers
  import opened Text
  import opened UseAuth
  import AuthRouter

  const PasswordMismatch: string := "Las contraseñas no coinciden"
  const PasswordTooShort: string := "La contraseña debe tener al menos 6 caracteres"
  const MinPassword: nat := 6
  const Registered: string := "¡Registro exitoso! Redirigiendo al login..."
  const EmailTakenPhrase: string := "El email ya está registrado"
  const EmailTakenFriendly: string :=
    "Este correo electrónico ya está registrado. Si ya tienes una cuenta, puedes iniciar sesión."
  const RegisterDefault: string := "Error al registrar usuario. Inténtalo de nuevo."

  /** The inputs of the form, by their `name`. */
  datatype FieldName = Email | Password | ConfirmPassword | FirstName | LastName

  /** What `handleSubmit` sends: everything but the confirmation. */
  datatype Payload = Payload(email: string, password: string, firstName: string, lastName: string)

  /** `validateForm`'s verdict: the mismatch is reported before the length. */
  function ValidationError(password: string, confirmPassword: string): (e: Option<string>)
    ensures e.None? <==> password == confirmPassword && |password| >= MinPassword
    ensures password != confirmPassword ==> e == Some(PasswordMismatch)
    ensures password == confirmPassword && |password| < MinPassword ==> e == Some(PasswordTooShort)
  {
    if password != confirmPassword then Some(PasswordMismatch)
    else if |password| < MinPassword then Some(PasswordTooShort)
    else None
  }

  /** The message shown for a failed registration. */
  function FailureText(error: string): (m: string)
    ensures Contains(error, EmailTakenPhrase) ==> m == EmailTakenFriendly
    ensures !Contains(error, EmailTakenPhrase) && error != "" ==> m == error
    ensures error == "" ==> m == RegisterDefault
  {
    if error != "" && Contains(error, EmailTakenPhrase) then EmailTakenFriendly
    else if error != "" then error
    else RegisterDefault
  }

  /** Both details the backend gives for a taken email come out as the friendly text. */
  lemma TakenEmailIsFriendly()
    ensures FailureText(AuthRouter.EmailTaken.detail) == EmailTakenFriendly
    ensures FailureText(AuthRouter.AlreadyRegistered.detail) == EmailTakenFriendly
  {
    assert OccursAt(AuthRouter.EmailTaken.detail, EmailTakenPhrase, 0);
    var long := AuthRouter.AlreadyRegistered.detail;
    assert long[..|EmailTakenPhrase|] == EmailTakenPhrase;
    assert OccursAt(long, EmailTakenPhrase, 0);
  }

  class RegisterForm {
    var email: string
    var password: string
    var confirmPassword: string
    var firstName: string
    var lastName: string
    var error: string
    var success: string

    constructor ()
      ensures email == "" && password == "" && confirmPassword == "" && firstName == "" && lastName == ""
      ensures error == "" && success == ""
    {
      email := "";
      password := "";
      confirmPassword := "";
      firstName := "";
      lastName := "";
      error := "";
      success := "";
    }

    /** `handleChange`: the named field takes the value, the others keep theirs. */
    method HandleChange(name: FieldName, value: string)
      modifies this
      ensures email == (if name == Email then value else old(email))
      ensures password == (if name == Password then value else old(password))
      ensures confirmPassword == (if name == ConfirmPassword then value else old(confirmPassword))
      ensures firstName == (if name == FirstName then value else old(firstName))
      ensures lastName == (if name == LastName then value else old(lastName))
      ensures error == old(error) && success == old(success)
    {
      match name {
        case Email => email := value;
        case Password => password := value;
        case ConfirmPassword => confirmPassword := value;
        case FirstName => firstName := value;
        case LastName => lastName := value;
      }
    }

    /**
     * `handleSubmit` up to the request: both messages are cleared; a failing check shows its
     * error and sends nothing; otherwise the four fields are sent.
     */
    method BeginSubmit() returns (payload: Option<Payload>)
      modifies this
      ensures payload.Some? <==> ValidationError(password, confirmPassword).None?
      ensures payload.Some? ==> payload.value == Payload(email, password, firstName, lastName) && error == ""
      ensures payload.None? ==> error == ValidationError(password, confirmPassword).value
      ensures success == ""
      ensures email == old(email) && password == old(password) && confirmPassword == old(confirmPassword)
      ensures firstName == old(firstName) && lastName == old(lastName)
    {
      error := "";
      success := "";
      var invalid := ValidationError(password, confirmPassword);
      if invalid.Some? {
        error := invalid.value;
        return None;
      }
      payload := Some(Payload(email, password, firstName, lastName));
    }

    /** `handleSubmit` after the request: success clears the five fields and says so; failure shows the error text. */
    method FinishSubmit<T>(result: Outcome<T>)
      modifies this
      ensures result.Ok? ==> success == Registered && error == old(error) &&
                             email == "" && password == "" && confirmPassword == "" && firstName == "" && lastName == ""
      ensures result.Err? ==> error == FailureText(result.error) && success == old(success) &&
                              email == old(email) && password == old(password) &&
                              confirmPassword == old(confirmPassword) &&
                              firstName == old(firstName) && lastName == old(lastName)
    {
      if result.Ok? {
        success := Registered;
        email := "";
        password := "";
        confirmPassword := "";
        firstName := "";
        lastName := "";
      } else {
        error := FailureText(result.error);
      }
    }
  }
}
