/** LoginViewModel: the login form's fields and errors, and the sign-in
    itself, which only reaches the repository once the fields pass the
    validator. */
module LoginViewModel {
  import opened Outcomes
  import opened Models
  import opened LoginValidation

  datatype LoginUiState = LoginUiState(
    username: string,
    password: string,
    rememberMe: bool,
    isLoading: bool,
    usernameError: Option<Msg>,
    passwordError: Option<Msg>,
    generalError: Option<Msg>,
    isLoginSuccessful: bool)

  const InitialState := LoginUiState("", "", true, false, None, None, None, false)

  /** The credentials sent to the repository. */
  datatype Credentials = Credentials(username: string, password: string)

  class LoginViewModel {
    var uiState: LoginUiState

    constructor()
      ensures uiState == InitialState
    {
      uiState := InitialState;
    }

    /** `onUsernameChange`: the password side is left alone. */
    method OnUsernameChange(username: string)
      modifies this
      ensures uiState == old(uiState).(username := username, usernameError := None, generalError := None)
    {
      uiState := uiState.(username := username, usernameError := None, generalError := None);
    }

    /** `onPasswordChange`: the username side is left alone. */
    method OnPasswordChange(password: string)
      modifies this
      ensures uiState == old(uiState).(password := password, passwordError := None, generalError := None)
    {
      uiState := uiState.(password := password, passwordError := None, generalError := None);
    }

    /** `onRememberMeChange`. */
    method OnRememberMeChange(rememberMe: bool)
      modifies this
      ensures uiState == old(uiState).(rememberMe := rememberMe)
    {
      uiState := uiState.(rememberMe := rememberMe);
    }

    /** `login`, with `outcome` the repository's terminal value. Invalid
        fields only get their errors: no loading, no call (`sent` is None).
        Valid ones are sent as typed, with the form first showing the
        loading state returned as `loading`. */
    method Login(outcome: Resource<User>) returns (sent: Option<Credentials>, loading: Option<LoginUiState>)
      modifies this
      ensures var v := ValidateLoginFields(old(uiState).username, old(uiState).password);
              !v.isValid ==>
                && sent == None && loading == None
                && uiState == old(uiState).(usernameError := v.usernameError, passwordError := v.passwordError)
      ensures ValidateLoginFields(old(uiState).username, old(uiState).password).isValid ==>
                && sent == Some(Credentials(old(uiState).username, old(uiState).password))
                && loading == Some(old(uiState).(isLoading := true, generalError := None))
                && uiState == match outcome
                              case Success(_) => loading.value.(isLoading := false, isLoginSuccessful := true)
                              case Error(m) => loading.value.(isLoading := false, generalError := Some(MessageOr(m, LoginFailed)))
    {
      var v := ValidateLoginFields(uiState.username, uiState.password);
      if !v.isValid {
        uiState := uiState.(usernameError := v.usernameError, passwordError := v.passwordError);
        return None, None;
      }
      uiState := uiState.(isLoading := true, generalError := None);
      loading := Some(uiState);
      sent := Some(Credentials(uiState.username, uiState.password));
      match outcome {
        case Success(_) =>
          uiState := uiState.(isLoading := false, isLoginSuccessful := true);
        case Error(m) =>
          uiState := uiState.(isLoading := false, generalError := Some(MessageOr(m, LoginFailed)));
      }
    }
  }
}
