/** ValidateLoginFieldsUseCase: the checks the login form runs before any
    network call. Lengths are Kotlin's, in UTF-16 code units. */
module LoginValidation {
  import opened Outcomes
  import opened Text

  const MinUsernameLength := 3
  const MinPasswordLength := 4

  datatype ValidationResult = ValidationResult(
    isValid: bool,
    usernameError: Option<Msg>,
    passwordError: Option<Msg>)

  function UsernameError(username: string): (e: Option<Msg>)
    ensures e == None <==> !IsBlank(username) && Utf16Length(username) >= MinUsernameLength
    ensures e == Some(EnterUsername) <==> IsBlank(username)
    ensures e == Some(UsernameTooShort) <==> !IsBlank(username) && Utf16Length(username) < MinUsernameLength
  {
    if IsBlank(username) then Some(EnterUsername)
    else if Utf16Length(username) < MinUsernameLength then Some(UsernameTooShort)
    else None
  }

  function PasswordError(password: string): (e: Option<Msg>)
    ensures e == None <==> !IsBlank(password) && Utf16Length(password) >= MinPasswordLength
    ensures e == Some(EnterPassword) <==> IsBlank(password)
    ensures e == Some(PasswordTooShort) <==> !IsBlank(password) && Utf16Length(password) < MinPasswordLength
  {
    if IsBlank(password) then Some(EnterPassword)
    else if Utf16Length(password) < MinPasswordLength then Some(PasswordTooShort)
    else None
  }

  /** `invoke`: the pair is valid exactly when neither field has an error;
      each field's error depends on that field alone. */
  function ValidateLoginFields(username: string, password: string): (r: ValidationResult)
    ensures r.isValid <==> r.usernameError.None? && r.passwordError.None?
    ensures r.isValid <==> !IsBlank(username) && Utf16Length(username) >= MinUsernameLength &&
                           !IsBlank(password) && Utf16Length(password) >= MinPasswordLength
    ensures r.usernameError == UsernameError(username) && r.passwordError == PasswordError(password)
  {
    var u := UsernameError(username);
    var p := PasswordError(password);
    ValidationResult(u.None? && p.None?, u, p)
  }

  /** The username's error does not depend on the password, nor the
      password's on the username. */
  lemma FieldsIndependent(u1: string, p1: string, u2: string, p2: string)
    ensures ValidateLoginFields(u1, p1).usernameError == ValidateLoginFields(u1, p2).usernameError
    ensures ValidateLoginFields(u1, p1).passwordError == ValidateLoginFields(u2, p1).passwordError
  {
  }

  /** A username with at least one visible character is never blank, so a
      valid username holds one; a whitespace-only one asks for a username
      whatever its length. */
  lemma BlankBeatsLength(username: string)
    ensures ValidateLoginFields(username, "").usernameError.None? ==>
              exists i :: 0 <= i < |username| && !IsWhitespace(username[i])
    ensures (forall i :: 0 <= i < |username| ==> username[i] == ' ') ==>
              ValidateLoginFields(username, "").usernameError == Some(EnterUsername)
  {
  }

  /** Lengths count UTF-16 code units: two characters, one of them outside
      the Basic Multilingual Plane, make a username long enough. */
  lemma SupplementaryCharactersCountTwice()
    ensures ValidateLoginFields("a\U{1F600}", "pass").isValid
    ensures !ValidateLoginFields("ab", "pass").isValid
  {
    assert Utf16Length("a\U{1F600}") == 1 + Utf16Length("\U{1F600}") by {
      assert "a\U{1F600}"[1..] == "\U{1F600}";
    }
    assert Utf16Length("\U{1F600}") == 2 + Utf16Length([]) by {
      assert "\U{1F600}"[1..] == [];
    }
    assert !IsWhitespace('a');
    assert !IsWhitespace('p');
    assert Utf16Length("pass") >= 4;
    assert Utf16Length("ab") == 2 by {
      assert "ab"[1..] == "b";
      assert "b"[1..] == [];
    }
  }
}
