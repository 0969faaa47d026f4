/** The sign-up form: `validate()`, which runs all three field checks and sets or clears
    each field's error, the loading and error derivations from the authentication state,
    and the rule that sign-up is requested only after a successful validation. Whether
    the e-mail matches the platform's address pattern is passed in. */
module SignUpScreen {
  import opened Wrappers

  /** The authentication state the screen observes. */
  datatype AuthState = Idle | Loading | Authenticated | Error(message: string) | Unauthenticated

  /** The button is disabled exactly while loading. */
  predicate IsLoading(state: AuthState) {
    state.Loading?
  }

  /** `(authState as? AuthState.Error)?.message`. */
  function ErrorMessage(state: AuthState): (r: Option<string>)
    ensures r.Some? <==> state.Error?
    ensures r.Some? ==> r.value == state.message
  {
    if state.Error? then Some(state.message) else None
  }

  const MinPasswordLength: nat := 6
  const InvalidEmailMessage: string := "Invalid email format"
  const ShortPasswordMessage: string := "Password must be at least 6 characters"
  const MismatchMessage: string := "Passwords do not match"

  /** `String.length`: the number of UTF-16 code units, so a character outside the Basic
      Multilingual Plane counts twice. */
  function Utf16Length(s: string): (n: nat)
    ensures |s| <= n <= 2 * |s|
    ensures (forall i :: 0 <= i < |s| ==> s[i] <= '\U{FFFF}') ==> n == |s|
    ensures (forall i :: 0 <= i < |s| ==> s[i] > '\U{FFFF}') ==> n == 2 * |s|
  {
    if s == [] then 0 else (if s[0] > '\U{FFFF}' then 2 else 1) + Utf16Length(s[1..])
  }

  /** The length of a concatenation is the sum of the lengths: each character counts
      for itself alone. */
  lemma {:induction false} Utf16LengthOfConcat(a: string, b: string)
    ensures Utf16Length(a + b) == Utf16Length(a) + Utf16Length(b)
  {
    if a == [] {
      assert a + b == b;
    } else {
      assert (a + b)[0] == a[0];
      assert (a + b)[1..] == a[1..] + b;
      Utf16LengthOfConcat(a[1..], b);
    }
  }

  /** The three checks `validate()` combines. */
  predicate FormValid(emailMatches: bool, password: string, confirmPassword: string) {
    emailMatches && Utf16Length(password) >= MinPasswordLength && password == confirmPassword
  }

  /** Six ASCII characters make a long enough password; five do not; three characters
      outside the Basic Multilingual Plane do. */
  lemma PasswordLengthExamples()
    ensures Utf16Length("secret") >= MinPasswordLength
    ensures Utf16Length("short") < MinPasswordLength
    ensures Utf16Length("\U{1F600}\U{1F600}\U{1F600}") >= MinPasswordLength
  {
    assert "secret"[1..] == "ecret" && "ecret"[1..] == "cret" && "cret"[1..] == "ret";
    assert "ret"[1..] == "et" && "et"[1..] == "t" && "t"[1..] == "";
    assert "short"[1..] == "hort" && "hort"[1..] == "ort" && "ort"[1..] == "rt";
    assert "rt"[1..] == "t";
    var e := "\U{1F600}\U{1F600}\U{1F600}";
    assert e[1..] == "\U{1F600}\U{1F600}" && e[1..][1..] == "\U{1F600}" && e[1..][1..][1..] == "";
  }

  /** The form's remembered fields and error messages. */
  class SignUpForm {
    var email: string
    var password: string
    var confirmPassword: string
    var emailError: Option<string>
    var passwordError: Option<string>
    var confirmPasswordError: Option<string>

    constructor ()
      ensures email == "" && password == "" && confirmPassword == ""
      ensures emailError.None? && passwordError.None? && confirmPasswordError.None?
    {
      email, password, confirmPassword := "", "", "";
      emailError, passwordError, confirmPasswordError := None, None, None;
    }

    method OnEmailChange(s: string)
      modifies this`email
      ensures email == s
    {
      email := s;
    }

    method OnPasswordChange(s: string)
      modifies this`password
      ensures password == s
    {
      password := s;
    }

    method OnConfirmPasswordChange(s: string)
      modifies this`confirmPassword
      ensures confirmPassword == s
    {
      confirmPassword := s;
    }

    /** `validate()`: every check runs and sets or clears its own error, and the form is
        valid exactly when no error is left. */
    method Validate(emailMatches: bool) returns (isValid: bool)
      modifies this`emailError, this`passwordError, this`confirmPasswordError
      ensures isValid == FormValid(emailMatches, password, confirmPassword)
      ensures isValid <==> emailError.None? && passwordError.None? && confirmPasswordError.None?
      ensures emailError.None? <==> emailMatches
      ensures passwordError.None? <==> Utf16Length(password) >= MinPasswordLength
      ensures confirmPasswordError.None? <==> password == confirmPassword
      ensures emailError.Some? ==> emailError.value == InvalidEmailMessage
      ensures passwordError.Some? ==> passwordError.value == ShortPasswordMessage
      ensures confirmPasswordError.Some? ==> confirmPasswordError.value == MismatchMessage
    {
      isValid := true;
      if !emailMatches {
        emailError := Some(InvalidEmailMessage);
        isValid := false;
      } else {
        emailError := None;
      }
      if Utf16Length(password) < MinPasswordLength {
        passwordError := Some(ShortPasswordMessage);
        isValid := false;
      } else {
        passwordError := None;
      }
      if password != confirmPassword {
        confirmPasswordError := Some(MismatchMessage);
        isValid := false;
      } else {
        confirmPasswordError := None;
      }
    }

    /** The Sign Up button (enabled only while not loading): it validates, and requests
        sign-up with the e-mail and password only when validation succeeds. */
    method OnSignUpClick(state: AuthState, emailMatches: bool) returns (request: Option<(string, string)>)
      requires !IsLoading(state)
      modifies this`emailError, this`passwordError, this`confirmPasswordError
      ensures request.Some? <==> FormValid(emailMatches, password, confirmPassword)
      ensures request.Some? ==> request.value == (email, password)
      ensures request.Some? <==> emailError.None? && passwordError.None? && confirmPasswordError.None?
    {
      var ok := Validate(emailMatches);
      request := if ok then Some((email, password)) else None;
    }
  }
}
