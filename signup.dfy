/** `src/app/signup/page.tsx`: the password-strength meter, its colour and text buckets,
    the form check that fills a field-to-message map, and the sign-up handler's guard.
    The sign-up call itself is an opaque outcome passed in. */
module Signup {
  import opened Common
  import opened Validation

  function CountTrue(c: seq<bool>): (n: nat)
    ensures n <= |c|
  {
    if c == [] then 0 else (if c[0] then 1 else 0) + CountTrue(c[1..])
  }

  /** The strength of a password: how many of the five criteria (length at least 8, a
      lower-case letter, an upper-case letter, a digit, anything else) it meets. */
  function Strength(p: string): nat {
    CountTrue(PasswordChecks(p))
  }

  /** `getPasswordStrength`: one increment per satisfied criterion. */
  method GetPasswordStrength(password: string) returns (score: nat)
    ensures score == Strength(password)
    ensures score <= 5
    ensures score == 5 <==> JsLength(password) >= 8 && HasLower(password) && HasUpper(password)
                            && HasDigit(password) && HasSpecial(password)
    ensures score == 0 <==> JsLength(password) < 8 && !HasLower(password) && !HasUpper(password)
                            && !HasDigit(password) && !HasSpecial(password)
  {
    score := 0;
    if JsLength(password) >= 8 { score := score + 1; }
    if HasLower(password) { score := score + 1; }
    if HasUpper(password) { score := score + 1; }
    if HasDigit(password) { score := score + 1; }
    if HasSpecial(password) { score := score + 1; }
    CountTrueOfFive(PasswordChecks(password));
  }

  lemma CountTrueOfFive(c: seq<bool>)
    requires |c| == 5
    ensures CountTrue(c) == (if c[0] then 1 else 0) + (if c[1] then 1 else 0) + (if c[2] then 1 else 0)
                            + (if c[3] then 1 else 0) + (if c[4] then 1 else 0)
  {
    assert c[1..][1..] == c[2..] && c[2..][1..] == c[3..] && c[3..][1..] == c[4..] && c[4..][1..] == [];
    assert CountTrue(c[4..]) == (if c[4] then 1 else 0);
    assert CountTrue(c[3..]) == (if c[3] then 1 else 0) + CountTrue(c[4..]);
    assert CountTrue(c[2..]) == (if c[2] then 1 else 0) + CountTrue(c[3..]);
    assert CountTrue(c[1..]) == (if c[1] then 1 else 0) + CountTrue(c[2..]);
  }

  lemma {:induction false} CountTruePlusFailing(c: seq<bool>, m: seq<string>)
    requires |c| == |m|
    ensures CountTrue(c) + |Failing(c, m)| == |c|
  {
    if c != [] { CountTruePlusFailing(c[1..], m[1..]); }
  }

  /** The meter and `validatePassword` agree: for a non-empty password the strength is
      five minus the number of messages the validator reports. */
  lemma StrengthMatchesValidator(p: string)
    requires p != ""
    ensures Strength(p) + |Failing(PasswordChecks(p), PasswordMessages)| == 5
  {
    CountTruePlusFailing(PasswordChecks(p), PasswordMessages);
  }

  function StrengthColor(strength: nat): string {
    if strength <= 2 then "red" else if strength <= 3 then "orange" else if strength <= 4 then "yellow" else "green"
  }

  function StrengthText(strength: nat): string {
    if strength <= 2 then "Weak" else if strength <= 3 then "Fair" else if strength <= 4 then "Good" else "Strong"
  }

  /** The buckets: up to 2 is red and weak, 3 orange and fair, 4 yellow and good, 5 green
      and strong; colour and text always name the same bucket. */
  lemma StrengthBuckets(p: string)
    ensures var s := Strength(p);
      && (s <= 2 <==> StrengthColor(s) == "red" && StrengthText(s) == "Weak")
      && (s == 3 <==> StrengthColor(s) == "orange" && StrengthText(s) == "Fair")
      && (s == 4 <==> StrengthColor(s) == "yellow" && StrengthText(s) == "Good")
      && (s == 5 <==> StrengthColor(s) == "green" && StrengthText(s) == "Strong")
  {
    CountTrueOfFive(PasswordChecks(p));
  }

  /** The form's fields, the keys of the error map. */
  datatype Field = FullName | Email | Password | ConfirmPassword

  function FullNameError(fullName: string): (r: Option<string>)
    ensures r.Some? <==> JsLength(Trim(fullName)) < 2
  {
    if Trim(fullName) == [] then Some("Full name is required")
    else if JsLength(Trim(fullName)) < 2 then Some("Full name must be at least 2 characters")
    else None
  }

  function EmailError(email: string): Option<string> {
    if Trim(email) == [] then Some("Email is required")
    else if !EmailPattern(email) then Some("Please enter a valid email address")
    else None
  }

  /** The e-mail field fails exactly when it is blank or does not match the pattern; a
      blank one is reported as missing. */
  lemma EmailErrorMeaning(email: string)
    ensures EmailError(email).Some? <==> AllSpace(email) || !EmailRegex(email)
    ensures AllSpace(email) ==> EmailError(email) == Some("Email is required")
  {
    TrimEmptyIffAllSpace(email);
    EmailPatternCorrect(email);
  }

  function PasswordError(password: string): (r: Option<string>)
    ensures r.Some? <==> !(password != "" && JsLength(password) >= 8 && Strength(password) >= 3)
  {
    if password == "" then Some("Password is required")
    else if JsLength(password) < 8 then Some("Password must be at least 8 characters")
    else if Strength(password) < 3 then Some("Password is too weak")
    else None
  }

  function ConfirmError(password: string, confirmPassword: string): (r: Option<string>)
    ensures r.Some? <==> confirmPassword == "" || password != confirmPassword
  {
    if confirmPassword == "" then Some("Please confirm your password")
    else if password != confirmPassword then Some("Passwords do not match")
    else None
  }

  /** Records `msg` under `f` when there is one. */
  function Put(m: map<Field, string>, f: Field, msg: Option<string>): map<Field, string> {
    if msg.Some? then m[f := msg.value] else m
  }

  /** The messages `validateForm` records: a field has an entry exactly when it fails. */
  function SignupErrors(fullName: string, email: string, password: string, confirmPassword: string)
    : (m: map<Field, string>)
    ensures FullName in m <==> FullNameError(fullName).Some?
    ensures Email in m <==> EmailError(email).Some?
    ensures Password in m <==> PasswordError(password).Some?
    ensures ConfirmPassword in m <==> ConfirmError(password, confirmPassword).Some?
    ensures FullName in m ==> m[FullName] == FullNameError(fullName).value
    ensures Email in m ==> m[Email] == EmailError(email).value
    ensures Password in m ==> m[Password] == PasswordError(password).value
    ensures ConfirmPassword in m ==> m[ConfirmPassword] == ConfirmError(password, confirmPassword).value
  {
    Put(Put(Put(Put(map[], FullName, FullNameError(fullName)), Email, EmailError(email)),
            Password, PasswordError(password)),
        ConfirmPassword, ConfirmError(password, confirmPassword))
  }

  /** The form is accepted exactly when every field passes. */
  lemma SignupAccepted(fullName: string, email: string, password: string, confirmPassword: string)
    ensures SignupErrors(fullName, email, password, confirmPassword) == map[] <==>
      && JsLength(Trim(fullName)) >= 2
      && !AllSpace(email) && EmailRegex(email)
      && password != "" && JsLength(password) >= 8 && Strength(password) >= 3
      && confirmPassword == password
  {
    var m := SignupErrors(fullName, email, password, confirmPassword);
    EmailErrorMeaning(email);
    assert FullNameError(fullName).Some? ==> FullName in m;
    assert EmailError(email).Some? ==> Email in m;
    assert PasswordError(password).Some? ==> Password in m;
    assert ConfirmError(password, confirmPassword).Some? ==> ConfirmPassword in m;
  }

  // The four blocks of `validateForm`, each adding at most one message for its field.

  method CheckFullName(newErrors: map<Field, string>, fullName: string) returns (r: map<Field, string>)
    ensures r == Put(newErrors, FullName, FullNameError(fullName))
  {
    r := newErrors;
    if Trim(fullName) == [] {
      r := r[FullName := "Full name is required"];
    } else if JsLength(Trim(fullName)) < 2 {
      r := r[FullName := "Full name must be at least 2 characters"];
    }
  }

  method CheckEmail(newErrors: map<Field, string>, email: string) returns (r: map<Field, string>)
    ensures r == Put(newErrors, Email, EmailError(email))
  {
    r := newErrors;
    if Trim(email) == [] {
      r := r[Email := "Email is required"];
    } else if !EmailPattern(email) {
      r := r[Email := "Please enter a valid email address"];
    }
  }

  /** `passwordStrength` is the meter's value for the current password, computed on every
      render. */
  method CheckPassword(newErrors: map<Field, string>, password: string, passwordStrength: nat)
    returns (r: map<Field, string>)
    requires passwordStrength == Strength(password)
    ensures r == Put(newErrors, Password, PasswordError(password))
  {
    r := newErrors;
    if password == "" {
      r := r[Password := "Password is required"];
    } else if JsLength(password) < 8 {
      r := r[Password := "Password must be at least 8 characters"];
    } else if passwordStrength < 3 {
      r := r[Password := "Password is too weak"];
    }
  }

  method CheckConfirmPassword(newErrors: map<Field, string>, password: string, confirmPassword: string)
    returns (r: map<Field, string>)
    ensures r == Put(newErrors, ConfirmPassword, ConfirmError(password, confirmPassword))
  {
    r := newErrors;
    if confirmPassword == "" {
      r := r[ConfirmPassword := "Please confirm your password"];
    } else if password != confirmPassword {
      r := r[ConfirmPassword := "Passwords do not match"];
    }
  }

  datatype SignUpOutcome = SignedUp | SignUpFailed(message: string)

  /** The sign-up page's state. `requests` records every sign-up call made, as (email,
      password, full name). */
  class SignupPage {
    var email: string
    var password: string
    var confirmPassword: string
    var fullName: string
    var errors: map<Field, string>
    var loading: bool
    var requests: seq<(string, string, string)>
    var toast: Option<Toast>
    var route: Option<string>

    constructor ()
      ensures email == "" && password == "" && confirmPassword == "" && fullName == ""
      ensures errors == map[] && !loading && requests == [] && toast.None? && route.None?
    {
      email, password, confirmPassword, fullName := "", "", "", "";
      errors, loading, requests := map[], false, [];
      toast, route := None, None;
    }

    /** `validateForm`: fills a fresh map field by field, stores it, and reports whether it
        stayed empty. */
    method ValidateForm() returns (ok: bool)
      modifies this`errors
      ensures errors == SignupErrors(fullName, email, password, confirmPassword)
      ensures ok <==> errors == map[]
    {
      var newErrors: map<Field, string> := map[];
      newErrors := CheckFullName(newErrors, fullName);
      newErrors := CheckEmail(newErrors, email);
      newErrors := CheckPassword(newErrors, password, Strength(password));
      newErrors := CheckConfirmPassword(newErrors, password, confirmPassword);
      errors := newErrors;
      ok := |errors.Keys| == 0;
    }

    /** `handleSignup`: nothing is sent unless the form validates; otherwise exactly one
        sign-up call is made and `loading` is off again afterwards. */
    method HandleSignup(outcome: SignUpOutcome)
      modifies this
      ensures unchanged(this`email, this`password, this`confirmPassword, this`fullName)
      ensures errors == SignupErrors(fullName, email, password, confirmPassword)
      ensures errors != map[] ==> unchanged(this`requests, this`loading, this`toast, this`route)
      ensures errors == map[] ==> requests == old(requests) + [(email, password, fullName)] && !loading
      ensures errors == map[] ==> toast == Some(SignupToast(outcome))
      ensures errors == map[] ==> route == if outcome.SignedUp? then Some("/login") else old(route)
    {
      var ok := ValidateForm();
      if ok {
        Submit(outcome);
      }
    }

    /** The part of `handleSignup` after validation: the call, its toast, the redirect on
        success, and `loading` reset in `finally`. */
    method Submit(outcome: SignUpOutcome)
      modifies this`loading, this`requests, this`toast, this`route
      ensures requests == old(requests) + [(email, password, fullName)] && !loading
      ensures toast == Some(SignupToast(outcome))
      ensures route == if outcome.SignedUp? then Some("/login") else old(route)
    {
      loading := true;
      requests := requests + [(email, password, fullName)];
      match outcome {
        case SignedUp =>
          toast := Some(Toast("Account created successfully!", Some("Please check your email to verify your account."), SuccessToast));
          route := Some("/login");
        case SignUpFailed(message) =>
          toast := Some(Toast("Signup failed", Some(if message != "" then message else "Something went wrong. Please try again."), ErrorToast));
      }
      loading := false;
    }
  }

  /** The toast shown after the sign-up call: a success notice, or the error's message with
      a generic fallback when it has none. */
  function SignupToast(outcome: SignUpOutcome): (t: Toast)
    ensures t.status == SuccessToast <==> outcome.SignedUp?
    ensures outcome.SignedUp? ==>
      t == Toast("Account created successfully!", Some("Please check your email to verify your account."), SuccessToast)
    ensures outcome.SignUpFailed? ==> t.title == "Signup failed" && t.status == ErrorToast
    ensures outcome.SignUpFailed? && outcome.message != "" ==> t.description == Some(outcome.message)
    ensures outcome.SignUpFailed? && outcome.message == "" ==>
      t.description == Some("Something went wrong. Please try again.")
    ensures t.description.Some? && t.description.value != ""
  {
    match outcome
    case SignedUp => Toast("Account created successfully!", Some("Please check your email to verify your account."), SuccessToast)
    case SignUpFailed(message) =>
      Toast("Signup failed", Some(if message != "" then message else "Something went wrong. Please try again."), ErrorToast)
  }
}
