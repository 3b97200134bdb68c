/** The form validators of `src/utils/validation.ts`. Each validator starts from an empty
    error list and appends at most one message per check, in a fixed order; the result is
    valid exactly when no message was appended. */
module Validation {
  import opened Common

  datatype ValidationResult = ValidationResult(isValid: bool, errors: seq<string>)

  const EmailRequired := "Email is required"
  const EmailInvalid := "Please enter a valid email address"
  const PasswordRequired := "Password is required"
  const PasswordTooShort := "Password must be at least 8 characters long"
  const PasswordNoLower := "Password must contain at least one lowercase letter"
  const PasswordNoUpper := "Password must contain at least one uppercase letter"
  const PasswordNoDigit := "Password must contain at least one number"
  const PasswordNoSpecial := "Password must contain at least one special character"
  const ModelNameRequired := "Model name is required"
  const ModelNameTooShort := "Model name must be at least 2 characters long"
  const ModelNameTooLong := "Model name must be less than 100 characters"
  const TargetColumnRequired := "Target column name is required"
  const TargetColumnInvalid := "Target column name must start with a letter or underscore and contain only letters, numbers, and underscores"
  const FileRequired := "File is required"

  /** The five password messages, in the order the checks run. */
  const PasswordMessages: seq<string> :=
    [PasswordTooShort, PasswordNoLower, PasswordNoUpper, PasswordNoDigit, PasswordNoSpecial]

  // ---------------------------------------------------------------------------
  // The e-mail pattern /^[^\s@]+@[^\s@]+\.[^\s@]+$/
  // ---------------------------------------------------------------------------

  /** A match of `[^\s@]+`. */
  predicate Segment(s: string) {
    s != [] && forall k | 0 <= k < |s| :: !IsSpace(s[k]) && s[k] != '@'
  }

  /** The pattern read as a concatenation: segment, `@`, segment, `.`, segment. */
  ghost predicate EmailRegex(s: string) {
    exists i, j | 0 <= i < j < |s| ::
      s[i] == '@' && s[j] == '.' && Segment(s[..i]) && Segment(s[i + 1..j]) && Segment(s[j + 1..])
  }

  function IndexOf(s: string, c: char): (r: Option<nat>)
    ensures r.Some? ==> r.value < |s| && s[r.value] == c && c !in s[..r.value]
    ensures r.None? ==> c !in s
  {
    if s == [] then None
    else if s[0] == c then Some(0)
    else
      var r := IndexOf(s[1..], c);
      if r.Some? then
        assert s[..r.value + 1] == [s[0]] + s[1..][..r.value];
        Some(r.value + 1)
      else None
  }

  /** A linear decision procedure for the e-mail pattern: the first `@` is preceded by a
      segment and followed by a segment with a `.` strictly inside it. */
  function EmailPattern(s: string): bool {
    match IndexOf(s, '@')
    case None => false
    case Some(i) =>
      var rest := s[i + 1..];
      Segment(s[..i]) && Segment(rest) && |rest| >= 3 && '.' in rest[1..|rest| - 1]
  }

  lemma SegmentSlice(s: string, a: int, b: int)
    requires Segment(s) && 0 <= a < b <= |s|
    ensures Segment(s[a..b])
  {
    assert forall k | 0 <= k < b - a :: s[a..b][k] == s[a + k];
  }

  /** Every string the decision procedure accepts matches the pattern. */
  lemma EmailPatternSound(s: string)
    requires EmailPattern(s)
    ensures EmailRegex(s)
  {
    var i := IndexOf(s, '@').value;
    var rest := s[i + 1..];
    var p :| 0 <= p < |rest[1..|rest| - 1]| && rest[1..|rest| - 1][p] == '.';
    var q := p + 1;
    var j := i + 1 + q;
    assert s[j] == rest[q];
    SegmentSlice(rest, 0, q);
    assert s[i + 1..j] == rest[0..q];
    SegmentSlice(rest, q + 1, |rest|);
    assert s[j + 1..] == rest[q + 1..|rest|];
  }

  /** Every string matching the pattern is accepted by the decision procedure. */
  lemma EmailPatternComplete(s: string, i: nat, j: nat)
    requires i < j < |s| && s[i] == '@' && s[j] == '.'
    requires Segment(s[..i]) && Segment(s[i + 1..j]) && Segment(s[j + 1..])
    ensures EmailPattern(s)
  {
    assert '@' !in s[..i] by {
      assert forall k | 0 <= k < i :: s[..i][k] != '@';
    }
    IndexOfFirst(s, '@', i);
    var rest := s[i + 1..];
    assert rest == s[i + 1..j] + ['.'] + s[j + 1..];
    forall k | 0 <= k < |rest|
      ensures !IsSpace(rest[k]) && rest[k] != '@'
    {
      if k < j - i - 1 {
        assert rest[k] == s[i + 1..j][k];
      } else if k > j - i - 1 {
        assert rest[k] == s[j + 1..][k - (j - i)];
      }
    }
    var q := j - i - 1;
    assert rest[q] == '.';
    assert rest[1..|rest| - 1][q - 1] == '.';
  }

  /** The decision procedure accepts exactly the strings the pattern matches. */
  lemma EmailPatternCorrect(s: string)
    ensures EmailPattern(s) <==> EmailRegex(s)
  {
    if EmailPattern(s) {
      EmailPatternSound(s);
    }
    if EmailRegex(s) {
      var i, j :| 0 <= i < j < |s| && s[i] == '@' && s[j] == '.' && Segment(s[..i])
                 && Segment(s[i + 1..j]) && Segment(s[j + 1..]);
      EmailPatternComplete(s, i, j);
    }
  }

  /** The first occurrence is found. */
  lemma IndexOfFirst(s: string, c: char, i: nat)
    requires i < |s| && s[i] == c && c !in s[..i]
    ensures IndexOf(s, c) == Some(i)
  {
    var r := IndexOf(s, c);
    assert s[i] in s;
    assert forall k | 0 <= k < i :: s[..i][k] == s[k];
    if r.Some? {
      assert forall k | 0 <= k < r.value :: s[..r.value][k] == s[k];
    }
  }

  // ---------------------------------------------------------------------------
  // Validators
  // ---------------------------------------------------------------------------

  /** `validateEmail`: blank input is "required"; otherwise the untrimmed input must match
      the e-mail pattern. */
  method ValidateEmail(email: string) returns (r: ValidationResult)
    ensures |r.errors| <= 1
    ensures r.isValid <==> r.errors == []
    ensures AllSpace(email) ==> r.errors == [EmailRequired]
    ensures !AllSpace(email) ==> (r.isValid <==> EmailRegex(email))
    ensures !AllSpace(email) && !r.isValid ==> r.errors == [EmailInvalid]
  {
    TrimEmptyIffAllSpace(email);
    EmailPatternCorrect(email);
    var errors: seq<string> := [];
    if Trim(email) == [] {
      errors := errors + [EmailRequired];
    } else if !EmailPattern(email) {
      errors := errors + [EmailInvalid];
    }
    r := ValidationResult(errors == [], errors);
  }

  predicate HasLower(s: string) { exists k | 0 <= k < |s| :: IsAsciiLower(s[k]) }
  predicate HasUpper(s: string) { exists k | 0 <= k < |s| :: IsAsciiUpper(s[k]) }
  predicate HasDigit(s: string) { exists k | 0 <= k < |s| :: IsAsciiDigit(s[k]) }
  /** `/[^A-Za-z0-9]/.test(s)` */
  predicate HasSpecial(s: string) { exists k | 0 <= k < |s| :: !IsAsciiAlnum(s[k]) }

  /** The outcome of the five password checks, in the order they run. */
  function PasswordChecks(p: string): (c: seq<bool>)
    ensures |c| == |PasswordMessages|
  {
    [JsLength(p) >= 8, HasLower(p), HasUpper(p), HasDigit(p), HasSpecial(p)]
  }

  /** The messages whose check failed, in order: what a run of independent `if` checks
      each pushing its own message leaves in the list. */
  function Failing(checks: seq<bool>, msgs: seq<string>): seq<string>
    requires |checks| == |msgs|
  {
    if checks == [] then []
    else Keep(checks[0], msgs[0]) + Failing(checks[1..], msgs[1..])
  }

  /** The message of one check, if it failed. */
  function Keep(passed: bool, msg: string): seq<string> {
    if passed then [] else [msg]
  }

  lemma FailingOfFive(c: seq<bool>, m: seq<string>)
    requires |c| == |m| == 5
    ensures Failing(c, m) == Keep(c[0], m[0]) + Keep(c[1], m[1]) + Keep(c[2], m[2])
                             + Keep(c[3], m[3]) + Keep(c[4], m[4])
  {
    var k0, k1, k2, k3, k4 := Keep(c[0], m[0]), Keep(c[1], m[1]), Keep(c[2], m[2]), Keep(c[3], m[3]), Keep(c[4], m[4]);
    assert c[4..][1..] == c[5..] == [] && m[4..][1..] == m[5..];
    assert Failing(c[4..], m[4..]) == k4;
    assert c[3..][1..] == c[4..] && m[3..][1..] == m[4..];
    assert Failing(c[3..], m[3..]) == k3 + k4;
    assert c[2..][1..] == c[3..] && m[2..][1..] == m[3..];
    assert Failing(c[2..], m[2..]) == k2 + (k3 + k4);
    assert c[1..][1..] == c[2..] && m[1..][1..] == m[2..];
    assert Failing(c[1..], m[1..]) == k1 + (k2 + (k3 + k4));
    assert Failing(c, m) == k0 + (k1 + (k2 + (k3 + k4)));
  }

  lemma {:induction false} FailingLength(checks: seq<bool>, msgs: seq<string>)
    requires |checks| == |msgs|
    ensures |Failing(checks, msgs)| <= |msgs|
  {
    if checks != [] { FailingLength(checks[1..], msgs[1..]); }
  }

  /** No message is left exactly when every check passed. */
  lemma {:induction false} FailingEmptyIff(checks: seq<bool>, msgs: seq<string>)
    requires |checks| == |msgs|
    ensures Failing(checks, msgs) == [] <==> forall i | 0 <= i < |checks| :: checks[i]
  {
    if checks != [] {
      FailingEmptyIff(checks[1..], msgs[1..]);
      assert forall i | 1 <= i < |checks| :: checks[i] == checks[1..][i - 1];
    }
  }

  /** A failed check leaves its message in the list, and every message in the list comes
      from a failed check. */
  lemma {:induction false} FailingMembers(checks: seq<bool>, msgs: seq<string>)
    requires |checks| == |msgs|
    ensures forall i | 0 <= i < |checks| && !checks[i] :: msgs[i] in Failing(checks, msgs)
    ensures forall m | m in Failing(checks, msgs) ::
              exists i | 0 <= i < |checks| :: !checks[i] && msgs[i] == m
  {
    if checks != [] {
      FailingMembers(checks[1..], msgs[1..]);
      forall m | m in Failing(checks, msgs)
        ensures exists i | 0 <= i < |checks| :: !checks[i] && msgs[i] == m
      {
        if m in Failing(checks[1..], msgs[1..]) {
          var i :| 0 <= i < |checks[1..]| && !checks[1..][i] && msgs[1..][i] == m;
          assert !checks[i + 1] && msgs[i + 1] == m;
        } else {
          assert !checks[0] && msgs[0] == m;
        }
      }
      forall i | 0 <= i < |checks| && !checks[i]
        ensures msgs[i] in Failing(checks, msgs)
      {
        if i > 0 { assert checks[1..][i - 1] == checks[i] && msgs[1..][i - 1] == msgs[i]; }
      }
    }
  }

  /** `validatePassword`: the empty password is "required"; any other password collects
      one message per failed check, in check order. */
  method ValidatePassword(password: string) returns (r: ValidationResult)
    ensures password == "" ==> r.errors == [PasswordRequired]
    ensures password != "" ==> r.errors == Failing(PasswordChecks(password), PasswordMessages)
    ensures |r.errors| <= 5
    ensures r.isValid <==> r.errors == []
    ensures r.isValid <==> password != "" && JsLength(password) >= 8 && HasLower(password)
                           && HasUpper(password) && HasDigit(password) && HasSpecial(password)
  {
    var errors: seq<string> := [];
    if password == "" {
      errors := errors + [PasswordRequired];
    } else {
      ghost var c := PasswordChecks(password);
      if JsLength(password) < 8 {
        errors := errors + [PasswordTooShort];
      }
      assert errors == Keep(c[0], PasswordTooShort);
      if !HasLower(password) {
        errors := errors + [PasswordNoLower];
      }
      assert errors == Keep(c[0], PasswordTooShort) + Keep(c[1], PasswordNoLower);
      if !HasUpper(password) {
        errors := errors + [PasswordNoUpper];
      }
      assert errors == Keep(c[0], PasswordTooShort) + Keep(c[1], PasswordNoLower)
                       + Keep(c[2], PasswordNoUpper);
      if !HasDigit(password) {
        errors := errors + [PasswordNoDigit];
      }
      assert errors == Keep(c[0], PasswordTooShort) + Keep(c[1], PasswordNoLower)
                       + Keep(c[2], PasswordNoUpper) + Keep(c[3], PasswordNoDigit);
      if !HasSpecial(password) {
        errors := errors + [PasswordNoSpecial];
      }
      assert errors == Keep(c[0], PasswordTooShort) + Keep(c[1], PasswordNoLower)
                       + Keep(c[2], PasswordNoUpper) + Keep(c[3], PasswordNoDigit)
                       + Keep(c[4], PasswordNoSpecial);
      FailingOfFive(PasswordChecks(password), PasswordMessages);
      FailingLength(PasswordChecks(password), PasswordMessages);
      FailingEmptyIff(PasswordChecks(password), PasswordMessages);
    }
    r := ValidationResult(errors == [], errors);
  }

  /** `validateModelName`: the trimmed name must have between 2 and 100 code units. */
  method ValidateModelName(name: string) returns (r: ValidationResult)
    ensures |r.errors| <= 1
    ensures r.isValid <==> r.errors == []
    ensures r.isValid <==> 2 <= JsLength(Trim(name)) <= 100
    ensures AllSpace(name) ==> r.errors == [ModelNameRequired]
    ensures 1 <= JsLength(Trim(name)) < 2 ==> r.errors == [ModelNameTooShort]
    ensures JsLength(Trim(name)) > 100 ==> r.errors == [ModelNameTooLong]
  {
    TrimEmptyIffAllSpace(name);
    var errors: seq<string> := [];
    var trimmed := Trim(name);
    if trimmed == [] {
      errors := errors + [ModelNameRequired];
    } else if JsLength(trimmed) < 2 {
      errors := errors + [ModelNameTooShort];
    } else if JsLength(trimmed) > 100 {
      errors := errors + [ModelNameTooLong];
    }
    r := ValidationResult(errors == [], errors);
  }

  predicate IsIdentifierStart(c: char) { IsAsciiLower(c) || IsAsciiUpper(c) || c == '_' }
  predicate IsIdentifierPart(c: char) { IsAsciiAlnum(c) || c == '_' }

  /** `/^[a-zA-Z_][a-zA-Z0-9_]*$/.test(s)` */
  predicate IsIdentifier(s: string) {
    s != [] && IsIdentifierStart(s[0]) && forall k | 1 <= k < |s| :: IsIdentifierPart(s[k])
  }

  /** `validateTargetColumn`: the trimmed column name must be an identifier. */
  method ValidateTargetColumn(column: string) returns (r: ValidationResult)
    ensures |r.errors| <= 1
    ensures r.isValid <==> r.errors == []
    ensures r.isValid <==> IsIdentifier(Trim(column))
    ensures AllSpace(column) ==> r.errors == [TargetColumnRequired]
    ensures !AllSpace(column) && !r.isValid ==> r.errors == [TargetColumnInvalid]
  {
    TrimEmptyIffAllSpace(column);
    var errors: seq<string> := [];
    if Trim(column) == [] {
      errors := errors + [TargetColumnRequired];
    } else if !IsIdentifier(Trim(column)) {
      errors := errors + [TargetColumnInvalid];
    }
    r := ValidationResult(errors == [], errors);
  }

  /** A `File` as far as the validator looks at it. */
  datatype FileInfo = FileInfo(name: string, size: nat)

  /** `name.split('.').pop()`: the text after the last `.`, or all of `name`. */
  function LastSegment(name: string): (r: string)
    ensures '.' !in r
    ensures |r| <= |name| && r == name[|name| - |r|..]
    ensures |r| < |name| ==> name[|name| - |r| - 1] == '.'
  {
    if name == [] then []
    else if name[|name| - 1] == '.' then []
    else
      var r := LastSegment(name[..|name| - 1]);
      assert name[..|name| - 1][|name| - 1 - |r|..] == name[|name| - 1 - |r|..|name| - 1];
      r + [name[|name| - 1]]
  }

  /** `'.' + name.split('.').pop()?.toLowerCase()` */
  function Extension(name: string): string {
    "." + ToLower(LastSegment(name))
  }

  lemma {:induction false} LastSegmentOfDotted(base: string, ext: string)
    requires '.' !in ext
    ensures LastSegment(base + "." + ext) == ext
  {
    if ext == [] {
    } else {
      var s := base + "." + ext;
      assert s[..|s| - 1] == base + "." + ext[..|ext| - 1];
      assert ext[|ext| - 1] in ext;
      assert '.' !in ext[..|ext| - 1] by {
        assert forall k | 0 <= k < |ext| - 1 :: ext[..|ext| - 1][k] == ext[k];
      }
      LastSegmentOfDotted(base, ext[..|ext| - 1]);
      assert ext == ext[..|ext| - 1] + [ext[|ext| - 1]];
    }
  }

  lemma {:induction false} LastSegmentUndotted(name: string)
    requires '.' !in name
    ensures LastSegment(name) == name
  {
    var r := LastSegment(name);
    assert name[|name| - |r|..] == r;
    assert forall k | 0 <= k < |name| :: name[k] != '.';
  }

  /** The extension is the lower-cased text after the last dot of the file name, or the
      whole lower-cased name when it has no dot. */
  lemma ExtensionOf(base: string, ext: string, name: string)
    requires '.' !in ext && '.' !in name
    ensures Extension(base + "." + ext) == "." + ToLower(ext)
    ensures Extension(name) == "." + ToLower(name)
  {
    LastSegmentOfDotted(base, ext);
    LastSegmentUndotted(name);
  }

  /** `maxSizeMB * 1024 * 1024`, with the default of 10 MB. */
  function SizeLimit(maxSizeMB: Option<nat>): nat {
    maxSizeMB.GetOr(10) * 1024 * 1024
  }

  function FileTypeMessage(acceptedTypes: seq<string>): string {
    "File type not supported. Accepted types: " + Join(acceptedTypes, ", ")
  }

  function FileSizeMessage(maxSizeMB: Option<nat>): string {
    "File size must be less than " + NatToString(maxSizeMB.GetOr(10)) + "MB"
  }

  /** `validateFile`: a missing file is "required"; otherwise the type check runs before
      the size check and both may fail. */
  method ValidateFile(file: Option<FileInfo>, acceptedTypes: seq<string>, maxSizeMB: Option<nat>)
    returns (r: ValidationResult)
    ensures file.None? ==> r.errors == [FileRequired]
    ensures file.Some? ==>
      r.errors == (if Extension(file.value.name) in acceptedTypes then [] else [FileTypeMessage(acceptedTypes)])
                  + (if file.value.size > SizeLimit(maxSizeMB) then [FileSizeMessage(maxSizeMB)] else [])
    ensures r.isValid <==> r.errors == []
    ensures r.isValid <==> file.Some? && Extension(file.value.name) in acceptedTypes
                           && file.value.size <= SizeLimit(maxSizeMB)
    ensures |r.errors| <= 2
  {
    var errors: seq<string> := [];
    if file.None? {
      errors := errors + [FileRequired];
    } else {
      var fileExtension := "." + ToLower(LastSegment(file.value.name));
      ghost var typeErrors := if fileExtension in acceptedTypes then [] else [FileTypeMessage(acceptedTypes)];
      if fileExtension !in acceptedTypes {
        errors := errors + [FileTypeMessage(acceptedTypes)];
      }
      assert errors == typeErrors;
      var maxSizeBytes := maxSizeMB.GetOr(10) * 1024 * 1024;
      ghost var sizeErrors := if file.value.size > maxSizeBytes then [FileSizeMessage(maxSizeMB)] else [];
      if file.value.size > maxSizeBytes {
        errors := errors + [FileSizeMessage(maxSizeMB)];
      }
      assert errors == typeErrors + sizeErrors;
    }
    r := ValidationResult(errors == [], errors);
  }

  /** The default size limit is ten mebibytes. */
  lemma DefaultSizeLimit()
    ensures SizeLimit(None) == 10485760
  {
  }

  function AllErrors(validations: seq<ValidationResult>): seq<string> {
    if validations == [] then [] else validations[0].errors + AllErrors(validations[1..])
  }

  /** `validateForm`: the errors of all inputs, concatenated in input order. */
  function ValidateForm(validations: seq<ValidationResult>): (r: ValidationResult)
    ensures r.isValid <==> forall i | 0 <= i < |validations| :: validations[i].errors == []
    ensures r.isValid <==> r.errors == []
  {
    AllErrorsEmpty(validations);
    ValidationResult(AllErrors(validations) == [], AllErrors(validations))
  }

  lemma {:induction false} AllErrorsEmpty(validations: seq<ValidationResult>)
    ensures AllErrors(validations) == [] <==> forall i | 0 <= i < |validations| :: validations[i].errors == []
  {
    if validations != [] {
      AllErrorsEmpty(validations[1..]);
      assert forall i | 1 <= i < |validations| :: validations[i] == validations[1..][i - 1];
    }
  }

  /** Validating two groups of inputs together gives the first group's errors followed by
      the second group's. */
  lemma {:induction false} ValidateFormAppend(a: seq<ValidationResult>, b: seq<ValidationResult>)
    ensures ValidateForm(a + b).errors == ValidateForm(a).errors + ValidateForm(b).errors
  {
    if a == [] {
      assert a + b == b;
    } else {
      assert (a + b)[1..] == a[1..] + b;
      ValidateFormAppend(a[1..], b);
    }
  }
}
