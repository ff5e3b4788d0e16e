/** The customer registration form: the per-field checks run before the form
    is sent to `/register`, and the field update made on every keystroke.
    What the browser's `parseInt`, `new Date(...).getFullYear()` and
    `parseFloat` make of the text fields is an input (`Parsed`), and so is the
    current year. */
module CustomerRegistration {
  import opened Wrappers
  import opened Text

  datatype Field = FirstName | LastName | Age | Dob | Email | Password | ConfirmPassword | InitialAmount

  datatype FormData = FormData(firstName: string, lastName: string, age: string, dob: string,
                               email: string, password: string, confirmPassword: string,
                               initialAmount: string)

  /** The form as the page first shows it. */
  const InitialForm: FormData := FormData("", "", "", "", "", "", "", "0")

  /** The parsers' readings of the age, the year of the date of birth and the
      initial amount (in cents); None stands for NaN. */
  datatype Parsed = Parsed(age: Option<int>, dobYear: Option<int>, initialAmount: Option<int>)

  /** The page's error record: an optional message per field, and a general
      one that only a failed request fills in. */
  datatype FormErrors = FormErrors(firstName: Option<string>, lastName: Option<string>, age: Option<string>,
                                   dob: Option<string>, email: Option<string>, password: Option<string>,
                                   confirmPassword: Option<string>, initialAmount: Option<string>,
                                   general: Option<string>)

  const NoErrors: FormErrors := FormErrors(None, None, None, None, None, None, None, None, None)

  function Get(form: FormData, field: Field): string {
    match field
    case FirstName => form.firstName
    case LastName => form.lastName
    case Age => form.age
    case Dob => form.dob
    case Email => form.email
    case Password => form.password
    case ConfirmPassword => form.confirmPassword
    case InitialAmount => form.initialAmount
  }

  /** `{ ...formData, [name]: value }`. */
  function Set(form: FormData, field: Field, value: string): (r: FormData)
    ensures Get(r, field) == value
    ensures forall g :: g != field ==> Get(r, g) == Get(form, g)
  {
    match field
    case FirstName => form.(firstName := value)
    case LastName => form.(lastName := value)
    case Age => form.(age := value)
    case Dob => form.(dob := value)
    case Email => form.(email := value)
    case Password => form.(password := value)
    case ConfirmPassword => form.(confirmPassword := value)
    case InitialAmount => form.(initialAmount := value)
  }

  function GetError(errors: FormErrors, field: Field): Option<string> {
    match field
    case FirstName => errors.firstName
    case LastName => errors.lastName
    case Age => errors.age
    case Dob => errors.dob
    case Email => errors.email
    case Password => errors.password
    case ConfirmPassword => errors.confirmPassword
    case InitialAmount => errors.initialAmount
  }

  /** `{ ...errors, [name]: message }`. */
  function SetError(errors: FormErrors, field: Field, message: Option<string>): (r: FormErrors)
    ensures GetError(r, field) == message && r.general == errors.general
    ensures forall g :: g != field ==> GetError(r, g) == GetError(errors, g)
  {
    match field
    case FirstName => errors.(firstName := message)
    case LastName => errors.(lastName := message)
    case Age => errors.(age := message)
    case Dob => errors.(dob := message)
    case Email => errors.(email := message)
    case Password => errors.(password := message)
    case ConfirmPassword => errors.(confirmPassword := message)
    case InitialAmount => errors.(initialAmount := message)
  }

  /** `handleChange`: the edited field takes the new value and loses its error
      message; every other field and every other message stays as it was. */
  function HandleChange(form: FormData, errors: FormErrors, field: Field, value: string)
    : (r: (FormData, FormErrors))
    ensures Get(r.0, field) == value
    ensures forall g :: g != field ==> Get(r.0, g) == Get(form, g)
    ensures GetError(r.1, field).None? || GetError(r.1, field) == GetError(errors, field) == Some("")
    ensures forall g :: g != field ==> GetError(r.1, g) == GetError(errors, g)
    ensures r.1.general == errors.general
  {
    // only a truthy (non-empty) message is cleared
    var errors' := if GetError(errors, field).Some? && GetError(errors, field).value != ""
                   then SetError(errors, field, None) else errors;
    (Set(form, field, value), errors')
  }

  // ---------------------------------------------------------------------------
  // The e-mail pattern /^[A-Z0-9._%+-]+@[A-Z0-9.-]+\.[A-Z]{2,}$/i

  predicate IsLetter(c: char) {
    'A' <= c <= 'Z' || 'a' <= c <= 'z'
  }

  predicate IsDigit(c: char) {
    '0' <= c <= '9'
  }

  predicate IsLocalChar(c: char) {
    IsLetter(c) || IsDigit(c) || c == '.' || c == '_' || c == '%' || c == '+' || c == '-'
  }

  predicate IsDomainChar(c: char) {
    IsLetter(c) || IsDigit(c) || c == '.' || c == '-'
  }

  /** `s` reads as local part, '@' at `at`, domain, '.' at `dot`, and a final
      label of two or more letters, each part drawn from its character class. */
  predicate EmailSplitAt(s: string, at: nat, dot: nat) {
    && 0 < at && at + 1 < dot && dot + 2 < |s|
    && s[at] == '@' && s[dot] == '.'
    && (forall i :: 0 <= i < at ==> IsLocalChar(s[i]))
    && (forall i :: at < i < dot ==> IsDomainChar(s[i]))
    && (forall i :: dot < i < |s| ==> IsLetter(s[i]))
  }

  /** What the regular expression accepts: some way of splitting `s` fits it. */
  ghost predicate MatchesEmailPattern(s: string) {
    exists at: nat, dot: nat :: EmailSplitAt(s, at, dot)
  }

  function IndexOf(s: string, c: char): (r: Option<nat>)
    ensures r.Some? ==> r.value < |s| && s[r.value] == c && forall i :: 0 <= i < r.value ==> s[i] != c
    ensures r.None? ==> forall i :: 0 <= i < |s| ==> s[i] != c
  {
    if |s| == 0 then None
    else if s[0] == c then Some(0)
    else match IndexOf(s[1..], c)
      case None => None
      case Some(k) => Some(k + 1)
  }

  function LastIndexOf(s: string, c: char): (r: Option<nat>)
    ensures r.Some? ==> r.value < |s| && s[r.value] == c && forall i :: r.value < i < |s| ==> s[i] != c
    ensures r.None? ==> forall i :: 0 <= i < |s| ==> s[i] != c
  {
    if |s| == 0 then None
    else if s[|s| - 1] == c then Some(|s| - 1)
    else LastIndexOf(s[..|s| - 1], c)
  }

  /** The pattern as one decision: since neither the local part nor the domain
      may hold '@', and the final label holds no '.', the only split to try is
      at the first '@' and the last '.'. */
  function IsValidEmail(s: string): bool {
    match (IndexOf(s, '@'), LastIndexOf(s, '.'))
    case (Some(at), Some(dot)) => EmailSplitAt(s, at, dot)
    case _ => false
  }

  lemma EmailCheckMatchesPattern(s: string)
    ensures IsValidEmail(s) <==> MatchesEmailPattern(s)
  {
    if MatchesEmailPattern(s) {
      var at: nat, dot: nat :| EmailSplitAt(s, at, dot);
      var first := IndexOf(s, '@');
      var last := LastIndexOf(s, '.');
      assert first.Some? && last.Some?;
    }
  }

  // ---------------------------------------------------------------------------
  // validateForm

  /** `password.length`: the number of UTF-16 code units, so a character outside
      the Basic Multilingual Plane counts twice. */
  function Utf16Length(s: string): (n: nat)
    ensures |s| <= n <= 2 * |s|
    ensures n == |s| + multiset(AstralFlags(s))[true]
  {
    if |s| == 0 then
      0
    else
      assert AstralFlags(s) == [IsAstral(s[0])] + AstralFlags(s[1..]);
      (if IsAstral(s[0]) then 2 else 1) + Utf16Length(s[1..])
  }

  /** A character outside the Basic Multilingual Plane, which UTF-16 stores
      as a surrogate pair. */
  predicate IsAstral(c: char) {
    c as int > 0xFFFF
  }

  /** For each position of `s`, whether the character there is astral. */
  function AstralFlags(s: string): (flags: seq<bool>)
    ensures |flags| == |s| && forall i :: 0 <= i < |s| ==> flags[i] == IsAstral(s[i])
  {
    seq(|s|, i requires 0 <= i < |s| => IsAstral(s[i]))
  }

  /** The rule a field must satisfy for `validateForm` to record no message for it. */
  ghost predicate FieldAccepted(form: FormData, p: Parsed, currentYear: int, field: Field) {
    match field
    case FirstName => !IsBlank(form.firstName)
    case LastName => !IsBlank(form.lastName)
    case Age => form.age != "" && p.age.Some? && p.age.value >= 18
    case Dob => form.dob != "" && (p.dobYear.Some? ==> currentYear - p.dobYear.value >= 18)
    case Email => MatchesEmailPattern(form.email)
    case Password => Utf16Length(form.password) >= 6
    case ConfirmPassword => form.password == form.confirmPassword
    case InitialAmount => p.initialAmount.Some? && p.initialAmount.value >= 0
  }

  /** The message `validateForm` records for `field`, if any. */
  function FieldError(form: FormData, p: Parsed, currentYear: int, field: Field): Option<string> {
    match field
    case FirstName =>
      if Trim(form.firstName) == "" then Some("First name is required") else None
    case LastName =>
      if Trim(form.lastName) == "" then Some("Last name is required") else None
    case Age =>
      if form.age == "" || p.age.None? then Some("Valid age is required")
      else if p.age.value < 18 then Some("You must be at least 18 years old")
      else None
    case Dob =>
      // an unreadable date gives NaN, and NaN < 18 is false: no message
      if form.dob == "" then Some("Date of birth is required")
      else if p.dobYear.Some? && currentYear - p.dobYear.value < 18 then Some("You must be at least 18 years old")
      else None
    case Email =>
      if Trim(form.email) == "" then Some("Email is required")
      else if !IsValidEmail(form.email) then Some("Invalid email address")
      else None
    case Password =>
      if form.password == "" then Some("Password is required")
      else if Utf16Length(form.password) < 6 then Some("Password must be at least 6 characters")
      else None
    case ConfirmPassword =>
      if form.password != form.confirmPassword then Some("Passwords do not match") else None
    case InitialAmount =>
      if p.initialAmount.None? || p.initialAmount.value < 0 then Some("Initial amount must be a positive number")
      else None
  }

  /** A field has no message exactly when it satisfies its rule. */
  lemma FieldErrorIffAccepted(form: FormData, p: Parsed, currentYear: int, field: Field)
    ensures FieldError(form, p, currentYear, field).None? <==> FieldAccepted(form, p, currentYear, field)
  {
    match field
    case FirstName => TrimEmptyIffBlank(form.firstName);
    case LastName => TrimEmptyIffBlank(form.lastName);
    case Email =>
      TrimEmptyIffBlank(form.email);
      EmailCheckMatchesPattern(form.email);
      PatternIsNotBlank(form.email);
    case Age => case Dob => case Password => case ConfirmPassword => case InitialAmount =>
  }

  /** An address of the e-mail pattern is never blank. */
  lemma PatternIsNotBlank(s: string)
    ensures MatchesEmailPattern(s) ==> !IsBlank(s)
  {
    if MatchesEmailPattern(s) {
      var at: nat, dot: nat :| EmailSplitAt(s, at, dot);
      assert !IsWhitespace(s[at]);
    }
  }

  /** What a form that passes every check satisfies: every field's rule. */
  ghost predicate Accepted(form: FormData, p: Parsed, currentYear: int) {
    && FieldAccepted(form, p, currentYear, FirstName)
    && FieldAccepted(form, p, currentYear, LastName)
    && FieldAccepted(form, p, currentYear, Age)
    && FieldAccepted(form, p, currentYear, Dob)
    && FieldAccepted(form, p, currentYear, Email)
    && FieldAccepted(form, p, currentYear, Password)
    && FieldAccepted(form, p, currentYear, ConfirmPassword)
    && FieldAccepted(form, p, currentYear, InitialAmount)
  }

  /** `Object.keys(newErrors).length === 0`: no message was recorded. */
  predicate NoneRecorded(errors: FormErrors) {
    && errors.firstName.None? && errors.lastName.None? && errors.age.None? && errors.dob.None?
    && errors.email.None? && errors.password.None? && errors.confirmPassword.None?
    && errors.initialAmount.None? && errors.general.None?
  }

  /** `validateForm`: the error record is built up field by field, and the form
      is valid exactly when no field recorded an error. */
  method ValidateForm(form: FormData, p: Parsed, currentYear: int) returns (errors: FormErrors, valid: bool)
    ensures forall f :: GetError(errors, f) == FieldError(form, p, currentYear, f)
    ensures errors.general.None?
    ensures valid <==> Accepted(form, p, currentYear)
  {
    errors := CheckPerson(form, p, currentYear);
    errors := CheckCredentials(form, p, currentYear, errors);
    errors := CheckConfirmationAndAmount(form, p, currentYear, errors);
    valid := NoneRecorded(errors);

    assert errors.email == FieldError(form, p, currentYear, Email);
    assert errors.password == FieldError(form, p, currentYear, Password);
    assert errors.confirmPassword == FieldError(form, p, currentYear, ConfirmPassword);
    assert errors.initialAmount == FieldError(form, p, currentYear, InitialAmount);
    EachFieldAccepted(form, p, currentYear);
    forall f ensures GetError(errors, f) == FieldError(form, p, currentYear, f) {
      match f
      case FirstName => case LastName => case Age => case Dob =>
      case Email => case Password => case ConfirmPassword => case InitialAmount =>
    }
  }

  /** The name, age and date-of-birth checks of `validateForm`, starting from
      an empty record. */
  method CheckPerson(form: FormData, p: Parsed, currentYear: int) returns (errors: FormErrors)
    ensures errors.firstName == FieldError(form, p, currentYear, FirstName)
    ensures errors.lastName == FieldError(form, p, currentYear, LastName)
    ensures errors.age == FieldError(form, p, currentYear, Age)
    ensures errors.dob == FieldError(form, p, currentYear, Dob)
    ensures errors == NoErrors.(firstName := errors.firstName, lastName := errors.lastName,
                                age := errors.age, dob := errors.dob)
  {
    errors := NoErrors;
    if Trim(form.firstName) == "" { errors := errors.(firstName := Some("First name is required")); }
    if Trim(form.lastName) == "" { errors := errors.(lastName := Some("Last name is required")); }

    if form.age == "" || p.age.None? {
      errors := errors.(age := Some("Valid age is required"));
    } else if p.age.value < 18 {
      errors := errors.(age := Some("You must be at least 18 years old"));
    }

    if form.dob == "" {
      errors := errors.(dob := Some("Date of birth is required"));
    } else if p.dobYear.Some? {
      // `new Date().getFullYear() - dob.getFullYear()`
      var age := currentYear - p.dobYear.value;
      if age < 18 { errors := errors.(dob := Some("You must be at least 18 years old")); }
    }
  }

  /** The e-mail and password checks of `validateForm`; the other fields'
      messages are left alone. */
  method CheckCredentials(form: FormData, p: Parsed, currentYear: int, errors0: FormErrors) returns (errors: FormErrors)
    ensures errors.email == FieldError(form, p, currentYear, Email)
    ensures errors.password == FieldError(form, p, currentYear, Password)
    ensures errors == errors0.(email := errors.email, password := errors.password)
  {
    errors := errors0.(email := None, password := None);
    if Trim(form.email) == "" {
      errors := errors.(email := Some("Email is required"));
    } else if !IsValidEmail(form.email) {
      errors := errors.(email := Some("Invalid email address"));
    }

    if form.password == "" {
      errors := errors.(password := Some("Password is required"));
    } else if Utf16Length(form.password) < 6 {
      errors := errors.(password := Some("Password must be at least 6 characters"));
    }
  }

  /** The confirmation and initial-amount checks of `validateForm`. */
  method CheckConfirmationAndAmount(form: FormData, p: Parsed, currentYear: int, errors0: FormErrors) returns (errors: FormErrors)
    ensures errors.confirmPassword == FieldError(form, p, currentYear, ConfirmPassword)
    ensures errors.initialAmount == FieldError(form, p, currentYear, InitialAmount)
    ensures errors == errors0.(confirmPassword := errors.confirmPassword, initialAmount := errors.initialAmount)
  {
    errors := errors0.(confirmPassword := None, initialAmount := None);
    if form.password != form.confirmPassword {
      errors := errors.(confirmPassword := Some("Passwords do not match"));
    }

    if p.initialAmount.None? || p.initialAmount.value < 0 {
      errors := errors.(initialAmount := Some("Initial amount must be a positive number"));
    }
  }

  /** No field has a message exactly when the form satisfies `Accepted`. */
  lemma NoErrorIffAccepted(form: FormData, p: Parsed, currentYear: int)
    ensures (forall f :: FieldError(form, p, currentYear, f).None?) <==> Accepted(form, p, currentYear)
  {
    EachFieldAccepted(form, p, currentYear);
    if Accepted(form, p, currentYear) {
      forall f ensures FieldError(form, p, currentYear, f).None? {
        match f
        case FirstName => case LastName => case Age => case Dob =>
        case Email => case Password => case ConfirmPassword => case InitialAmount =>
      }
    }
  }

  /** The same equivalence, one field at a time. */
  lemma EachFieldAccepted(form: FormData, p: Parsed, currentYear: int)
    ensures (&& FieldError(form, p, currentYear, FirstName).None?
             && FieldError(form, p, currentYear, LastName).None?
             && FieldError(form, p, currentYear, Age).None?
             && FieldError(form, p, currentYear, Dob).None?
             && FieldError(form, p, currentYear, Email).None?
             && FieldError(form, p, currentYear, Password).None?
             && FieldError(form, p, currentYear, ConfirmPassword).None?
             && FieldError(form, p, currentYear, InitialAmount).None?)
            <==> Accepted(form, p, currentYear)
  {
    FieldErrorIffAccepted(form, p, currentYear, FirstName);
    FieldErrorIffAccepted(form, p, currentYear, LastName);
    FieldErrorIffAccepted(form, p, currentYear, Age);
    FieldErrorIffAccepted(form, p, currentYear, Dob);
    FieldErrorIffAccepted(form, p, currentYear, Email);
    FieldErrorIffAccepted(form, p, currentYear, Password);
    FieldErrorIffAccepted(form, p, currentYear, ConfirmPassword);
    FieldErrorIffAccepted(form, p, currentYear, InitialAmount);
  }

  /** The form as the page first shows it is refused: its first name is blank. */
  lemma InitialFormIsRefused(p: Parsed, currentYear: int)
    ensures FieldError(InitialForm, p, currentYear, FirstName) == Some("First name is required")
    ensures !Accepted(InitialForm, p, currentYear)
  {
    BlankNameIsRequired(InitialForm, p, currentYear);
    FieldErrorIffAccepted(InitialForm, p, currentYear, FirstName);
  }

  /** A form whose only flaw is a blank first name is refused with exactly that message. */
  lemma BlankNameIsRequired(form: FormData, p: Parsed, currentYear: int)
    requires IsBlank(form.firstName)
    ensures FieldError(form, p, currentYear, FirstName) == Some("First name is required")
  {
    TrimEmptyIffBlank(form.firstName);
  }

  /** The date-of-birth check compares calendar years only: someone born late in
      the year 18 years ago passes it before their eighteenth birthday. */
  lemma DobComparesYearsOnly(form: FormData, p: Parsed, currentYear: int)
    requires form.dob != "" && p.dobYear == Some(currentYear - 18)
    ensures FieldError(form, p, currentYear, Dob).None?
  {
  }
}
