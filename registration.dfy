/** The registration form's validation: the per-field rules, the error map that
    `validateForm` builds, the error clearing done on every edit, and the gate
    that keeps an invalid form from being submitted. */
module Registration {
  import opened Prelude

  // ---------------------------------------------------------------------------
  // Characters and trimming
  // ---------------------------------------------------------------------------

  /** ECMAScript white space and line terminators: the characters `trim`
      strips and the regular-expression class `\s` matches. */
  predicate IsSpace(c: char) {
    || c == '\t' || c == '\n' || c == '\U{000B}' || c == '\U{000C}' || c == '\r'
    || c == ' ' || c == '\U{00A0}' || c == '\U{1680}'
    || ('\U{2000}' <= c <= '\U{200A}')
    || c == '\U{2028}' || c == '\U{2029}' || c == '\U{202F}' || c == '\U{205F}'
    || c == '\U{3000}' || c == '\U{FEFF}'
  }

  predicate Blank(s: string) {
    forall i :: 0 <= i < |s| ==> IsSpace(s[i])
  }

  /** `s` without its leading white space. */
  function TrimStart(s: string): (r: string)
    ensures |r| <= |s|
  {
    if s != [] && IsSpace(s[0]) then TrimStart(s[1..]) else s
  }

  /** `s` without its trailing white space. */
  function TrimEnd(s: string): (r: string)
    ensures |r| <= |s|
  {
    if s != [] && IsSpace(s[|s| - 1]) then TrimEnd(s[..|s| - 1]) else s
  }

  /** What TrimStart leaves is a suffix of `s` that is empty or starts with a
      character other than white space, and all it dropped is white space. */
  lemma {:induction false} TrimStartSpec(s: string)
    ensures TrimStart(s) == s[|s| - |TrimStart(s)|..]
    ensures Blank(s[..|s| - |TrimStart(s)|])
    ensures TrimStart(s) == [] || !IsSpace(TrimStart(s)[0])
  {
    if s != [] && IsSpace(s[0]) {
      TrimStartSpec(s[1..]);
      var r := TrimStart(s);
      assert s[..|s| - |r|] == [s[0]] + s[1..][..|s| - 1 - |r|];
    }
  }

  /** What TrimEnd leaves is a prefix of `s` that is empty or ends with a
      character other than white space, and all it dropped is white space. */
  lemma {:induction false} TrimEndSpec(s: string)
    ensures TrimEnd(s) == s[..|TrimEnd(s)|]
    ensures Blank(s[|TrimEnd(s)|..])
    ensures TrimEnd(s) == [] || !IsSpace(TrimEnd(s)[|TrimEnd(s)| - 1])
  {
    if s != [] && IsSpace(s[|s| - 1]) {
      TrimEndSpec(s[..|s| - 1]);
      var r := TrimEnd(s);
      assert s[|r|..] == s[..|s| - 1][|r|..] + [s[|s| - 1]];
    }
  }

  /** `s.trim()`: no longer than `s`, empty exactly when `s` is made only of
      white space, and otherwise starting and ending with other characters.
      So `!s.trim()` holds exactly for blank strings. */
  function Trim(s: string): (r: string)
    ensures |r| <= |s|
    ensures r == [] <==> Blank(s)
    ensures r == [] || (!IsSpace(r[0]) && !IsSpace(r[|r| - 1]))
  {
    var t := TrimStart(s);
    var r := TrimEnd(t);
    TrimStartSpec(s);
    TrimEndSpec(t);
    assert r == [] ==> Blank(s) by {
      if r == [] {
        assert t[0..] == t;
        assert t == [];
        assert s[..|s|] == s;
      }
    }
    assert r != [] ==> !IsSpace(r[0]) && !Blank(s) by {
      if r != [] {
        assert r[0] == t[0] == s[|s| - |t|];
      }
    }
    r
  }

  // ---------------------------------------------------------------------------
  // The e-mail pattern /\S+@\S+\.\S+/, applied with `test` (not anchored)
  // ---------------------------------------------------------------------------

  /** `s[i..j]` is non-empty and holds no white space: a stretch that `\S+` matches. */
  predicate Run(s: string, i: int, j: int) {
    0 <= i < j <= |s| && forall k | i <= k < j :: !IsSpace(s[k])
  }

  /** `/\S+@\S+\.\S+/.test(s)`. The pattern is not anchored, so it holds when
      some substring `s[a..e]` splits as X@Y.Z, X = `s[a..p]`, Y = `s[p+1..d]`
      and Z = `s[d+1..e]` each a stretch matched by `\S+`. */
  predicate MatchesEmailPattern(s: string) {
    exists p, d | 0 <= p < d < |s| ::
      s[p] == '@' && s[d] == '.' && RunEndsAt(s, p) && Run(s, p + 1, d) && RunStartsAt(s, d + 1)
  }

  /** Some stretch matched by `\S+` ends just before position `j`. */
  predicate RunEndsAt(s: string, j: int) {
    exists a | 0 <= a < j :: Run(s, a, j)
  }

  /** Some stretch matched by `\S+` starts at position `i`. */
  predicate RunStartsAt(s: string, i: int) {
    exists e | i < e <= |s| :: Run(s, i, e)
  }

  /** An equivalent test that looks only at the neighbours of the '@' and '.':
      a non-space character right before the '@', one right after the '.',
      and only non-space characters, at least one, between the two. */
  predicate EmailShape(s: string) {
    exists p, d | 0 < p < d < |s| - 1 ::
      s[p] == '@' && s[d] == '.' && Run(s, p - 1, p) && Run(s, p + 1, d) && Run(s, d + 1, d + 2)
  }

  lemma EmailPatternIff(s: string)
    ensures MatchesEmailPattern(s) <==> EmailShape(s)
  {
    if MatchesEmailPattern(s) {
      PatternGivesShape(s);
    }
    if EmailShape(s) {
      ShapeGivesPattern(s);
    }
  }

  lemma PatternGivesShape(s: string)
    requires MatchesEmailPattern(s)
    ensures EmailShape(s)
  {
    var p, d :| 0 <= p < d < |s| && s[p] == '@' && s[d] == '.' &&
      RunEndsAt(s, p) && Run(s, p + 1, d) && RunStartsAt(s, d + 1);
    var a :| 0 <= a < p && Run(s, a, p);
    var e :| d + 1 < e <= |s| && Run(s, d + 1, e);
    assert Run(s, p - 1, p) && Run(s, d + 1, d + 2);
  }

  lemma ShapeGivesPattern(s: string)
    requires EmailShape(s)
    ensures MatchesEmailPattern(s)
  {
    var p, d :| 0 < p < d < |s| - 1 &&
      s[p] == '@' && s[d] == '.' && Run(s, p - 1, p) && Run(s, p + 1, d) && Run(s, d + 1, d + 2);
    assert RunEndsAt(s, p) && RunStartsAt(s, d + 1);
  }

  /** The pattern is loose: text around the address and a second '@' are
      accepted. */
  lemma EmailPatternAcceptsLoose()
    ensures MatchesEmailPattern("a@b.c")
    ensures MatchesEmailPattern("see x@y.z here")
    ensures MatchesEmailPattern("a@@.b")
  {
    var s := "a@b.c";
    assert Run(s, 0, 1) && Run(s, 2, 3) && Run(s, 4, 5);
    assert s[1] == '@' && s[3] == '.';
    assert RunEndsAt(s, 1) && RunStartsAt(s, 4);
    var t := "see x@y.z here";
    assert t[5] == '@' && t[7] == '.';
    assert Run(t, 4, 5) && Run(t, 6, 7) && Run(t, 8, 9);
    assert RunEndsAt(t, 5) && RunStartsAt(t, 8);
    var w := "a@@.b";
    assert w[1] == '@' && w[3] == '.';
    assert Run(w, 0, 1) && Run(w, 2, 3) && Run(w, 4, 5);
    assert RunEndsAt(w, 1) && RunStartsAt(w, 4);
  }

  /** Without a dot after the '@', or with white space right before it, the
      pattern fails. */
  lemma EmailPatternRejects()
    ensures !MatchesEmailPattern("a@b")
    ensures !MatchesEmailPattern("a @b.c")
  {
    var u := "a @b.c";
    assert !RunEndsAt(u, 2) by {
      assert IsSpace(u[1]);
    }
    assert forall p | 0 <= p < |u| && u[p] == '@' :: p == 2;
  }

  // ---------------------------------------------------------------------------
  // Password rules, in the order they are checked
  // ---------------------------------------------------------------------------

  predicate IsAsciiLetter(c: char) {
    ('a' <= c <= 'z') || ('A' <= c <= 'Z')
  }

  predicate IsDigit(c: char) {
    '0' <= c <= '9'
  }

  /** `/[a-zA-Z]/.test(s)` */
  predicate HasLetter(s: string) {
    exists i | 0 <= i < |s| :: IsAsciiLetter(s[i])
  }

  /** `/[0-9]/.test(s)` */
  predicate HasDigit(s: string) {
    exists i | 0 <= i < |s| :: IsDigit(s[i])
  }

  /** `/[^a-zA-Z0-9]/.test(s)`: some character that is neither (white space counts). */
  predicate HasSpecial(s: string) {
    exists i | 0 <= i < |s| :: !IsAsciiLetter(s[i]) && !IsDigit(s[i])
  }

  datatype PasswordRule = Present | LongEnough | ContainsLetter | ContainsDigit | ContainsSpecial

  const PasswordRules: seq<PasswordRule> :=
    [Present, LongEnough, ContainsLetter, ContainsDigit, ContainsSpecial]

  predicate Passes(rule: PasswordRule, pw: string) {
    match rule
    case Present => pw != []
    case LongEnough => |pw| >= 8
    case ContainsLetter => HasLetter(pw)
    case ContainsDigit => HasDigit(pw)
    case ContainsSpecial => HasSpecial(pw)
  }

  function RuleMessage(rule: PasswordRule): (message: string) {
    match rule
    case Present => "Password is required"
    case LongEnough => "Password must be at least 8 characters long"
    case ContainsLetter => "Password must contain at least one letter"
    case ContainsDigit => "Password must contain at least one number"
    case ContainsSpecial => "Password must contain at least one special character"
  }

  /** The message of the first rule in `rules` that `pw` fails, if any. */
  function FirstFailure(rules: seq<PasswordRule>, pw: string): (r: Option<string>)
    ensures r.None? <==> forall k :: 0 <= k < |rules| ==> Passes(rules[k], pw)
    ensures r.Some? ==> exists k :: 0 <= k < |rules| && !Passes(rules[k], pw) &&
                          r.value == RuleMessage(rules[k]) &&
                          forall j :: 0 <= j < k ==> Passes(rules[j], pw)
  {
    if rules == [] then None
    else if !Passes(rules[0], pw) then Some(RuleMessage(rules[0]))
    else
      var r := FirstFailure(rules[1..], pw);
      assert r.Some? ==> exists k :: 1 <= k < |rules| && !Passes(rules[k], pw) &&
                           r.value == RuleMessage(rules[k]) &&
                           forall j :: 0 <= j < k ==> Passes(rules[j], pw) by {
        if r.Some? {
          var k :| 0 <= k < |rules[1..]| && !Passes(rules[1..][k], pw) &&
                   r.value == RuleMessage(rules[1..][k]) &&
                   forall j :: 0 <= j < k ==> Passes(rules[1..][j], pw);
          assert forall j :: 1 <= j < k + 1 ==> Passes(rules[j], pw) by {
            forall j | 1 <= j < k + 1 ensures Passes(rules[j], pw) {
              assert rules[j] == rules[1..][j - 1];
            }
          }
          assert !Passes(rules[k + 1], pw) && r.value == RuleMessage(rules[k + 1]);
        }
      }
      assert r.None? ==> forall k :: 0 <= k < |rules| ==> Passes(rules[k], pw) by {
        if r.None? {
          forall k | 0 <= k < |rules| ensures Passes(rules[k], pw) {
            if k > 0 {
              assert rules[k] == rules[1..][k - 1];
            }
          }
        }
      }
      r
  }

  // ---------------------------------------------------------------------------
  // Per-field rules
  // ---------------------------------------------------------------------------

  const NameRequired := "Name is required"
  const NameTooShort := "Name must be at least 2 characters long"
  const EmailRequired := "Email is required"
  const EmailInvalid := "Please enter a valid email"
  const PhoneRequired := "Phone number is required"
  const PasswordsDiffer := "Passwords do not match"

  /** The name is required, then at least 2 characters long; the minimum is
      checked on the untrimmed name. */
  function NameError(name: string): (e: Option<string>)
    ensures e == Some(NameRequired) <==> Blank(name)
    ensures e == Some(NameTooShort) <==> !Blank(name) && |name| < 2
    ensures e.None? <==> !Blank(name) && |name| >= 2
  {
    if Trim(name) == [] then Some(NameRequired)
    else if |name| < 2 then Some(NameTooShort)
    else None
  }

  /** The address is required, then must match the pattern; the pattern is
      tested on the untrimmed address. */
  function EmailError(email: string): (e: Option<string>)
    ensures e == Some(EmailRequired) <==> Blank(email)
    ensures e == Some(EmailInvalid) <==> !Blank(email) && !MatchesEmailPattern(email)
    ensures e.None? <==> !Blank(email) && MatchesEmailPattern(email)
  {
    if Trim(email) == [] then Some(EmailRequired)
    else if !MatchesEmailPattern(email) then Some(EmailInvalid)
    else None
  }

  /** The phone is only required. */
  function PhoneError(phone: string): (e: Option<string>)
    ensures e.Some? <==> Blank(phone)
    ensures e.Some? ==> e.value == PhoneRequired
  {
    if Trim(phone) == [] then Some(PhoneRequired) else None
  }

  /** The password is not trimmed: only the empty string counts as missing. A
      password has no error exactly when it passes all five rules. */
  function PasswordError(pw: string): (e: Option<string>)
    ensures e.None? <==> |pw| >= 8 && HasLetter(pw) && HasDigit(pw) && HasSpecial(pw)
    ensures pw == [] ==> e == Some(RuleMessage(Present))
  {
    if pw == [] then Some(RuleMessage(Present))
    else if |pw| < 8 then Some(RuleMessage(LongEnough))
    else if !HasLetter(pw) then Some(RuleMessage(ContainsLetter))
    else if !HasDigit(pw) then Some(RuleMessage(ContainsDigit))
    else if !HasSpecial(pw) then Some(RuleMessage(ContainsSpecial))
    else None
  }

  /** The confirmation must equal the password, whatever the password is. */
  function ConfirmError(pw: string, confirm: string): (e: Option<string>)
    ensures e.Some? <==> pw != confirm
    ensures e.Some? ==> e.value == PasswordsDiffer
  {
    if pw != confirm then Some(PasswordsDiffer) else None
  }

  /** The if-chain reports the first rule of the fixed order that fails. */
  lemma PasswordErrorIsFirstFailure(pw: string)
    ensures PasswordError(pw) == FirstFailure(PasswordRules, pw)
  {
    var r5: seq<PasswordRule> := [ContainsSpecial];
    var r4 := [ContainsDigit] + r5;
    var r3 := [ContainsLetter] + r4;
    var r2 := [LongEnough] + r3;
    assert r5[1..] == [] && r4[1..] == r5 && r3[1..] == r4 && r2[1..] == r3;
    assert PasswordRules[1..] == r2;
    assert FirstFailure(r5, pw) == if !HasSpecial(pw) then Some(RuleMessage(ContainsSpecial)) else None;
    assert FirstFailure(r4, pw) ==
             if !HasDigit(pw) then Some(RuleMessage(ContainsDigit)) else FirstFailure(r5, pw);
    assert FirstFailure(r3, pw) ==
             if !HasLetter(pw) then Some(RuleMessage(ContainsLetter)) else FirstFailure(r4, pw);
    assert FirstFailure(r2, pw) ==
             if |pw| < 8 then Some(RuleMessage(LongEnough)) else FirstFailure(r3, pw);
  }

  // ---------------------------------------------------------------------------
  // The form and its error map
  // ---------------------------------------------------------------------------

  datatype Field = Name | Email | Phone | Password | ConfirmPassword | Role

  /** `formData`; `role` holds whatever the select last sent. */
  datatype Form = Form(name: string, email: string, phone: string,
                       password: string, confirmPassword: string, role: string)

  const EmptyForm := Form("", "", "", "", "", "Buyer")

  function Get(f: Form, field: Field): string {
    match field
    case Name => f.name
    case Email => f.email
    case Phone => f.phone
    case Password => f.password
    case ConfirmPassword => f.confirmPassword
    case Role => f.role
  }

  /** `{ ...formData, [field]: value }` */
  function Set(f: Form, field: Field, value: string): (r: Form)
    ensures Get(r, field) == value
    ensures forall other :: other != field ==> Get(r, other) == Get(f, other)
  {
    match field
    case Name => f.(name := value)
    case Email => f.(email := value)
    case Phone => f.(phone := value)
    case Password => f.(password := value)
    case ConfirmPassword => f.(confirmPassword := value)
    case Role => f.(role := value)
  }

  /** The rule that decides the entry for `field`; the role has none. */
  function FieldError(f: Form, field: Field): (e: Option<string>) {
    match field
    case Name => NameError(f.name)
    case Email => EmailError(f.email)
    case Phone => PhoneError(f.phone)
    case Password => PasswordError(f.password)
    case ConfirmPassword => ConfirmError(f.password, f.confirmPassword)
    case Role => None
  }

  /** The map holding `field`'s error if there is one, and nothing else. */
  function Entry(field: Field, e: Option<string>): (m: map<Field, string>) {
    if e.Some? then map[field := e.value] else map[]
  }

  /** The map with one entry for each field whose error is present. */
  function ErrorMap(name: Option<string>, email: Option<string>, phone: Option<string>,
                    password: Option<string>, confirm: Option<string>): (errs: map<Field, string>)
    ensures Name in errs <==> name.Some?
    ensures Email in errs <==> email.Some?
    ensures Phone in errs <==> phone.Some?
    ensures Password in errs <==> password.Some?
    ensures ConfirmPassword in errs <==> confirm.Some?
    ensures Role !in errs
    ensures Name in errs ==> errs[Name] == name.value
    ensures Email in errs ==> errs[Email] == email.value
    ensures Phone in errs ==> errs[Phone] == phone.value
    ensures Password in errs ==> errs[Password] == password.value
    ensures ConfirmPassword in errs ==> errs[ConfirmPassword] == confirm.value
  {
    Entry(Name, name) + Entry(Email, email) + Entry(Phone, phone) +
    Entry(Password, password) + Entry(ConfirmPassword, confirm)
  }

  /** The error map of a form: one entry for each field whose rule fails. */
  function ErrorsFor(f: Form): (errs: map<Field, string>)
    ensures forall k :: k in errs <==> FieldError(f, k).Some?
    ensures forall k :: k in errs ==> errs[k] == FieldError(f, k).value
  {
    var errs := ErrorMap(NameError(f.name), EmailError(f.email), PhoneError(f.phone),
                         PasswordError(f.password), ConfirmError(f.password, f.confirmPassword));
    assert forall k :: (k in errs <==> FieldError(f, k).Some?) &&
                       (k in errs ==> errs[k] == FieldError(f, k).value) by {
      forall k ensures (k in errs <==> FieldError(f, k).Some?) &&
                       (k in errs ==> errs[k] == FieldError(f, k).value) {
        if k.Name? {
        } else if k.Email? {
        } else if k.Phone? {
        } else if k.Password? {
        } else if k.ConfirmPassword? {
        } else {
          assert k.Role?;
        }
      }
    }
    errs
  }

  /** A form is accepted exactly when every field rule passes. */
  lemma ErrorsEmptyIff(f: Form)
    ensures ErrorsFor(f) == map[] <==>
              && Trim(f.name) != [] && |f.name| >= 2
              && Trim(f.email) != [] && MatchesEmailPattern(f.email)
              && Trim(f.phone) != []
              && |f.password| >= 8 && HasLetter(f.password) && HasDigit(f.password)
              && HasSpecial(f.password)
              && f.password == f.confirmPassword
  {
    var errs := ErrorsFor(f);
    if errs == map[] {
      assert Name !in errs && Email !in errs && Phone !in errs;
      assert Password !in errs && ConfirmPassword !in errs;
    } else {
      var k :| k in errs;
    }
  }

  /** The "required" messages appear exactly for the fields made only of white
      space; the phone has no other rule. */
  lemma RequiredErrorsIff(f: Form)
    ensures Blank(f.name) <==> Name in ErrorsFor(f) && ErrorsFor(f)[Name] == NameRequired
    ensures Blank(f.email) <==> Email in ErrorsFor(f) && ErrorsFor(f)[Email] == EmailRequired
    ensures Blank(f.phone) <==> Phone in ErrorsFor(f)
  {
  }

  /** The minimum length is measured before trimming: " a" passes although
      only one character is left after `trim`, while "a" does not. */
  lemma NameLengthIsUntrimmed()
    ensures NameError(" a") == None
    ensures NameError("a") == Some(NameTooShort)
  {
    assert " a"[1..] == "a";
    assert TrimStart("a") == "a";
    assert TrimEnd("a") == "a";
    assert Trim(" a") == "a";
  }

  /** The confirmation error depends on nothing but the two passwords, whether
      or not the password itself fails a rule. */
  lemma ConfirmErrorIff(f: Form)
    ensures ConfirmPassword in ErrorsFor(f) <==> f.password != f.confirmPassword
    ensures ConfirmPassword in ErrorsFor(f) ==> ErrorsFor(f)[ConfirmPassword] == PasswordsDiffer
  {
  }

  /** `errors[field]` is truthy (present and not "") only then is it reset to "". */
  function ClearedError(errors: map<Field, string>, field: Field): (r: map<Field, string>)
    ensures r.Keys == errors.Keys
    ensures forall k :: k in r && k != field ==> r[k] == errors[k]
    ensures field in r ==> r[field] == ""
  {
    if field in errors && errors[field] != "" then errors[field := ""] else errors
  }

  /** What `handleSubmit` hands to `register` once the form is valid. */
  datatype RegisterData = RegisterData(name: string, email: string, phone: string,
                                       password: string, role: string)

  /** The form component's state: `formData` and `errors`. */
  class RegisterForm {
    var form: Form
    var errors: map<Field, string>

    constructor ()
      ensures form == EmptyForm && errors == map[]
    {
      form := EmptyForm;
      errors := map[];
    }

    /** `handleChange`: store the value, and blank the field's error if it had one. */
    method HandleChange(field: Field, value: string)
      modifies this
      ensures form == Set(old(form), field, value)
      ensures errors == ClearedError(old(errors), field)
    {
      form := Set(form, field, value);
      if field in errors && errors[field] != "" {
        errors := errors[field := ""];
      }
    }

    /** `validateForm`: the error map is rebuilt from nothing and replaces the
        old one; the form is valid when it has no keys. */
    method ValidateForm() returns (ok: bool)
      modifies this
      ensures form == old(form)
      ensures errors == ErrorsFor(form)
      ensures ok <==> errors == map[]
    {
      var newErrors := BuildErrors(form);
      errors := newErrors;
      ok := |newErrors.Keys| == 0;
    }

    /** `handleSubmit`'s gate: `register` is called, with the form's values,
        only when validation passes. */
    method HandleSubmit() returns (request: Option<RegisterData>)
      modifies this
      ensures form == old(form)
      ensures errors == ErrorsFor(form)
      ensures request.Some? <==> ErrorsFor(form) == map[]
      ensures request.Some? ==>
                request.value == RegisterData(form.name, form.email, form.phone,
                                              form.password, form.role)
    {
      var ok := ValidateForm();
      if !ok {
        return None;
      }
      request := Some(RegisterData(form.name, form.email, form.phone, form.password, form.role));
    }
  }

  /** The body of `validateForm`: `newErrors` starts empty and each field's
      block adds its entry when its rule fails. */
  method BuildErrors(f: Form) returns (newErrors: map<Field, string>)
    ensures newErrors == ErrorsFor(f)
  {
    newErrors := map[];
    newErrors := CheckName(newErrors, f.name);
    assert newErrors == Entry(Name, NameError(f.name));
    newErrors := CheckEmail(newErrors, f.email);
    newErrors := CheckPhone(newErrors, f.phone);
    newErrors := CheckPassword(newErrors, f.password);
    newErrors := CheckConfirm(newErrors, f.password, f.confirmPassword);
    assert newErrors == ErrorMap(NameError(f.name), EmailError(f.email), PhoneError(f.phone),
                                 PasswordError(f.password), ConfirmError(f.password, f.confirmPassword));
  }

  method CheckName(errors: map<Field, string>, name: string) returns (r: map<Field, string>)
    ensures r == errors + Entry(Name, NameError(name))
  {
    r := errors;
    if Trim(name) == [] {
      r := r[Name := NameRequired];
    } else if |name| < 2 {
      r := r[Name := NameTooShort];
    }
  }

  method CheckEmail(errors: map<Field, string>, email: string) returns (r: map<Field, string>)
    ensures r == errors + Entry(Email, EmailError(email))
  {
    r := errors;
    if Trim(email) == [] {
      r := r[Email := EmailRequired];
    } else if !MatchesEmailPattern(email) {
      r := r[Email := EmailInvalid];
    }
  }

  method CheckPhone(errors: map<Field, string>, phone: string) returns (r: map<Field, string>)
    ensures r == errors + Entry(Phone, PhoneError(phone))
  {
    r := errors;
    if Trim(phone) == [] {
      r := r[Phone := PhoneRequired];
    }
  }

  method CheckPassword(errors: map<Field, string>, pw: string) returns (r: map<Field, string>)
    ensures r == errors + Entry(Password, PasswordError(pw))
  {
    r := errors;
    if pw == [] {
      r := r[Password := RuleMessage(Present)];
    } else if |pw| < 8 {
      r := r[Password := RuleMessage(LongEnough)];
    } else if !HasLetter(pw) {
      r := r[Password := RuleMessage(ContainsLetter)];
    } else if !HasDigit(pw) {
      r := r[Password := RuleMessage(ContainsDigit)];
    } else if !HasSpecial(pw) {
      r := r[Password := RuleMessage(ContainsSpecial)];
    }
  }

  method CheckConfirm(errors: map<Field, string>, pw: string, confirm: string)
    returns (r: map<Field, string>)
    ensures r == errors + Entry(ConfirmPassword, ConfirmError(pw, confirm))
  {
    r := errors;
    if pw != confirm {
      r := r[ConfirmPassword := PasswordsDiffer];
    }
  }
}
