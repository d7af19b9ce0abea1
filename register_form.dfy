/** The registration form: the password-strength meter, the form's
    validation rules and the payload it submits.

    A password's length is `Text.JsLength`, the UTF-16 code units that
    `password.length` counts. */
module RegisterForm {
  import opened Common
  import opened Text

  /** The five checks of `getPasswordStrength`, in declaration order. */
  datatype Checks = Checks(length: bool, uppercase: bool, lowercase: bool, numbers: bool, symbols: bool)

  predicate IsUpper(c: char) { 'A' <= c <= 'Z' }
  predicate IsLower(c: char) { 'a' <= c <= 'z' }
  predicate IsDigit(c: char) { '0' <= c <= '9' }

  /** The class `[!@#$%^&*(),.?":{}|<>]`. */
  predicate IsSymbol(c: char) {
    c in "!@#$%^&*(),.?\":{}|<>"
  }

  /** The checks a password passes. */
  function CheckPassword(password: string): (c: Checks)
    ensures c.length <==> JsLength(password) >= 8
    ensures c.uppercase <==> exists i :: 0 <= i < |password| && IsUpper(password[i])
    ensures c.lowercase <==> exists i :: 0 <= i < |password| && IsLower(password[i])
    ensures c.numbers <==> exists i :: 0 <= i < |password| && IsDigit(password[i])
    ensures c.symbols <==> exists i :: 0 <= i < |password| && IsSymbol(password[i])
  {
    Checks(JsLength(password) >= 8,
           exists i :: 0 <= i < |password| && IsUpper(password[i]),
           exists i :: 0 <= i < |password| && IsLower(password[i]),
           exists i :: 0 <= i < |password| && IsDigit(password[i]),
           exists i :: 0 <= i < |password| && IsSymbol(password[i]))
  }

  /** `Object.values(checks)`. */
  function Values(c: Checks): (v: seq<bool>)
    ensures |v| == 5
    ensures (forall i :: 0 <= i < |v| ==> v[i]) <==> c.length && c.uppercase && c.lowercase && c.numbers && c.symbols
    ensures (exists i :: 0 <= i < |v| && v[i]) <==> c.length || c.uppercase || c.lowercase || c.numbers || c.symbols
  {
    var v := [c.length, c.uppercase, c.lowercase, c.numbers, c.symbols];
    assert v[0] == c.length && v[1] == c.uppercase && v[2] == c.lowercase && v[3] == c.numbers && v[4] == c.symbols;
    v
  }

  /** The number of `true` entries. */
  function CountTrue(v: seq<bool>): (n: nat)
    ensures n <= |v|
    ensures n == |v| <==> forall i :: 0 <= i < |v| ==> v[i]
  {
    if v == [] then 0 else CountTrue(v[..|v| - 1]) + (if v[|v| - 1] then 1 else 0)
  }

  /** The score of a password: how many of the checks it passes. */
  function ScoreOf(password: string): (n: nat)
    ensures n <= 5
  {
    CountTrue(Values(CheckPassword(password)))
  }

  /** The `forEach` that adds one for every passed check. */
  method Score(password: string) returns (score: nat)
    ensures score == ScoreOf(password)
    ensures score <= 5
  {
    var values := Values(CheckPassword(password));
    score := 0;
    var i := 0;
    while i < |values|
      invariant 0 <= i <= |values|
      invariant score == CountTrue(values[..i])
    {
      assert values[..i + 1][..i] == values[..i];
      if values[i] {
        score := score + 1;
      }
      i := i + 1;
    }
    assert values[..|values|] == values;
  }

  datatype Strength = Weak | Medium | Strong

  /** `score <= 2 ? "weak" : score <= 4 ? "medium" : "strong"`. */
  function StrengthOf(score: nat): (s: Strength)
    requires score <= 5
    ensures s == Weak <==> score <= 2
    ensures s == Medium <==> 3 <= score <= 4
    ensures s == Strong <==> score == 5
  {
    if score <= 2 then Weak else if score <= 4 then Medium else Strong
  }

  /** The meter shown under the password field: nothing while the field is
      empty. */
  datatype Report = Report(score: nat, checks: Checks, strength: Strength)

  function PasswordStrength(password: string): (r: Option<Report>)
    ensures r.None? <==> password == ""
    ensures r.Some? ==> r.value.score == ScoreOf(password) && r.value.checks == CheckPassword(password)
                        && r.value.strength == StrengthOf(ScoreOf(password))
  {
    if password == "" then None
    else Some(Report(ScoreOf(password), CheckPassword(password), StrengthOf(ScoreOf(password))))
  }

  /** A password is rated strong exactly when it has at least eight
      characters and an upper-case letter, a lower-case letter, a digit and
      one of the listed symbols. */
  lemma StrongIff(password: string)
    ensures StrengthOf(ScoreOf(password)) == Strong
            <==> JsLength(password) >= 8
                 && (exists i :: 0 <= i < |password| && IsUpper(password[i]))
                 && (exists i :: 0 <= i < |password| && IsLower(password[i]))
                 && (exists i :: 0 <= i < |password| && IsDigit(password[i]))
                 && (exists i :: 0 <= i < |password| && IsSymbol(password[i]))
  {
    var c := CheckPassword(password);
    StrongIffAllChecks(c);
  }

  /** The strength is strong exactly when all five checks pass. */
  lemma StrongIffAllChecks(c: Checks)
    ensures StrengthOf(CountTrue(Values(c))) == Strong
            <==> c.length && c.uppercase && c.lowercase && c.numbers && c.symbols
  {
    var v := Values(c);
    assert (forall i :: 0 <= i < |v| ==> v[i]) <==> v[0] && v[1] && v[2] && v[3] && v[4];
  }

  /** Four characters outside the Basic Multilingual Plane are eight code
      units, so such a password passes the length check. */
  lemma AstralPasswordIsLongEnough()
    ensures |"\U{1F600}\U{1F600}\U{1F600}\U{1F600}"| == 4
    ensures CheckPassword("\U{1F600}\U{1F600}\U{1F600}\U{1F600}").length
  {
    var e := "\U{1F600}";
    assert e[..0] == [] && JsLength(e) == 2;
    JsLengthAppend(e, e);
    JsLengthAppend(e + e, e);
    JsLengthAppend(e + e + e, e);
    assert "\U{1F600}\U{1F600}\U{1F600}\U{1F600}" == e + e + e + e;
  }

  /** Passing more checks never lowers the count. */
  lemma {:induction false} CountTrueMonotone(a: seq<bool>, b: seq<bool>)
    requires |a| == |b|
    requires forall i :: 0 <= i < |a| ==> a[i] ==> b[i]
    ensures CountTrue(a) <= CountTrue(b)
  {
    if a != [] {
      CountTrueMonotone(a[..|a| - 1], b[..|b| - 1]);
    }
  }

  /** Typing one more character never lowers the score: every check is a
      length bound or the presence of some character. */
  lemma AppendNeverLowersScore(password: string, c: char)
    ensures ScoreOf(password) <= ScoreOf(password + [c])
  {
    var p := password + [c];
    forall i | 0 <= i < |password|
      ensures p[i] == password[i]
    {
    }
    JsLengthAppend(password, [c]);
    var before, after := CheckPassword(password), CheckPassword(p);
    assert before.length ==> after.length;
    assert before.uppercase ==> after.uppercase;
    assert before.lowercase ==> after.lowercase;
    assert before.numbers ==> after.numbers;
    assert before.symbols ==> after.symbols;
    ChecksMonotone(before, after);
  }

  /** A check record that passes every check another passes scores at
      least as much. */
  lemma ChecksMonotone(a: Checks, b: Checks)
    requires a.length ==> b.length
    requires a.uppercase ==> b.uppercase
    requires a.lowercase ==> b.lowercase
    requires a.numbers ==> b.numbers
    requires a.symbols ==> b.symbols
    ensures CountTrue(Values(a)) <= CountTrue(Values(b))
  {
    CountTrueMonotone(Values(a), Values(b));
  }

  // ---------------------------------------------------------------------
  // Validation and payload
  // ---------------------------------------------------------------------

  datatype FormValues = FormValues(username: string, email: string, password: string, confirmPassword: string)

  const InitialValues := FormValues("", "", "", "")

  datatype Field = Username | Email | Password | ConfirmPassword

  /** The fields the schema rejects. `emailFormatOk` is the verdict of the
      library's e-mail pattern, which is not modelled; `required` rejects the
      empty string. */
  function FieldErrors(v: FormValues, emailFormatOk: bool): (e: set<Field>)
    ensures Username in e <==> v.username == ""
    ensures Email in e <==> v.email == "" || !emailFormatOk
    ensures Password in e <==> JsLength(v.password) < 8
    ensures ConfirmPassword in e <==> v.confirmPassword == "" || v.confirmPassword != v.password
  {
    (if v.username == "" then {Username} else {})
    + (if v.email == "" || !emailFormatOk then {Email} else {})
    + (if JsLength(v.password) < 8 then {Password} else {})
    + (if v.confirmPassword == "" || v.confirmPassword != v.password then {ConfirmPassword} else {})
  }

  /** The form submits only a password of at least eight characters that
      the confirmation repeats exactly. */
  lemma SubmittedPasswordsAreConfirmed(v: FormValues, emailFormatOk: bool)
    ensures FieldErrors(v, emailFormatOk) == {}
            <==> v.username != "" && v.email != "" && emailFormatOk
                 && JsLength(v.password) >= 8 && v.confirmPassword == v.password
  {
    if FieldErrors(v, emailFormatOk) == {} {
      assert Password !in FieldErrors(v, emailFormatOk);
      assert ConfirmPassword !in FieldErrors(v, emailFormatOk);
      assert Username !in FieldErrors(v, emailFormatOk);
      assert Email !in FieldErrors(v, emailFormatOk);
    }
  }

  /** The blank initial form is rejected on every field. */
  lemma InitialFormRejected(emailFormatOk: bool)
    ensures FieldErrors(InitialValues, emailFormatOk) == {Username, Email, Password, ConfirmPassword}
  {
  }

  /** What `registerAPI` is sent. */
  datatype Payload = Payload(username: string, email: string, password: string)

  /** `const { confirmPassword, ...submitData } = values`. */
  function SubmitData(v: FormValues): (p: Payload)
    ensures p.username == v.username && p.email == v.email && p.password == v.password
  {
    Payload(v.username, v.email, v.password)
  }

  /** The payload loses exactly the confirmation: two forms that differ only
      there send the same payload, and the form is recovered by adding the
      confirmation back. */
  lemma SubmitDataDropsOnlyConfirmation(v: FormValues, w: FormValues)
    ensures SubmitData(v) == SubmitData(w) <==> v.(confirmPassword := w.confirmPassword) == w
    ensures var p := SubmitData(v); FormValues(p.username, p.email, p.password, v.confirmPassword) == v
  {
  }
}
