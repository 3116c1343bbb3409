/**
 * The field rules the Login and Register forms declare to react-hook-form.
 * react-hook-form checks a field's rules in the order `required`,
 * `minLength`, `pattern`, `validate` and reports the first one that fails;
 * a field whose rules all pass has no error. Lengths count characters here,
 * where JavaScript counts UTF-16 code units.
 */
module FormRules {
  import opened Common

  const EmailRequired := "Email é obrigatório"
  const EmailInvalid := "Email inválido"
  const PasswordRequired := "Senha é obrigatória"
  const PasswordTooShort := "Senha deve ter no mínimo 6 caracteres"
  const NameRequired := "Nome é obrigatório"
  const NameTooShort := "Nome deve ter no mínimo 3 caracteres"
  const ConfirmRequired := "Confirmação de senha é obrigatória"
  const PasswordsDiffer := "As senhas não coincidem"

  // ---------------------------------------------------------------------------
  // The e-mail pattern /^[^\s@]+@[^\s@]+\.[^\s@]+$/

  /** The characters JavaScript's `\s` matches. */
  predicate IsSpace(c: char) {
    var n := c as int;
    (0x09 <= n <= 0x0D) || n == 0x20 || n == 0xA0 || n == 0x1680
    || (0x2000 <= n <= 0x200A) || n == 0x2028 || n == 0x2029
    || n == 0x202F || n == 0x205F || n == 0x3000 || n == 0xFEFF
  }

  /** The character class `[^\s@]`. */
  predicate InClass(c: char) {
    !IsSpace(c) && c != '@'
  }

  /**
   * What the regular expression accepts: an `@` at some index `a` and a `.`
   * at some index `d` cut the text into three non-empty runs, and every
   * character other than that `@` is in `[^\s@]` (the `.` is in the class).
   */
  predicate EmailPattern(s: string): (b: bool)
    ensures b ==> |s| >= 5 && '@' in s
    ensures b ==> forall k :: 0 <= k < |s| ==> !IsSpace(s[k])
  {
    exists a, d :: 0 < a < |s| && a + 1 < d < |s| - 1 && s[a] == '@' && s[d] == '.'
      && forall k :: 0 <= k < |s| && k != a ==> InClass(s[k])
  }

  /** The number of occurrences of `c` in `s`. */
  function Count(s: string, c: char): (n: nat)
    ensures n == 0 <==> c !in s
    ensures n <= |s|
  {
    if s == [] then 0
    else (if s[0] == c then 1 else 0) + Count(s[1..], c)
  }

  /** The index of the first `c` in `s`, or `|s|` when there is none. */
  function IndexOf(s: string, c: char): (i: nat)
    ensures i <= |s|
    ensures i < |s| <==> c in s
    ensures i < |s| ==> s[i] == c
    ensures forall k :: 0 <= k < i ==> s[k] != c
  {
    if s == [] then 0
    else if s[0] == c then 0
    else 1 + IndexOf(s[1..], c)
  }

  /**
   * The same rule stated field by field: no whitespace anywhere, exactly one
   * `@`, a non-empty part before it, and a domain after it that contains a
   * `.` which is neither its first nor its last character.
   */
  predicate EmailShape(s: string) {
    && (forall k :: 0 <= k < |s| ==> !IsSpace(s[k]))
    && Count(s, '@') == 1
    && var a := IndexOf(s, '@');
       var domain := s[a + 1..];
       0 < a && exists j :: 0 < j < |domain| - 1 && domain[j] == '.'
  }

  /** `s` has exactly one `c`, at index `a`, iff `c` is at `a` and nowhere else. */
  lemma {:induction false} CountOneAt(s: string, c: char, a: nat)
    requires a < |s|
    ensures (Count(s, c) == 1 && IndexOf(s, c) == a)
        <==> (s[a] == c && forall k :: 0 <= k < |s| && k != a ==> s[k] != c)
  {
    assert forall k :: 1 <= k < |s| ==> s[k] == s[1..][k - 1];
    if a > 0 {
      CountOneAt(s[1..], c, a - 1);
    }
  }

  lemma EmailPatternIffShape(s: string)
    ensures EmailPattern(s) <==> EmailShape(s)
  {
    if EmailPattern(s) {
      var a, d :| 0 < a < |s| && a + 1 < d < |s| - 1 && s[a] == '@' && s[d] == '.'
        && forall k :: 0 <= k < |s| && k != a ==> InClass(s[k]);
      CountOneAt(s, '@', a);
      var domain := s[a + 1..];
      assert domain[d - a - 1] == '.';
    }
    if EmailShape(s) {
      var a := IndexOf(s, '@');
      CountOneAt(s, '@', a);
      var domain := s[a + 1..];
      var j :| 0 < j < |domain| - 1 && domain[j] == '.';
      var d := a + 1 + j;
      assert s[d] == '.';
      assert forall k :: 0 <= k < |s| && k != a ==> InClass(s[k]);
    }
  }

  // ---------------------------------------------------------------------------
  // Field rules

  /** `required` followed by `minLength: min`. */
  function MinLengthRule(v: string, min: nat, required: string, tooShort: string): (r: Option<string>)
    ensures r.None? <==> v != "" && |v| >= min
    ensures r == Some(required) || r == Some(tooShort) || r == None
    ensures v == "" ==> r == Some(required)
  {
    if v == "" then Some(required)
    else if |v| < min then Some(tooShort)
    else None
  }

  /** The e-mail field of both forms: `required`, then the pattern. */
  function EmailError(v: string): (r: Option<string>)
    ensures r.None? <==> EmailShape(v)
    ensures v == "" ==> r == Some(EmailRequired)
    ensures v != "" && !EmailShape(v) ==> r == Some(EmailInvalid)
  {
    EmailPatternIffShape(v);
    if v == "" then Some(EmailRequired)
    else if !EmailPattern(v) then Some(EmailInvalid)
    else None
  }

  /** The password field of both forms: `required`, then at least 6 characters. */
  function PasswordError(v: string): (r: Option<string>)
    ensures r.None? <==> |v| >= 6
    ensures v == "" ==> r == Some(PasswordRequired)
    ensures 0 < |v| < 6 ==> r == Some(PasswordTooShort)
  {
    MinLengthRule(v, 6, PasswordRequired, PasswordTooShort)
  }

  /** The name field of the Register form: `required`, then at least 3 characters. */
  function NameError(v: string): (r: Option<string>)
    ensures r.None? <==> |v| >= 3
    ensures v == "" ==> r == Some(NameRequired)
    ensures 0 < |v| < 3 ==> r == Some(NameTooShort)
  {
    MinLengthRule(v, 3, NameRequired, NameTooShort)
  }

  /** The confirmation field: `required`, then equal to the watched password. */
  function ConfirmError(v: string, password: string): (r: Option<string>)
    ensures r.None? <==> v != "" && v == password
    ensures v == "" ==> r == Some(ConfirmRequired)
    ensures v != "" && v != password ==> r == Some(PasswordsDiffer)
    ensures r.None? ==> password != ""
  {
    if v == "" then Some(ConfirmRequired)
    else if v != password then Some(PasswordsDiffer)
    else None
  }

  // ---------------------------------------------------------------------------
  // Whole forms

  datatype LoginErrors = LoginErrors(email: Option<string>, password: Option<string>) {
    predicate Passes() {
      email.None? && password.None?
    }
  }

  datatype RegisterErrors = RegisterErrors(
    name: Option<string>, email: Option<string>, password: Option<string>, confirmPassword: Option<string>)
  {
    predicate Passes() {
      name.None? && email.None? && password.None? && confirmPassword.None?
    }
  }

  function CheckLogin(email: string, password: string): (e: LoginErrors)
    ensures e.Passes() <==> EmailShape(email) && |password| >= 6
  {
    LoginErrors(EmailError(email), PasswordError(password))
  }

  function CheckRegister(name: string, email: string, password: string, confirmPassword: string): (e: RegisterErrors)
    ensures e.Passes() <==> |name| >= 3 && EmailShape(email) && |password| >= 6 && confirmPassword == password
  {
    RegisterErrors(NameError(name), EmailError(email), PasswordError(password), ConfirmError(confirmPassword, password))
  }

  /** Credentials accepted by the Register form are also accepted by the Login form. */
  lemma RegisteredCredentialsPassLogin(name: string, email: string, password: string, confirmPassword: string)
    requires CheckRegister(name, email, password, confirmPassword).Passes()
    ensures CheckLogin(email, password).Passes()
    ensures CheckLogin(email, confirmPassword).Passes()
  {
  }
}
