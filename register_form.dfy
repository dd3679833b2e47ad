/**
 * The stand-alone registration form: the field rules it validates before
 * submitting, with the messages each failed rule reports, and what a
 * submission does.
 */
module RegisterForm {
  import opened Wrappers
  import opened Web
  import opened Effects

  predicate IsLower(c: char) { 'a' <= c <= 'z' }
  predicate IsUpper(c: char) { 'A' <= c <= 'Z' }
  predicate IsDigit(c: char) { '0' <= c <= '9' }
  predicate IsSpecial(c: char) { c in "@$!%*?&" }

  /** The character class `[A-Za-z\d@$!%*?&]`. */
  predicate IsPasswordChar(c: char)
  {
    IsLower(c) || IsUpper(c) || IsDigit(c) || IsSpecial(c)
  }

  /**
   * The password pattern: one lowercase letter, one uppercase letter, one
   * digit and one of `@$!%*?&` somewhere, nothing outside those classes, and
   * at least eight characters.
   */
  predicate MatchesPasswordPattern(p: string)
  {
    && (exists i :: 0 <= i < |p| && IsLower(p[i]))
    && (exists i :: 0 <= i < |p| && IsUpper(p[i]))
    && (exists i :: 0 <= i < |p| && IsDigit(p[i]))
    && (exists i :: 0 <= i < |p| && IsSpecial(p[i]))
    && (forall i :: 0 <= i < |p| ==> IsPasswordChar(p[i]))
    && |p| >= 8
  }

  /** Messages of the failed name rules, in order (every rule is checked). */
  function NameIssues(name: string): seq<string>
  {
    (if |name| < 1 then ["Name is required"] else []) +
    (if |name| < 2 then ["Name must be at least 2 characters"] else []) +
    (if |name| > 100 then ["Name must be less than 100 characters"] else [])
  }

  /** Messages of the failed email rules; the address syntax check is the `isEmail` parameter. */
  function EmailIssues(email: string, isEmail: string -> bool): seq<string>
  {
    (if |email| < 1 then ["Email is required"] else []) +
    (if !isEmail(email) then ["Invalid email address"] else [])
  }

  const PATTERN_MESSAGE: string :=
    "Password must contain at least one uppercase letter, one lowercase letter, one number, and one special character"

  /** Messages of the failed password rules, in order. */
  function PasswordIssues(password: string): seq<string>
  {
    (if |password| < 1 then ["Password is required"] else []) +
    (if |password| < 8 then ["Password must be at least 8 characters"] else []) +
    (if |password| > 100 then ["Password must be less than 100 characters"] else []) +
    (if !MatchesPasswordPattern(password) then [PATTERN_MESSAGE] else [])
  }

  datatype RegisterInputs = RegisterInputs(name: string, email: string, password: string)

  /** `registerSchema` accepts the inputs: no rule of any field failed. */
  predicate SchemaAccepts(inputs: RegisterInputs, isEmail: string -> bool)
  {
    NameIssues(inputs.name) + EmailIssues(inputs.email, isEmail) + PasswordIssues(inputs.password) == []
  }

  /** The schema in plain terms: each bound and the password's character classes. */
  lemma SchemaAcceptsIff(inputs: RegisterInputs, isEmail: string -> bool)
    ensures SchemaAccepts(inputs, isEmail) <==>
      && 2 <= |inputs.name| <= 100
      && |inputs.email| >= 1 && isEmail(inputs.email)
      && 8 <= |inputs.password| <= 100
      && (exists i :: 0 <= i < |inputs.password| && IsLower(inputs.password[i]))
      && (exists i :: 0 <= i < |inputs.password| && IsUpper(inputs.password[i]))
      && (exists i :: 0 <= i < |inputs.password| && IsDigit(inputs.password[i]))
      && (exists i :: 0 <= i < |inputs.password| && IsSpecial(inputs.password[i]))
      && (forall i :: 0 <= i < |inputs.password| ==> IsPasswordChar(inputs.password[i]))
  {
    var n := NameIssues(inputs.name);
    var e := EmailIssues(inputs.email, isEmail);
    var p := PasswordIssues(inputs.password);
    assert n + e + p == [] <==> n == [] && e == [] && p == [] by {
      assert |n + e + p| == |n| + |e| + |p|;
    }
  }

  /** A short password reports both the length message and the pattern message. */
  lemma ShortPasswordReportsTwice(password: string)
    requires 1 <= |password| < 8
    ensures PasswordIssues(password) == ["Password must be at least 8 characters", PATTERN_MESSAGE]
  {
  }

  /** A form submission: nothing unless the schema accepts; then the mutation, and /auth/login on a token. */
  function Submit(inputs: RegisterInputs, isEmail: string -> bool, result: MutationResult): seq<Effect>
  {
    if !SchemaAccepts(inputs, isEmail) then []
    else
      [Call(RegisterInput(inputs.name, inputs.email, inputs.password))] +
      (if result.Returned? && Truthy(result.token) then [Push("/auth/login")] else [])
  }

  /**
   * The mutation runs only for accepted inputs, and the form navigates (to
   * /auth/login) exactly when it ran and returned a token; it never logs in.
   */
  lemma SubmitOutcomes(inputs: RegisterInputs, isEmail: string -> bool, result: MutationResult)
    ensures var trace := Submit(inputs, isEmail, result);
      && (!SchemaAccepts(inputs, isEmail) ==> NoCall(trace))
      && (!NoNavigation(trace) <==> SchemaAccepts(inputs, isEmail) && result.Returned? && Truthy(result.token))
      && (forall i :: 0 <= i < |trace| && trace[i].IsNavigation() ==> trace[i] == Push("/auth/login"))
      && NoLogin(trace)
  {
    var trace := Submit(inputs, isEmail, result);
    if SchemaAccepts(inputs, isEmail) && result.Returned? && Truthy(result.token) {
      assert trace[1].IsNavigation();
    }
  }
}
