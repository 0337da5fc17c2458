/**
 * The citizen authentication forms: the password-strength score of the
 * Next.js signup and login pages, the strength indicator of the static
 * front end with its hint of missing criteria, the submit-time checks of
 * the static login and signup handlers, the zod schemas of the Next.js
 * forms and the login error message.
 *
 * A JavaScript string is text whose characters are single UTF-16 code
 * units, so `.length` is the sequence length. The zod e-mail check is a
 * regular expression of the library and enters as a predicate.
 */
module AuthForms {
  import opened Wrappers
  import Text

  // ---------------------------------------------------------------------
  // Password criteria
  // ---------------------------------------------------------------------

  /** The five criteria, in the order the code tests them. */
  datatype Criterion = MinLength | Upper | Lower | Digit | Special

  const CRITERIA: seq<Criterion> := [MinLength, Upper, Lower, Digit, Special]

  predicate HasChar(p: string, cls: char -> bool)
  {
    exists i :: 0 <= i < |p| && cls(p[i])
  }

  /** [^A-Za-z0-9] */
  predicate IsSpecial(c: char)
  {
    !Text.IsUpperAscii(c) && !Text.IsLowerAscii(c) && !Text.IsDigitAscii(c)
  }

  /** `length >= 8`, then /[A-Z]/, /[a-z]/, /[0-9]/ and /[^A-Za-z0-9]/ each finding a match. */
  predicate Meets(p: string, c: Criterion)
  {
    match c
    case MinLength => |p| >= 8
    case Upper => HasChar(p, Text.IsUpperAscii)
    case Lower => HasChar(p, Text.IsLowerAscii)
    case Digit => HasChar(p, Text.IsDigitAscii)
    case Special => HasChar(p, IsSpecial)
  }

  /** The criteria of cs the password meets, in order. */
  function Met(p: string, cs: seq<Criterion>): (r: seq<Criterion>)
    ensures |r| <= |cs|
  {
    if cs == [] then [] else (if Meets(p, cs[0]) then [cs[0]] else []) + Met(p, cs[1..])
  }

  /** The criteria of cs the password misses, in order. */
  function Missing(p: string, cs: seq<Criterion>): (r: seq<Criterion>)
    ensures |r| <= |cs|
  {
    if cs == [] then [] else (if Meets(p, cs[0]) then [] else [cs[0]]) + Missing(p, cs[1..])
  }

  /** The score: how many of the five criteria the password meets. */
  function Score(p: string): nat
  {
    |Met(p, CRITERIA)|
  }

  /** Every criterion is either met or missing: the two counts add up to the number of criteria. */
  lemma {:induction false} MetPlusMissing(p: string, cs: seq<Criterion>)
    ensures |Met(p, cs)| + |Missing(p, cs)| == |cs|
  {
    if cs != [] {
      MetPlusMissing(p, cs[1..]);
    }
  }

  /** The score lies in 0..5, and it is 5 exactly when nothing is missing. */
  lemma ScoreBounds(p: string)
    ensures 0 <= Score(p) <= 5
    ensures Score(p) == 5 <==> Missing(p, CRITERIA) == []
    ensures Score(p) == 5 <==> forall c :: c in CRITERIA ==> Meets(p, c)
  {
    MetPlusMissing(p, CRITERIA);
    CriteriaUnfold(p);
    var all := Meets(p, MinLength) && Meets(p, Upper) && Meets(p, Lower) && Meets(p, Digit) && Meets(p, Special);
    assert Score(p) == 5 <==> all;
    assert all <==> forall c :: c in CRITERIA ==> Meets(p, c);
  }

  /** Every character is an upper-case letter, a lower-case letter, a digit or special, so a non-empty password scores at least 1. */
  lemma NonEmptyScoresAtLeastOne(p: string)
    requires p != ""
    ensures Score(p) >= 1
  {
    CriteriaUnfold(p);
    var c := p[0];
    assert Text.IsUpperAscii(c) || Text.IsLowerAscii(c) || Text.IsDigitAscii(c) || IsSpecial(c);
    assert Meets(p, Upper) || Meets(p, Lower) || Meets(p, Digit) || Meets(p, Special);
  }

  // ---------------------------------------------------------------------
  // getPasswordStrength (Next.js signup and login pages)
  // ---------------------------------------------------------------------

  datatype Strength = Strength(score: nat, text: string)

  /** The band of a score: at most 2 is weak, at most 4 medium, otherwise strong. */
  function Band(score: nat): (text: string)
    ensures text == "Weak" <==> score <= 2
    ensures text == "Medium" <==> 3 <= score <= 4
    ensures text == "Strong" <==> score >= 5
  {
    if score <= 2 then "Weak" else if score <= 4 then "Medium" else "Strong"
  }

  /** The strength the pages display: nothing for an empty password, else the score and its band. */
  function StrengthOf(p: string): Strength
  {
    if p == "" then Strength(0, "") else Strength(Score(p), Band(Score(p)))
  }

  /** getPasswordStrength: one increment per criterion met, then the band. */
  method GetPasswordStrength(password: string) returns (s: Strength)
    ensures s == StrengthOf(password)
  {
    if password == "" {
      return Strength(0, "");
    }
    var score: nat := 0;
    if |password| >= 8 { score := score + 1; }
    ghost var m := IfMet(password, MinLength);
    if HasChar(password, Text.IsUpperAscii) { score := score + 1; }
    m := m + IfMet(password, Upper);
    assert score == |m|;
    if HasChar(password, Text.IsLowerAscii) { score := score + 1; }
    m := m + IfMet(password, Lower);
    assert score == |m|;
    if HasChar(password, Text.IsDigitAscii) { score := score + 1; }
    m := m + IfMet(password, Digit);
    assert score == |m|;
    if HasChar(password, IsSpecial) { score := score + 1; }
    m := m + IfMet(password, Special);
    assert score == |m|;
    CriteriaUnfold(password);
    Regroup(IfMet(password, MinLength), IfMet(password, Upper), IfMet(password, Lower), IfMet(password, Digit), IfMet(password, Special));
    assert score == Score(password);
    if score <= 2 {
      return Strength(score, "Weak");
    }
    if score <= 4 {
      return Strength(score, "Medium");
    }
    return Strength(score, "Strong");
  }

  /**
   * A displayed strength is empty exactly for the empty password; a
   * shown score lies in 1..5, and "Strong" means all five criteria.
   */
  lemma StrengthShape(p: string)
    ensures StrengthOf(p).text == "" <==> p == ""
    ensures p != "" ==> 1 <= StrengthOf(p).score <= 5
    ensures StrengthOf(p).text == "Strong" <==> p != "" && forall c :: c in CRITERIA ==> Meets(p, c)
  {
    ScoreBounds(p);
    if p != "" {
      NonEmptyScoresAtLeastOne(p);
    }
  }

  // ---------------------------------------------------------------------
  // checkPasswordStrength (static front end)
  // ---------------------------------------------------------------------

  /** What the hint asks for when a criterion is missing. */
  function Phrase(c: Criterion): string
  {
    match c
    case MinLength => "at least 8 characters"
    case Upper => "an uppercase letter"
    case Lower => "a lowercase letter"
    case Digit => "a number"
    case Special => "a special character"
  }

  function Phrases(cs: seq<Criterion>): (r: seq<string>)
    ensures |r| == |cs| && forall i :: 0 <= i < |cs| ==> r[i] == Phrase(cs[i])
  {
    if cs == [] then [] else [Phrase(cs[0])] + Phrases(cs[1..])
  }

  /** Array.prototype.join(', '). */
  function JoinComma(ss: seq<string>): string
  {
    if ss == [] then "" else if |ss| == 1 then ss[0] else ss[0] + ", " + JoinComma(ss[1..])
  }

  datatype Level = Weak | Medium | Strong

  function LevelOf(strength: nat): Level
  {
    if strength <= 2 then Weak else if strength <= 4 then Medium else Strong
  }

  const WEAK_PREFIX: string := "\U{26A0}\U{FE0F} Weak password. Add: "
  const MEDIUM_PREFIX: string := "\U{26A1} Medium password. Add: "
  const STRONG_HINT: string := "\U{2705} Strong password!"

  /** The hint for a strength and the feedback list. */
  function Hint(strength: nat, feedback: seq<string>): string
  {
    match LevelOf(strength)
    case Weak => WEAK_PREFIX + JoinComma(feedback[..if |feedback| < 2 then |feedback| else 2])
    case Medium => MEDIUM_PREFIX + JoinComma(feedback)
    case Strong => STRONG_HINT
  }

  function HintColor(l: Level): string
  {
    match l
    case Weak => "#ff4757"
    case Medium => "#ffa502"
    case Strong => "#26de81"
  }

  /** The five checks of checkPasswordStrength: each met criterion adds 1, each missed one appends its phrase. */
  method Assess(password: string) returns (strength: nat, feedback: seq<string>)
    ensures strength == Score(password)
    ensures feedback == Phrases(Missing(password, CRITERIA))
  {
    strength := 0;
    feedback := [];
    if |password| >= 8 { strength := strength + 1; }
    else { feedback := feedback + [Phrase(MinLength)]; }
    ghost var m := IfMet(password, MinLength);
    ghost var f := IfMissed(password, MinLength);
    assert strength == |m| && feedback == f;
    if HasChar(password, Text.IsUpperAscii) { strength := strength + 1; }
    else { feedback := feedback + [Phrase(Upper)]; }
    m, f := m + IfMet(password, Upper), f + IfMissed(password, Upper);
    assert strength == |m| && feedback == f;
    if HasChar(password, Text.IsLowerAscii) { strength := strength + 1; }
    else { feedback := feedback + [Phrase(Lower)]; }
    m, f := m + IfMet(password, Lower), f + IfMissed(password, Lower);
    assert strength == |m| && feedback == f;
    if HasChar(password, Text.IsDigitAscii) { strength := strength + 1; }
    else { feedback := feedback + [Phrase(Digit)]; }
    m, f := m + IfMet(password, Digit), f + IfMissed(password, Digit);
    assert strength == |m| && feedback == f;
    if HasChar(password, IsSpecial) { strength := strength + 1; }
    else { feedback := feedback + [Phrase(Special)]; }
    m, f := m + IfMet(password, Special), f + IfMissed(password, Special);
    assert strength == |m| && feedback == f;
    CriteriaUnfold(password);
    Regroup(IfMet(password, MinLength), IfMet(password, Upper), IfMet(password, Lower), IfMet(password, Digit), IfMet(password, Special));
    Regroup(IfMissed(password, MinLength), IfMissed(password, Upper), IfMissed(password, Lower), IfMissed(password, Digit), IfMissed(password, Special));
  }

  /** Concatenation regrouped from the left to the right. */
  lemma Regroup<T>(a: seq<T>, b: seq<T>, c: seq<T>, d: seq<T>, e: seq<T>)
    ensures a + b + c + d + e == a + (b + (c + (d + e)))
  {
  }

  /** The strength indicator and the hint under the signup password field. */
  class StrengthIndicator {
    /** Whether the indicator and the hint carry the 'show' class. */
    var indicatorShown: bool
    var hintShown: bool
    /** The level class on the bar, if one was set. */
    var level: Option<Level>
    var hint: string
    var hintColor: string

    constructor()
      ensures !indicatorShown && !hintShown && level.None? && hint == "" && hintColor == ""
    {
      indicatorShown := false;
      hintShown := false;
      level := None;
      hint := "";
      hintColor := "";
    }

    /**
     * checkPasswordStrength: an empty password only hides the indicator and
     * the hint. Otherwise both are shown, each criterion either adds 1 or
     * appends its phrase to the feedback, and the level and hint follow.
     */
    method CheckPasswordStrength(password: string)
      modifies this
      ensures password == "" ==>
        && !indicatorShown && !hintShown
        && level == old(level) && hint == old(hint) && hintColor == old(hintColor)
      ensures password != "" ==>
        && indicatorShown && hintShown
        && level == Some(LevelOf(Score(password)))
        && hint == Hint(Score(password), Phrases(Missing(password, CRITERIA)))
        && hintColor == HintColor(LevelOf(Score(password)))
    {
      if |password| == 0 {
        indicatorShown := false;
        hintShown := false;
        return;
      }
      indicatorShown := true;
      hintShown := true;
      var strength, feedback := Assess(password);
      level := Some(LevelOf(strength));
      hint := Hint(strength, feedback);
      hintColor := HintColor(LevelOf(strength));
    }
  }

  /** One criterion's share of the met list. */
  function IfMet(p: string, c: Criterion): seq<Criterion>
  {
    if Meets(p, c) then [c] else []
  }

  /** One criterion's share of the feedback. */
  function IfMissed(p: string, c: Criterion): seq<string>
  {
    if Meets(p, c) then [] else [Phrase(c)]
  }

  /** Met and Missing over the five criteria, written out one criterion at a time. */
  lemma CriteriaUnfold(p: string)
    ensures Met(p, CRITERIA) == IfMet(p, MinLength) + (IfMet(p, Upper) + (IfMet(p, Lower) + (IfMet(p, Digit) + IfMet(p, Special))))
    ensures Phrases(Missing(p, CRITERIA))
      == IfMissed(p, MinLength) + (IfMissed(p, Upper) + (IfMissed(p, Lower) + (IfMissed(p, Digit) + IfMissed(p, Special))))
  {
    var c4 := [Special];
    var c3 := [Digit] + c4;
    var c2 := [Lower] + c3;
    var c1 := [Upper] + c2;
    assert CRITERIA == [MinLength] + c1;
    ConsStep(p, Special, []);
    assert Met(p, c4) == IfMet(p, Special) && Phrases(Missing(p, c4)) == IfMissed(p, Special);
    ConsStep(p, Digit, c4);
    ConsStep(p, Lower, c3);
    ConsStep(p, Upper, c2);
    ConsStep(p, MinLength, c1);
  }

  /** One criterion in front of the rest adds its own share to both lists. */
  lemma ConsStep(p: string, c: Criterion, rest: seq<Criterion>)
    ensures Met(p, [c] + rest) == IfMet(p, c) + Met(p, rest)
    ensures Phrases(Missing(p, [c] + rest)) == IfMissed(p, c) + Phrases(Missing(p, rest))
    ensures rest == [] ==> Met(p, [c]) == IfMet(p, c) && Phrases(Missing(p, [c])) == IfMissed(p, c)
  {
    assert ([c] + rest)[1..] == rest;
    MissingCons(p, c, rest);
  }

  lemma MissingCons(p: string, c: Criterion, rest: seq<Criterion>)
    requires ([c] + rest)[1..] == rest
    ensures Phrases(Missing(p, [c] + rest)) == IfMissed(p, c) + Phrases(Missing(p, rest))
  {
    var m := if Meets(p, c) then [] else [c];
    assert Missing(p, [c] + rest) == m + Missing(p, rest);
    assert Phrases(m + Missing(p, rest)) == Phrases(m) + Phrases(Missing(p, rest));
  }

  /**
   * A weak password is missing at least three criteria and the hint names
   * the first two; a medium one names every missing criterion (one or
   * two); a strong one has nothing to add.
   */
  lemma HintContents(p: string)
    requires p != ""
    ensures var miss := Phrases(Missing(p, CRITERIA));
      && (LevelOf(Score(p)) == Weak ==> |miss| >= 3 && Hint(Score(p), miss) == WEAK_PREFIX + miss[0] + ", " + miss[1])
      && (LevelOf(Score(p)) == Medium ==> 1 <= |miss| <= 2 && Hint(Score(p), miss) == MEDIUM_PREFIX + JoinComma(miss))
      && (LevelOf(Score(p)) == Strong ==> miss == [] && Hint(Score(p), miss) == STRONG_HINT)
  {
    MetPlusMissing(p, CRITERIA);
    ScoreBounds(p);
    var miss := Phrases(Missing(p, CRITERIA));
    if LevelOf(Score(p)) == Weak {
      var two := [miss[0], miss[1]];
      assert miss[..2] == two;
      assert two[1..] == [miss[1]];
      assert JoinComma(two) == miss[0] + ", " + miss[1];
      assert WEAK_PREFIX + JoinComma(two) == WEAK_PREFIX + miss[0] + ", " + miss[1];
    }
  }

  // ---------------------------------------------------------------------
  // handleLogin and handleSignup (static front end)
  // ---------------------------------------------------------------------

  /** A submit handler either shows an error and sends nothing, or sends a request body. */
  datatype Submission<T> = Rejected(message: string) | Sent(body: T)

  datatype LoginBody = LoginBody(email: string, password: string)

  /** handleLogin: the e-mail is trimmed, the password taken as typed, and both must be non-empty. */
  function SubmitLogin(emailField: string, passwordField: string): (r: Submission<LoginBody>)
    ensures r.Sent? <==> !Text.AllSpace(emailField, Text.IsJsSpace) && passwordField != ""
    ensures r.Rejected? ==> r.message == "Please fill in all fields"
    ensures r.Sent? ==> r.body.email == Text.JsTrim(emailField) && r.body.password == passwordField
  {
    Text.TrimEmptyIffAllSpace(emailField, Text.IsJsSpace);
    var email := Text.JsTrim(emailField);
    if email == "" || passwordField == "" then Rejected("Please fill in all fields")
    else Sent(LoginBody(email, passwordField))
  }

  datatype SignupFields = SignupFields(name: string, email: string, phone: string, password: string, ward: string)

  /** The body sent to /auth/signup; wardId is absent, or present as parseInt's result (None for NaN). */
  datatype SignupBody = SignupBody(name: string, email: string, phone: string, password: string, wardId: Option<Option<int>>)

  const FILL_REQUIRED: string := "Please fill in all required fields"
  const NAME_TOO_SHORT: string := "Name must be at least 2 characters long"
  const PASSWORD_TOO_SHORT: string := "Password must be at least 6 characters long"
  const PHONE_INVALID: string := "Please enter a valid phone number"

  /**
   * handleSignup: name, e-mail and phone are trimmed; the checks run in
   * order (all required fields, name length, password length, phone
   * length) and the first failure is the one reported.
   */
  function SubmitSignup(f: SignupFields): (r: Submission<SignupBody>)
    ensures var name := Text.JsTrim(f.name); var email := Text.JsTrim(f.email); var phone := Text.JsTrim(f.phone);
      var filled := name != "" && email != "" && phone != "" && f.password != "";
      && (r == Rejected(FILL_REQUIRED) <==> !filled)
      && (r == Rejected(NAME_TOO_SHORT) <==> filled && |name| < 2)
      && (r == Rejected(PASSWORD_TOO_SHORT) <==> filled && |name| >= 2 && |f.password| < 6)
      && (r == Rejected(PHONE_INVALID) <==> filled && |name| >= 2 && |f.password| >= 6 && |phone| < 10)
      && (r.Sent? <==> filled && |name| >= 2 && |f.password| >= 6 && |phone| >= 10)
    ensures r.Sent? ==>
      && r.body.name == Text.JsTrim(f.name) && r.body.email == Text.JsTrim(f.email)
      && r.body.phone == Text.JsTrim(f.phone) && r.body.password == f.password
      && (r.body.wardId.Some? <==> f.ward != "")
      && (f.ward != "" ==> r.body.wardId == Some(Text.JsParseInt(f.ward)))
  {
    var name := Text.JsTrim(f.name);
    var email := Text.JsTrim(f.email);
    var phone := Text.JsTrim(f.phone);
    if name == "" || email == "" || phone == "" || f.password == "" then Rejected(FILL_REQUIRED)
    else if |name| < 2 then Rejected(NAME_TOO_SHORT)
    else if |f.password| < 6 then Rejected(PASSWORD_TOO_SHORT)
    else if |phone| < 10 then Rejected(PHONE_INVALID)
    else Sent(SignupBody(name, email, phone, f.password, if f.ward != "" then Some(Text.JsParseInt(f.ward)) else None))
  }

  /** A field of blanks counts as missing: whitespace around a name never lets it through. */
  lemma BlankNameRejected(f: SignupFields)
    requires Text.AllSpace(f.name, Text.IsJsSpace)
    ensures SubmitSignup(f) == Rejected(FILL_REQUIRED)
  {
    Text.TrimEmptyIffAllSpace(f.name, Text.IsJsSpace);
  }

  // ---------------------------------------------------------------------
  // zod schemas and the login error (Next.js pages)
  // ---------------------------------------------------------------------

  datatype Field = Name | Email | Phone | Password | ConfirmPassword

  datatype SignupForm = SignupForm(name: string, email: string, phone: string, password: string, confirmPassword: string)

  /**
   * signupSchema: the field messages zod reports. Every field check runs,
   * and the password-match refinement puts its message on confirmPassword.
   */
  function SignupSchemaErrors(f: SignupForm, isEmail: string -> bool): (errors: map<Field, string>)
    ensures Name in errors <==> |f.name| < 2
    ensures Email in errors <==> !isEmail(f.email)
    ensures Phone in errors <==> |f.phone| < 10
    ensures Password in errors <==> |f.password| < 6
    ensures ConfirmPassword in errors <==> f.password != f.confirmPassword
    ensures ConfirmPassword in errors ==> errors[ConfirmPassword] == "Passwords don't match"
  {
    map fld | fld in FIELDS && SignupFieldFails(f, isEmail, fld) :: SignupMessage(fld)
  }

  const FIELDS: set<Field> := {Name, Email, Phone, Password, ConfirmPassword}

  /** The check of each field, the refinement's for confirmPassword. */
  predicate SignupFieldFails(f: SignupForm, isEmail: string -> bool, fld: Field)
  {
    match fld
    case Name => |f.name| < 2
    case Email => !isEmail(f.email)
    case Phone => |f.phone| < 10
    case Password => |f.password| < 6
    case ConfirmPassword => f.password != f.confirmPassword
  }

  function SignupMessage(fld: Field): string
  {
    match fld
    case Name => "Name must be at least 2 characters"
    case Email => "Invalid email address"
    case Phone => "Phone number must be at least 10 digits"
    case Password => "Password must be at least 6 characters"
    case ConfirmPassword => "Passwords don't match"
  }

  /** loginSchema: only that both fields are non-empty. */
  function LoginSchemaErrors(email: string, password: string): (errors: map<Field, string>)
    ensures errors.Keys <= {Email, Password}
    ensures Email in errors <==> email == ""
    ensures Password in errors <==> password == ""
  {
    var e := if email == "" then map[Email := "Email or phone is required"] else map[];
    if password == "" then e[Password := "Password is required"] else e
  }

  /** A form the signup schema accepts passes the static handler's checks too, once nothing needs trimming. */
  lemma SchemaStricterThanHandler(f: SignupForm, isEmail: string -> bool, ward: string)
    requires SignupSchemaErrors(f, isEmail) == map[]
    requires f.email != ""
    requires Text.JsTrim(f.name) == f.name && Text.JsTrim(f.email) == f.email && Text.JsTrim(f.phone) == f.phone
    ensures SubmitSignup(SignupFields(f.name, f.email, f.phone, f.password, ward)).Sent?
  {
    assert Name !in SignupSchemaErrors(f, isEmail);
    assert Phone !in SignupSchemaErrors(f, isEmail);
    assert Password !in SignupSchemaErrors(f, isEmail);
  }

  /** What a failed login call threw: an error response's detail, and whether it is an Error with a message. */
  datatype Thrown = Thrown(detail: Option<string>, isError: bool, message: string)

  const LOGIN_FALLBACK: string := "Login failed. Please try again."

  /** The error the login form shows: a truthy response detail, else the Error's message, else a fixed text. */
  function LoginErrorMessage(e: Thrown): (shown: string)
    ensures e.detail.Some? && e.detail.value != "" ==> shown == e.detail.value
    ensures (e.detail.None? || e.detail.value == "") && e.isError ==> shown == e.message
    ensures (e.detail.None? || e.detail.value == "") && !e.isError ==> shown == LOGIN_FALLBACK
  {
    if e.detail.Some? && e.detail.value != "" then e.detail.value
    else if e.isError then e.message
    else LOGIN_FALLBACK
  }

  /** The message is empty, and the error line not rendered, only for an Error with an empty message and no detail. */
  lemma LoginErrorHiddenOnlyForEmptyMessage(e: Thrown)
    ensures LoginErrorMessage(e) == "" <==> (e.detail.None? || e.detail.value == "") && e.isError && e.message == ""
  {
  }
}
