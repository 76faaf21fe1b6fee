/**
 * The sign-in and sign-up forms (frontend/src/pages/AuthPages.jsx): the
 * regular expressions as predicates, the error map `validate` builds, and
 * the form state the change, blur and submit handlers update.
 */
module AuthForms {
  import opened Wrappers
  import Js

  const EmailRequired := "Email is required"
  const InvalidEmail := "Invalid email format"
  const PasswordRequired := "Password is required"
  const NameRequired := "Name is required"
  const InvalidName := "Name must be at least 2 chars and contain only letters"
  const WeakPassword := "Password must correspond to strong security requirements"

  // ----- e-mail: /^[^\s@]+@[^\s@]+\.[^\s@]+$/ ------------------------------

  /** A character of the class `[^\s@]`. */
  predicate EmailChar(c: char) {
    !Js.IsSpace(c) && c != '@'
  }

  /** A match of `[^\s@]+`. */
  predicate Chunk(s: string) {
    |s| > 0 && forall k :: 0 <= k < |s| ==> EmailChar(s[k])
  }

  /** The regex matches `s` with its `@` at `i` and its `\.` at `j`. */
  ghost predicate EmailSplit(s: string, i: int, j: int) {
    0 < i < j < |s| && s[i] == '@' && s[j] == '.'
    && Chunk(s[..i]) && Chunk(s[i + 1..j]) && Chunk(s[j + 1..])
  }

  /** `/^[^\s@]+@[^\s@]+\.[^\s@]+$/.test(s)`. */
  ghost predicate MatchesEmailRegex(s: string) {
    exists i, j :: EmailSplit(s, i, j)
  }

  /** A `.` that is neither the first nor the last character. */
  predicate HasInnerDot(d: string) {
    exists j | 0 < j < |d| - 1 :: d[j] == '.'
  }

  /**
   * The accepted addresses: no whitespace, exactly one `@`, a non-empty
   * part before it, and after it a `.` that is neither first nor last.
   */
  predicate IsEmail(s: string) {
    Js.NoSpace(s) && multiset(s)['@'] == 1
    && exists i | 0 < i < |s| :: s[i] == '@' && HasInnerDot(s[i + 1..])
  }

  /** The character test and the regex accept the same strings. */
  lemma EmailRegexIff(s: string)
    ensures MatchesEmailRegex(s) <==> IsEmail(s)
  {
    if MatchesEmailRegex(s) {
      var i, j :| EmailSplit(s, i, j);
      EmailSplitIsEmail(s, i, j);
    }
    if IsEmail(s) {
      var i :| 0 < i < |s| && s[i] == '@' && HasInnerDot(s[i + 1..]);
      var d := s[i + 1..];
      var j' :| 0 < j' < |d| - 1 && d[j'] == '.';
      IsEmailSplit(s, i, i + 1 + j');
    }
  }

  lemma EmailSplitIsEmail(s: string, i: int, j: int)
    requires EmailSplit(s, i, j)
    ensures IsEmail(s)
  {
    var a, b, c := s[..i], s[i + 1..j], s[j + 1..];
    assert s == a + [s[i]] + b + [s[j]] + c;
    forall k | 0 <= k < |s| ensures !Js.IsSpace(s[k]) {
      if k < i { assert s[k] == a[k]; }
      else if i < k < j { assert s[k] == b[k - i - 1]; }
      else if j < k { assert s[k] == c[k - j - 1]; }
    }
    assert '@' !in a && '@' !in b && '@' !in c;
    assert multiset(s)['@'] == 1 by {
      assert multiset(s) == multiset(a) + multiset{s[i]} + multiset(b) + multiset{s[j]} + multiset(c);
    }
    var d := s[i + 1..];
    assert d[j - i - 1] == '.';
  }

  lemma IsEmailSplit(s: string, i: int, j: int)
    requires IsEmail(s) && 0 < i < |s| && s[i] == '@'
    requires i + 1 < j < |s| - 1 && s[j] == '.'
    ensures EmailSplit(s, i, j)
  {
    OnlyOneAt(s, i);
    ChunkOfSlice(s, 0, i);
    ChunkOfSlice(s, i + 1, j);
    ChunkOfSlice(s, j + 1, |s|);
  }

  /** With exactly one `@`, every other position holds something else. */
  lemma OnlyOneAt(s: string, i: int)
    requires multiset(s)['@'] == 1 && 0 <= i < |s| && s[i] == '@'
    ensures forall k :: 0 <= k < |s| && k != i ==> s[k] != '@'
  {
    var a, r := s[..i], s[i + 1..];
    assert s == a + [s[i]] + r;
    assert multiset(s) == multiset(a) + multiset{s[i]} + multiset(r);
    assert '@' !in a && '@' !in r;
    forall k | 0 <= k < |s| && k != i ensures s[k] != '@' {
      if k < i {
        assert s[k] == a[k];
      } else {
        assert s[k] == r[k - i - 1];
      }
    }
  }

  /** A non-empty slice without whitespace or `@` matches `[^\s@]+`. */
  lemma ChunkOfSlice(s: string, lo: int, hi: int)
    requires Js.NoSpace(s) && 0 <= lo < hi <= |s|
    requires forall k :: lo <= k < hi ==> s[k] != '@'
    ensures Chunk(s[lo..hi])
  {
    forall k | 0 <= k < hi - lo ensures EmailChar(s[lo..hi][k]) {
      assert s[lo..hi][k] == s[lo + k];
    }
  }

  // ----- name: /^[a-zA-Z\s]{2,}$/ ----------------------------------------

  predicate IsAsciiLetter(c: char) {
    'a' <= c <= 'z' || 'A' <= c <= 'Z'
  }

  /** A character of the class `[a-zA-Z\s]`. */
  predicate NameChar(c: char) {
    IsAsciiLetter(c) || Js.IsSpace(c)
  }

  /** `[a-zA-Z\s]*` matching all of `s`, one character at a time. */
  ghost predicate NameStar(s: string) {
    s == [] || (NameChar(s[0]) && NameStar(s[1..]))
  }

  /** `/^[a-zA-Z\s]{2,}$/.test(s)`: two mandatory repetitions, then any number more. */
  ghost predicate MatchesNameRegex(s: string) {
    |s| >= 2 && NameChar(s[0]) && NameChar(s[1]) && NameStar(s[2..])
  }

  /** The regex holds exactly for strings of two or more characters of the class. */
  lemma NameRegexIff(s: string)
    ensures MatchesNameRegex(s) <==> |s| >= 2 && forall k :: 0 <= k < |s| ==> NameChar(s[k])
  {
    if |s| >= 2 {
      NameStarAll(s[2..]);
      if forall k :: 0 <= k < |s[2..]| ==> NameChar(s[2..][k]) {
        assert forall k :: 2 <= k < |s| ==> NameChar(s[k]) by {
          forall k | 2 <= k < |s| ensures NameChar(s[k]) {
            assert s[k] == s[2..][k - 2];
          }
        }
      }
    }
  }

  lemma {:induction false} NameStarAll(t: string)
    ensures NameStar(t) <==> forall k :: 0 <= k < |t| ==> NameChar(t[k])
  {
    if t != [] {
      NameStarAll(t[1..]);
      assert forall k :: 1 <= k < |t| ==> t[k] == t[1..][k - 1];
    }
  }

  /** `NAME_REGEX`: at least two characters, each an ASCII letter or whitespace. */
  predicate IsName(s: string)
    ensures IsName(s) <==> MatchesNameRegex(s)
  {
    NameRegexIff(s);
    |s| >= 2 && forall k :: 0 <= k < |s| ==> NameChar(s[k])
  }

  // ----- password: /^(?=.*[a-z])(?=.*[A-Z])(?=.*\d)(?=.*[@$!%*?&])[A-Za-z\d@$!%*?&]{8,}$/

  /** The four classes the lookaheads require. */
  datatype CharClass = Lower | Upper | Digit | Special

  predicate InClass(c: char, cls: CharClass) {
    match cls
    case Lower => 'a' <= c <= 'z'
    case Upper => 'A' <= c <= 'Z'
    case Digit => Js.IsDigit(c)
    case Special => c in "@$!%*?&"
  }

  /** A character of `[A-Za-z\d@$!%*?&]`. */
  predicate PasswordChar(c: char) {
    InClass(c, Lower) || InClass(c, Upper) || InClass(c, Digit) || InClass(c, Special)
  }

  /** A character the regex's `.` matches: anything but a line terminator. */
  predicate DotChar(c: char) {
    c != '\n' && c != '\r' && c as int != 0x2028 && c as int != 0x2029
  }

  /** `(?=.*[cls])` at the start of `s`. */
  ghost predicate LookaheadFinds(s: string, cls: CharClass) {
    exists k :: 0 <= k < |s| && InClass(s[k], cls) && forall m :: 0 <= m < k ==> DotChar(s[m])
  }

  /** `PASSWORD_REGEX.test(s)`. */
  ghost predicate MatchesPasswordRegex(s: string) {
    LookaheadFinds(s, Lower) && LookaheadFinds(s, Upper) && LookaheadFinds(s, Digit)
    && LookaheadFinds(s, Special)
    && |s| >= 8 && forall k :: 0 <= k < |s| ==> PasswordChar(s[k])
  }

  predicate HasClass(s: string, cls: CharClass) {
    exists k | 0 <= k < |s| :: InClass(s[k], cls)
  }

  /**
   * A strong password: at least 8 characters, all letters, digits or one of
   * `@$!%*?&`, with at least one lower-case letter, one upper-case letter,
   * one digit and one of those specials.
   */
  predicate IsStrongPassword(s: string) {
    |s| >= 8 && (forall k :: 0 <= k < |s| ==> PasswordChar(s[k]))
    && HasClass(s, Lower) && HasClass(s, Upper) && HasClass(s, Digit) && HasClass(s, Special)
  }

  /** The lookaheads' `.*` never stops early: the character test and the regex agree. */
  lemma PasswordRegexIff(s: string)
    ensures MatchesPasswordRegex(s) <==> IsStrongPassword(s)
  {
    if forall k :: 0 <= k < |s| ==> PasswordChar(s[k]) {
      LookaheadIffHasClass(s, Lower);
      LookaheadIffHasClass(s, Upper);
      LookaheadIffHasClass(s, Digit);
      LookaheadIffHasClass(s, Special);
    }
  }

  /** Over password characters, a lookahead succeeds exactly when the class occurs. */
  lemma LookaheadIffHasClass(s: string, cls: CharClass)
    requires forall k :: 0 <= k < |s| ==> PasswordChar(s[k])
    ensures LookaheadFinds(s, cls) <==> HasClass(s, cls)
  {
    if HasClass(s, cls) {
      var k :| 0 <= k < |s| && InClass(s[k], cls);
      forall m | 0 <= m < k ensures DotChar(s[m]) {
        assert PasswordChar(s[m]);
      }
    }
  }

  // ----- the error maps -----------------------------------------------------

  function EmailError(email: string): (e: Option<string>)
    ensures e.None? <==> IsEmail(email)
    ensures e == Some(EmailRequired) <==> email == ""
  {
    if email == "" then Some(EmailRequired)
    else if !IsEmail(email) then Some(InvalidEmail)
    else None
  }

  /** Sign-in asks only for a non-empty password. */
  function LoginPasswordError(password: string): (e: Option<string>)
    ensures e.None? <==> password != ""
  {
    if password == "" then Some(PasswordRequired) else None
  }

  function NameError(name: string): (e: Option<string>)
    ensures e.None? <==> IsName(name)
    ensures e == Some(NameRequired) <==> name == ""
  {
    if name == "" then Some(NameRequired)
    else if !IsName(name) then Some(InvalidName)
    else None
  }

  function SignupPasswordError(password: string): (e: Option<string>)
    ensures e.None? <==> IsStrongPassword(password)
    ensures e == Some(PasswordRequired) <==> password == ""
  {
    if password == "" then Some(PasswordRequired)
    else if !IsStrongPassword(password) then Some(WeakPassword)
    else None
  }

  /** `newErrors[key] = e` when there is an error for the field. */
  function WithError(m: map<string, string>, key: string, e: Option<string>): map<string, string> {
    if e.Some? then m[key := e.value] else m
  }

  /** The sign-in form's `newErrors`. */
  function LoginErrors(email: string, password: string): (errs: map<string, string>)
    ensures errs.Keys <= {"email", "password"}
    ensures "email" in errs <==> EmailError(email).Some?
    ensures "email" in errs ==> errs["email"] == EmailError(email).value
    ensures "password" in errs <==> LoginPasswordError(password).Some?
    ensures "password" in errs ==> errs["password"] == LoginPasswordError(password).value
  {
    WithError(WithError(map[], "email", EmailError(email)), "password", LoginPasswordError(password))
  }

  /** Sign-in validation passes exactly for a well-formed address and any non-empty password. */
  lemma LoginValidIff(email: string, password: string)
    ensures |LoginErrors(email, password)| == 0 <==> IsEmail(email) && password != ""
  {
    var errs := LoginErrors(email, password);
    if |errs| == 0 {
      assert "email" !in errs && "password" !in errs;
    } else {
      var key :| key in errs;
    }
  }

  /** The sign-up form's `newErrors`. */
  function SignupErrors(name: string, email: string, password: string): (errs: map<string, string>)
    ensures errs.Keys <= {"name", "email", "password"}
    ensures "name" in errs <==> NameError(name).Some?
    ensures "name" in errs ==> errs["name"] == NameError(name).value
    ensures "email" in errs <==> EmailError(email).Some?
    ensures "email" in errs ==> errs["email"] == EmailError(email).value
    ensures "password" in errs <==> SignupPasswordError(password).Some?
    ensures "password" in errs ==> errs["password"] == SignupPasswordError(password).value
  {
    WithError(WithError(WithError(map[], "name", NameError(name)), "email", EmailError(email)),
              "password", SignupPasswordError(password))
  }

  /** Sign-up validation passes exactly when all three fields satisfy their patterns. */
  lemma SignupValidIff(name: string, email: string, password: string)
    ensures |SignupErrors(name, email, password)| == 0 <==>
            IsName(name) && IsEmail(email) && IsStrongPassword(password)
  {
    var errs := SignupErrors(name, email, password);
    if |errs| == 0 {
      assert "name" !in errs && "email" !in errs && "password" !in errs;
    } else {
      var key :| key in errs;
    }
  }

  // ----- typing after the field was touched ----------------------------------

  /**
   * The errors the change handler stores once the field is touched: it calls
   * `validate`, which reads the state of the render the handler belongs to,
   * that is the value from before this change.
   */
  function LoginErrorsAfterEmailChange(previous: string, password: string, typed: string)
    : (errs: map<string, string>)
    ensures "email" !in errs <==> IsEmail(previous)
  {
    LoginErrors(previous, password)
  }

  /** The evidently intended behaviour: the errors describe the value just stored. */
  function LoginErrorsAfterEmailChangeIntended(previous: string, password: string, typed: string)
    : (errs: map<string, string>)
    ensures "email" !in errs <==> IsEmail(Js.Trim(typed))
  {
    LoginErrors(Js.Trim(typed), password)
  }

  lemma ExampleAddressNoSpace()
    ensures Js.NoSpace("a@b.c")
  {
    var s := "a@b.c";
    forall k | 0 <= k < |s| ensures !Js.IsSpace(s[k]) {
      assert s[k] in "a@b.c";
    }
  }

  lemma ExampleAddressOneAt()
    ensures multiset("a@b.c")['@'] == 1
  {
    assert multiset("a@b.c") == multiset{'a', '@', 'b', '.', 'c'};
  }

  lemma ExampleAddressValid()
    ensures IsEmail("a@b.c") && Js.Trim("a@b.c") == "a@b.c"
  {
    ExampleAddressNoSpace();
    ExampleAddressOneAt();
    var s := "a@b.c";
    assert HasInnerDot("b.c") by {
      assert "b.c"[1] == '.';
    }
    assert s[2..] == "b.c" && s[1] == '@';
    Js.NoSpaceTrimmed(s);
  }

  lemma ExamplePrefixInvalid()
    ensures EmailError("a@b.") == Some(InvalidEmail)
  {
    var t := "a@b.";
    forall i | 0 < i < |t| && t[i] == '@' ensures !HasInnerDot(t[i + 1..]) {
      assert i == 1;
    }
  }

  /**
   * Whenever the previous value was malformed and the typed one is a
   * well-formed address, the handler stores "Invalid email format" for a
   * valid address; the intended handler stores no e-mail error. ExamplePrefixInvalid and ExampleAddressValid show that
   * "a@b." followed by "a@b.c" is such a case.
   */
  lemma StaleEmailError(previous: string, password: string, typed: string)
    requires EmailError(previous) == Some(InvalidEmail)
    requires IsEmail(typed)
    ensures "email" in LoginErrorsAfterEmailChange(previous, password, typed)
    ensures LoginErrorsAfterEmailChange(previous, password, typed)["email"] == InvalidEmail
    ensures "email" !in LoginErrorsAfterEmailChangeIntended(previous, password, typed)
  {
    var stale := LoginErrorsAfterEmailChange(previous, password, typed);
    var intended := LoginErrorsAfterEmailChangeIntended(previous, password, typed);
    assert "email" in stale && stale["email"] == InvalidEmail;
    assert "email" !in intended by {
      Js.NoSpaceTrimmed(typed);
    }
  }

  // ----- the forms ------------------------------------------------------------

  /** The sign-in form's state. */
  class LoginForm {
    var email: string
    var password: string
    var errors: map<string, string>
    var touched: set<string>
    var loading: bool

    constructor()
      ensures email == "" && password == "" && errors == map[] && touched == {} && !loading
    {
      email, password := "", "";
      errors, touched := map[], {};
      loading := false;
    }

    /** `validate`: build the error map, store it, and report whether it is empty. */
    method Validate() returns (ok: bool)
      modifies this`errors
      ensures errors == LoginErrors(email, password)
      ensures ok == (|errors| == 0)
      ensures ok <==> IsEmail(email) && password != ""
    {
      var newErrors: map<string, string> := map[];
      if email == "" {
        newErrors := newErrors["email" := EmailRequired];
      } else if !IsEmail(email) {
        newErrors := newErrors["email" := InvalidEmail];
      }
      if password == "" {
        newErrors := newErrors["password" := PasswordRequired];
      }
      errors := newErrors;
      ok := |newErrors| == 0;
      LoginValidIff(email, password);
    }

    /** The e-mail input: the value is stored trimmed; a touched field is re-validated on the previous values. */
    method ChangeEmail(value: string)
      modifies this`email, this`errors
      ensures email == Js.Trim(value)
      ensures "email" in touched ==> errors == LoginErrorsAfterEmailChange(old(email), password, value)
      ensures "email" !in touched ==> errors == old(errors)
    {
      if "email" in touched {
        var _ := Validate();
      }
      email := Js.Trim(value);
    }

    /** The password input: stored as typed; a touched field is re-validated on the previous values. */
    method ChangePassword(value: string)
      modifies this`password, this`errors
      ensures password == value
      ensures "password" in touched ==> errors == LoginErrors(email, old(password))
      ensures "password" !in touched ==> errors == old(errors)
    {
      if "password" in touched {
        var _ := Validate();
      }
      password := value;
    }

    /** `handleBlur`: mark the field touched and validate. */
    method Blur(field: string)
      modifies this`touched, this`errors
      ensures touched == old(touched) + {field}
      ensures errors == LoginErrors(email, password)
    {
      touched := touched + {field};
      var _ := Validate();
    }

    /**
     * `handleSubmit`: mark both fields touched and validate; only a clean
     * form calls `login`, with the stored e-mail and password. The loading
     * flag is cleared again whatever the call's outcome.
     */
    method Submit() returns (call: Option<(string, string)>)
      modifies this`touched, this`errors, this`loading
      ensures touched == {"email", "password"}
      ensures errors == LoginErrors(email, password)
      ensures call.Some? <==> IsEmail(email) && password != ""
      ensures call.Some? ==> call.value == (email, password)
      ensures loading == (old(loading) && call.None?)
    {
      touched := {"email", "password"};
      var ok := Validate();
      if !ok {
        return None;
      }
      loading := true;
      call := Some((email, password));
      loading := false;
    }
  }

  /** The sign-up form's state. */
  class SignupForm {
    var name: string
    var email: string
    var password: string
    var errors: map<string, string>
    var touched: set<string>
    var loading: bool

    constructor()
      ensures name == "" && email == "" && password == "" && errors == map[] && touched == {} && !loading
    {
      name, email, password := "", "", "";
      errors, touched := map[], {};
      loading := false;
    }

    /** `validate`: build the error map, store it, and report whether it is empty. */
    method Validate() returns (ok: bool)
      modifies this`errors
      ensures errors == SignupErrors(name, email, password)
      ensures ok == (|errors| == 0)
      ensures ok <==> IsName(name) && IsEmail(email) && IsStrongPassword(password)
    {
      SignupValidIff(name, email, password);
      var newErrors: map<string, string> := map[];
      if name == "" {
        newErrors := newErrors["name" := NameRequired];
      } else if !IsName(name) {
        newErrors := newErrors["name" := InvalidName];
      }
      assert newErrors == WithError(map[], "name", NameError(name));
      if email == "" {
        newErrors := newErrors["email" := EmailRequired];
      } else if !IsEmail(email) {
        newErrors := newErrors["email" := InvalidEmail];
      }
      assert newErrors == WithError(WithError(map[], "name", NameError(name)), "email", EmailError(email));
      if password == "" {
        newErrors := newErrors["password" := PasswordRequired];
      } else if !IsStrongPassword(password) {
        newErrors := newErrors["password" := WeakPassword];
      }
      errors := newErrors;
      ok := |newErrors| == 0;
    }

    method ChangeName(value: string)
      modifies this`name, this`errors
      ensures name == value
      ensures "name" in touched ==> errors == SignupErrors(old(name), email, password)
      ensures "name" !in touched ==> errors == old(errors)
    {
      if "name" in touched {
        var _ := Validate();
      }
      name := value;
    }

    /** The e-mail input: the value is stored trimmed. */
    method ChangeEmail(value: string)
      modifies this`email, this`errors
      ensures email == Js.Trim(value)
      ensures "email" in touched ==> errors == SignupErrors(name, old(email), password)
      ensures "email" !in touched ==> errors == old(errors)
    {
      if "email" in touched {
        var _ := Validate();
      }
      email := Js.Trim(value);
    }

    method ChangePassword(value: string)
      modifies this`password, this`errors
      ensures password == value
      ensures "password" in touched ==> errors == SignupErrors(name, email, old(password))
      ensures "password" !in touched ==> errors == old(errors)
    {
      if "password" in touched {
        var _ := Validate();
      }
      password := value;
    }

    method Blur(field: string)
      modifies this`touched, this`errors
      ensures touched == old(touched) + {field}
      ensures errors == SignupErrors(name, email, password)
    {
      touched := touched + {field};
      var _ := Validate();
    }

    /** `handleSubmit`: only a clean form calls `signup`, with name, e-mail and password. */
    method Submit() returns (call: Option<(string, string, string)>)
      modifies this`touched, this`errors, this`loading
      ensures touched == {"name", "email", "password"}
      ensures errors == SignupErrors(name, email, password)
      ensures call.Some? <==> IsName(name) && IsEmail(email) && IsStrongPassword(password)
      ensures call.Some? ==> call.value == (name, email, password)
      ensures loading == (old(loading) && call.None?)
    {
      touched := {"name", "email", "password"};
      var ok := Validate();
      if !ok {
        return None;
      }
      loading := true;
      call := Some((name, email, password));
      loading := false;
    }
  }
}
