/**
  The registration form (src/pages/Register.tsx): an email pattern, a
  minimum password length and a confirmation, checked in that order before
  the identity provider is asked to create the account.
 */
module Registration {

  import opened Optional

  const InvalidEmail: string := "Invalid email address"
  const ShortPassword: string := "Password must be at least 6 characters"
  const PasswordMismatch: string := "Passwords do not match"
  const EmailInUse: string := "Email already in use"
  const CreationFailed: string := "Error creating account"

  /** The provider's error code for an address that is already registered. */
  const EmailInUseCode: string := "auth/email-already-in-use"

  /** Where a successful registration navigates. */
  const HomeRoute: string := "/"

  const MinPasswordLength: nat := 6

  // ---------------------------------------------------------------------------
  // The email pattern `^[^\s@]+@[^\s@]+\.[^\s@]+$`

  /**
    JavaScript's `\s`: the white-space and line-terminator characters. The
    pattern's separators "@" and "." are not among them, and of the ASCII
    characters only tab, the line breaks, vertical tab, form feed and space are.
   */
  predicate IsSpace(c: char)
    ensures IsSpace(c) ==> c != '@' && c != '.'
    ensures c as int < 0x80 ==> (IsSpace(c) <==> c in {'\t', '\n', '\U{B}', '\U{C}', '\r', ' '})
  {
    || c == '\t' || c == '\n' || c == '\U{B}' || c == '\U{C}' || c == '\r' || c == ' '
    || c == '\U{A0}' || c == '\U{1680}' || ('\U{2000}' <= c <= '\U{200A}')
    || c == '\U{2028}' || c == '\U{2029}' || c == '\U{202F}' || c == '\U{205F}'
    || c == '\U{3000}' || c == '\U{FEFF}'
  }

  /** `[^\s@]`: a character allowed inside one of the pattern's three runs. */
  predicate IsRunChar(c: char)
  {
    c != '@' && !IsSpace(c)
  }

  /** `[^\s@]+`: a non-empty run of allowed characters. */
  predicate IsRun(s: string)
  {
    |s| > 0 && forall k :: 0 <= k < |s| ==> IsRunChar(s[k])
  }

  /** `validateEmail`: the whole string splits as run, "@", run, ".", run. */
  predicate ValidEmail(email: string)
    ensures ValidEmail(email) ==> |email| >= 5 && '@' in email
    ensures ValidEmail(email) ==> IsRunChar(email[0]) && IsRunChar(email[|email| - 1])
  {
    exists at, dot ::
      && 0 < at && at + 1 < dot && dot + 1 < |email|
      && email[at] == '@' && email[dot] == '.'
      && IsRun(email[..at]) && IsRun(email[at + 1..dot]) && IsRun(email[dot + 1..])
  }

  /**
    The accepted addresses rule by rule: no white space, exactly one "@"
    with something before it, and after it a "." with at least one
    character on each side.
   */
  predicate EmailRules(email: string)
  {
    && (forall k :: 0 <= k < |email| ==> !IsSpace(email[k]))
    && exists at ::
      && 0 < at < |email| && email[at] == '@'
      && (forall k :: 0 <= k < |email| && k != at ==> email[k] != '@')
      && exists dot :: at + 1 < dot < |email| - 1 && email[dot] == '.'
  }

  /** The pattern accepts exactly the strings that follow the rules. */
  lemma ValidEmailIffRules(email: string)
    ensures ValidEmail(email) <==> EmailRules(email)
  {
    if ValidEmail(email) {
      var at, dot :| && 0 < at && at + 1 < dot && dot + 1 < |email|
                     && email[at] == '@' && email[dot] == '.'
                     && IsRun(email[..at]) && IsRun(email[at + 1..dot]) && IsRun(email[dot + 1..]);
      forall k | 0 <= k < |email| && k != at
        ensures IsRunChar(email[k])
      {
        if k < at {
          assert email[k] == email[..at][k];
        } else if k < dot {
          assert email[k] == email[at + 1..dot][k - at - 1];
        } else if k > dot {
          assert email[k] == email[dot + 1..][k - dot - 1];
        }
      }
      assert at + 1 < dot < |email| - 1 && email[dot] == '.';
    }
    if EmailRules(email) {
      var at :| && 0 < at < |email| && email[at] == '@'
                && (forall k :: 0 <= k < |email| && k != at ==> email[k] != '@')
                && exists dot :: at + 1 < dot < |email| - 1 && email[dot] == '.';
      var dot :| at + 1 < dot < |email| - 1 && email[dot] == '.';
      assert IsRun(email[..at]);
      var middle, tail := email[at + 1..dot], email[dot + 1..];
      assert forall k :: 0 <= k < |middle| ==> middle[k] == email[at + 1 + k];
      assert IsRun(middle);
      assert forall k :: 0 <= k < |tail| ==> tail[k] == email[dot + 1 + k];
      assert IsRun(tail);
    }
  }

  /** The shortest address the pattern accepts. */
  lemma AcceptedShortestEmail()
    ensures ValidEmail("a@b.c")
  {
    var e := "a@b.c";
    assert e[1] == '@' && e[3] == '.';
    assert IsRun(e[..1]) && IsRun(e[2..3]) && IsRun(e[4..]);
  }

  /** Dots may repeat inside the runs. */
  lemma AcceptedDottedEmail()
    ensures ValidEmail("first.last@mail.example.org")
  {
    var f := "first.last@mail.example.org";
    assert f[10] == '@' && f[15] == '.';
    assert IsRun(f[..10]) && IsRun(f[11..15]) && IsRun(f[16..]);
  }

  /**
    Refused: no "." after the "@", nothing before the "@", nothing between
    the "@" and the only "." after it, and nothing after the only ".".
   */
  lemma RefusedIncompleteEmails()
    ensures !ValidEmail("a@b")
    ensures !ValidEmail("@b.c")
    ensures !ValidEmail("a@.c")
    ensures !ValidEmail("a@b.")
  {
    ValidEmailIffRules("a@b");
    ValidEmailIffRules("@b.c");
    ValidEmailIffRules("a@.c");
    ValidEmailIffRules("a@b.");
  }

  /**
    A domain that starts with a dot, or an address that ends with one, is
    accepted as long as some other dot has characters on both sides.
   */
  lemma AcceptedEdgeDotEmails()
    ensures ValidEmail("a@.b.c")
    ensures ValidEmail("a@b.c.")
  {
    var e := "a@.b.c";
    assert e[1] == '@' && e[4] == '.';
    assert IsRun(e[..1]) && IsRun(e[2..4]) && IsRun(e[5..]);
    var f := "a@b.c.";
    assert f[1] == '@' && f[3] == '.';
    assert IsRun(f[..1]) && IsRun(f[2..3]) && IsRun(f[4..]);
  }

  /** A second "@" or any white space: refused. */
  lemma RefusedEmailsWithStrayCharacters()
    ensures !ValidEmail("a@b@c.d")
    ensures !ValidEmail("a b@c.d")
  {
    var g := "a@b@c.d";
    ValidEmailIffRules(g);
    assert g[1] == '@' && g[3] == '@';
    ValidEmailIffRules("a b@c.d");
    assert IsSpace("a b@c.d"[1]);
  }

  // ---------------------------------------------------------------------------
  // Password length

  /**
    `password.length`: JavaScript counts UTF-16 code units, so a character
    outside the Basic Multilingual Plane counts twice.
   */
  function Utf16Length(s: string): (n: nat)
    ensures |s| <= n <= 2 * |s|
  {
    if s == [] then 0
    else (if s[0] as int > 0xFFFF then 2 else 1) + Utf16Length(s[1..])
  }

  /** For text inside the Basic Multilingual Plane the length is the number of characters. */
  lemma {:induction false} Utf16LengthOfBmp(s: string)
    requires forall k :: 0 <= k < |s| ==> s[k] as int <= 0xFFFF
    ensures Utf16Length(s) == |s|
  {
    if s != [] {
      Utf16LengthOfBmp(s[1..]);
    }
  }

  /** Three emoji are six UTF-16 code units, so they meet the six-character minimum. */
  lemma AstralCharactersCountTwice()
    ensures Utf16Length("\U{1F600}\U{1F600}\U{1F600}") == MinPasswordLength
  {
    var p := "\U{1F600}\U{1F600}\U{1F600}";
    assert p[1..][1..][1..] == [];
  }

  // ---------------------------------------------------------------------------
  // The checks and the messages

  /**
    The message `handleRegister` shows before any account is created, or
    `None` when all three checks pass. The first failing check wins.
   */
  function FormError(email: string, password: string, confirmPassword: string): (r: Option<string>)
    ensures r == None <==>
      ValidEmail(email) && Utf16Length(password) >= MinPasswordLength && password == confirmPassword
    ensures r == Some(InvalidEmail) <==> !ValidEmail(email)
    ensures r == Some(ShortPassword) <==> ValidEmail(email) && Utf16Length(password) < MinPasswordLength
    ensures r == Some(PasswordMismatch) <==>
      ValidEmail(email) && Utf16Length(password) >= MinPasswordLength && password != confirmPassword
  {
    if !ValidEmail(email) then Some(InvalidEmail)
    else if Utf16Length(password) < MinPasswordLength then Some(ShortPassword)
    else if password != confirmPassword then Some(PasswordMismatch)
    else None
  }

  /** The outcome the identity provider reports for `createUserWithEmailAndPassword`. */
  datatype SignUp = Created | Rejected(code: string)

  /** The message for a rejected sign-up: one code has its own text, all others share one. */
  function SignUpError(code: string): (m: string)
    ensures m == EmailInUse <==> code == EmailInUseCode
    ensures m != EmailInUse ==> m == CreationFailed
  {
    if code == EmailInUseCode then EmailInUse else CreationFailed
  }

  /**
    The `Register` page's state: the three inputs, the `error` text and
    where the page has navigated to (`None` while it stays on the form).
    The browser's own check of the email field, which can block submission
    before the handler runs, is not part of this model.
   */
  class RegisterForm {
    var email: string
    var password: string
    var confirmPassword: string
    var error: string
    var route: Option<string>

    constructor ()
      ensures email == "" && password == "" && confirmPassword == ""
      ensures error == "" && route == None
    {
      email, password, confirmPassword := "", "", "";
      error := "";
      route := None;
    }

    /** The three inputs' `onChange` handlers. */
    method Edit(newEmail: string, newPassword: string, newConfirmPassword: string)
      modifies this`email, this`password, this`confirmPassword
      ensures email == newEmail && password == newPassword && confirmPassword == newConfirmPassword
    {
      email, password, confirmPassword := newEmail, newPassword, newConfirmPassword;
    }

    /**
      `handleRegister`, for a submission that reaches it: `requested` says
      whether the provider was asked to create the account; `signUp` is what it would answer. A failed check
      stops at its message; a success navigates home and leaves `error` as it
      was; a rejection shows its mapped message.
     */
    method HandleRegister(signUp: SignUp) returns (requested: bool)
      modifies this`error, this`route
      ensures requested <==> FormError(email, password, confirmPassword) == None
      ensures !requested ==> error == FormError(email, password, confirmPassword).value && route == old(route)
      ensures requested && signUp.Created? ==> route == Some(HomeRoute) && error == old(error)
      ensures requested && signUp.Rejected? ==> error == SignUpError(signUp.code) && route == old(route)
    {
      var check := FormError(email, password, confirmPassword);
      if check.Some? {
        error := check.value;
        return false;
      }
      requested := true;
      match signUp
      case Created =>
        route := Some(HomeRoute);
      case Rejected(code) =>
        error := SignUpError(code);
    }
  }
}
