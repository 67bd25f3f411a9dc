/**
 * The form text box (`TextBox`): the e-mail and strong-password patterns,
 * the two validators that set the box's own message and colour, which
 * validator runs when, and the tables that pick the caption and the border
 * colour.
 */
module TextBoxes {
  import opened Wrappers
  import opened Palette

  datatype TextBoxType = Normal | Secure

  /** The behavioural fields of `TextBoxConfig` (sizes, fonts and fills are left out). */
  datatype TextBoxConfig = TextBoxConfig(
    placeholder: string,
    icon: Option<string>,
    kind: TextBoxType,
    useInSignUp: bool,
    useInSignIn: bool,
    strokeColor: Color,
    validationMessage: Option<string>,
    validationColor: Option<Color>,
    showValidation: Option<bool>)

  // ---------------------------------------------------------------------
  // Character classes of the two patterns

  predicate IsAsciiUpper(c: char) { 'A' <= c <= 'Z' }

  predicate IsAsciiLower(c: char) { 'a' <= c <= 'z' }

  predicate IsAsciiLetter(c: char) { IsAsciiUpper(c) || IsAsciiLower(c) }

  /** `\d`, restricted to the ASCII digits. */
  predicate IsDecimalDigit(c: char) { '0' <= c <= '9' }

  /** `[A-Z0-9a-z._%+-]` */
  predicate IsLocalChar(c: char)
  {
    IsAsciiLetter(c) || IsDecimalDigit(c) || c == '.' || c == '_' || c == '%' || c == '+' || c == '-'
  }

  /** `[A-Za-z0-9.-]` */
  predicate IsDomainChar(c: char)
  {
    IsAsciiLetter(c) || IsDecimalDigit(c) || c == '.' || c == '-'
  }

  /** The characters ICU treats as ending a line; `.` does not match them. */
  predicate IsLineTerminator(c: char)
  {
    c == '\n' || c == '\U{000B}' || c == '\U{000C}' || c == '\r' || c == '\U{0085}' || c == '\U{2028}' || c == '\U{2029}'
  }

  predicate AllLocal(s: string) { forall i :: 0 <= i < |s| ==> IsLocalChar(s[i]) }

  predicate AllDomain(s: string) { forall i :: 0 <= i < |s| ==> IsDomainChar(s[i]) }

  predicate AllLetters(s: string) { forall i :: 0 <= i < |s| ==> IsAsciiLetter(s[i]) }

  // ---------------------------------------------------------------------
  // The e-mail pattern `^[A-Z0-9a-z._%+-]+@[A-Za-z0-9.-]+\.[A-Za-z]{2,}$`

  /**
   * `s` is, in full, one or more local characters, '@', one or more domain
   * characters, '.', and two or more ASCII letters.
   */
  predicate EmailShape(s: string)
  {
    exists at, dot | 0 < at < dot < |s| ::
      && at + 1 < dot && dot + 3 <= |s|
      && s[at] == '@' && s[dot] == '.'
      && AllLocal(s[..at]) && AllDomain(s[at + 1..dot]) && AllLetters(s[dot + 1..])
  }

  /**
   * `isValidEmail`. Outside multi-line mode ICU's `$` matches at the end of
   * the input and also just before one final line terminator (or a final
   * CR LF), so the pattern accepts the shape with such an ending too.
   */
  predicate IsValidEmail(s: string)
  {
    || EmailShape(s)
    || (|s| >= 1 && IsLineTerminator(s[|s| - 1]) && EmailShape(s[..|s| - 1]))
    || (|s| >= 2 && s[|s| - 2..] == "\r\n" && EmailShape(s[..|s| - 2]))
  }

  /** The pattern's shape has exactly one '@': none of the three character classes admits it. */
  lemma EmailShapeHasOneAt(s: string)
    requires EmailShape(s)
    ensures '@' in s
    ensures forall i, j :: 0 <= i < |s| && 0 <= j < |s| && s[i] == '@' && s[j] == '@' ==> i == j
  {
    var at, dot :| 0 < at < dot < |s| && at + 1 < dot && dot + 3 <= |s|
      && s[at] == '@' && s[dot] == '.'
      && AllLocal(s[..at]) && AllDomain(s[at + 1..dot]) && AllLetters(s[dot + 1..]);
    forall i | 0 <= i < |s| && i != at
      ensures s[i] != '@'
    {
      if i < at {
        assert IsLocalChar(s[..at][i]);
      } else if at < i < dot {
        assert IsDomainChar(s[at + 1..dot][i - at - 1]);
      } else if dot < i {
        assert IsAsciiLetter(s[dot + 1..][i - dot - 1]);
      }
    }
  }

  /** A valid e-mail address has exactly one '@'. */
  lemma ValidEmailHasOneAt(s: string)
    requires IsValidEmail(s)
    ensures '@' in s
    ensures forall i, j :: 0 <= i < |s| && 0 <= j < |s| && s[i] == '@' && s[j] == '@' ==> i == j
  {
    if EmailShape(s) {
      EmailShapeHasOneAt(s);
    } else if |s| >= 1 && IsLineTerminator(s[|s| - 1]) && EmailShape(s[..|s| - 1]) {
      var b := s[..|s| - 1];
      EmailShapeHasOneAt(b);
      assert forall i :: 0 <= i < |b| ==> s[i] == b[i];
    } else {
      var b := s[..|s| - 2];
      EmailShapeHasOneAt(b);
      assert forall i :: 0 <= i < |b| ==> s[i] == b[i];
      assert s[|s| - 2..][0] == '\r' && s[|s| - 2..][1] == '\n';
    }
  }

  /** A valid e-mail address has a '.'. */
  lemma ValidEmailHasDot(s: string)
    requires IsValidEmail(s)
    ensures '.' in s
  {
    var b;
    if EmailShape(s) {
      b := s;
    } else if |s| >= 1 && IsLineTerminator(s[|s| - 1]) && EmailShape(s[..|s| - 1]) {
      b := s[..|s| - 1];
    } else {
      b := s[..|s| - 2];
    }
    assert EmailShape(b) && |b| <= |s| && b == s[..|b|];
    var at, dot :| 0 < at < dot < |b| && b[dot] == '.';
    assert s[dot] == b[dot];
  }

  /** On text without line terminators the check is exactly the shape. */
  lemma ValidEmailIsShapeOnOneLine(s: string)
    requires forall i :: 0 <= i < |s| ==> !IsLineTerminator(s[i])
    ensures IsValidEmail(s) <==> EmailShape(s)
  {
    if |s| >= 2 && s[|s| - 2..] == "\r\n" {
      assert s[|s| - 1] == s[|s| - 2..][1];
    }
  }

  /** A valid address followed by a newline is still accepted. */
  lemma EmailAcceptsOneTrailingNewline(b: string)
    requires EmailShape(b)
    ensures IsValidEmail(b + "\n")
  {
    assert (b + "\n")[..|b|] == b;
  }

  lemma EmailExamples()
    ensures IsValidEmail("john.doe@mail.example.com")
    ensures IsValidEmail("a@b.co")
    ensures IsValidEmail("a@b.co\n")
  {
    LongEmailExample();
    ShortEmailExample();
    EmailAcceptsOneTrailingNewline("a@b.co");
    assert "a@b.co" + "\n" == "a@b.co\n";
  }

  lemma LongEmailExample()
    ensures EmailShape("john.doe@mail.example.com")
  {
    var s := "john.doe@mail.example.com";
    assert s[..8] == "john.doe";
    assert s[9..21] == "mail.example";
    assert s[22..] == "com";
    EmailShapeAt(s, 8, 21);
  }

  lemma ShortEmailExample()
    ensures EmailShape("a@b.co")
  {
    var t := "a@b.co";
    assert t[..1] == "a" && t[2..3] == "b" && t[4..] == "co";
    EmailShapeAt(t, 1, 3);
  }

  lemma RejectedEmailExamples()
    ensures !IsValidEmail("")
    ensures !IsValidEmail("a@b.c")
    ensures !IsValidEmail("abc.co")
  {
    ShortShapeImpossible("a@b.c");
    NoShapeWithoutAt("abc.co");
  }

  /** The shape, given where its '@' and its last '.' are. */
  lemma EmailShapeAt(s: string, at: int, dot: int)
    requires 0 < at && at + 1 < dot && dot + 3 <= |s|
    requires s[at] == '@' && s[dot] == '.'
    requires AllLocal(s[..at]) && AllDomain(s[at + 1..dot]) && AllLetters(s[dot + 1..])
    ensures EmailShape(s)
  {
  }

  lemma NoShapeWithoutAt(s: string)
    requires forall i :: 0 <= i < |s| ==> s[i] != '@'
    ensures !EmailShape(s)
    ensures |s| >= 1 ==> !EmailShape(s[..|s| - 1])
    ensures |s| >= 2 ==> !EmailShape(s[..|s| - 2])
  {
    if |s| >= 1 {
      var b := s[..|s| - 1];
      assert forall i :: 0 <= i < |b| ==> b[i] == s[i];
    }
    if |s| >= 2 {
      var b := s[..|s| - 2];
      assert forall i :: 0 <= i < |b| ==> b[i] == s[i];
    }
  }

  /** The shape needs at least six characters: `x@y.zz`. */
  lemma ShortShapeImpossible(s: string)
    requires |s| < 6
    ensures !IsValidEmail(s)
  {
  }

  // ---------------------------------------------------------------------
  // The password pattern `^(?=.*[A-Z])(?=.*[a-z])(?=.*\d).{8,}$`

  /** Eight or more characters, none a line terminator, with an upper-case letter, a lower-case letter and a digit. */
  predicate StrongShape(s: string)
  {
    && |s| >= 8
    && (forall i :: 0 <= i < |s| ==> !IsLineTerminator(s[i]))
    && (exists i :: 0 <= i < |s| && IsAsciiUpper(s[i]))
    && (exists i :: 0 <= i < |s| && IsAsciiLower(s[i]))
    && (exists i :: 0 <= i < |s| && IsDecimalDigit(s[i]))
  }

  /** `isStrongPassword`, with the same reading of `$` as `IsValidEmail`. */
  predicate IsStrongPassword(p: string)
  {
    || StrongShape(p)
    || (|p| >= 1 && IsLineTerminator(p[|p| - 1]) && StrongShape(p[..|p| - 1]))
    || (|p| >= 2 && p[|p| - 2..] == "\r\n" && StrongShape(p[..|p| - 2]))
  }

  /** On one line, strong means: at least 8 characters, an upper-case letter, a lower-case letter and a digit. */
  lemma StrongPasswordOnOneLine(p: string)
    requires forall i :: 0 <= i < |p| ==> !IsLineTerminator(p[i])
    ensures IsStrongPassword(p) <==>
      && |p| >= 8
      && (exists i :: 0 <= i < |p| && IsAsciiUpper(p[i]))
      && (exists i :: 0 <= i < |p| && IsAsciiLower(p[i]))
      && (exists i :: 0 <= i < |p| && IsDecimalDigit(p[i]))
  {
    if |p| >= 2 && p[|p| - 2..] == "\r\n" {
      assert p[|p| - 1] == p[|p| - 2..][1];
    }
  }

  /** Removing every upper-case letter, lower-case letter or digit makes any password weak. */
  lemma StrongPasswordNeedsEachClass(p: string)
    requires IsStrongPassword(p)
    ensures exists i :: 0 <= i < |p| && IsAsciiUpper(p[i])
    ensures exists i :: 0 <= i < |p| && IsAsciiLower(p[i])
    ensures exists i :: 0 <= i < |p| && IsDecimalDigit(p[i])
    ensures |p| >= 8
  {
    if !StrongShape(p) {
      var b := if |p| >= 1 && IsLineTerminator(p[|p| - 1]) && StrongShape(p[..|p| - 1]) then p[..|p| - 1] else p[..|p| - 2];
      assert StrongShape(b);
      assert forall i :: 0 <= i < |b| ==> b[i] == p[i];
      var u :| 0 <= u < |b| && IsAsciiUpper(b[u]);
      var l :| 0 <= l < |b| && IsAsciiLower(b[l]);
      var d :| 0 <= d < |b| && IsDecimalDigit(b[d]);
      assert IsAsciiUpper(p[u]) && IsAsciiLower(p[l]) && IsDecimalDigit(p[d]);
    }
  }

  lemma PasswordExamples()
    ensures IsStrongPassword("Passw0rd")
    ensures !IsStrongPassword("Pa55w0r")
    ensures !IsStrongPassword("")
  {
    var p := "Passw0rd";
    assert IsAsciiUpper(p[0]) && IsAsciiLower(p[1]) && IsDecimalDigit(p[5]);
    assert StrongShape(p);
  }

  // ---------------------------------------------------------------------
  // The validators and their feedback

  /** `internalValidationMessage` and `internalValidationColor` together. */
  datatype Feedback = Feedback(message: Option<string>, color: Option<Color>)

  const NoFeedback := Feedback(None, None)

  /** What `validateEmail` can set: nothing, or its own message with its own colour. */
  predicate EmailVerdict(f: Feedback)
  {
    f in {NoFeedback, Feedback(Some("Valid email"), Some(Green)), Feedback(Some("Invalid email format"), Some(Red))}
  }

  /** What `validatePassword` can set: nothing, or its own message with its own colour. */
  predicate PasswordVerdict(f: Feedback)
  {
    f in {NoFeedback, Feedback(Some("Strong password"), Some(Green)), Feedback(Some("Password is weak"), Some(Red))}
  }

  /** The four verdicts the validators can set, or nothing. */
  predicate Paired(f: Feedback)
  {
    EmailVerdict(f) || PasswordVerdict(f)
  }

  /** `validateEmail` */
  function EmailFeedback(email: string): (f: Feedback)
    ensures EmailVerdict(f)
    ensures f.message.None? <==> email == ""
    ensures f.color == Some(Green) <==> IsValidEmail(email)
    ensures f.color == Some(Red) <==> email != "" && !IsValidEmail(email)
  {
    if email == "" then NoFeedback
    else if IsValidEmail(email) then Feedback(Some("Valid email"), Some(Green))
    else Feedback(Some("Invalid email format"), Some(Red))
  }

  /** `validatePassword` */
  function PasswordFeedback(password: string): (f: Feedback)
    ensures PasswordVerdict(f)
    ensures f.message.None? <==> password == ""
    ensures f.color == Some(Green) <==> IsStrongPassword(password)
    ensures f.color == Some(Red) <==> password != "" && !IsStrongPassword(password)
  {
    if password == "" then NoFeedback
    else if IsStrongPassword(password) then Feedback(Some("Strong password"), Some(Green))
    else Feedback(Some("Password is weak"), Some(Red))
  }

  datatype Check = NoCheck | EmailCheck | PasswordCheck

  function Run(check: Check, text: string, current: Feedback): Feedback
  {
    match check
    case NoCheck => current
    case EmailCheck => EmailFeedback(text)
    case PasswordCheck => PasswordFeedback(text)
  }

  /** The validator the `onChange(of: text)` handler of the secure or the plain field calls. */
  function ChangeCheck(config: TextBoxConfig): Check
  {
    match config.kind
    case Secure =>
      if config.kind == Secure && config.useInSignUp then PasswordCheck
      else if config.kind == Secure && config.useInSignIn then EmailCheck
      else NoCheck
    case Normal =>
      if (config.kind == Normal && config.useInSignIn) || config.useInSignUp then EmailCheck else NoCheck
  }

  /**
   * Which validator an edit runs: the password check only for a secure
   * sign-up field, the e-mail check for a secure sign-in-only field and for a
   * plain field with either flag, and none without a flag.
   */
  lemma ChangeCheckTable(config: TextBoxConfig)
    ensures ChangeCheck(config) == PasswordCheck <==> config.kind == Secure && config.useInSignUp
    ensures ChangeCheck(config) == EmailCheck <==>
      || (config.kind == Normal && (config.useInSignIn || config.useInSignUp))
      || (config.kind == Secure && config.useInSignIn && !config.useInSignUp)
    ensures ChangeCheck(config) == NoCheck <==> !config.useInSignIn && !config.useInSignUp
  {
  }

  /** `onAppear`: the password check when `useInSignUp`, then the e-mail check when `useInSignIn`. */
  function AppearFeedback(config: TextBoxConfig, text: string, current: Feedback): (f: Feedback)
    ensures Paired(current) ==> Paired(f)
  {
    var afterSignUp := if config.useInSignUp then PasswordFeedback(text) else current;
    if config.useInSignIn then EmailFeedback(text) else afterSignUp
  }

  /** The sign-up e-mail box: plain, with `useInSignUp` set. */
  function SignUpEmailConfig(): TextBoxConfig
  {
    TextBoxConfig("Enter your email", Some("envelope"), Normal, true, false,
                  Named("textSecondaryDark"), None, Some(Red), Some(false))
  }

  /**
   * As written, a plain sign-up field is checked as a password when it
   * appears but as an e-mail address when it changes: the sign-up e-mail box
   * holding "a@b.co" shows "Password is weak" until the next edit.
   */
  lemma AppearChecksSignUpEmailAsPassword()
    ensures AppearFeedback(SignUpEmailConfig(), "a@b.co", NoFeedback) == Feedback(Some("Password is weak"), Some(Red))
    ensures Run(ChangeCheck(SignUpEmailConfig()), "a@b.co", NoFeedback) == Feedback(Some("Valid email"), Some(Green))
  {
    EmailExamples();
  }

  /** `onAppear` with the password check kept to secure fields. */
  function IntendedAppearFeedback(config: TextBoxConfig, text: string, current: Feedback): (f: Feedback)
    ensures Paired(current) ==> Paired(f)
  {
    var afterSignUp := if config.useInSignUp then
        (if config.kind == Secure then PasswordFeedback(text) else EmailFeedback(text))
      else current;
    if config.useInSignIn then EmailFeedback(text) else afterSignUp
  }

  /**
   * With at most one of the two flags set, as on every box of the app, the
   * corrected appearance check shows what an edit to the same text would.
   */
  lemma IntendedAppearAgreesWithChange(config: TextBoxConfig, text: string, current: Feedback)
    requires !(config.useInSignUp && config.useInSignIn)
    ensures IntendedAppearFeedback(config, text, current) == Run(ChangeCheck(config), text, current)
  {
    ChangeCheckTable(config);
  }

  /**
   * The handler as written and the corrected one disagree exactly on a
   * non-empty plain box with `useInSignUp` and without `useInSignIn`; on every
   * other box, and on an empty text, they set the same verdict.
   */
  lemma AppearDiffersOnlyOnPlainSignUp(config: TextBoxConfig, text: string, current: Feedback)
    ensures AppearFeedback(config, text, current) != IntendedAppearFeedback(config, text, current) <==>
      config.kind == Normal && config.useInSignUp && !config.useInSignIn && text != ""
  {
    if config.kind == Normal && config.useInSignUp && !config.useInSignIn && text != "" {
      var p, e := PasswordFeedback(text), EmailFeedback(text);
      assert p.message.value in {"Strong password", "Password is weak"};
      assert e.message.value in {"Valid email", "Invalid email format"};
    }
  }

  // ---------------------------------------------------------------------
  // What is shown

  /** Sign-up and sign-in boxes show their own verdict; other boxes show the configured one. */
  predicate InternalMode(config: TextBoxConfig)
  {
    config.useInSignUp || config.useInSignIn
  }

  /** `validationMessage()` */
  function ValidationMessage(config: TextBoxConfig, internal: Feedback): Option<string>
  {
    if InternalMode(config) then internal.message else config.validationMessage
  }

  /** `validationColor()` */
  function ValidationColor(config: TextBoxConfig, internal: Feedback): Option<Color>
  {
    if InternalMode(config) then internal.color else config.validationColor
  }

  /** `shouldShowValidationMessage()` */
  predicate ShouldShowValidationMessage(config: TextBoxConfig, internal: Feedback)
  {
    if InternalMode(config) then internal.message.Some?
    else config.showValidation.GetOr(false) && config.validationMessage.Some?
  }

  /** `borderColor()` */
  function BorderColor(config: TextBoxConfig, internal: Feedback, isFocused: bool): Color
  {
    var idle := if isFocused then Accent else config.strokeColor;
    if InternalMode(config) then internal.color.GetOr(idle)
    else if config.showValidation.GetOr(false) then config.validationColor.GetOr(idle)
    else idle
  }

  /** The caption under the box, with its colour (`validationColor() ?? .red`), when there is one. */
  function Caption(config: TextBoxConfig, internal: Feedback): Option<(string, Color)>
  {
    if ShouldShowValidationMessage(config, internal) && ValidationMessage(config, internal).Some? then
      Some((ValidationMessage(config, internal).value, ValidationColor(config, internal).GetOr(Red)))
    else None
  }

  /**
   * The caption appears exactly when `shouldShowValidationMessage` holds: its
   * `if let` on the message never fails. A sign-up or sign-in box shows its
   * own verdict; any other box shows the configured message only when asked to.
   */
  lemma CaptionShownExactlyWhenRequested(config: TextBoxConfig, internal: Feedback)
    ensures Caption(config, internal).Some? <==> ShouldShowValidationMessage(config, internal)
    ensures InternalMode(config) ==>
      (Caption(config, internal).Some? <==> internal.message.Some?) &&
      (internal.message.Some? ==> Caption(config, internal).value.0 == internal.message.value)
    ensures !InternalMode(config) ==>
      (Caption(config, internal).Some? <==> config.showValidation == Some(true) && config.validationMessage.Some?)
  {
  }

  /**
   * Whenever a caption is shown in its own colour, the border has that same
   * colour, focused or not.
   */
  lemma BorderMatchesCaption(config: TextBoxConfig, internal: Feedback, isFocused: bool)
    requires InternalMode(config) ==> Paired(internal)
    requires !InternalMode(config) ==> config.validationColor.Some?
    requires Caption(config, internal).Some?
    ensures BorderColor(config, internal, isFocused) == Caption(config, internal).value.1
  {
  }

  /** Without a verdict to show, the border is the accent colour when focused and the stroke colour otherwise. */
  lemma BorderWithoutVerdict(config: TextBoxConfig, internal: Feedback, isFocused: bool)
    requires InternalMode(config) ==> internal.color.None?
    requires !InternalMode(config) ==> !config.showValidation.GetOr(false) || config.validationColor.None?
    ensures BorderColor(config, internal, isFocused) == if isFocused then Accent else config.strokeColor
  {
  }

  /**
   * Focus changes the border only while there is no verdict colour: a shown
   * verdict colours the border the same whether the box is focused or not.
   */
  lemma FocusOnlyMattersWithoutVerdict(config: TextBoxConfig, internal: Feedback)
    ensures (InternalMode(config) && internal.color.Some?) ==>
      BorderColor(config, internal, true) == BorderColor(config, internal, false) == internal.color.value
    ensures (!InternalMode(config) && config.showValidation == Some(true) && config.validationColor.Some?) ==>
      BorderColor(config, internal, true) == BorderColor(config, internal, false) == config.validationColor.value
  {
  }

  /**
   * A sign-in e-mail box after an edit: nothing under an empty box, green
   * "Valid email" with a green border for a valid address, red "Invalid email
   * format" with a red border otherwise.
   */
  lemma SignInEmailBoxAfterEdit(config: TextBoxConfig, email: string, current: Feedback, isFocused: bool)
    requires config.kind == Normal && config.useInSignIn
    ensures var f := Run(ChangeCheck(config), email, current);
      && (email == "" ==>
            Caption(config, f) == None &&
            BorderColor(config, f, isFocused) == if isFocused then Accent else config.strokeColor)
      && (IsValidEmail(email) ==>
            Caption(config, f) == Some(("Valid email", Green)) && BorderColor(config, f, isFocused) == Green)
      && (email != "" && !IsValidEmail(email) ==>
            Caption(config, f) == Some(("Invalid email format", Red)) && BorderColor(config, f, isFocused) == Red)
  {
    if IsValidEmail(email) {
      assert email != "" by { RejectedEmailExamples(); }
    }
  }

  // ---------------------------------------------------------------------
  // The view's state

  class TextBox {
    const config: TextBoxConfig
    /** The `@FocusState.Binding isFocused` value. */
    var isFocused: bool
    /** `@State isSecureVisible` */
    var isSecureVisible: bool
    /** `@State internalValidationMessage` and `internalValidationColor` */
    var internal: Feedback

    ghost predicate Valid()
      reads this
    {
      Paired(internal)
    }

    constructor (config: TextBoxConfig, isFocused: bool)
      ensures Valid() && this.config == config && this.isFocused == isFocused
      ensures !isSecureVisible && internal == NoFeedback
    {
      this.config := config;
      this.isFocused := isFocused;
      isSecureVisible := false;
      internal := NoFeedback;
    }

    method ValidateEmail(email: string)
      requires Valid()
      modifies this
      ensures Valid() && internal == EmailFeedback(email)
      ensures isFocused == old(isFocused) && isSecureVisible == old(isSecureVisible)
    {
      if email == "" {
        internal := NoFeedback;
      } else if IsValidEmail(email) {
        internal := Feedback(Some("Valid email"), Some(Green));
      } else {
        internal := Feedback(Some("Invalid email format"), Some(Red));
      }
    }

    method ValidatePassword(password: string)
      requires Valid()
      modifies this
      ensures Valid() && internal == PasswordFeedback(password)
      ensures isFocused == old(isFocused) && isSecureVisible == old(isSecureVisible)
    {
      if password == "" {
        internal := NoFeedback;
      } else if IsStrongPassword(password) {
        internal := Feedback(Some("Strong password"), Some(Green));
      } else {
        internal := Feedback(Some("Password is weak"), Some(Red));
      }
    }

    /** The `onChange(of: config.text.wrappedValue)` handler of whichever field the box shows. */
    method TextChanged(newValue: string)
      requires Valid()
      modifies this
      ensures Valid() && internal == Run(ChangeCheck(config), newValue, old(internal))
      ensures isFocused == old(isFocused) && isSecureVisible == old(isSecureVisible)
    {
      if config.kind == Secure {
        if config.kind == Secure && config.useInSignUp {
          ValidatePassword(newValue);
        } else if config.kind == Secure && config.useInSignIn {
          ValidateEmail(newValue);
        }
      } else {
        if (config.kind == Normal && config.useInSignIn) || config.useInSignUp {
          ValidateEmail(newValue);
        }
      }
    }

    /**
     * `onAppear`, as written: the password check on every sign-up box, plain
     * ones included (see `AppearDiffersOnlyOnPlainSignUp` for where this
     * departs from `IntendedAppearFeedback`).
     */
    method Appear(text: string)
      requires Valid()
      modifies this
      ensures Valid() && internal == AppearFeedback(config, text, old(internal))
      ensures isFocused == old(isFocused) && isSecureVisible == old(isSecureVisible)
    {
      if config.useInSignUp {
        ValidatePassword(text);
      }
      if config.useInSignIn {
        ValidateEmail(text);
      }
    }

    /** The eye button: toggles whether the secure text is shown. */
    method ToggleSecureVisible()
      requires Valid()
      modifies this
      ensures Valid() && isSecureVisible == !old(isSecureVisible)
      ensures internal == old(internal) && isFocused == old(isFocused)
    {
      isSecureVisible := !isSecureVisible;
    }

    /** The eye button's deferred step, 0.1 s later: focus returns to the box. */
    method RefocusAfterToggle()
      requires Valid()
      modifies this
      ensures Valid() && isFocused
      ensures internal == old(internal) && isSecureVisible == old(isSecureVisible)
    {
      isFocused := true;
    }
  }
}
