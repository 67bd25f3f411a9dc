/**
 * The design-system input box (`InputBox`): a value configured by builder
 * calls that each return a copy with one field replaced, its border and
 * helper-label colours, and the preview's loose validators.
 */
module InputBoxes {
  import opened Wrappers
  import opened Palette
  import TextBoxes

  datatype InputBoxType = Normal | Secure

  datatype ValidationType = Neutral | Valid | Invalid

  /** `Label.Style` */
  datatype LabelStyle =
    | H1 | H2 | H3 | H4 | H5 | Subtitle1 | Subtitle2 | Body1 | Body2
    | Small1 | Small2 | Small3 | Small4 | Button1 | Button2 | Button3

  /** `UIKeyboardType`, by name. */
  datatype KeyboardType = Keyboard(name: string)

  /**
   * The configurable fields of `InputBox`. `text` and `focused` stand for the
   * values behind the text binding and the focus binding.
   */
  datatype InputBox = InputBox(
    placeholder: string,
    text: string,
    font: LabelStyle,
    textColor: Color,
    kind: InputBoxType,
    disabled: bool,
    keyboard: KeyboardType,
    icon: Option<string>,
    focused: bool,
    validator: ValidationType,
    helperText: Option<string>)

  /** `init(_:text:focus:)`: every other field keeps its declared default. */
  function NewInputBox(placeholder: string, text: string, focused: bool): (b: InputBox)
    ensures b.placeholder == placeholder && b.text == text && b.focused == focused
    ensures b.kind == Normal && b.validator == Neutral && b.helperText == None
    ensures !b.disabled && b.icon == None
    ensures b.font == Body1 && b.keyboard == Keyboard("default") && b.textColor == Named("primaryDark")
  {
    InputBox(placeholder, text, Body1, Named("primaryDark"), Normal, false, Keyboard("default"),
             None, focused, Neutral, None)
  }

  // ---------------------------------------------------------------------
  // Builders

  function WithFont(b: InputBox, style: LabelStyle): (r: InputBox)
    ensures r.font == style && r.(font := b.font) == b
  {
    b.(font := style)
  }

  function WithTextColor(b: InputBox, color: Color): (r: InputBox)
    ensures r.textColor == color && r.(textColor := b.textColor) == b
  {
    b.(textColor := color)
  }

  function WithKeyboard(b: InputBox, keyboard: KeyboardType): (r: InputBox)
    ensures r.keyboard == keyboard && r.(keyboard := b.keyboard) == b
  {
    b.(keyboard := keyboard)
  }

  /** `disabled(_:)`, whose argument defaults to true. */
  function WithDisabled(b: InputBox, disabled: bool := true): (r: InputBox)
    ensures r.disabled == disabled && r.(disabled := b.disabled) == b
  {
    b.(disabled := disabled)
  }

  function WithType(b: InputBox, kind: InputBoxType): (r: InputBox)
    ensures r.kind == kind && r.(kind := b.kind) == b
  {
    b.(kind := kind)
  }

  function WithIcon(b: InputBox, icon: Option<string>): (r: InputBox)
    ensures r.icon == icon && r.(icon := b.icon) == b
  {
    b.(icon := icon)
  }

  function WithFocus(b: InputBox, focused: bool): (r: InputBox)
    ensures r.focused == focused && r.(focused := b.focused) == b
  {
    b.(focused := focused)
  }

  function WithValidator(b: InputBox, validator: ValidationType): (r: InputBox)
    ensures r.validator == validator && r.(validator := b.validator) == b
  {
    b.(validator := validator)
  }

  function WithHelperText(b: InputBox, helperText: Option<string>): (r: InputBox)
    ensures r.helperText == helperText && r.(helperText := b.helperText) == b
  {
    b.(helperText := helperText)
  }

  /**
   * Builders on different fields commute, and a later call on the same field
   * overrides an earlier one: the configuration is the last value given to
   * each field.
   */
  lemma BuildersCommuteAndOverride(b: InputBox, v: ValidationType, w: ValidationType, h: Option<string>, k: InputBoxType)
    ensures WithHelperText(WithValidator(b, v), h) == WithValidator(WithHelperText(b, h), v)
    ensures WithType(WithValidator(b, v), k) == WithValidator(WithType(b, k), v)
    ensures WithValidator(WithValidator(b, v), w) == WithValidator(b, w)
    ensures WithValidator(b, b.validator) == b
  {
  }

  // ---------------------------------------------------------------------
  // Colours

  /** `borderColor()` */
  function BorderColor(b: InputBox): (c: Color)
    ensures b.validator == Valid <==> c == Green
    ensures b.validator == Invalid <==> c == Red
    ensures b.validator == Neutral <==> c in {Accent, DefaultBorder}
    ensures b.validator == Neutral ==> (c == Accent <==> b.focused)
  {
    match b.validator
    case Neutral => if b.focused then Accent else DefaultBorder
    case Valid => Green
    case Invalid => Red
  }

  datatype HelperLabel = HelperLabel(text: string, color: Color)

  /** The helper label under the box (`supportingText`). */
  function SupportingText(b: InputBox): (helper: HelperLabel)
    ensures b.helperText.None? ==> helper == HelperLabel("Placeholder", Clear)
    ensures b.helperText.Some? ==> helper == HelperLabel(b.helperText.value, BorderColor(b))
  {
    HelperLabel(b.helperText.GetOr("Placeholder"), if b.helperText.None? then Clear else BorderColor(b))
  }

  /** Focus only matters to a neutral box: a validated box keeps its colour, focused or not. */
  lemma FocusOnlyColoursNeutralBoxes(b: InputBox)
    requires b.validator != Neutral
    ensures BorderColor(WithFocus(b, true)) == BorderColor(WithFocus(b, false)) == BorderColor(b)
    ensures SupportingText(WithFocus(b, true)) == SupportingText(WithFocus(b, false))
  {
  }

  /** A fresh box: default border, accent once focused, and an invisible helper label. */
  lemma FreshBoxLooksNeutral(placeholder: string, text: string, focused: bool)
    ensures var b := NewInputBox(placeholder, text, focused);
      && BorderColor(b) == (if focused then Accent else DefaultBorder)
      && SupportingText(b).color == Clear
  {
  }

  // ---------------------------------------------------------------------
  // The preview's validators

  /** `validator(for:type:)` */
  function ValidatorFor(field: string, kind: InputBoxType): (v: ValidationType)
    ensures v == Neutral <==> field == ""
    ensures field != "" && kind == Normal ==> (v == Valid <==> '@' in field && '.' in field)
    ensures field != "" && kind == Secure ==> (v == Valid <==> |field| >= 6)
  {
    if field == "" then Neutral
    else match kind
      case Normal => if '@' in field && '.' in field then Valid else Invalid
      case Secure => if |field| >= 6 then Valid else Invalid
  }

  /** `emailHelper()` */
  function EmailHelper(email: string): (s: string)
  {
    match ValidatorFor(email, Normal)
    case Valid => "Valid Email"
    case Invalid => "Invalid Email"
    case Neutral => ""
  }

  /** `passwordHelper()` */
  function PasswordHelper(password: string): (s: string)
  {
    match ValidatorFor(password, Secure)
    case Valid => "Valid Password"
    case Invalid => "Invalid Password"
    case Neutral => ""
  }

  /**
   * The preview's e-mail box: the helper says "Valid Email" in green exactly
   * when the address has an '@' and a '.', "Invalid Email" in red when it is
   * not empty but lacks one, and nothing (an empty label in the neutral
   * colour) when it is empty.
   */
  lemma PreviewEmailBox(email: string, focused: bool)
    ensures var b := WithHelperText(WithValidator(NewInputBox("Email", email, focused), ValidatorFor(email, Normal)),
                                    Some(EmailHelper(email)));
      && (SupportingText(b) == HelperLabel("Valid Email", Green) <==> '@' in email && '.' in email)
      && (SupportingText(b) == HelperLabel("Invalid Email", Red) <==> email != "" && !('@' in email && '.' in email))
      && (SupportingText(b).text == "" <==> email == "")
  {
  }

  /**
   * The preview's password box: "Valid Password" in green exactly from six
   * characters on, "Invalid Password" in red below that.
   */
  lemma PreviewPasswordBox(password: string, focused: bool)
    ensures var b := WithHelperText(WithValidator(NewInputBox("Password", password, focused), ValidatorFor(password, Secure)),
                                    Some(PasswordHelper(password)));
      && (SupportingText(b) == HelperLabel("Valid Password", Green) <==> |password| >= 6)
      && (SupportingText(b) == HelperLabel("Invalid Password", Red) <==> 0 < |password| < 6)
      && (SupportingText(b).text == "" <==> password == "")
  {
  }

  /** The two helpers never say the same thing about a non-empty field. */
  lemma HelpersNameTheirField(s: string)
    requires s != ""
    ensures EmailHelper(s) != PasswordHelper(s)
    ensures EmailHelper(s) in {"Valid Email", "Invalid Email"}
    ensures PasswordHelper(s) in {"Valid Password", "Invalid Password"}
  {
  }

  /**
   * Every address the form's strict pattern accepts passes the preview's
   * check, but not the other way round: "@." passes the preview only.
   */
  lemma StrictEmailPassesPreview(s: string)
    requires TextBoxes.IsValidEmail(s)
    ensures ValidatorFor(s, Normal) == Valid
  {
    TextBoxes.ValidEmailHasOneAt(s);
    TextBoxes.ValidEmailHasDot(s);
  }

  lemma PreviewIsLooserThanStrict()
    ensures ValidatorFor("@.", Normal) == Valid && !TextBoxes.IsValidEmail("@.")
  {
    assert "@."[0] == '@' && "@."[1] == '.';
    TextBoxes.ShortShapeImpossible("@.");
  }
}
