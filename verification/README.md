# Event app: the stateful components, modelled in Dafny

The Event app is an iOS SwiftUI application for discovering events. Most of
its code is layout. This project models the parts that have behaviour that
can be stated:

- the four-box passcode entry (`OTPBoxes`), the countdown under it
  (`TimerView`), and the passcode screen's VERIFY/RESEND state machine
  (`OTPVerificationView`);
- the form text box (`TextBox`). This covers its e-mail and strong-password
  patterns, the validators that set its message and colour, which validator
  runs when, and the tables that choose the caption and border colour;
- the secure text field (`SecureCompatibleTextField`). Edits are spliced into
  the bound text, and the display masks every character but a just-typed last
  one;
- the design-system input box (`InputBox`): its builder copies, colours and
  the preview's validators;
- the authentication request table (`AuthRouter`) and `HTTPMethod`;
- navigation state: the onboarding page index, the rule that the tab bar is
  hidden exactly when the selected tab has pushed a screen (`RootView`), and
  the tab tables (`Routers.swift`).

Each Swift file becomes one module:

| file | module |
|---|---|
| `OTPBoxes.swift` | `OtpEntry` in `otp_boxes.dfy` |
| `TimerView.swift` | `Countdown` in `countdown.dfy` |
| `OTPVerificationView.swift` | `OtpScreen` in `otp_verification.dfy` |
| `TextBox.swift` | `TextBoxes` in `text_box.dfy` |
| `SecureCompatibleTextField.swift` | `SecureEntry` in `secure_field.dfy` |
| `InputBox.swift` | `InputBoxes` in `input_box.dfy` |
| `AccountRouter.swift` | `AccountRouter` in `account_router.dfy` |
| `APIRouter.swift` | `Api` in `api_router.dfy` |
| `OnboardingView.swift` | `Onboarding` in `onboarding.dfy` |
| `RootView.swift` | `Root` in `root_view.dfy` |
| `Routers.swift` | `AppRoutes` in `routers.dfy` |

`support.dfy` holds three shared pieces:

- `Wrappers.Option`, standing for Swift optionals;
- `Bindings.Binding`: one storage cell that two views share, as a
  `@State`/`@Binding` pair does;
- `Palette.Color`.

**How state is modelled.**

- View state the source mutates becomes a class. `@State` properties are
  fields. A `@Binding` is a shared reference: an `array` for the passcode
  boxes, a `Binding` otherwise.
- Each method is proved against a pure function of the old state. For
  example, `OtpBoxes.UpdateOtp` is specified by `AfterUpdate`, and the
  listed properties are lemmas about those functions.
- Timers, `DispatchQueue` deferrals and `Task.sleep` become explicit step
  methods: `TimerView.Tick`, `TextBox.RefocusAfterToggle` and
  `SecureTextField.RevealElapsed`.
- SwiftUI's `onChange(of:)` runs its closure only when the observed value
  differs from the one it last saw. `TimerView.seenRestartTimer` records that
  last-seen value.

**Semantics written out.**

- Swift's `/` and `%` on `Int` truncate toward zero: `TruncDiv` and
  `TruncRem`.
- `%d` and `%02d` are written out as decimal numerals.
- The two regular expressions are character-class predicates. Outside
  multi-line mode, ICU's `$` also matches just before one final line
  terminator (or a final CR LF), and `.` does not match a line terminator.
  So "a@b.co\n" is a valid address.

## Model

| member | source | states |
|---|---|---|
| OtpEntry.KeepNumbers | Event/Presentation/Components/OTPBoxes.swift:58 | the filtered value has only numeric characters, all from the input, keeps every numeric character of the input, is no longer than it, and equals it when it is all digits |
| OtpEntry.KeepNumbersOfConcat | Event/Presentation/Components/OTPBoxes.swift:58 | the filter distributes over concatenation and keeps one character exactly when it is a digit, so it keeps the digits in their order; these two facts determine it |
| OtpEntry.KeepNumbersCounts | Event/Presentation/Components/OTPBoxes.swift:58 | each digit is kept as many times as it occurs in the input; no other character is kept |
| OtpEntry.KeepNumbersExample | Event/Presentation/Components/OTPBoxes.swift:58 | "a12" filters to "12" |
| OtpEntry.Spread | Event/Presentation/Components/OTPBoxes.swift:63-64 | box `index + k` gets digit `k` for as many digits as there are boxes from `index` on; every other box is unchanged and there are still 4 boxes |
| OtpEntry.AfterUpdate | Event/Presentation/Components/OTPBoxes.swift:57-86 | an update leaves exactly `length` = 4 boxes |
| OtpEntry.AfterBackspace | Event/Presentation/Components/OTPBoxes.swift:46-55 | a backspace leaves exactly 4 boxes |
| OtpEntry.UpdatePreservesWellFormed | Event/Presentation/Components/OTPBoxes.swift:57-86 | if every box is empty or one digit and focus is on a box or nowhere, the same holds after any update |
| OtpEntry.UpdateWithSameValueChangesNothing | Event/Presentation/Components/OTPBoxes.swift:58-59 | when the filtered value equals the box, boxes and focus are unchanged |
| OtpEntry.RetypingABoxChangesNothing | Event/Presentation/Components/OTPBoxes.swift:58-59 | writing a box's own content back changes nothing |
| OtpEntry.UpdateWithOneDigit | Event/Presentation/Components/OTPBoxes.swift:77-83 | one new digit is stored in box `index` and no other box; focus moves to `index+1`, or to none at the last box |
| OtpEntry.UpdateWithNoDigits | Event/Presentation/Components/OTPBoxes.swift:70-76 | no digits empties box `index`; focus moves to `index-1` only if the box had a value and `index > 0`, otherwise it is unchanged |
| OtpEntry.UpdateWithSeveralDigits | Event/Presentation/Components/OTPBoxes.swift:61-67 | several digits fill boxes `index, index+1, …` with the first `4-index` digits; earlier and later boxes keep their values; focus is `index + count` if below 4, else none |
| OtpEntry.PastingFourDigitsFillsAllBoxes | Event/Presentation/Components/OTPBoxes.swift:61-67 | pasting a four-digit code into the first box fills all four boxes in order and releases focus |
| OtpEntry.TypingIntoAFilledBoxSpills | Event/Presentation/Components/OTPBoxes.swift:61-67 | a digit typed into a filled box takes the paste path: the old digit stays and the new one lands in the next box |
| OtpEntry.BackspaceClearsOneBox | Event/Presentation/Components/OTPBoxes.swift:46-55 | backspace empties box `index`, changes no other box, and moves focus to `index-1` when `index > 0` |
| OtpEntry.BackspacePreservesWellFormed | Event/Presentation/Components/OTPBoxes.swift:46-55 | backspace keeps every box empty or one digit, and focus in range |
| OtpEntry.BackspaceRun | Event/Presentation/Components/OTPBoxes.swift:46-55 | repeated backspaces keep 4 boxes and focus in range |
| OtpEntry.BackspaceRunClearsToStart | Event/Presentation/Components/OTPBoxes.swift:46-55 | enough backspaces from box `i` empty boxes `0..i`, leave the later boxes, and end with focus on the first box |
| OtpEntry.BackspaceRunAtFirstBox | Event/Presentation/Components/OTPBoxes.swift:46-55 | backspace in an empty first box changes nothing |
| OtpEntry.OtpBoxes.constructor | Event/Presentation/Components/OTPBoxes.swift:3-7 | the boxes are the caller's 4-element array; no box is focused |
| OtpEntry.OtpBoxes.Appear | Event/Presentation/Components/OTPBoxes.swift:31-35 | on appearing, the first box takes focus |
| OtpEntry.OtpBoxes.HandleBackspace | Event/Presentation/Components/OTPBoxes.swift:46-55 | the in-place edit of the array and focus is exactly `AfterBackspace` of the old state |
| OtpEntry.OtpBoxes.UpdateOtp | Event/Presentation/Components/OTPBoxes.swift:57-86 | the in-place edit, including the paste loop, is exactly `AfterUpdate` of the old state |
| Countdown.DigitChar | Event/Presentation/Components/TimerView.swift:86 | a digit value below 10 gives a digit character |
| Countdown.DigitValue | Event/Presentation/Components/TimerView.swift:86 | a digit character's value is below 10 and maps back to the character |
| Countdown.Decimal | Event/Presentation/Components/TimerView.swift:86 | `%d` of a non-negative number is a non-empty string of digits with no leading zero, one digit exactly below 10 |
| Countdown.ValueOfDecimal | Event/Presentation/Components/TimerView.swift:86 | reading a printed numeral back gives the number |
| Countdown.LeadingDigitMakesPositive | Event/Presentation/Components/TimerView.swift:86 | a numeral with a non-zero leading digit denotes a positive number |
| Countdown.DecimalOfValue | Event/Presentation/Components/TimerView.swift:86 | every numeral without a leading zero is the printed form of its value |
| Countdown.FormatInt2 | Event/Presentation/Components/TimerView.swift:86 | `%02d` of a number in 0..99 has exactly two characters |
| Countdown.TimeString | Event/Presentation/Components/TimerView.swift:83-87 | for a non-negative count the label has at least four characters with ':' third from the end; a negative count prints a '-' |
| Countdown.ClockFieldsReadBack | Event/Presentation/Components/TimerView.swift:83-87 | the minutes and the zero-padded seconds fields of `m:ss` read back as `m` and `s` |
| Countdown.TimeStringReadsBack | Event/Presentation/Components/TimerView.swift:83-87 | for `s >= 0` both fields are digits, the minutes field has no leading zero, `secs < 60`, and `minutes*60 + secs == s` |
| Countdown.TimeStringExamples | Event/Presentation/Components/TimerView.swift:83-87 | 300 s is "5:00", 61 s "1:01", 59 s "0:59", and -5 s "0:-5" (truncating division) |
| Countdown.TimerView.constructor | Event/Presentation/Components/TimerView.swift:35-41 | `remainingSeconds` starts at `totalSeconds` and no timer is running |
| Countdown.TimerView.Appear | Event/Presentation/Components/TimerView.swift:48-52 | on appearing, the timer starts when `countdownStart`; the count is untouched |
| Countdown.TimerView.StartTimer | Event/Presentation/Components/TimerView.swift:64-66 | a timer is running afterwards; the count is untouched |
| Countdown.TimerView.Tick | Event/Presentation/Components/TimerView.swift:66-73 | above 0 the count drops by exactly 1 and the completion does not fire; at 0 or below the count stays, the timer stops and the completion fires; the count stays within `totalSeconds`..0 |
| Countdown.TimerView.RestartCountdown | Event/Presentation/Components/TimerView.swift:76-80 | the count is reset to `totalSeconds`, a timer runs, and the bound flag is set back to false |
| Countdown.TimerView.ObserveRestartTimer | Event/Presentation/Components/TimerView.swift:53-57 | a restart happens exactly when the flag changed since last seen and is now true |
| Countdown.TimerView.Disappear | Event/Presentation/Components/TimerView.swift:58-60 | disappearing stops the timer and keeps the count |
| OtpScreen.ButtonTitle | Event/Presentation/Module/Auth/Views/OTPVerificationView.swift:52 | the title is "VERIFY" exactly while the timer is active and "RESEND" exactly when it is not |
| OtpScreen.ChosenAction | Event/Presentation/Module/Auth/Views/OTPVerificationView.swift:68-74 | `performOTP` verifies exactly while the timer is active |
| OtpScreen.ButtonNamesItsAction | Event/Presentation/Module/Auth/Views/OTPVerificationView.swift:52-74 | the button's title always names the action pressing it performs |
| OtpScreen.OtpVerificationView.constructor | Event/Presentation/Module/Auth/Views/OTPVerificationView.swift:6-10 | four empty boxes, timer active, restart flag false, `totalSeconds` 300, full count |
| OtpScreen.OtpVerificationView.Appear | Event/Presentation/Module/Auth/Views/OTPVerificationView.swift:15-22 | on appearing, the first box is focused and the countdown runs |
| OtpScreen.OtpVerificationView.VerifyOtp | Event/Presentation/Module/Auth/Views/OTPVerificationView.swift:76-78 | verifying changes no state and reports the four entered boxes |
| OtpScreen.OtpVerificationView.ResendOtp | Event/Presentation/Module/Auth/Views/OTPVerificationView.swift:80-84 | the boxes become four empty strings, the restart flag true and the timer active; focus and count are untouched |
| OtpScreen.OtpVerificationView.PerformOtp | Event/Presentation/Module/Auth/Views/OTPVerificationView.swift:68-74 | while active it submits the code and changes nothing; otherwise it resends |
| OtpScreen.OtpVerificationView.TimerTick | Event/Presentation/Module/Auth/Views/OTPVerificationView.swift:16-22 | a tick counts down; on completion `isTimerActive` becomes false and the title "RESEND" |
| OtpScreen.OtpVerificationView.ObserveRestart | Event/Presentation/Module/Auth/Views/OTPVerificationView.swift:16-22 | the countdown records the flag's value; a pending restart request (the flag true and not yet seen) resets the countdown to 300 s, running, and clears the flag; otherwise count, timer and flag are unchanged |
| OtpScreen.ExpireThenResend | Event/Presentation/Module/Auth/Views/OTPVerificationView.swift:16-22 | after expiry, pressing the button empties the boxes and restarts a full countdown, with the title back on "VERIFY" |
| TextBoxes.EmailShapeHasOneAt | Event/Presentation/Components/TextBox.swift:305-308 | the address shape contains exactly one '@' |
| TextBoxes.ValidEmailHasOneAt | Event/Presentation/Components/TextBox.swift:305-308 | every valid address, trailing terminator included, contains exactly one '@' |
| TextBoxes.ValidEmailHasDot | Event/Presentation/Components/TextBox.swift:305-308 | every valid address contains a '.' |
| TextBoxes.ValidEmailIsShapeOnOneLine | Event/Presentation/Components/TextBox.swift:305-308 | on text without line terminators, valid is exactly local part, '@', domain, '.', and two or more letters |
| TextBoxes.EmailAcceptsOneTrailingNewline | Event/Presentation/Components/TextBox.swift:305-308 | a valid address followed by "\n" is still accepted |
| TextBoxes.EmailExamples | Event/Presentation/Components/TextBox.swift:305-308 | "john.doe@mail.example.com", "a@b.co" and "a@b.co\n" are valid |
| TextBoxes.LongEmailExample | Event/Presentation/Components/TextBox.swift:305-308 | "john.doe@mail.example.com" has the address shape |
| TextBoxes.ShortEmailExample | Event/Presentation/Components/TextBox.swift:305-308 | "a@b.co" has the address shape |
| TextBoxes.RejectedEmailExamples | Event/Presentation/Components/TextBox.swift:305-308 | "", "a@b.c" and "abc.co" are invalid |
| TextBoxes.EmailShapeAt | Event/Presentation/Components/TextBox.swift:305-308 | an '@' and a later '.' with the right character classes around them make the address shape |
| TextBoxes.NoShapeWithoutAt | Event/Presentation/Components/TextBox.swift:305-308 | text without '@' is never an address, even after dropping a final terminator |
| TextBoxes.ShortShapeImpossible | Event/Presentation/Components/TextBox.swift:305-308 | nothing shorter than six characters is a valid address |
| TextBoxes.StrongPasswordOnOneLine | Event/Presentation/Components/TextBox.swift:324-327 | on one line, strong is exactly: at least 8 characters with an upper-case letter, a lower-case letter and a digit |
| TextBoxes.StrongPasswordNeedsEachClass | Event/Presentation/Components/TextBox.swift:324-327 | every strong password has at least 8 characters and one character of each of the three classes |
| TextBoxes.PasswordExamples | Event/Presentation/Components/TextBox.swift:324-327 | "Passw0rd" is strong; "Pa55w0r" and "" are weak |
| TextBoxes.EmailFeedback | Event/Presentation/Components/TextBox.swift:292-303 | no message and no colour exactly for empty input; "Valid email" in green exactly for a valid address; "Invalid email format" in red exactly for a non-empty invalid one |
| TextBoxes.PasswordFeedback | Event/Presentation/Components/TextBox.swift:311-322 | no message and no colour exactly for empty input; "Strong password" in green exactly for a strong password; "Password is weak" in red exactly for a non-empty weak one |
| TextBoxes.ChangeCheckTable | Event/Presentation/Components/TextBox.swift:40-46 | an edit runs the password check exactly for a secure sign-up box; the e-mail check for a plain box with either flag or a secure sign-in-only box; no check without a flag |
| TextBoxes.AppearFeedback | Event/Presentation/Components/TextBox.swift:94-101 | the appearance checks, as written, keep the verdict one of the paired ones |
| TextBoxes.AppearChecksSignUpEmailAsPassword | Event/Presentation/Components/TextBox.swift:94-101 | as written, the sign-up e-mail box holding "a@b.co" shows "Password is weak" on appearing but "Valid email" after an edit |
| TextBoxes.IntendedAppearFeedback | Event/Presentation/Components/TextBox.swift:94-101 | the corrected appearance checks keep the verdict one of the paired ones |
| TextBoxes.AppearDiffersOnlyOnPlainSignUp | Event/Presentation/Components/TextBox.swift:94-101 | the handler as written and the corrected one set different verdicts exactly for non-empty text in a plain box with `useInSignUp` and without `useInSignIn` |
| TextBoxes.IntendedAppearAgreesWithChange | Event/Presentation/Components/TextBox.swift:40-46 | with at most one flag set, the corrected appearance shows what an edit of the same text would show |
| TextBoxes.CaptionShownExactlyWhenRequested | Event/Presentation/Components/TextBox.swift:330-352 | a caption appears exactly when `shouldShowValidationMessage` holds: in sign-up/sign-in mode exactly when the box's own message exists (and it is that message); otherwise exactly when `showValidation` is true and a configured message exists |
| TextBoxes.BorderMatchesCaption | Event/Presentation/Components/TextBox.swift:354-370 | whenever a caption is shown in its own colour, the border has the same colour, focused or not |
| TextBoxes.BorderWithoutVerdict | Event/Presentation/Components/TextBox.swift:354-370 | with no verdict colour, the border is accent when focused and the stroke colour otherwise |
| TextBoxes.FocusOnlyMattersWithoutVerdict | Event/Presentation/Components/TextBox.swift:354-370 | a verdict colour (the box's own in sign-up/sign-in mode, the configured one when shown) colours the border regardless of focus |
| TextBoxes.SignInEmailBoxAfterEdit | Event/Presentation/Components/TextBox.swift:64-68 | after an edit, a sign-in e-mail box shows nothing for empty text, green "Valid email" with a green border for a valid address, and red "Invalid email format" with a red border otherwise |
| TextBoxes.TextBox.constructor | Event/Presentation/Components/TextBox.swift:13-17 | secure text hidden, no message and no colour of its own |
| TextBoxes.TextBox.ValidateEmail | Event/Presentation/Components/TextBox.swift:292-303 | the box's message and colour become `EmailFeedback` of the input |
| TextBoxes.TextBox.ValidatePassword | Event/Presentation/Components/TextBox.swift:311-322 | the box's message and colour become `PasswordFeedback` of the input |
| TextBoxes.TextBox.TextChanged | Event/Presentation/Components/TextBox.swift:40-46 | an edit applies the check that `ChangeCheck` chooses, and only that |
| TextBoxes.TextBox.Appear | Event/Presentation/Components/TextBox.swift:94-101 | appearing applies the handler as written, `AppearFeedback`: the password check on any sign-up box, then the e-mail check on a sign-in box |
| TextBoxes.TextBox.ToggleSecureVisible | Event/Presentation/Components/TextBox.swift:48-50 | the eye button flips secure-text visibility and nothing else |
| TextBoxes.TextBox.RefocusAfterToggle | Event/Presentation/Components/TextBox.swift:50-52 | the deferred step returns focus to the box |
| SecureEntry.Splice | Event/Presentation/Components/SecureCompatibleTextField.swift:21-22 | the characters before the range are kept, the replacement follows them, then the characters after the range |
| SecureEntry.SpliceUndo | Event/Presentation/Components/SecureCompatibleTextField.swift:21-22 | splicing the replaced characters back restores the original text |
| SecureEntry.SpliceAtEnd | Event/Presentation/Components/SecureCompatibleTextField.swift:21-22 | typing at the end appends; deleting at the end drops the last character |
| SecureEntry.Repeat | Event/Presentation/Components/SecureCompatibleTextField.swift:65 | `n` copies of a one-character mask are `n` characters, all the mask |
| SecureEntry.Display | Event/Presentation/Components/SecureCompatibleTextField.swift:62-84 | the display has one character per character of the text: the text itself when not secure; when secure, all mask characters but possibly the last, which is the text's last character when the text grew, and all masks otherwise |
| SecureEntry.SecureDisplayHidesText | Event/Presentation/Components/SecureCompatibleTextField.swift:64-80 | in secure mode no character of the text shows except the last, and only when the text grew |
| SecureEntry.TypingTwoCharacters | Event/Presentation/Components/SecureCompatibleTextField.swift:64-80 | typing "a" then "b" shows "a", then "•b" with a re-mask pending, then "••" |
| SecureEntry.SecureTextField.constructor | Event/Presentation/Components/SecureCompatibleTextField.swift:40-55 | the first display is `Display` of the bound text against an empty field |
| SecureEntry.SecureTextField.ShouldChangeCharacters | Event/Presentation/Components/SecureCompatibleTextField.swift:18-26 | cancels the pending re-mask; a range inside the text splices the edit into the bound text, an outside range leaves it unchanged; always returns false |
| SecureEntry.SecureTextField.ShouldClear | Event/Presentation/Components/SecureCompatibleTextField.swift:28-32 | cancels the pending re-mask, empties the bound text, returns false |
| SecureEntry.SecureTextField.SetText | Event/Presentation/Components/SecureCompatibleTextField.swift:62-84 | cancels any pending re-mask, shows `Display` of the text against the old display, and schedules a re-mask to all bullets exactly when secure text grew |
| SecureEntry.SecureTextField.Update | Event/Presentation/Components/SecureCompatibleTextField.swift:57-60 | takes the new secure-entry setting and redraws as `SetText` |
| SecureEntry.SecureTextField.RevealElapsed | Event/Presentation/Components/SecureCompatibleTextField.swift:72-76 | an uncancelled re-mask shows the fully masked text, with the display's length unchanged |
| SecureEntry.TypeAtEnd | Event/Presentation/Components/SecureCompatibleTextField.swift:18-84 | a keystroke at the end of a secure field appends it to the bound text and ends with one bullet per character |
| InputBoxes.NewInputBox | Event/Presentation/Components/InputBox.swift:19-35 | a new box is normal, neutral, enabled, without icon or helper text, in body1 and the default keyboard |
| InputBoxes.WithFont | Event/Presentation/Components/InputBox.swift:96-100 | the copy has the new font, and restoring the font gives the original back |
| InputBoxes.WithTextColor | Event/Presentation/Components/InputBox.swift:102-106 | only the text colour changes |
| InputBoxes.WithKeyboard | Event/Presentation/Components/InputBox.swift:108-112 | only the keyboard changes |
| InputBoxes.WithDisabled | Event/Presentation/Components/InputBox.swift:114-118 | only `disabled` changes (to true by default) |
| InputBoxes.WithType | Event/Presentation/Components/InputBox.swift:120-124 | only the type changes |
| InputBoxes.WithIcon | Event/Presentation/Components/InputBox.swift:126-130 | only the icon changes |
| InputBoxes.WithFocus | Event/Presentation/Components/InputBox.swift:132-136 | only the focus changes |
| InputBoxes.WithValidator | Event/Presentation/Components/InputBox.swift:138-142 | only the validation state changes |
| InputBoxes.WithHelperText | Event/Presentation/Components/InputBox.swift:144-148 | only the helper text changes |
| InputBoxes.BuildersCommuteAndOverride | Event/Presentation/Components/InputBox.swift:96-148 | builders on different fields commute, the last call on a field wins, and re-setting a field's own value changes nothing |
| InputBoxes.BorderColor | Event/Presentation/Components/InputBox.swift:196-204 | green exactly when valid, red exactly when invalid; neutral gives accent exactly when focused and the default border otherwise |
| InputBoxes.SupportingText | Event/Presentation/Components/InputBox.swift:83-90 | without helper text the label reads "Placeholder" in the clear colour; otherwise the helper text in the border colour |
| InputBoxes.FocusOnlyColoursNeutralBoxes | Event/Presentation/Components/InputBox.swift:196-204 | a valid or invalid box has the same border and label whether focused or not |
| InputBoxes.FreshBoxLooksNeutral | Event/Presentation/Components/InputBox.swift:19-35 | a fresh box has the default border (accent when focused) and an invisible label |
| InputBoxes.ValidatorFor | Event/Presentation/Components/InputBox.swift:234-252 | neutral exactly for empty input; a normal field is valid exactly when it contains '@' and '.'; a secure one exactly from 6 characters |
| InputBoxes.PreviewEmailBox | Event/Presentation/Components/InputBox.swift:262-269 | the preview e-mail box shows "Valid Email" in green exactly with '@' and '.', "Invalid Email" in red exactly for other non-empty input, and an empty label exactly for empty input |
| InputBoxes.PreviewPasswordBox | Event/Presentation/Components/InputBox.swift:271-277 | the preview password box shows "Valid Password" in green exactly from 6 characters, "Invalid Password" in red for 1 to 5, and nothing for empty input |
| InputBoxes.HelpersNameTheirField | Event/Presentation/Components/InputBox.swift:218-232 | for non-empty input the two helpers give different texts, each one of its two verdicts |
| InputBoxes.StrictEmailPassesPreview | Event/Presentation/Components/InputBox.swift:240-244 | every address the text box's pattern accepts passes the preview's '@'-and-'.' check |
| InputBoxes.PreviewIsLooserThanStrict | Event/Presentation/Components/InputBox.swift:240-244 | "@." passes the preview check but not the pattern |
| Api.RawValueRoundTrip | Event/Domain/Router/APIRouter.swift:18-24 | reading a method's raw value back gives the method |
| Api.FromRawValueRoundTrip | Event/Domain/Router/APIRouter.swift:18-24 | a string that names a method is that method's raw value |
| Api.RawValueInjective | Event/Domain/Router/APIRouter.swift:18-24 | different methods have different raw values |
| Api.RawValuesAreStandardTokens | Event/Domain/Router/APIRouter.swift:19-23 | every raw value is an upper-case method token of section 9.3 of RFC 9110 or PATCH of section 2 of RFC 5789 |
| Api.BaseURLIsShared | Event/Domain/Router/APIRouter.swift:12-16 | any two routes, of any routers, have the same base URL |
| AccountRouter.Method | Event/Domain/Router/AccountRouter.swift:18-33 | every request is a POST |
| AccountRouter.PathsAreDistinct | Event/Domain/Router/AccountRouter.swift:35-50 | every path starts with "auth/", and two requests share a path exactly when they are the same case |
| AccountRouter.BodyCarriesTheRequest | Event/Domain/Router/AccountRouter.swift:65-80 | only a resend has no body; each other body has exactly its case's keys, holding the request's own values, and Google's provider is "google" |
| AccountRouter.BodyDeterminesRequest | Event/Domain/Router/AccountRouter.swift:35-80 | apart from a resend, path and body together determine the request |
| AccountRouter.ResendOmitsTheAddress | Event/Domain/Router/AccountRouter.swift:73-74 | resend requests for two different addresses are identical in method, path, headers and body |
| AccountRouter.EveryRequestPostsJson | Event/Domain/Router/AccountRouter.swift:18-63 | every request's method reads "POST", and its headers are exactly one Content-Type entry holding the JSON media type of section 11 of RFC 8259 |
| AccountRouter.OnlyPathAndBodyVary | Event/Domain/Router/AccountRouter.swift:18-80 | any two requests share base URL, method, query parameters (none) and headers; two different requests of the same case, a resend aside, have different bodies |
| Onboarding.IndexStaysOnAPage | Event/Presentation/Module/Onboarding/OnboardingView.swift:130-163 | Prev and Next keep the index on a page; Prev changes nothing exactly at the first page, where the button is disabled; Next changes nothing exactly at the last |
| Onboarding.PrevNextInverse | Event/Presentation/Module/Onboarding/OnboardingView.swift:130-163 | Prev undoes Next away from the last page, and Next undoes Prev away from the first |
| Onboarding.NextTimesStopsAtLast | Event/Presentation/Module/Onboarding/OnboardingView.swift:157-163 | `n` Nexts advance `n` pages, stopping at the last |
| Onboarding.PrevTimesStopsAtFirst | Event/Presentation/Module/Onboarding/OnboardingView.swift:130-137 | `n` Prevs go back `n` pages, stopping at the first |
| Onboarding.ExactlyOneDot | Event/Presentation/Module/Onboarding/OnboardingView.swift:143-147 | exactly one page dot is highlighted: the current page's |
| Onboarding.OnboardingView.constructor | Event/Presentation/Module/Onboarding/OnboardingView.swift:12-32 | three pages, index 0, direction flag true |
| Onboarding.OnboardingView.CurrentPage | Event/Presentation/Module/Onboarding/OnboardingView.swift:68-113 | the page shown is one of the pages |
| Onboarding.OnboardingView.Prev | Event/Presentation/Module/Onboarding/OnboardingView.swift:130-137 | the index becomes `PrevIndex` and stays on a page; the direction flag flips exactly when the index changed |
| Onboarding.OnboardingView.Next | Event/Presentation/Module/Onboarding/OnboardingView.swift:157-163 | the index becomes `NextIndex` and stays on a page; the direction flag flips exactly when the index changed |
| Onboarding.OnboardingView.ShiftBubbles | Event/Presentation/Module/Onboarding/OnboardingView.swift:265 | the bubble shift flips the direction flag and leaves the index |
| Onboarding.ForwardAndBack | Event/Presentation/Module/Onboarding/OnboardingView.swift:130-163 | two Nexts, a blocked third, and two Prevs return to the first page with the flag as it started |
| AppRoutes.EachRouteEnumHasOneCase | Event/Core/Coordinator/Routers.swift:1-15 | each route enumeration has exactly one value |
| AppRoutes.AllCasesListsEachTabOnce | Event/Core/Coordinator/Routers.swift:18-23 | `allCases` is home, event, settings, profile: every tab, each once |
| AppRoutes.IconsAndTitlesAreDistinct | Event/Core/Coordinator/Routers.swift:24-48 | no two tabs share an icon, and no two share a title |
| AppRoutes.TabTitled | Event/Core/Coordinator/Routers.swift:37-48 | a title of some tab names a tab with that title |
| AppRoutes.TitleRoundTrip | Event/Core/Coordinator/Routers.swift:37-48 | a tab's title names that tab |
| Root.RootView.constructor | Event/Core/Coordinator/RootView.swift:12-13 | the home tab is selected, the tab bar is shown and every stack is empty |
| Root.RootView.UpdateTabBarVisibility | Event/Core/Coordinator/RootView.swift:91-104 | the bar is hidden exactly when the selected tab's stack is non-empty; nothing but `isTabBarHidden` changes |
| Root.RootView.SelectTab | Event/Core/Coordinator/RootView.swift:30-32 | after selecting a tab, the bar is shown exactly when that tab's stack is empty; no stack changes |
| Root.RootView.SetStackDepth | Event/Core/Coordinator/RootView.swift:49-87 | a tab's stack changes depth and no other stack changes; a stack that is not displayed never affects the bar; the hidden-exactly-when-non-empty rule is kept |
| Root.RootView.Push | Event/Core/Coordinator/RootView.swift:49-87 | a push deepens one stack and hides the bar when that tab is selected |
| Root.RootView.Pop | Event/Core/Coordinator/RootView.swift:49-87 | a pop drops one screen if any, and keeps the visibility rule |
| Root.PushElsewhereThenVisit | Event/Core/Coordinator/RootView.swift:22-104 | a push on another tab leaves the bar; visiting that tab hides it; popping back shows it again |

## Left out

- `OtpEntry.IsNumber` accepts only the ASCII digits. Swift's `isNumber` also accepts other Unicode numeric characters, such as other scripts' digits, fractions and Roman numerals.
- `TextBoxes.IsDecimalDigit` takes `\d` as the ASCII digits. ICU's `\d` also matches other Unicode decimal digits.
- Character counts are counts of `char`. Swift's `count` counts grapheme clusters, and `NSRange` counts UTF-16 units.
- `SecureEntry.SecureTextField.ShouldChangeCharacters` treats a range as valid when it lies within the text. `Range(_:in:)` also fails for a range that splits a character.
- `OTPTextField`, the UIKit field inside each passcode box (OTPBoxes.swift:91-137), is not modelled. Its coordinator's splice and backspace detection are left out; the model takes the new box text it hands to `updateOTP` as the input.
- `verifyOTP` only prints the code. `OtpScreen.OtpVerificationView.VerifyOtp` returns the code instead of printing it.
- Haptic feedback (`HapticPlayer.play`) is left out because it has no effect on state.
- Animations and the onboarding bubble physics are left out: CGFloat positions, random velocities and a 0.03 s timer. Only the direction flag that `shiftBubbles` flips is kept.
- Timer scheduling, `DispatchQueue` deferrals and the 0.4 s `Task.sleep` are explicit steps, so their timing is not modelled.
- `Countdown.TimerView.Tick` requires a running timer, because an invalidated `Timer` never fires.
- The `OTPBoxes` appearance moves focus to the first box at once rather than on the next main-queue turn.
- Navigation-stack operations come from the tabs' child views through the Navio library, which is not part of this model. They are modelled as `SetStackDepth`, `Push` and `Pop`.
- The tab bar's tap handler calls `appTab.popToRoot()` on a navigator that no tab stack shares and that nothing reads, so it is left out.
- Layout and styling are left out: sizes, paddings, fonts, fills, shadows, icons' rendering, and the `email` subtitle of the passcode screen.
- `textFieldShouldReturn` only gives up keyboard focus, so it is left out.
- Sending a request is left out: `NetworkManager` URL building and JSON serialisation, OAuth, storage, repositories and view models. Bodies are string-to-string maps because every value the auth routes send is a string.
- The `SecureCompatibleTextField` source writes the mask literal as three mis-decoded bytes of U+2022. The model uses one bullet character, so the display has exactly one character per character of text.

## Findings

| source | as written | input that shows it | evidently intended | confidence | as-written member | corrected member |
|---|---|---|---|---|---|---|
| Event/Presentation/Components/TextBox.swift:94-101 | on appearing, every box with `useInSignUp` runs the password check, plain boxes included | the sign-up e-mail box (plain, `useInSignUp`) appearing with "a@b.co" shows "Password is weak" in red; the next edit shows "Valid email" | a plain box is checked as an e-mail address, as its edit handler at lines 64-68 does | not executed; visible only when the box appears with text already in it | TextBoxes.AppearChecksSignUpEmailAsPassword | TextBoxes.IntendedAppearAgreesWithChange |
