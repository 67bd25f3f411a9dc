/**
 * The passcode screen (`OTPVerificationView`): four boxes, a five-minute
 * countdown, and one button that verifies while the countdown runs and
 * resends once it has expired.
 */
module OtpScreen {
  import opened Wrappers
  import Bindings
  import OtpEntry
  import Countdown

  /** `totalSeconds` of the screen's countdown. */
  const OtpSeconds: int := 300

  /** What the button's action does. */
  datatype Action = Verify | Resend

  /** The button's title. */
  function ButtonTitle(isTimerActive: bool): (title: string)
    ensures title == "VERIFY" <==> isTimerActive
    ensures title == "RESEND" <==> !isTimerActive
  {
    if isTimerActive then "VERIFY" else "RESEND"
  }

  /** The branch `performOTP` takes. */
  function ChosenAction(isTimerActive: bool): (a: Action)
    ensures a == Verify <==> isTimerActive
  {
    if isTimerActive then Verify else Resend
  }

  /** The word for an action in upper case. */
  function ActionWord(a: Action): string
  {
    match a
    case Verify => "VERIFY"
    case Resend => "RESEND"
  }

  /** The button always says what pressing it does. */
  lemma ButtonNamesItsAction(isTimerActive: bool)
    ensures ButtonTitle(isTimerActive) == ActionWord(ChosenAction(isTimerActive))
  {
  }

  class OtpVerificationView {
    /** `@State otp`, bound into the boxes. */
    const otp: array<string>
    /** `@State shouldRestartTimer`, bound into the countdown. */
    const shouldRestartTimer: Bindings.Binding<bool>
    /** `@State isTimerActive` */
    var isTimerActive: bool
    const totalSeconds: int
    const boxes: OtpEntry.OtpBoxes
    const timer: Countdown.TimerView

    ghost predicate Valid()
      reads this, boxes, timer
    {
      && otp.Length == OtpEntry.Length
      && boxes.otp == otp && boxes.Valid()
      && timer.restartTimer == shouldRestartTimer && timer.Valid()
      && timer.totalSeconds == totalSeconds == OtpSeconds && timer.countdownStart
    }

    constructor ()
      ensures Valid()
      ensures fresh(otp) && fresh(shouldRestartTimer) && fresh(boxes) && fresh(timer)
      ensures otp[..] == ["", "", "", ""]
      ensures isTimerActive && !shouldRestartTimer.value && totalSeconds == OtpSeconds
      ensures timer.remainingSeconds == OtpSeconds && !timer.timerRunning
    {
      var cells := new string[OtpEntry.Length](_ => "");
      var flag := new Bindings.Binding(false);
      otp := cells;
      shouldRestartTimer := flag;
      isTimerActive := true;
      totalSeconds := OtpSeconds;
      boxes := new OtpEntry.OtpBoxes(cells);
      timer := new Countdown.TimerView(OtpSeconds, true, flag);
      assert cells[..] == ["", "", "", ""];
    }

    /** The children's `onAppear`: the first box takes focus and the countdown starts. */
    method Appear()
      requires Valid()
      modifies boxes, timer
      ensures Valid()
      ensures boxes.focusedIndex == Some(0) && timer.timerRunning
      ensures timer.remainingSeconds == old(timer.remainingSeconds)
      ensures timer.seenRestartTimer == old(timer.seenRestartTimer)
    {
      boxes.Appear();
      timer.Appear();
    }

    /** `verifyOTP`: reports the entered code and changes nothing. */
    method VerifyOtp() returns (submitted: seq<string>)
      requires Valid()
      ensures submitted == otp[..] && |submitted| == OtpEntry.Length
    {
      submitted := otp[..];
    }

    /** `resendOTP`: empty boxes, a restart request for the countdown, and the timer marked active. */
    method ResendOtp()
      requires Valid()
      modifies this, otp, shouldRestartTimer
      ensures Valid()
      ensures otp[..] == ["", "", "", ""]
      ensures shouldRestartTimer.value && isTimerActive
      ensures boxes.focusedIndex == old(boxes.focusedIndex)
      ensures timer.remainingSeconds == old(timer.remainingSeconds) && timer.timerRunning == old(timer.timerRunning)
    {
      forall k | 0 <= k < otp.Length {
        otp[k] := "";
      }
      shouldRestartTimer.value := true;
      isTimerActive := true;
    }

    /** `performOTP`, the button's action: `submitted` is the code sent for verification, if any. */
    method PerformOtp() returns (submitted: Option<seq<string>>)
      requires Valid()
      modifies this, otp, shouldRestartTimer
      ensures Valid()
      ensures submitted.Some? <==> ChosenAction(old(isTimerActive)) == Verify
      ensures old(isTimerActive) ==>
        && submitted == Some(old(otp[..])) && otp[..] == old(otp[..])
        && isTimerActive && shouldRestartTimer.value == old(shouldRestartTimer.value)
      ensures !old(isTimerActive) ==>
        otp[..] == ["", "", "", ""] && shouldRestartTimer.value && isTimerActive
    {
      if isTimerActive {
        var code := VerifyOtp();
        submitted := Some(code);
      } else {
        ResendOtp();
        submitted := None;
      }
    }

    /** One firing of the countdown's timer; on completion the closure clears `isTimerActive`. */
    method TimerTick()
      requires Valid() && timer.timerRunning
      modifies this, timer
      ensures Valid()
      ensures old(timer.remainingSeconds) > 0 ==>
        timer.remainingSeconds == old(timer.remainingSeconds) - 1 && isTimerActive == old(isTimerActive)
      ensures old(timer.remainingSeconds) <= 0 ==>
        !isTimerActive && !timer.timerRunning && ButtonTitle(isTimerActive) == "RESEND"
      ensures otp[..] == old(otp[..]) && timer.seenRestartTimer == old(timer.seenRestartTimer)
    {
      var fired := timer.Tick();
      if fired {
        isTimerActive := false;
      }
    }

    /** The countdown's `onChange(of: restartTimer)` running after the flag was written. */
    method ObserveRestart()
      requires Valid()
      modifies timer, shouldRestartTimer
      ensures Valid()
      ensures timer.seenRestartTimer == old(shouldRestartTimer.value)
      ensures old(shouldRestartTimer.value) && !old(timer.seenRestartTimer) ==>
        timer.remainingSeconds == OtpSeconds && timer.timerRunning && !shouldRestartTimer.value
      ensures !(old(shouldRestartTimer.value) && !old(timer.seenRestartTimer)) ==>
        && timer.remainingSeconds == old(timer.remainingSeconds)
        && timer.timerRunning == old(timer.timerRunning)
        && shouldRestartTimer.value == old(shouldRestartTimer.value)
      ensures otp[..] == old(otp[..]) && isTimerActive == old(isTimerActive)
    {
      var _ := timer.ObserveRestartTimer();
    }
  }

  /**
   * Expiry followed by a press: after the countdown completes, the button
   * resends, and once the countdown sees the request it runs the full five
   * minutes again with the button back on "VERIFY".
   */
  method ExpireThenResend(screen: OtpVerificationView)
    requires screen.Valid() && screen.timer.timerRunning && screen.timer.remainingSeconds == 0
    requires !screen.shouldRestartTimer.value && !screen.timer.seenRestartTimer
    modifies screen, screen.timer, screen.otp, screen.shouldRestartTimer
    ensures screen.Valid()
    ensures screen.otp[..] == ["", "", "", ""]
    ensures screen.isTimerActive && ButtonTitle(screen.isTimerActive) == "VERIFY"
    ensures screen.timer.remainingSeconds == OtpSeconds && screen.timer.timerRunning
    ensures !screen.shouldRestartTimer.value
  {
    screen.TimerTick();
    assert !screen.isTimerActive;
    var submitted := screen.PerformOtp();
    assert submitted == None;
    screen.ObserveRestart();
  }
}
