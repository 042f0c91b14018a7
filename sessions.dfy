/**
 * One scraping session: `attempt_close_popup` and `run_session` (test.py:55-217).
 *
 * The pure functions below say, phase by phase, which driver calls a session
 * makes for a given `Script` and how it ends; the methods further down run the
 * session step by step on a `Driver`, as the source does, and are proved to make
 * exactly those calls and reach exactly that end.
 */
module Sessions {
  import opened Wrappers
  import opened Coupon
  import opened Browser
  import Output
  import Seqs

  /** Why a session's try block was left: an exception from the browser, or the
      ValueError that test.py:183 and 186 raise for a text that is not a coupon. */
  datatype Failure = Threw(fault: Fault) | BadData(error: ExtractError)

  /** The calls a phase made and what it produced (or why it raised). */
  datatype Stage<T> = Stage(calls: seq<Step>, value: Result<T, Failure>)

  /** How run_session ended. */
  datatype SessionResult =
    | NoDriver                 // setup_driver() returned None: nothing else happened (test.py:86-88)
    | Saved(code: string)      // a code was appended to the output file (test.py:180)
    | Failed(failure: Failure) // the try block raised; the error was caught (test.py:197-210)
    | Escaped(fault: Fault)    // set_page_load_timeout raised before the try (test.py:90)

  /** The calls a whole session made on its driver, and its end. */
  datatype SessionRun = SessionRun(calls: seq<Step>, result: SessionResult)

  /** What attempt_close_popup did, and what it returned. */
  datatype CloseRun = CloseRun(calls: seq<Step>, handled: bool)

  // ---------------------------------------------------------------------------
  // The phases of a session
  // ---------------------------------------------------------------------------

  /** attempt_close_popup (test.py:55-79). Every exception is turned into `false`.
      An interception raised by the wait itself leaves `close_button` unbound, so
      the retry fails at once with a NameError and no second click is made. */
  function ClosePopup(s: Script): CloseRun
  {
    match s.answer(CloseWait)
    case Raised(_) => CloseRun([CloseWait], false)
    case Done =>
      match s.answer(CloseClick)
      case Done => CloseRun([CloseWait, CloseClick], true)
      case Raised(fault) =>
        if fault == ClickIntercepted then
          CloseRun([CloseWait, CloseClick, CloseRetry], s.answer(CloseRetry).Done?)
        else
          CloseRun([CloseWait, CloseClick], false)
  }

  /** test.py:107-118, once the popup is visible: try to close it and, when that
      worked, wait for it to go. A timeout of that wait is only a warning. */
  function DismissPopup(s: Script): Stage<()>
  {
    var close := ClosePopup(s);
    if !close.handled then Stage(close.calls, Ok(()))
    else
      var waited := match s.answer(VanishWait)
        case Raised(fault) => if fault == Timeout then Ok(()) else Err(Threw(fault))
        case Done => Ok(());
      Stage(close.calls + [VanishWait], waited)
  }

  /** test.py:98-118: is the popup visible (only a timeout of that wait means "no"),
      and if so dismiss it. The result is `popup_present_and_visible`. */
  function PopupPhase(s: Script): Stage<bool>
  {
    match s.answer(PopupWait)
    case Raised(fault) =>
      Stage([PopupWait], if fault == Timeout then Ok(false) else Err(Threw(fault)))
    case Done =>
      var dismiss := DismissPopup(s);
      Stage([PopupWait] + dismiss.calls, if dismiss.value.Ok? then Ok(true) else Err(dismiss.value.error))
  }

  /** test.py:125-145: look for the Redeem button in the modal when the popup was
      seen, and on the whole page when it was not found there. */
  function FindRedeem(s: Script, popupVisible: bool): Stage<()>
  {
    if popupVisible && s.answer(ModalSearch) != Raised(Timeout) then
      match s.answer(ModalSearch)
      case Done => Stage([ModalSearch], Ok(()))
      case Raised(fault) => Stage([ModalSearch], Err(Threw(fault)))
    else
      var before := if popupVisible then [ModalSearch] else [];
      var page := match s.answer(PageSearch)
        case Done => Ok(())
        case Raised(fault) => Err(Threw(fault));
      Stage(before + [PageSearch], page)
  }

  /** test.py:148-162: click the Redeem button by script, once more after an
      interception; any other failure, or a failure of the retry, raises. */
  function ClickRedeem(s: Script): Stage<()>
  {
    match s.answer(RedeemClick)
    case Done => Stage([RedeemClick], Ok(()))
    case Raised(fault) =>
      if fault != ClickIntercepted then Stage([RedeemClick], Err(Threw(fault)))
      else
        match s.answer(RedeemRetry)
        case Done => Stage([RedeemClick, RedeemRetry], Ok(()))
        case Raised(retryFault) => Stage([RedeemClick, RedeemRetry], Err(Threw(retryFault)))
  }

  /** test.py:168-195: wait for the coupon element, read its text and validate it. */
  function ReadCoupon(s: Script): Stage<string>
  {
    match s.answer(CouponWait)
    case Raised(fault) => Stage([CouponWait], Err(Threw(fault)))
    case Done =>
      match s.answer(CouponText)
      case Raised(fault) => Stage([CouponWait, CouponText], Err(Threw(fault)))
      case Done =>
        match Extract(s.couponText)
        case Ok(code) => Stage([CouponWait, CouponText], Ok(code))
        case Err(error) => Stage([CouponWait, CouponText], Err(BadData(error)))
  }

  /** test.py:123-162: find the Redeem button, then click it. */
  function RedeemPhase(s: Script, popupVisible: bool): Stage<()>
  {
    var find := FindRedeem(s, popupVisible);
    if find.value.Err? then find
    else
      var click := ClickRedeem(s);
      Stage(find.calls + click.calls, click.value)
  }

  /** The try block from the Redeem search on (test.py:123-195). */
  function AfterPopup(s: Script, popupVisible: bool): Stage<string>
  {
    var redeem := RedeemPhase(s, popupVisible);
    if redeem.value.Err? then Stage(redeem.calls, Err(redeem.value.error))
    else
      var coupon := ReadCoupon(s);
      Stage(redeem.calls + coupon.calls, coupon.value)
  }

  /** The try block of run_session (test.py:93-195): navigate, handle the popup, find
      and click the Redeem button, read and validate the coupon. A failure in any
      phase ends the block; `Ok(code)` means the code was saved. */
  function Body(s: Script): Stage<string>
  {
    match s.answer(Navigate)
    case Raised(fault) => Stage([Navigate], Err(Threw(fault)))
    case Done =>
      var popup := PopupPhase(s);
      if popup.value.Err? then Stage([Navigate] + popup.calls, Err(popup.value.error))
      else
        var rest := AfterPopup(s, popup.value.value);
        Stage([Navigate] + popup.calls + rest.calls, rest.value)
  }

  /** run_session (test.py:82-217): set up the driver, run the try block, and quit
      the driver in `finally`. */
  function Session(s: Script): SessionRun
  {
    if !s.launches then SessionRun([], NoDriver)
    else
      match s.answer(SetPageLoadTimeout)
      case Raised(fault) => SessionRun([SetPageLoadTimeout], Escaped(fault))
      case Done =>
        var body := Body(s);
        var result := match body.value
          case Ok(code) => Saved(code)
          case Err(failure) => Failed(failure);
        SessionRun([SetPageLoadTimeout] + body.calls + [Quit], result)
  }

  /** What a session adds to the output file. */
  function Appended(result: SessionResult): string {
    if result.Saved? then result.code + "\n" else ""
  }

  // ---------------------------------------------------------------------------
  // The session, step by step on a driver
  // ---------------------------------------------------------------------------

  /** attempt_close_popup (test.py:55-79). */
  method AttemptClosePopup(driver: Driver) returns (handled: bool)
    modifies driver
    ensures driver.log == old(driver.log) + ClosePopup(driver.script).calls
    ensures handled == ClosePopup(driver.script).handled
  {
    var o := driver.Call(CloseWait);
    if o.Raised? {
      // A timeout, or any other exception; the interception handler would retry
      // the click on `close_button`, which was never bound, and fail.
      return false;
    }
    o := driver.Call(CloseClick);
    if o.Done? {
      return true;
    }
    if o.fault != ClickIntercepted {
      return false;
    }
    o := driver.Call(CloseRetry);
    handled := o.Done?;
  }

  /** test.py:98-118 on the driver; returns `popup_present_and_visible`. */
  method HandlePopup(driver: Driver) returns (outcome: Result<bool, Failure>)
    modifies driver
    ensures driver.log == old(driver.log) + PopupPhase(driver.script).calls
    ensures outcome == PopupPhase(driver.script).value
  {
    var o := driver.Call(PopupWait);
    if o.Raised? {
      return if o.fault == Timeout then Ok(false) else Err(Threw(o.fault));
    }
    var handled := AttemptClosePopup(driver);
    if handled {
      o := driver.Call(VanishWait);
      if o.Raised? && o.fault != Timeout {
        return Err(Threw(o.fault));
      }
    }
    outcome := Ok(true);
  }

  /** test.py:123-162 on the driver. */
  method RedeemOffer(driver: Driver, popupVisible: bool) returns (outcome: Result<(), Failure>)
    modifies driver
    ensures driver.log == old(driver.log) + RedeemPhase(driver.script, popupVisible).calls
    ensures outcome == RedeemPhase(driver.script, popupVisible).value
  {
    // `redeem_button` is set once a search finds the button; the page-wide search
    // raises when it does not, so the `else` of test.py:163-165 cannot be reached.
    var redeemFound := false;
    var o: Outcome;
    if popupVisible {
      o := driver.Call(ModalSearch);
      if o.Done? {
        redeemFound := true;
      } else if o.fault != Timeout {
        return Err(Threw(o.fault));
      }
    }
    if !redeemFound {
      o := driver.Call(PageSearch);
      if o.Raised? {
        return Err(Threw(o.fault));
      }
      redeemFound := true;
    }
    o := driver.Call(RedeemClick);
    if o.Raised? {
      if o.fault != ClickIntercepted {
        return Err(Threw(o.fault));
      }
      o := driver.Call(RedeemRetry);
      if o.Raised? {
        return Err(Threw(o.fault));
      }
    }
    outcome := Ok(());
  }

  /** test.py:168-195 on the driver: a valid code is saved to the file. */
  method SaveCouponFromPage(driver: Driver, file: Output.CouponFile) returns (outcome: Result<string, Failure>)
    modifies driver, file
    ensures driver.log == old(driver.log) + ReadCoupon(driver.script).calls
    ensures outcome == ReadCoupon(driver.script).value
    ensures file.text == old(file.text) + (if outcome.Ok? then outcome.value + "\n" else "")
  {
    Seqs.Assoc(driver.log, [CouponWait], [CouponText]);
    var o := driver.Call(CouponWait);
    if o.Raised? {
      return Err(Threw(o.fault));
    }
    o := driver.Call(CouponText);
    if o.Raised? {
      return Err(Threw(o.fault));
    }
    var extracted := Extract(driver.script.couponText);
    if extracted.Err? {
      return Err(BadData(extracted.error));
    }
    Seqs.Assoc(file.text, extracted.value, "\n");
    file.SaveCoupon(extracted.value);
    outcome := Ok(extracted.value);
  }

  /** test.py:123-195 on the driver: find and click the Redeem button, then read and save the coupon. */
  method ClaimCoupon(driver: Driver, file: Output.CouponFile, popupVisible: bool) returns (outcome: Result<string, Failure>)
    modifies driver, file
    ensures driver.log == old(driver.log) + AfterPopup(driver.script, popupVisible).calls
    ensures outcome == AfterPopup(driver.script, popupVisible).value
    ensures file.text == old(file.text) + (if outcome.Ok? then outcome.value + "\n" else "")
  {
    var redeem := RedeemOffer(driver, popupVisible);
    if redeem.Err? {
      return Err(redeem.error);
    }
    outcome := SaveCouponFromPage(driver, file);
  }

  /** The try block of run_session (test.py:93-195); a returned `Err` is the
      exception that leaves it. */
  method SessionBody(driver: Driver, file: Output.CouponFile) returns (outcome: Result<string, Failure>)
    modifies driver, file
    ensures driver.log == old(driver.log) + Body(driver.script).calls
    ensures outcome == Body(driver.script).value
    ensures file.text == old(file.text) + (if outcome.Ok? then outcome.value + "\n" else "")
  {
    var o := driver.Call(Navigate);
    if o.Raised? {
      return Err(Threw(o.fault));
    }
    var popup := HandlePopup(driver);
    ghost var shown := PopupPhase(driver.script).calls;
    Seqs.Assoc(old(driver.log), [Navigate], shown);
    if popup.Err? {
      return Err(popup.error);
    }
    outcome := ClaimCoupon(driver, file, popup.value);
    Seqs.Assoc(old(driver.log), [Navigate], shown);
    Seqs.Assoc(old(driver.log), [Navigate] + shown, AfterPopup(driver.script, popup.value).calls);
  }

  /** run_session (test.py:82-217). The driver it used, if any, is returned so that
      its calls can be inspected. */
  method RunSession(s: Script, file: Output.CouponFile) returns (result: SessionResult, driver: Driver?)
    modifies file
    ensures driver == null <==> !s.launches
    ensures driver != null ==> fresh(driver) && driver.script == s && driver.log == Session(s).calls
    ensures result == Session(s).result
    ensures file.text == old(file.text) + Appended(result)
  {
    if !s.launches {
      return NoDriver, null;
    }
    driver := new Driver(s);
    var o := driver.Call(SetPageLoadTimeout);
    assert driver.log == [SetPageLoadTimeout];
    if o.Raised? {
      // Outside the try block: the exception leaves run_session and no quit happens.
      return Escaped(o.fault), driver;
    }
    ghost var body := Body(s);
    assert Session(s) == SessionRun([SetPageLoadTimeout] + body.calls + [Quit],
                                    if body.value.Ok? then Saved(body.value.value) else Failed(body.value.error));
    var outcome := SessionBody(driver, file);
    driver.Quit();
    result := if outcome.Ok? then Saved(outcome.value) else Failed(outcome.error);
  }
}
