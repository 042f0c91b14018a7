/**
 * The browser as the session sees it (test.py:55-217).
 *
 * Selenium, the browser and the page are not modelled. Each call that the
 * session makes on the driver is a `Step`; a `Script` fixes, for one session,
 * whether a driver could be set up, how each call turns out (it returns, or it
 * raises an exception of some kind) and the text of the coupon element. Every
 * step is taken at most once per session, so one answer per step suffices.
 */
module Browser {

  /** The calls made on the driver, in the order test.py makes them. */
  datatype Step =
    | SetPageLoadTimeout   // driver.set_page_load_timeout(90), test.py:90
    | Navigate             // driver.get(TARGET_URL), test.py:95
    | PopupWait            // wait for the modal to be visible, test.py:101
    | CloseWait            // wait for the modal's close button, test.py:61
    | CloseClick           // script click on the close button, test.py:62
    | CloseRetry           // the same script click after an interception, test.py:71
    | VanishWait           // wait for the modal to disappear, test.py:113
    | ModalSearch          // wait for "Redeem Offer" inside the modal, test.py:132
    | PageSearch           // wait for "Redeem Offer" anywhere on the page, test.py:141
    | RedeemClick          // script click on the Redeem button, test.py:150
    | RedeemRetry          // the same script click after an interception, test.py:155
    | CouponWait           // wait for the coupon element, test.py:173
    | CouponText           // read the element's text, test.py:174
    | Quit                 // driver.quit(), test.py:214

  /** The exception classes the session tells apart (test.py:9-14 and 197-208). */
  datatype Fault =
    | Timeout              // TimeoutException
    | NoSuchElement        // NoSuchElementException
    | ClickIntercepted     // ElementClickInterceptedException
    | WebDriverError       // any other WebDriverException
    | Unexpected           // any other Exception

  /** How one driver call turns out. */
  datatype Outcome = Done | Raised(fault: Fault)

  /** The browser's answers for one session. */
  datatype Script = Script(
    launches: bool,              // setup_driver() returned a driver (test.py:85-88)
    answer: Step -> Outcome,     // how each driver call turns out
    couponText: string           // the coupon element's `.text` when it is read
  )

  /** A webdriver session: it answers from its script and records every call made on it. */
  class Driver {
    const script: Script
    var log: seq<Step>

    constructor (script: Script)
      ensures this.script == script && log == []
    {
      this.script := script;
      log := [];
    }

    /** One call on the browser; it returns or raises as the script says. */
    method Call(step: Step) returns (o: Outcome)
      modifies this
      ensures log == old(log) + [step]
      ensures o == script.answer(step)
    {
      log := log + [step];
      o := script.answer(step);
    }

    /** driver.quit(): the browser is released; it is taken not to raise. */
    method Quit()
      modifies this
      ensures log == old(log) + [Step.Quit]
    {
      log := log + [Step.Quit];
    }
  }
}
