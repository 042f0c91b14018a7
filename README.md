# Coupon scraper session model

`test.py` is a Selenium script that runs fifty browser sessions one after the
other. Each session opens a landing page and dismisses a promotional popup when
one shows up. It then finds and clicks a "Redeem Offer" button, reads the coupon
element's text and checks that the text is a coupon code. A code that passes is
appended as one line to `coupons.txt`. This project models those sessions in
Dafny:

- `wrappers.dfy`: `Result`, for operations that can fail.
- `seqs.dfy` (module `Seqs`): associativity of concatenation, used to regroup
  logs and file texts.
- `coupon.dfy` (module `Coupon`): the coupon rule of test.py:174-186. It covers
  `strip()`, `split(' ')[0]`, the length-and-characters pattern, and the two
  `ValueError`s.
- `output.dfy` (module `Output`): the output file as a text that only grows at
  the end, `save_coupon`, and how that text reads back as lines.
- `browser.dfy` (module `Browser`): the browser as the session sees it.
  - Every driver call the source makes is a `Step`.
  - A `Script` fixes, for one session, whether a driver could be set up, how
    each call turns out (it returns, or it raises a `TimeoutException`, a
    `NoSuchElementException`, an `ElementClickInterceptedException`, another
    `WebDriverException` or another exception), and the coupon element's text.
  - The `Driver` class answers from its script and logs every call made on it.
- `sessions.dfy` (module `Sessions`): `attempt_close_popup` and `run_session`,
  in two forms.
  - Pure phase functions (`ClosePopup`, `DismissPopup`, `PopupPhase`,
    `FindRedeem`, `ClickRedeem`, `ReadCoupon`, `RedeemPhase`, `AfterPopup`,
    `Body`, `Session`) give the calls a session makes and how it ends. They
    are specification functions: what each one means is stated by the lemmas
    of `SessionFacts` named after it (`ClosePopupSpec`, `PopupPhaseSpec`,
    `BodyCoupon`, `SessionSaved` and the others), and the table below lists
    those lemmas, one row each, against the source lines of the phase.
  - Methods run the session step by step on a `Driver` and a `CouponFile`, as
    the source does. Each method is proved to log exactly the calls of its
    phase function, to return its result and to append exactly the saved code.
- `session_facts.dfy` (module `SessionFacts`): what a session promises.
  - Its calls follow the order of the source, so none is made twice.
  - `quit` is the last call exactly when the try block was entered.
  - A code is saved exactly when the coupon text was read and accepted.
  - A failure is the exception of the last call before `quit`, never one of
    `attempt_close_popup`.
  - The popup handling never ends a session unless one of its own waits raises
    something other than a timeout.
  - The routes of the Redeem search, and a few full sessions worked out call by
    call.
- `batch.dfy` (module `Batch`): the `__main__` loop.
  - Sessions run in turn, and each ends as it would on its own.
  - A session whose `set_page_load_timeout` raises ends the program, because
    that call sits outside the `try`.
  - A file that is empty or ends in a newline gains one line per saved code,
    in session order. A file whose non-empty last line lacks its newline has
    the first code glued onto that line, since the file is only ever appended to
    (`Output.GluedOntoLastLine`).

## Model

| member | source | states |
|---|---|---|
| Coupon.StripLeft | test.py:174 | the result is the suffix of the text left after a run of whitespace, and it does not start with whitespace |
| Coupon.StripRight | test.py:174 | the result is the prefix of the text before a run of whitespace, and it does not end in whitespace |
| Coupon.Strip | test.py:174 | the stripped text is empty exactly when the text is all whitespace; otherwise it starts and ends with a non-space character |
| Coupon.StripMiddle | test.py:174 | the stripped text is the middle of the text: it sits right after the leading whitespace, and only whitespace follows it |
| Coupon.FirstToken | test.py:177 | `split(' ')[0]`: the longest prefix free of the space character; it ends at the first space, and a tab or newline does not end it |
| Coupon.Extract | test.py:174-186 | `EmptyText` exactly when the text is all whitespace; an accepted code passes the pattern and is a prefix of the stripped text; a refusal carries the non-empty stripped text |
| Coupon.ExtractAround | test.py:174-186 | for every text made of whitespace, a whitespace-free token, then only whitespace or a space and anything: the token is returned when it passes the pattern, and otherwise the stripped text is refused |
| Coupon.ExtractAccepts | test.py:174-180 | for every text and code: the code comes out exactly when it passes the pattern, comes right after the leading whitespace, and is followed by nothing but whitespace or by a space |
| Coupon.StripIdempotent | test.py:174 | stripping twice is stripping once |
| Coupon.TokenThenSpace | test.py:174-183 | for a whitespace-free token followed by a space and any text, the token alone decides: it is returned when it passes the pattern, otherwise the stripped text is refused |
| Coupon.CodeThenSpace | test.py:174-180 | a valid code followed by a space and any text is extracted as that code |
| Coupon.CodeAlone | test.py:174-180 | a valid code on its own is extracted as itself |
| Coupon.CodeThenTab | test.py:177-183 | a tab does not separate: a valid code, a tab and more text are refused as a whole |
| Coupon.AcceptedExample | test.py:176-180 | `"ABC-12345 x"` yields `ABC-12345` |
| Coupon.ShortRefused | test.py:178 | no token of five characters or fewer passes the pattern |
| Coupon.BadCharRefused | test.py:178 | no token holding a character other than an ASCII letter, digit or hyphen passes the pattern |
| Coupon.ShortExample | test.py:178-183 | example: `"AB-1 x"` is refused with its whole stripped text |
| Coupon.BadCharExample | test.py:178-183 | example: `"ABCDE!@# x"` is refused with its whole stripped text |
| Coupon.ExtractedIsOneToken | test.py:177-178 | an accepted code has more than five characters and no whitespace |
| Output.CouponFile.SaveCoupon | test.py:21-25 | the file's text becomes its old text, then the code, then a newline |
| Output.AppendOneLine | test.py:24-25 | a file made of whole lines, after one append of a code without a newline, reads as its old lines plus that code |
| Output.LinesConcat | test.py:24-25 | text made of whole lines followed by any text reads as the lines of the first part, then those of the second |
| Output.GluedOntoLastLine | test.py:24-25 | after whole lines, a non-empty last line without its newline is one line; appending a code to it keeps the number of lines and makes that last line the old one with the code glued on |
| Output.LinesOfRender | test.py:24-25 | reading back a file written as newline-ended lines gives those lines: `Lines` inverts `Render` |
| Sessions.AttemptClosePopup | test.py:55-79 | logs exactly the calls of `ClosePopup` and returns its verdict: the wait, the click, the retry only after an interception of the click, and every exception turned into `False` |
| Sessions.HandlePopup | test.py:98-118 | logs exactly the calls of `PopupPhase` and returns `popup_present_and_visible`, or the exception of the popup wait or of the vanish wait |
| Sessions.RedeemOffer | test.py:123-165 | logs exactly the calls of `RedeemPhase`: the modal search only when the popup was seen, the page search when it was not or the modal search timed out, and the click with its one retry; returns the exception that leaves this part |
| Sessions.SaveCouponFromPage | test.py:168-195 | logs exactly the calls of `ReadCoupon`, returns its code or failure, and appends the code and a newline to the file exactly when a code is returned |
| Sessions.ClaimCoupon | test.py:123-195 | logs exactly the calls of `AfterPopup`, returns its result, and appends exactly the code it returns |
| Sessions.SessionBody | test.py:93-195 | logs exactly the calls of `Body`, returns the code or the exception that leaves the try block, and appends exactly the returned code |
| Sessions.RunSession | test.py:82-217 | without a driver nothing happens; otherwise a fresh driver logs exactly `Session(s).calls`; the result is `Session(s).result`; the file gains exactly `Appended(result)` |
| SessionFacts.ClosePopupRange | test.py:55-79 | attempt_close_popup makes only its own calls, the wait first |
| SessionFacts.ClosePopupOrder | test.py:55-79 | its calls come in the order wait, click, retry |
| SessionFacts.ClosePopupSpec | test.py:55-79 | it clicks exactly when the button was found and retries exactly after an intercepted click; it reports success exactly when a click it made went through |
| SessionFacts.DismissPopupSpec | test.py:107-118 | once the popup is seen, the vanish wait is made exactly after a successful close; only a non-timeout exception of that wait is raised, and it is the one raised |
| SessionFacts.PopupPhaseRange | test.py:98-118 | the popup handling makes only its own calls, the popup wait first |
| SessionFacts.PopupPhaseOrder | test.py:98-118 | those calls come in source order |
| SessionFacts.PopupPhaseSpec | test.py:98-118 | the popup counts as absent exactly when its wait timed out, and the close is tried exactly when it was seen; the vanish wait is made exactly after a successful close; a failed close or a popup that did not vanish in time is no error |
| SessionFacts.PopupPhaseThrew | test.py:98-118 | the popup handling raises only a non-timeout exception of the popup wait or of the vanish wait, and that exception is the one its last call raised |
| SessionFacts.FindRedeemRange | test.py:125-145 | the Redeem search makes only the two searches |
| SessionFacts.FindRedeemOrder | test.py:125-145 | the modal is searched before the page |
| SessionFacts.FindRedeemSpec | test.py:125-145 | the modal is searched exactly when the popup was seen; the page is searched exactly when it was not or the modal search timed out; the search succeeds exactly when its last wait did, and otherwise raises that wait's exception |
| SessionFacts.ClickRedeemRange | test.py:148-162 | the Redeem click makes only the two clicks, the first click first |
| SessionFacts.ClickRedeemOrder | test.py:148-162 | the click comes before its retry |
| SessionFacts.ClickRedeemSpec | test.py:148-162 | the retry happens exactly after an intercepted click; the click counts exactly when its last attempt went through, and otherwise raises that attempt's exception |
| SessionFacts.ReadCouponRange | test.py:168-195 | the coupon read makes only the element wait and the text read, the wait first |
| SessionFacts.ReadCouponOrder | test.py:168-195 | the wait comes before the read |
| SessionFacts.ReadCouponSpec | test.py:168-195 | the text is read exactly when the element appeared; a code comes out exactly when the text was read and Extract accepts it; otherwise the failing call's exception, or the refused text after a read, is raised |
| SessionFacts.RedeemPhaseRange | test.py:123-162 | the Redeem search and click make only their own calls |
| SessionFacts.RedeemPhaseOrder | test.py:123-162 | the search comes before the click |
| SessionFacts.RedeemPhaseThrew | test.py:123-162 | this part is left only by an exception of a browser call |
| SessionFacts.AfterPopupRange | test.py:123-195 | from the Redeem search on, only the search, click and coupon calls are made |
| SessionFacts.AfterPopupOrder | test.py:123-195 | those calls come in source order |
| SessionFacts.AfterPopupRoute | test.py:123-162 | from the Redeem search on: the modal search happens exactly when the popup was seen, the page search exactly when it was not or the modal search timed out; a failed page search is what is raised; the click is retried exactly after an interception |
| SessionFacts.AfterPopupCoupon | test.py:123-195 | a code comes out only after the coupon text was read, and then it is the coupon read's result; a refused text is raised right after it was read |
| SessionFacts.AfterPopupThrew | test.py:123-195 | an exception that leaves this part is the one its last call raised |
| SessionFacts.BodyRange | test.py:93-195 | the try block starts with the navigation and makes neither the setup call nor quit |
| SessionFacts.BodyOrder | test.py:93-195 | the try block makes its calls in source order |
| SessionFacts.BodyCoupon | test.py:93-195 | the try block yields a code only after reading the coupon text; a refused text is raised right after the read |
| SessionFacts.BodyThrew | test.py:93-195 | an exception leaving the try block is the one its last call raised, and that call is never one of attempt_close_popup |
| SessionFacts.BodyRoute | test.py:93-195 | in the try block the modal search happens only when the popup was seen, and the page search only after a timeout; a failed page search is what is raised; the click is retried exactly after an interception |
| SessionFacts.BodyPopup | test.py:93-195 | in the try block the vanish wait happens exactly after a successful close of a seen popup; with no popup nothing is closed and the page is searched; a failed close or a popup that does not vanish still leads to the modal search |
| SessionFacts.SessionOrder | test.py:82-217 | a session makes its calls in source order, so it never makes the same call twice |
| SessionFacts.SessionQuit | test.py:85-217 | without a driver nothing happens; if `set_page_load_timeout` raises, that is the only call, with no quit; otherwise quit is called, as the last call |
| SessionFacts.SessionSaved | test.py:174-180 | a session saves a code exactly when it read the coupon text and Extract accepted it, and the code saved is the one Extract gives |
| SessionFacts.SessionFailure | test.py:197-210 | a failed session failed because of its last call before quit: that call raised the caught exception and is never one of attempt_close_popup, or it read a text Extract refused |
| SessionFacts.SessionRoute | test.py:123-162 | over a whole session: the modal search happens only when the popup was seen, and the page search only after a timeout; a failed page search fails the session; the click is retried exactly after an interception |
| SessionFacts.SessionPopup | test.py:98-118 | over a whole session: the vanish wait happens exactly after a successful close; with no popup nothing is closed and the page is searched; a failed close or a popup that does not vanish still leads to the modal search |
| SessionFacts.SavedCodeIsOneLine | test.py:177-180 | a saved code is non-empty and holds no newline |
| SessionFacts.SessionAppendsOneLine | test.py:21-25 | a file made of whole lines gains exactly the saved code as one more line, or nothing, and still ends in a newline |
| SessionFacts.PopupAbsent | test.py:99-105 | a popup wait that times out is the whole popup handling, with the popup absent |
| SessionFacts.PopupClosedOnRetry | test.py:55-118 | an intercepted close, a successful retry and a popup that does not vanish in time make exactly five calls and no error |
| SessionFacts.RedeemedOnPage | test.py:138-151 | without a popup, a Redeem button found on the page and clicked at once makes exactly those two calls |
| SessionFacts.CouponRead | test.py:172-180 | example: the element appears and reads a valid code, a space and more text; exactly the wait and the read are made, and the code comes out |
| SessionFacts.CouponRefused | test.py:172-183 | example: the element reads `"AB-1 x"`; exactly the wait and the read are made, and the text is refused as not a coupon |
| SessionFacts.RedeemNotFound | test.py:127-145 | a seen popup whose modal and page both time out raises the page search's timeout after exactly those two searches |
| SessionFacts.NoPopupSaves | test.py:82-217 | a session with no popup, a page Redeem button and a valid code followed by more text makes eight calls and saves the code |
| SessionFacts.PopupThenTimeout | test.py:82-217 | a session whose popup closes on the retry and whose Redeem button never appears fails with the timeout and still quits |
| Batch.Ran | test.py:219-224 | the sessions that run are a prefix of all of them, and the run stops early only after a session whose exception escaped |
| Batch.RunAll | test.py:219-224 | the results are those of `Ran` over the sessions' own outcomes, and the file gains exactly their appends in order |
| Batch.RunOne | test.py:221-222 | one more session extends the run by its own outcome; an escaped exception ends the run there |
| Batch.EscapeEndsRun | test.py:219-224 | once a session's exception escaped, no later session runs |
| Batch.RanStopsAtEscape | test.py:219-224 | every session that runs, except the last, let nothing escape |
| Batch.SessionsRunAlone | test.py:219-224 | session k of the run ends as it would on its own script |
| Batch.RunContinues | test.py:219-224 | if no session before k let an exception escape, session k runs |
| Batch.AppendsLines | test.py:21-25 | for codes free of newlines, a file made of whole lines gains exactly the saved codes as lines, in order |
| Batch.RunAppendsSavedCodes | test.py:219-224 | over the whole run, a file that is empty or ends in a newline gains one line per saved code, in session order |

## Left out

- Selenium, Chrome and the page itself (test.py:31-52 and the XPaths) are not
  modelled. A `Script` gives each driver call's outcome and the coupon text.
  `setup_driver` is only whether a driver came back.
- Printing, `time.sleep` (test.py:121, 224), the wait timeouts in seconds,
  `TARGET_URL` and the session number are left out. They change no call and no
  result.
- Output.CouponFile.SaveCoupon: does not model the `IOError` branch
  (test.py:27-28). The file system is not modelled; a write is taken to
  succeed.
- Browser.Driver.Quit: `driver.quit()` is taken not to raise. A raise there
  would leave `finally` and, like an escaped setup failure, end the program.
- Exceptions outside `Exception` (`KeyboardInterrupt`, `SystemExit`) are not
  modelled. Neither are exceptions of code not shown, such as
  `webdriver_manager`'s download.
- Coupon.IsSpace, Coupon.IsAlnum: use the ASCII parts of Python's `isspace` and
  `isalnum`. Unicode whitespace, letters and digits outside ASCII are not
  modelled.
- The first token follows `split(' ')[0]` as written at test.py:177, not a
  split at any whitespace. It ends only at the space character, not at a tab
  or a newline, as Coupon.CodeThenTab shows.
- The `else` of test.py:163-165 is unreachable and has no branch in the model.
  A found button is always truthy, and the page search either finds the button
  or raises.
- An `ElementClickInterceptedException` raised by the close-button wait itself
  leaves `close_button` unbound (test.py:61, 71). The retry then fails with a
  `NameError` and the function returns `False`. The model makes no second call
  there.
- Batch.RunAll: an exception that escapes `run_session` ends the whole program.
  The model stops the run and returns the results so far. The two-second pause
  between sessions is left out.
