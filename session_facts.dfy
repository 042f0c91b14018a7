/**
 * What a session promises, stated over the phase functions of module Sessions
 * (test.py:55-217): the driver calls come in the order of the source, each at
 * most once; quit is called exactly when the try block was entered; a code is
 * saved exactly when the coupon text was read and passed the pattern; every
 * failure is the exception of the last call before quit, and the popup handling
 * never ends a session by itself.
 */
module SessionFacts {
  import opened Wrappers
  import opened Coupon
  import opened Browser
  import opened Sessions
  import Output
  import Seqs

  // ---------------------------------------------------------------------------
  // The order of driver calls
  // ---------------------------------------------------------------------------

  /** The position of each call in the text of run_session. */
  function Rank(step: Step): nat {
    match step
    case SetPageLoadTimeout => 0
    case Navigate => 1
    case PopupWait => 2
    case CloseWait => 3
    case CloseClick => 4
    case CloseRetry => 5
    case VanishWait => 6
    case ModalSearch => 7
    case PageSearch => 8
    case RedeemClick => 9
    case RedeemRetry => 10
    case CouponWait => 11
    case CouponText => 12
    case Quit => 13
  }

  /** Each call comes later in the source than every call before it; so no call
      is made twice. */
  predicate InOrder(calls: seq<Step>) {
    forall i, j :: 0 <= i < j < |calls| ==> Rank(calls[i]) < Rank(calls[j])
  }

  /** All calls lie between two positions of the source. */
  predicate Within(calls: seq<Step>, lo: nat, hi: nat) {
    forall k :: 0 <= k < |calls| ==> lo <= Rank(calls[k]) <= hi
  }

  /** The calls made by attempt_close_popup, which never raises. */
  predicate IsCloseStep(step: Step) {
    step == CloseWait || step == CloseClick || step == CloseRetry
  }

  function Last(calls: seq<Step>): Step
    requires calls != []
  {
    calls[|calls| - 1]
  }

  /** One or two calls in the order of the source are in order. */
  lemma InOrderPair(a: Step, b: Step)
    requires Rank(a) < Rank(b)
    ensures InOrder([a]) && InOrder([a, b])
  {
  }

  /** Up to three calls in the order of the source are in order. */
  lemma InOrderShort(a: Step, b: Step, c: Step)
    requires Rank(a) < Rank(b) < Rank(c)
    ensures InOrder([a]) && InOrder([a, b]) && InOrder([a, b, c])
  {
  }

  /** The calls of attempt_close_popup: the wait, the click, the retry, each only
      when the one before it got that far. */
  lemma ClosePopupCalls(s: Script)
    ensures ClosePopup(s).calls ==
              if s.answer(CloseWait).Raised? then [CloseWait]
              else if s.answer(CloseClick) == Raised(ClickIntercepted) then [CloseWait, CloseClick, CloseRetry]
              else [CloseWait, CloseClick]
  {
  }

  /** The calls of the Redeem search: the modal, the page, or the modal and then the page. */
  lemma FindRedeemCalls(s: Script, popupVisible: bool)
    ensures FindRedeem(s, popupVisible).calls ==
              if !popupVisible then [PageSearch]
              else if s.answer(ModalSearch) == Raised(Timeout) then [ModalSearch, PageSearch]
              else [ModalSearch]
  {
  }

  /** The calls of the Redeem click: the click, then the retry after an interception. */
  lemma ClickRedeemCalls(s: Script)
    ensures ClickRedeem(s).calls ==
              if s.answer(RedeemClick) == Raised(ClickIntercepted) then [RedeemClick, RedeemRetry] else [RedeemClick]
  {
  }

  /** The calls from the Redeem search on: those of the search and click, then,
      when those went through, those of the coupon read. */
  lemma AfterPopupCalls(s: Script, popupVisible: bool)
    ensures AfterPopup(s, popupVisible).calls ==
              if RedeemPhase(s, popupVisible).value.Err? then RedeemPhase(s, popupVisible).calls
              else RedeemPhase(s, popupVisible).calls + ReadCoupon(s).calls
  {
  }

  /** The calls of the Redeem search and click: those of the search, then, when
      the button was found, those of the click. */
  lemma RedeemPhaseCalls(s: Script, popupVisible: bool)
    ensures RedeemPhase(s, popupVisible).calls ==
              if FindRedeem(s, popupVisible).value.Err? then FindRedeem(s, popupVisible).calls
              else FindRedeem(s, popupVisible).calls + ClickRedeem(s).calls
  {
  }

  /** The calls of the try block: the navigation, then those of the popup
      handling, then, when that went through, those from the Redeem search on. */
  lemma BodyCalls(s: Script)
    ensures s.answer(Navigate).Raised? ==> Body(s).calls == [Navigate]
    ensures s.answer(Navigate).Done? && PopupPhase(s).value.Err? ==> Body(s).calls == [Navigate] + PopupPhase(s).calls
    ensures s.answer(Navigate).Done? && PopupPhase(s).value.Ok? ==>
              Body(s).calls == [Navigate] + PopupPhase(s).calls + AfterPopup(s, PopupPhase(s).value.value).calls
    ensures s.answer(Navigate).Done? && PopupPhase(s).value.Ok? ==>
              Body(s).value == AfterPopup(s, PopupPhase(s).value.value).value
  {
  }

  /** The calls of the coupon read: the wait, then possibly the read. */
  lemma ReadCouponCalls(s: Script)
    ensures ReadCoupon(s).calls == if s.answer(CouponWait).Done? then [CouponWait, CouponText] else [CouponWait]
  {
  }

  /** A run that lies between two positions holds no call outside them. */
  lemma WithinExcludes(calls: seq<Step>, lo: nat, hi: nat, step: Step)
    requires Within(calls, lo, hi) && !(lo <= Rank(step) <= hi)
    ensures step !in calls
  {
  }

  /** Two runs between positions make a run between the outermost ones. */
  lemma WithinConcat(a: seq<Step>, b: seq<Step>, lo: nat, mid: nat, hi: nat)
    requires Within(a, lo, mid) && Within(b, mid + 1, hi) && lo <= mid <= hi
    ensures Within(a + b, lo, hi)
  {
    forall k | 0 <= k < |a + b| ensures lo <= Rank((a + b)[k]) <= hi {
      if k < |a| { assert (a + b)[k] == a[k]; } else { assert (a + b)[k] == b[k - |a|]; }
    }
  }

  /** Two runs of calls, one entirely before the other, make a run in order. */
  lemma InOrderConcat(a: seq<Step>, b: seq<Step>, lo: nat, mid: nat, hi: nat)
    requires InOrder(a) && Within(a, lo, mid)
    requires InOrder(b) && Within(b, mid + 1, hi)
    ensures InOrder(a + b)
  {
    forall i, j | 0 <= i < j < |a + b| ensures Rank((a + b)[i]) < Rank((a + b)[j]) {
      if j < |a| {
        assert (a + b)[i] == a[i] && (a + b)[j] == a[j];
      } else if i < |a| {
        assert (a + b)[i] == a[i] && (a + b)[j] == b[j - |a|];
      } else {
        assert (a + b)[i] == b[i - |a|] && (a + b)[j] == b[j - |a|];
      }
    }
  }

  /** A run between positions, possibly followed by a later one, is a run
      between the outermost positions. */
  lemma WithinMaybeConcat(a: seq<Step>, b: seq<Step>, stop: bool, lo: nat, mid: nat, hi: nat)
    requires Within(a, lo, mid) && Within(b, mid + 1, hi) && lo <= mid <= hi
    ensures Within(if stop then a else a + b, lo, hi)
  {
    if !stop {
      WithinConcat(a, b, lo, mid, hi);
    }
  }

  /** A run in order, possibly followed by a later run in order, is in order. */
  lemma InOrderMaybeConcat(a: seq<Step>, b: seq<Step>, stop: bool, lo: nat, mid: nat, hi: nat)
    requires InOrder(a) && Within(a, lo, mid)
    requires InOrder(b) && Within(b, mid + 1, hi)
    ensures InOrder(if stop then a else a + b)
  {
    if !stop {
      InOrderConcat(a, b, lo, mid, hi);
    }
  }

  // ---------------------------------------------------------------------------
  // Phase by phase
  // ---------------------------------------------------------------------------

  /** attempt_close_popup (test.py:55-79) makes only its own calls, the wait for
      the close button first. */
  lemma ClosePopupRange(s: Script)
    ensures Within(ClosePopup(s).calls, Rank(CloseWait), Rank(CloseRetry))
    ensures ClosePopup(s).calls != [] && ClosePopup(s).calls[0] == CloseWait
  {
    ClosePopupCalls(s);
  }

  /** attempt_close_popup (test.py:55-79) waits for the close button, then clicks,
      then retries the click. */
  lemma ClosePopupOrder(s: Script)
    ensures InOrder(ClosePopup(s).calls)
  {
    ClosePopupCalls(s);
    InOrderShort(CloseWait, CloseClick, CloseRetry);
  }

  /** attempt_close_popup (test.py:55-79) clicks only once the close button was
      found, retries only after an interception of the click, and reports success
      exactly when a click it made went through; it never raises. */
  lemma ClosePopupSpec(s: Script)
    ensures CloseClick in ClosePopup(s).calls <==> s.answer(CloseWait).Done?
    ensures CloseRetry in ClosePopup(s).calls <==>
              (CloseClick in ClosePopup(s).calls && s.answer(CloseClick) == Raised(ClickIntercepted))
    ensures ClosePopup(s).handled <==>
              ((CloseClick in ClosePopup(s).calls && s.answer(CloseClick).Done?)
               || (CloseRetry in ClosePopup(s).calls && s.answer(CloseRetry).Done?))
  {
  }

  /** test.py:107-118: once the popup is seen, the vanish wait follows exactly a
      successful close, and only a non-timeout exception of that wait is raised. */
  lemma DismissPopupSpec(s: Script)
    ensures VanishWait in DismissPopup(s).calls <==> ClosePopup(s).handled
    ensures DismissPopup(s).value.Err? <==>
              ClosePopup(s).handled && s.answer(VanishWait).Raised? && s.answer(VanishWait).fault != Timeout
    ensures DismissPopup(s).value.Err? ==> DismissPopup(s).value.error == Threw(s.answer(VanishWait).fault)
  {
    ClosePopupRange(s);
    WithinExcludes(ClosePopup(s).calls, Rank(CloseWait), Rank(CloseRetry), VanishWait);
  }

  /** test.py:98-118 makes only the popup's calls, the wait for the popup first. */
  lemma PopupPhaseRange(s: Script)
    ensures Within(PopupPhase(s).calls, Rank(PopupWait), Rank(VanishWait))
    ensures PopupPhase(s).calls != [] && PopupPhase(s).calls[0] == PopupWait
  {
    if s.answer(PopupWait).Done? {
      var close := ClosePopup(s);
      ClosePopupRange(s);
      if close.handled {
        WithinConcat(close.calls, [VanishWait], Rank(CloseWait), Rank(CloseRetry), Rank(VanishWait));
      }
      WithinConcat([PopupWait], DismissPopup(s).calls, Rank(PopupWait), Rank(PopupWait), Rank(VanishWait));
    }
  }

  /** test.py:98-118 waits for the popup, then closes it, then waits for it to go. */
  lemma PopupPhaseOrder(s: Script)
    ensures InOrder(PopupPhase(s).calls)
  {
    if s.answer(PopupWait).Done? {
      var close := ClosePopup(s);
      ClosePopupRange(s);
      ClosePopupOrder(s);
      if close.handled {
        InOrderConcat(close.calls, [VanishWait], Rank(CloseWait), Rank(CloseRetry), Rank(VanishWait));
        WithinConcat(close.calls, [VanishWait], Rank(CloseWait), Rank(CloseRetry), Rank(VanishWait));
      }
      InOrderConcat([PopupWait], DismissPopup(s).calls, Rank(PopupWait), Rank(PopupWait), Rank(VanishWait));
    }
  }

  /** test.py:98-118: the popup counts as absent only when its wait timed out; a
      close that failed, or a popup that did not vanish in time, is not an error;
      only another exception of the two waits ends the try block. */
  lemma PopupPhaseSpec(s: Script)
    ensures PopupPhase(s).value == Ok(false) <==> s.answer(PopupWait) == Raised(Timeout)
    ensures PopupPhase(s).value == Ok(true) ==> s.answer(PopupWait).Done?
    ensures CloseWait in PopupPhase(s).calls <==> s.answer(PopupWait).Done?
    ensures VanishWait in PopupPhase(s).calls <==> s.answer(PopupWait).Done? && ClosePopup(s).handled
    ensures (s.answer(PopupWait).Done? && (!ClosePopup(s).handled || s.answer(VanishWait) == Raised(Timeout)))
              ==> PopupPhase(s).value == Ok(true)
  {
    ClosePopupRange(s);
    WithinExcludes(ClosePopup(s).calls, Rank(CloseWait), Rank(CloseRetry), VanishWait);
  }

  /** test.py:98-118 raises only a non-timeout exception of the popup wait or of
      the wait for it to vanish, never one of attempt_close_popup. */
  lemma PopupPhaseThrew(s: Script)
    ensures PopupPhase(s).calls != []
    ensures PopupPhase(s).value.Err? ==>
              (var last := Last(PopupPhase(s).calls);
               (last == PopupWait || last == VanishWait)
               && PopupPhase(s).value.error.Threw? && PopupPhase(s).value.error.fault != Timeout
               && s.answer(last) == Raised(PopupPhase(s).value.error.fault))
  {
    if s.answer(PopupWait).Done? {
      var close := ClosePopup(s);
      if close.handled {
        assert DismissPopup(s).calls == close.calls + [VanishWait];
      }
      LastConcat([PopupWait], DismissPopup(s).calls);
    }
  }

  /** test.py:125-145 makes only the two searches. */
  lemma FindRedeemRange(s: Script, popupVisible: bool)
    ensures Within(FindRedeem(s, popupVisible).calls, Rank(ModalSearch), Rank(PageSearch))
    ensures FindRedeem(s, popupVisible).calls != []
  {
    FindRedeemCalls(s, popupVisible);
  }

  /** test.py:125-145 searches the modal before the page. */
  lemma FindRedeemOrder(s: Script, popupVisible: bool)
    ensures InOrder(FindRedeem(s, popupVisible).calls)
  {
    FindRedeemCalls(s, popupVisible);
    InOrderPair(ModalSearch, PageSearch);
    InOrderPair(PageSearch, RedeemClick);
  }

  /** test.py:125-145: the modal is searched exactly when the popup was seen, the
      whole page exactly when the popup was not seen or the modal search timed
      out; the search succeeds exactly when its last wait did, and a failed wait
      is raised. */
  lemma FindRedeemSpec(s: Script, popupVisible: bool)
    ensures ModalSearch in FindRedeem(s, popupVisible).calls <==> popupVisible
    ensures PageSearch in FindRedeem(s, popupVisible).calls <==> !popupVisible || s.answer(ModalSearch) == Raised(Timeout)
    ensures FindRedeem(s, popupVisible).calls != []
    ensures FindRedeem(s, popupVisible).value.Ok? <==> s.answer(Last(FindRedeem(s, popupVisible).calls)).Done?
    ensures FindRedeem(s, popupVisible).value.Err? ==>
              FindRedeem(s, popupVisible).value.error == Threw(s.answer(Last(FindRedeem(s, popupVisible).calls)).fault)
  {
  }

  /** test.py:148-162 makes only the two clicks, the first one first. */
  lemma ClickRedeemRange(s: Script)
    ensures Within(ClickRedeem(s).calls, Rank(RedeemClick), Rank(RedeemRetry))
    ensures ClickRedeem(s).calls != [] && ClickRedeem(s).calls[0] == RedeemClick
  {
    ClickRedeemCalls(s);
  }

  /** test.py:148-162 clicks before it retries. */
  lemma ClickRedeemOrder(s: Script)
    ensures InOrder(ClickRedeem(s).calls)
  {
    ClickRedeemCalls(s);
    InOrderPair(RedeemClick, RedeemRetry);
  }

  /** test.py:148-162: the click is retried once, and only after an interception;
      the button counts as clicked exactly when the last click went through, and
      a failed click is raised. */
  lemma ClickRedeemSpec(s: Script)
    ensures RedeemRetry in ClickRedeem(s).calls <==> s.answer(RedeemClick) == Raised(ClickIntercepted)
    ensures ClickRedeem(s).calls != []
    ensures ClickRedeem(s).value.Ok? <==> s.answer(Last(ClickRedeem(s).calls)).Done?
    ensures ClickRedeem(s).value.Err? ==> ClickRedeem(s).value.error == Threw(s.answer(Last(ClickRedeem(s).calls)).fault)
  {
  }

  /** test.py:168-195 makes only the wait for the coupon element and the read of its text. */
  lemma ReadCouponRange(s: Script)
    ensures Within(ReadCoupon(s).calls, Rank(CouponWait), Rank(CouponText))
    ensures ReadCoupon(s).calls != [] && ReadCoupon(s).calls[0] == CouponWait
  {
    ReadCouponCalls(s);
  }

  /** test.py:168-195 waits for the element before it reads it. */
  lemma ReadCouponOrder(s: Script)
    ensures InOrder(ReadCoupon(s).calls)
  {
    ReadCouponCalls(s);
    InOrderPair(CouponWait, CouponText);
  }

  /** test.py:168-195: the text is read only once the element appeared, and a code
      comes out exactly when the text was read and Extract accepts it; otherwise
      the failed call, or the text Extract refused, is raised. */
  lemma ReadCouponSpec(s: Script)
    ensures CouponText in ReadCoupon(s).calls <==> s.answer(CouponWait).Done?
    ensures ReadCoupon(s).calls != []
    ensures ReadCoupon(s).value.Ok? <==>
              (CouponText in ReadCoupon(s).calls && s.answer(CouponText).Done? && Extract(s.couponText).Ok?)
    ensures ReadCoupon(s).value.Ok? ==> Extract(s.couponText) == Ok(ReadCoupon(s).value.value)
    ensures ReadCoupon(s).value.Err? && ReadCoupon(s).value.error.Threw? ==>
              s.answer(Last(ReadCoupon(s).calls)) == Raised(ReadCoupon(s).value.error.fault)
    ensures ReadCoupon(s).value.Err? && ReadCoupon(s).value.error.BadData? ==>
              (Last(ReadCoupon(s).calls) == CouponText && s.answer(CouponText).Done?
               && Extract(s.couponText) == Err(ReadCoupon(s).value.error.error))
  {
  }

  /** test.py:123-162 makes only the calls of the Redeem search and click. */
  lemma RedeemPhaseRange(s: Script, popupVisible: bool)
    ensures Within(RedeemPhase(s, popupVisible).calls, Rank(ModalSearch), Rank(RedeemRetry))
    ensures RedeemPhase(s, popupVisible).calls != []
  {
    var find := FindRedeem(s, popupVisible);
    RedeemPhaseCalls(s, popupVisible);
    FindRedeemRange(s, popupVisible);
    ClickRedeemRange(s);
    WithinMaybeConcat(find.calls, ClickRedeem(s).calls, find.value.Err?,
                      Rank(ModalSearch), Rank(PageSearch), Rank(RedeemRetry));
  }

  /** test.py:123-162 searches for the Redeem button before it clicks it. */
  lemma RedeemPhaseOrder(s: Script, popupVisible: bool)
    ensures InOrder(RedeemPhase(s, popupVisible).calls)
  {
    var find := FindRedeem(s, popupVisible);
    RedeemPhaseCalls(s, popupVisible);
    FindRedeemRange(s, popupVisible);
    FindRedeemOrder(s, popupVisible);
    ClickRedeemRange(s);
    ClickRedeemOrder(s);
    InOrderMaybeConcat(find.calls, ClickRedeem(s).calls, find.value.Err?,
                       Rank(ModalSearch), Rank(PageSearch), Rank(RedeemRetry));
  }

  /** test.py:123-195 makes only the calls of the Redeem search and click and of the coupon read. */
  lemma AfterPopupRange(s: Script, popupVisible: bool)
    ensures Within(AfterPopup(s, popupVisible).calls, Rank(ModalSearch), Rank(CouponText))
    ensures AfterPopup(s, popupVisible).calls != []
  {
    var redeem := RedeemPhase(s, popupVisible);
    AfterPopupCalls(s, popupVisible);
    RedeemPhaseRange(s, popupVisible);
    ReadCouponRange(s);
    WithinMaybeConcat(redeem.calls, ReadCoupon(s).calls, redeem.value.Err?,
                      Rank(ModalSearch), Rank(RedeemRetry), Rank(CouponText));
  }

  /** test.py:123-195 searches for the Redeem button, clicks it, then reads the coupon. */
  lemma AfterPopupOrder(s: Script, popupVisible: bool)
    ensures InOrder(AfterPopup(s, popupVisible).calls)
  {
    var redeem := RedeemPhase(s, popupVisible);
    AfterPopupCalls(s, popupVisible);
    RedeemPhaseRange(s, popupVisible);
    RedeemPhaseOrder(s, popupVisible);
    ReadCouponRange(s);
    ReadCouponOrder(s);
    InOrderMaybeConcat(redeem.calls, ReadCoupon(s).calls, redeem.value.Err?,
                       Rank(ModalSearch), Rank(RedeemRetry), Rank(CouponText));
  }

  /** test.py:123-162: the routes of the Redeem search and the one retry of the click. */
  lemma AfterPopupRoute(s: Script, popupVisible: bool)
    ensures ModalSearch in AfterPopup(s, popupVisible).calls <==> popupVisible
    ensures PageSearch in AfterPopup(s, popupVisible).calls <==> !popupVisible || s.answer(ModalSearch) == Raised(Timeout)
    ensures PageSearch in AfterPopup(s, popupVisible).calls && s.answer(PageSearch).Raised? ==>
              AfterPopup(s, popupVisible).value == Err(Threw(s.answer(PageSearch).fault))
    ensures RedeemRetry in AfterPopup(s, popupVisible).calls <==>
              (RedeemClick in AfterPopup(s, popupVisible).calls && s.answer(RedeemClick) == Raised(ClickIntercepted))
  {
    var find := FindRedeem(s, popupVisible);
    FindRedeemRange(s, popupVisible);
    FindRedeemSpec(s, popupVisible);
    WithinExcludes(find.calls, Rank(ModalSearch), Rank(PageSearch), RedeemClick);
    WithinExcludes(find.calls, Rank(ModalSearch), Rank(PageSearch), RedeemRetry);
    if find.value.Ok? {
      var click := ClickRedeem(s);
      ClickRedeemRange(s);
      ClickRedeemSpec(s);
      WithinExcludes(click.calls, Rank(RedeemClick), Rank(RedeemRetry), ModalSearch);
      WithinExcludes(click.calls, Rank(RedeemClick), Rank(RedeemRetry), PageSearch);
      var redeem := RedeemPhase(s, popupVisible);
      if redeem.value.Ok? {
        ReadCouponRange(s);
        var coupon := ReadCoupon(s);
        WithinExcludes(coupon.calls, Rank(CouponWait), Rank(CouponText), ModalSearch);
        WithinExcludes(coupon.calls, Rank(CouponWait), Rank(CouponText), PageSearch);
        WithinExcludes(coupon.calls, Rank(CouponWait), Rank(CouponText), RedeemClick);
        WithinExcludes(coupon.calls, Rank(CouponWait), Rank(CouponText), RedeemRetry);
      }
    }
  }

  /** test.py:123-162: the Redeem search and click are left only by the
      exception of their last call. */
  lemma RedeemPhaseThrew(s: Script, popupVisible: bool)
    ensures RedeemPhase(s, popupVisible).calls != []
    ensures RedeemPhase(s, popupVisible).value.Err? ==>
              RedeemPhase(s, popupVisible).value.error.Threw?
              && s.answer(Last(RedeemPhase(s, popupVisible).calls)) == Raised(RedeemPhase(s, popupVisible).value.error.fault)
  {
    var find := FindRedeem(s, popupVisible);
    FindRedeemSpec(s, popupVisible);
    if find.value.Ok? {
      var click := ClickRedeem(s);
      assert RedeemPhase(s, popupVisible) == Stage(find.calls + click.calls, click.value);
      ClickRedeemSpec(s);
      LastConcat(find.calls, click.calls);
    }
  }

  /** test.py:123-195: the coupon is read only when the Redeem button was found
      and clicked, and a text Extract refused is raised right after it was read. */
  lemma AfterPopupCoupon(s: Script, popupVisible: bool)
    ensures CouponText in AfterPopup(s, popupVisible).calls ==>
              s.answer(CouponWait).Done? && AfterPopup(s, popupVisible).value == ReadCoupon(s).value
    ensures AfterPopup(s, popupVisible).value.Ok? ==> CouponText in AfterPopup(s, popupVisible).calls
    ensures AfterPopup(s, popupVisible).calls != []
    ensures AfterPopup(s, popupVisible).value.Err? && AfterPopup(s, popupVisible).value.error.BadData? ==>
              Last(AfterPopup(s, popupVisible).calls) == CouponText
  {
    var redeem := RedeemPhase(s, popupVisible);
    RedeemPhaseThrew(s, popupVisible);
    RedeemPhaseRange(s, popupVisible);
    WithinExcludes(redeem.calls, Rank(ModalSearch), Rank(RedeemRetry), CouponText);
    if redeem.value.Ok? {
      var coupon := ReadCoupon(s);
      assert AfterPopup(s, popupVisible) == Stage(redeem.calls + coupon.calls, coupon.value);
      ReadCouponRange(s);
      ReadCouponSpec(s);
      LastConcat(redeem.calls, coupon.calls);
    }
  }

  /** test.py:123-195 ends with a call of its own, not one of attempt_close_popup. */
  lemma AfterPopupLast(s: Script, popupVisible: bool)
    ensures AfterPopup(s, popupVisible).calls != []
    ensures !IsCloseStep(Last(AfterPopup(s, popupVisible).calls))
  {
    AfterPopupRange(s, popupVisible);
    LastNotClose(AfterPopup(s, popupVisible).calls, Rank(ModalSearch), Rank(CouponText));
  }

  /** test.py:123-195 is left by an exception only when its last call raised it. */
  lemma AfterPopupThrew(s: Script, popupVisible: bool)
    ensures AfterPopup(s, popupVisible).calls != []
    ensures AfterPopup(s, popupVisible).value.Err? && AfterPopup(s, popupVisible).value.error.Threw? ==>
              s.answer(Last(AfterPopup(s, popupVisible).calls)) == Raised(AfterPopup(s, popupVisible).value.error.fault)
  {
    var redeem := RedeemPhase(s, popupVisible);
    RedeemPhaseThrew(s, popupVisible);
    if redeem.value.Ok? {
      var coupon := ReadCoupon(s);
      assert AfterPopup(s, popupVisible) == Stage(redeem.calls + coupon.calls, coupon.value);
      ReadCouponSpec(s);
      LastConcat(redeem.calls, coupon.calls);
    }
  }

  /** The try block of run_session (test.py:93-195) starts by navigating, and
      makes neither the setup call before it nor quit. */
  lemma BodyRange(s: Script)
    ensures Within(Body(s).calls, Rank(Navigate), Rank(CouponText))
    ensures Body(s).calls != [] && Body(s).calls[0] == Navigate
  {
    var popup := PopupPhase(s);
    var rest := if popup.value.Ok? then AfterPopup(s, popup.value.value).calls else [];
    BodyCalls(s);
    PopupPhaseRange(s);
    if popup.value.Ok? {
      AfterPopupRange(s, popup.value.value);
    }
    WithinBody(Body(s).calls, s.answer(Navigate).Raised?, popup.calls, popup.value.Err?, rest);
  }

  /** The navigation, possibly followed by the popup handling's calls, possibly
      followed by those from the Redeem search on, lies between the navigation
      and the read of the coupon. */
  lemma WithinBody(calls: seq<Step>, navFailed: bool, popup: seq<Step>, popupFailed: bool, rest: seq<Step>)
    requires calls == if navFailed then [Navigate] else if popupFailed then [Navigate] + popup else [Navigate] + popup + rest
    requires Within(popup, Rank(PopupWait), Rank(VanishWait))
    requires Within(rest, Rank(ModalSearch), Rank(CouponText))
    ensures Within(calls, Rank(Navigate), Rank(CouponText))
    ensures calls != [] && calls[0] == Navigate
  {
    WithinConcat([Navigate], popup, Rank(Navigate), Rank(Navigate), Rank(VanishWait));
    WithinConcat([Navigate] + popup, rest, Rank(Navigate), Rank(VanishWait), Rank(CouponText));
  }

  /** The try block of run_session (test.py:93-195) makes its calls in the order of the source. */
  lemma BodyOrder(s: Script)
    ensures InOrder(Body(s).calls)
  {
    var popup := PopupPhase(s);
    var rest := if popup.value.Ok? then AfterPopup(s, popup.value.value).calls else [];
    BodyCalls(s);
    PopupPhaseRange(s);
    PopupPhaseOrder(s);
    if popup.value.Ok? {
      AfterPopupRange(s, popup.value.value);
      AfterPopupOrder(s, popup.value.value);
    }
    InOrderBody(Body(s).calls, s.answer(Navigate).Raised?, popup.calls, popup.value.Err?, rest);
  }

  /** The navigation, possibly followed by the popup handling's calls in order,
      possibly followed by those from the Redeem search on in order, is in order. */
  lemma InOrderBody(calls: seq<Step>, navFailed: bool, popup: seq<Step>, popupFailed: bool, rest: seq<Step>)
    requires calls == if navFailed then [Navigate] else if popupFailed then [Navigate] + popup else [Navigate] + popup + rest
    requires InOrder(popup) && Within(popup, Rank(PopupWait), Rank(VanishWait))
    requires InOrder(rest) && Within(rest, Rank(ModalSearch), Rank(CouponText))
    ensures InOrder(calls)
  {
    InOrderConcat([Navigate], popup, Rank(Navigate), Rank(Navigate), Rank(VanishWait));
    WithinConcat([Navigate], popup, Rank(Navigate), Rank(Navigate), Rank(VanishWait));
    InOrderConcat([Navigate] + popup, rest, Rank(Navigate), Rank(VanishWait), Rank(CouponText));
  }

  /** The try block (test.py:93-195) yields a code only after reading the coupon
      text, and a text Extract refused is raised right after it was read. */
  lemma BodyCoupon(s: Script)
    ensures CouponText in Body(s).calls ==> s.answer(CouponWait).Done? && Body(s).value == ReadCoupon(s).value
    ensures Body(s).value.Ok? ==> CouponText in Body(s).calls
    ensures Body(s).calls != []
    ensures Body(s).value.Err? && Body(s).value.error.BadData? ==> Last(Body(s).calls) == CouponText
  {
    if s.answer(Navigate).Done? {
      var popup := PopupPhase(s);
      PopupPhaseRange(s);
      WithinConcat([Navigate], popup.calls, Rank(Navigate), Rank(Navigate), Rank(VanishWait));
      WithinExcludes([Navigate] + popup.calls, Rank(Navigate), Rank(VanishWait), CouponText);
      if popup.value.Ok? {
        var rest := AfterPopup(s, popup.value.value);
        AfterPopupCoupon(s, popup.value.value);
        LastConcat([Navigate] + popup.calls, rest.calls);
      }
    }
  }

  /** The try block (test.py:93-195) left by an exception was left by the one its
      last call raised, and that call is never one of attempt_close_popup, which
      catches everything. */
  lemma BodyThrew(s: Script)
    ensures Body(s).calls != []
    ensures Body(s).value.Err? && Body(s).value.error.Threw? ==>
              !IsCloseStep(Last(Body(s).calls)) && s.answer(Last(Body(s).calls)) == Raised(Body(s).value.error.fault)
  {
    if s.answer(Navigate).Raised? {
      assert Body(s) == Stage([Navigate], Err(Threw(s.answer(Navigate).fault)));
    } else {
      var popup := PopupPhase(s);
      PopupPhaseThrew(s);
      if popup.value.Err? {
        assert Body(s) == Stage([Navigate] + popup.calls, Err(popup.value.error));
        LastConcat([Navigate], popup.calls);
      } else {
        var rest := AfterPopup(s, popup.value.value);
        AfterPopupThrew(s, popup.value.value);
        AfterPopupLast(s, popup.value.value);
        LastConcat([Navigate] + popup.calls, rest.calls);
      }
    }
  }

  lemma LastConcat(a: seq<Step>, b: seq<Step>)
    requires b != []
    ensures Last(a + b) == Last(b)
  {
  }

  /** Calls that all come after attempt_close_popup in the source do not end in
      one of its calls. */
  lemma LastNotClose(calls: seq<Step>, lo: nat, hi: nat)
    requires calls != [] && Within(calls, lo, hi) && Rank(CloseRetry) < lo
    ensures !IsCloseStep(Last(calls))
  {
    assert lo <= Rank(calls[|calls| - 1]) <= hi;
  }

  /** The try block (test.py:93-195) searches the modal only when the popup was
      seen, and the page only when the popup or the modal search timed out; a
      failed page search ends the block; the Redeem click is retried only after
      an interception. */
  lemma BodyRoute(s: Script)
    ensures ModalSearch in Body(s).calls ==> s.answer(PopupWait).Done?
    ensures PageSearch in Body(s).calls ==>
              s.answer(PopupWait) == Raised(Timeout) || s.answer(ModalSearch) == Raised(Timeout)
    ensures PageSearch in Body(s).calls && s.answer(PageSearch).Raised? ==>
              Body(s).value == Err(Threw(s.answer(PageSearch).fault))
    ensures RedeemRetry in Body(s).calls <==>
              (RedeemClick in Body(s).calls && s.answer(RedeemClick) == Raised(ClickIntercepted))
  {
    var popup := PopupPhase(s);
    var rest := if popup.value.Ok? then AfterPopup(s, popup.value.value).calls else [];
    BodyCalls(s);
    PopupPhaseRange(s);
    PopupPhaseSpec(s);
    if popup.value.Ok? {
      AfterPopupRoute(s, popup.value.value);
    }
    var calls := Body(s).calls;
    var navFailed := s.answer(Navigate).Raised?;
    InBody(calls, navFailed, popup.calls, popup.value.Err?, rest, ModalSearch);
    InBody(calls, navFailed, popup.calls, popup.value.Err?, rest, PageSearch);
    InBody(calls, navFailed, popup.calls, popup.value.Err?, rest, RedeemClick);
    InBody(calls, navFailed, popup.calls, popup.value.Err?, rest, RedeemRetry);
  }

  /** A call after the popup handling is made by the try block exactly when it
      is made from the Redeem search on, and the navigation and popup handling
      went through. */
  lemma InBody(calls: seq<Step>, navFailed: bool, popup: seq<Step>, popupFailed: bool, rest: seq<Step>, step: Step)
    requires calls == if navFailed then [Navigate] else if popupFailed then [Navigate] + popup else [Navigate] + popup + rest
    requires Within(popup, Rank(PopupWait), Rank(VanishWait)) && Rank(VanishWait) < Rank(step)
    ensures step in calls <==> !navFailed && !popupFailed && step in rest
  {
    WithinExcludes(popup, Rank(PopupWait), Rank(VanishWait), step);
  }

  /** A call of the popup handling is made by the try block exactly when the
      popup handling makes it after the navigation went through. */
  lemma InBodyPopup(calls: seq<Step>, navFailed: bool, popup: seq<Step>, popupFailed: bool, rest: seq<Step>, step: Step)
    requires calls == if navFailed then [Navigate] else if popupFailed then [Navigate] + popup else [Navigate] + popup + rest
    requires Within(rest, Rank(ModalSearch), Rank(CouponText)) && Rank(Navigate) < Rank(step) < Rank(ModalSearch)
    ensures step in calls <==> !navFailed && step in popup
  {
    WithinExcludes(rest, Rank(ModalSearch), Rank(CouponText), step);
  }

  /** The try block (test.py:93-195) goes on to the Redeem search however the
      popup handling went, unless a wait of its own raised something other than
      a timeout: a popup that was not seen is not closed, and a close that failed
      or a popup that did not vanish in time is not an error. */
  lemma BodyPopup(s: Script)
    ensures VanishWait in Body(s).calls <==>
              (s.answer(Navigate).Done? && s.answer(PopupWait).Done? && ClosePopup(s).handled)
    ensures s.answer(Navigate).Done? && s.answer(PopupWait) == Raised(Timeout) ==>
              CloseWait !in Body(s).calls && ModalSearch !in Body(s).calls && PageSearch in Body(s).calls
    ensures s.answer(Navigate).Done? && s.answer(PopupWait).Done?
            && (!ClosePopup(s).handled || s.answer(VanishWait) == Raised(Timeout)) ==>
              CloseWait in Body(s).calls && ModalSearch in Body(s).calls
  {
    var popup := PopupPhase(s);
    var rest := if popup.value.Ok? then AfterPopup(s, popup.value.value).calls else [];
    BodyCalls(s);
    PopupPhaseRange(s);
    PopupPhaseSpec(s);
    if popup.value.Ok? {
      AfterPopupRoute(s, popup.value.value);
      AfterPopupRange(s, popup.value.value);
    }
    var calls := Body(s).calls;
    var navFailed := s.answer(Navigate).Raised?;
    InBodyPopup(calls, navFailed, popup.calls, popup.value.Err?, rest, CloseWait);
    InBodyPopup(calls, navFailed, popup.calls, popup.value.Err?, rest, VanishWait);
    InBody(calls, navFailed, popup.calls, popup.value.Err?, rest, ModalSearch);
    InBody(calls, navFailed, popup.calls, popup.value.Err?, rest, PageSearch);
  }

  // ---------------------------------------------------------------------------
  // Whole sessions (run_session, test.py:82-217)
  // ---------------------------------------------------------------------------

  /** A session makes its driver calls in the order of the source, so it never
      makes the same call twice. */
  lemma SessionOrder(s: Script)
    ensures InOrder(Session(s).calls)
    ensures forall i, j :: 0 <= i < j < |Session(s).calls| ==> Session(s).calls[i] != Session(s).calls[j]
  {
    if s.launches && s.answer(SetPageLoadTimeout).Done? {
      var body := Body(s);
      BodyRange(s);
      BodyOrder(s);
      InOrderConcat([SetPageLoadTimeout], body.calls, Rank(SetPageLoadTimeout), Rank(SetPageLoadTimeout), Rank(CouponText));
      WithinConcat([SetPageLoadTimeout], body.calls, Rank(SetPageLoadTimeout), Rank(SetPageLoadTimeout), Rank(CouponText));
      InOrderConcat([SetPageLoadTimeout] + body.calls, [Quit], Rank(SetPageLoadTimeout), Rank(CouponText), Rank(Quit));
    }
  }

  /** Without a driver nothing happens (test.py:85-88); a failing
      set_page_load_timeout (test.py:90) leaves run_session without quit; once
      the try block is entered, `finally` quits the driver as the last call. */
  lemma SessionQuit(s: Script)
    ensures Session(s).calls == [] <==> !s.launches
    ensures Session(s).result == NoDriver <==> !s.launches
    ensures Session(s).result.Escaped? <==> s.launches && s.answer(SetPageLoadTimeout).Raised?
    ensures Session(s).result.Escaped? ==>
              Session(s).calls == [SetPageLoadTimeout]
              && s.answer(SetPageLoadTimeout) == Raised(Session(s).result.fault)
    ensures Quit in Session(s).calls <==> s.launches && s.answer(SetPageLoadTimeout).Done?
    ensures Quit in Session(s).calls ==> Last(Session(s).calls) == Quit
  {
    if s.launches && s.answer(SetPageLoadTimeout).Done? {
      BodyRange(s);
      WithinExcludes(Body(s).calls, Rank(Navigate), Rank(CouponText), Quit);
    }
  }

  /** A session saves a code exactly when it read the coupon text and Extract
      accepted it, and the code saved is the one Extract gives (test.py:174-180). */
  lemma SessionSaved(s: Script)
    ensures Session(s).result.Saved? <==>
              (CouponText in Session(s).calls && s.answer(CouponText).Done? && Extract(s.couponText).Ok?)
    ensures Session(s).result.Saved? ==> Extract(s.couponText) == Ok(Session(s).result.code)
  {
    if s.launches && s.answer(SetPageLoadTimeout).Done? {
      var body := Body(s);
      assert Session(s).result.Saved? <==> body.value.Ok?;
      assert Session(s).result.Saved? ==> Session(s).result.code == body.value.value;
      assert CouponText in Session(s).calls <==> CouponText in body.calls by {
        assert Session(s).calls == [SetPageLoadTimeout] + body.calls + [Quit];
      }
      BodyCoupon(s);
      ReadCouponSpec(s);
    }
  }

  /** A session that failed failed because of its last call before quit: that
      call raised the exception caught, and is never a call of
      attempt_close_popup; or it read a text Extract refused (test.py:197-210). */
  lemma SessionFailure(s: Script)
    ensures Session(s).result.Failed? ==> |Session(s).calls| >= 2 && Last(Session(s).calls) == Quit
    ensures Session(s).result.Failed? && Session(s).result.failure.Threw? ==>
              (var failing := Session(s).calls[|Session(s).calls| - 2];
               !IsCloseStep(failing) && s.answer(failing) == Raised(Session(s).result.failure.fault))
    ensures Session(s).result.Failed? && Session(s).result.failure.BadData? ==>
              (Session(s).calls[|Session(s).calls| - 2] == CouponText && s.answer(CouponText).Done?
               && Extract(s.couponText) == Err(Session(s).result.failure.error))
  {
    if s.launches && s.answer(SetPageLoadTimeout).Done? {
      var body := Body(s);
      SessionShape(s);
      BodyThrew(s);
      BodyCoupon(s);
      BeforeQuit(body.calls);
      if body.value.Err? && body.value.error.BadData? {
        LastIn(body.calls);
        ReadCouponSpec(s);
      }
    }
  }

  /** A session that entered the try block: setup, the block's calls, quit; and
      the block's outcome (test.py:90-217). */
  lemma SessionShape(s: Script)
    requires s.launches && s.answer(SetPageLoadTimeout).Done?
    ensures Session(s).calls == [SetPageLoadTimeout] + Body(s).calls + [Quit]
    ensures Session(s).result == if Body(s).value.Ok? then Saved(Body(s).value.value) else Failed(Body(s).value.error)
  {
  }

  /** The call before quit is the try block's last call. */
  lemma BeforeQuit(calls: seq<Step>)
    requires calls != []
    ensures var all := [SetPageLoadTimeout] + calls + [Quit];
              |all| >= 2 && Last(all) == Quit && all[|all| - 2] == Last(calls)
  {
  }

  lemma LastIn(calls: seq<Step>)
    requires calls != []
    ensures Last(calls) in calls
  {
  }

  /** The calls of the try block are the session's calls between setup and quit. */
  lemma SessionCalls(s: Script, step: Step)
    requires step != SetPageLoadTimeout && step != Quit
    ensures step in Session(s).calls <==>
              (s.launches && s.answer(SetPageLoadTimeout).Done? && step in Body(s).calls)
  {
    if s.launches && s.answer(SetPageLoadTimeout).Done? {
      assert Session(s).calls == [SetPageLoadTimeout] + Body(s).calls + [Quit];
    }
  }

  /** test.py:123-162 in a whole session: the modal is searched only when the
      popup was seen, the page only when the popup or the modal search timed
      out, a failed page search fails the session, and the Redeem click is
      retried only after an interception. */
  lemma SessionRoute(s: Script)
    ensures ModalSearch in Session(s).calls ==> s.answer(PopupWait).Done?
    ensures PageSearch in Session(s).calls ==>
              s.answer(PopupWait) == Raised(Timeout) || s.answer(ModalSearch) == Raised(Timeout)
    ensures PageSearch in Session(s).calls && s.answer(PageSearch).Raised? ==>
              Session(s).result == Failed(Threw(s.answer(PageSearch).fault))
    ensures RedeemRetry in Session(s).calls <==>
              (RedeemClick in Session(s).calls && s.answer(RedeemClick) == Raised(ClickIntercepted))
  {
    SessionCalls(s, ModalSearch);
    SessionCalls(s, PageSearch);
    SessionCalls(s, RedeemClick);
    SessionCalls(s, RedeemRetry);
    BodyRoute(s);
  }

  /** test.py:98-118 in a whole session: once the page is loaded, a popup that
      was not seen is not closed and the page is searched; a popup whose close
      failed or which did not vanish in time still leads to the modal search. */
  lemma SessionPopup(s: Script)
    ensures VanishWait in Session(s).calls <==>
              (s.launches && s.answer(SetPageLoadTimeout).Done? && s.answer(Navigate).Done?
               && s.answer(PopupWait).Done? && ClosePopup(s).handled)
    ensures s.launches && s.answer(SetPageLoadTimeout).Done? && s.answer(Navigate).Done?
            && s.answer(PopupWait) == Raised(Timeout) ==>
              CloseWait !in Session(s).calls && ModalSearch !in Session(s).calls && PageSearch in Session(s).calls
    ensures s.launches && s.answer(SetPageLoadTimeout).Done? && s.answer(Navigate).Done?
            && s.answer(PopupWait).Done? && (!ClosePopup(s).handled || s.answer(VanishWait) == Raised(Timeout)) ==>
              CloseWait in Session(s).calls && ModalSearch in Session(s).calls
  {
    SessionCalls(s, VanishWait);
    SessionCalls(s, CloseWait);
    SessionCalls(s, ModalSearch);
    SessionCalls(s, PageSearch);
    BodyPopup(s);
  }

  /** A code is a single line: Extract only accepts letters, digits and hyphens. */
  lemma SavedCodeIsOneLine(s: Script)
    ensures Session(s).result.Saved? ==> '\n' !in Session(s).result.code && Session(s).result.code != []
  {
    SessionSaved(s);
    ExtractedIsOneToken(s.couponText);
  }

  /** save_coupon (test.py:21-25) in a whole session: a file made of whole lines
      gains exactly the saved code as one more line, and nothing when no code was
      saved; it still ends in a newline. */
  lemma SessionAppendsOneLine(s: Script, text: string)
    requires text == [] || text[|text| - 1] == '\n'
    ensures Output.Lines(text + Appended(Session(s).result)) ==
              Output.Lines(text) + (if Session(s).result.Saved? then [Session(s).result.code] else [])
    ensures var after := text + Appended(Session(s).result); after == [] || after[|after| - 1] == '\n'
  {
    var result := Session(s).result;
    if result.Saved? {
      SavedCodeIsOneLine(s);
      Output.AppendOneLine(text, result.code);
      Seqs.Assoc(text, result.code, "\n");
    } else {
      assert text + [] == text;
    }
  }

  // ---------------------------------------------------------------------------
  // Two sessions in full
  // ---------------------------------------------------------------------------

  /** The popup wait timed out: no popup, and nothing else of the popup handling. */
  lemma PopupAbsent(s: Script)
    requires s.answer(PopupWait) == Raised(Timeout)
    ensures PopupPhase(s) == Stage([PopupWait], Ok(false))
  {
  }

  /** The popup is seen, the first click on its close button is intercepted, the
      retried click closes it, and it does not vanish in time: only a warning. */
  lemma PopupClosedOnRetry(s: Script)
    requires s.answer(PopupWait) == s.answer(CloseWait) == s.answer(CloseRetry) == Done
    requires s.answer(CloseClick) == Raised(ClickIntercepted) && s.answer(VanishWait) == Raised(Timeout)
    ensures PopupPhase(s) == Stage([PopupWait, CloseWait, CloseClick, CloseRetry, VanishWait], Ok(true))
  {
    assert [PopupWait] + ([CloseWait, CloseClick, CloseRetry] + [VanishWait]) ==
           [PopupWait, CloseWait, CloseClick, CloseRetry, VanishWait];
    assert ClosePopup(s) == CloseRun([CloseWait, CloseClick, CloseRetry], true);
  }

  /** The Redeem button is found on the page and clicked at the first attempt. */
  lemma RedeemedOnPage(s: Script)
    requires s.answer(PageSearch) == s.answer(RedeemClick) == Done
    ensures RedeemPhase(s, false) == Stage([PageSearch, RedeemClick], Ok(()))
  {
    assert [] + [PageSearch] + [RedeemClick] == [PageSearch, RedeemClick];
  }

  /** The coupon element appears and reads a valid code followed by a space and
      more text: that code comes out. */
  lemma CouponRead(s: Script, code: string, rest: string)
    requires s.answer(CouponWait) == s.answer(CouponText) == Done
    requires LooksLikeCoupon(code) && s.couponText == code + " " + rest
    ensures ReadCoupon(s) == Stage([CouponWait, CouponText], Ok(code))
  {
    CodeThenSpace(code, rest);
  }

  /** The coupon element appears but reads a token too short to be a code: the
      ValueError of test.py:183 carries the stripped text. */
  lemma CouponRefused(s: Script)
    requires s.answer(CouponWait) == s.answer(CouponText) == Done
    requires s.couponText == "AB-1 x"
    ensures ReadCoupon(s) == Stage([CouponWait, CouponText], Err(BadData(NotACoupon("AB-1 x"))))
  {
    ShortExample();
  }

  /** With the popup seen, neither the modal nor the page shows the Redeem button
      in time: the page search's timeout is raised. */
  lemma RedeemNotFound(s: Script)
    requires s.answer(ModalSearch) == s.answer(PageSearch) == Raised(Timeout)
    ensures AfterPopup(s, true) == Stage([ModalSearch, PageSearch], Err(Threw(Timeout)))
  {
    assert [ModalSearch] + [PageSearch] == [ModalSearch, PageSearch];
    assert FindRedeem(s, true) == Stage([ModalSearch, PageSearch], Err(Threw(Timeout)));
  }

  /** No popup appears, the page's Redeem button works, and the coupon element
      reads a code followed by a space and more text: the session saves the code
      and quits. */
  lemma NoPopupSaves(s: Script, code: string, rest: string)
    requires LooksLikeCoupon(code) && s.couponText == code + " " + rest
    requires s.launches && s.answer(PopupWait) == Raised(Timeout)
    requires s.answer(SetPageLoadTimeout) == s.answer(Navigate) == s.answer(PageSearch) == Done
    requires s.answer(RedeemClick) == s.answer(CouponWait) == s.answer(CouponText) == Done
    ensures Session(s) == SessionRun([SetPageLoadTimeout, Navigate, PopupWait, PageSearch, RedeemClick,
                                      CouponWait, CouponText, Quit], Saved(code))
  {
    assert [PageSearch, RedeemClick] + [CouponWait, CouponText] == [PageSearch, RedeemClick, CouponWait, CouponText];
    assert [Navigate] + [PopupWait] + [PageSearch, RedeemClick, CouponWait, CouponText] ==
           [Navigate, PopupWait, PageSearch, RedeemClick, CouponWait, CouponText];
    assert [SetPageLoadTimeout] + [Navigate, PopupWait, PageSearch, RedeemClick, CouponWait, CouponText] + [Quit] ==
           [SetPageLoadTimeout, Navigate, PopupWait, PageSearch, RedeemClick, CouponWait, CouponText, Quit];
    PopupAbsent(s);
    RedeemedOnPage(s);
    CouponRead(s, code, rest);
    assert AfterPopup(s, false) == Stage([PageSearch, RedeemClick, CouponWait, CouponText], Ok(code));
    assert Body(s) == Stage([Navigate, PopupWait, PageSearch, RedeemClick, CouponWait, CouponText], Ok(code));
  }

  /** The popup is seen and closed only by the retried click, it does not vanish
      in time, and neither the modal nor the page shows the Redeem button in
      time: the session fails with the page search's timeout and still quits. */
  lemma PopupThenTimeout(s: Script)
    requires s.launches && s.answer(SetPageLoadTimeout) == s.answer(Navigate) == s.answer(PopupWait) == Done
    requires s.answer(CloseWait) == s.answer(CloseRetry) == Done && s.answer(CloseClick) == Raised(ClickIntercepted)
    requires s.answer(VanishWait) == s.answer(ModalSearch) == s.answer(PageSearch) == Raised(Timeout)
    ensures Session(s) == SessionRun([SetPageLoadTimeout, Navigate, PopupWait, CloseWait, CloseClick, CloseRetry,
                                      VanishWait, ModalSearch, PageSearch, Quit], Failed(Threw(Timeout)))
  {
    assert [Navigate] + [PopupWait, CloseWait, CloseClick, CloseRetry, VanishWait] + [ModalSearch, PageSearch] ==
           [Navigate, PopupWait, CloseWait, CloseClick, CloseRetry, VanishWait, ModalSearch, PageSearch];
    assert [SetPageLoadTimeout] + [Navigate, PopupWait, CloseWait, CloseClick, CloseRetry, VanishWait, ModalSearch, PageSearch]
           + [Quit] ==
           [SetPageLoadTimeout, Navigate, PopupWait, CloseWait, CloseClick, CloseRetry, VanishWait, ModalSearch, PageSearch, Quit];
    PopupClosedOnRetry(s);
    RedeemNotFound(s);
    assert Body(s) == Stage([Navigate, PopupWait, CloseWait, CloseClick, CloseRetry, VanishWait, ModalSearch, PageSearch],
                            Err(Threw(Timeout)));
  }

}
