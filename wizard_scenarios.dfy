/** The Wizard's asserted behaviour, scenario by scenario. Each method covers one or
    more scenarios of the component's test suite; every scenario gets a wizard of its
    own, built as the suite builds it (two pages, the first with a `nextEnabled`
    predicate, and a `finish` callback), driven as the scenario does, and the method
    states the outcome the scenario expects. */
module WizardScenarios {
  import opened WizardComponent

  /** The two pages every scenario starts from; the first asks `nextEnabled`. */
  function TwoPages(nextEnabled: bool): (pages: seq<PageDescriptor>)
    ensures |pages| == 2 && pages[1] == PlainPage()
    ensures NextAllowed(pages[0], 0) == nextEnabled
  {
    [PlainPage().(nextEnabled := Some((page: int) => nextEnabled)), PlainPage()]
  }

  /** The props every scenario starts from: only `finish` is supplied. */
  function FinishOnly(): (props: Props)
    ensures props.hasFinish && !props.hasCancel && !props.saving
    ensures props.cancelText.None? && props.finishText.None? && props.savingText.None?
  {
    Props(true, false, None, None, false, None)
  }

  /** `getPage` returns a directly written index unchanged, even out of range. */
  method GetPageAfterDirectWrite() returns (page: int)
    ensures page == 5
  {
    var w := new Wizard(TwoPages(true), FinishOnly());
    w.currentPage := 5;
    page := w.GetPage();
  }

  /** `setPage` stores a valid index, and clamps one too low or too high. */
  method SetPageClamps() returns (valid: int, tooLow: int, tooHigh: int)
    ensures valid == 1 && tooLow == 0 && tooHigh == 1
  {
    var w := new Wizard(TwoPages(true), FinishOnly());
    w.SetPage(1);
    valid := w.currentPage;
    w := new Wizard(TwoPages(true), FinishOnly());
    w.SetPage(-1);
    tooLow := w.currentPage;
    w := new Wizard(TwoPages(true), FinishOnly());
    w.SetPage(5);
    tooHigh := w.currentPage;
  }

  /** `onClickCancel` calls the host's `cancel`. */
  method CancelCallsHost() returns (outcome: Outcome, page: int, events: seq<Event>)
    ensures outcome == Handled && page == 0 && events == [CancelCalled]
  {
    var w := new Wizard(TwoPages(true), FinishOnly());
    w.SetProps(w.pages, w.props.(hasCancel := true));
    outcome := w.OnClickCancel();
    page, events := w.currentPage, w.events;
  }

  /** `onClickBack` without a custom callback goes back one page. */
  method DefaultBack() returns (page: int)
    ensures page == 0
  {
    var w := new Wizard(TwoPages(true), FinishOnly());
    w.currentPage := 1;
    w.OnClickBack();
    page := w.currentPage;
  }

  /** A third page whose `onClickBack` returns 0: the callback runs, and the wizard
      jumps to page 0 rather than to page 1. */
  method CustomBack() returns (page: int, events: seq<Event>)
    ensures page == 0 && events == [PageBackCalled(2), PageSet(0)]
  {
    var w := new Wizard(TwoPages(true), FinishOnly());
    var third := PlainPage().(onClickBack := Some(BackCallback(Some(0))));
    w.SetProps(w.pages + [third], w.props);
    w.currentPage := 2;
    w.OnClickBack();
    page, events := w.currentPage, w.events;
  }

  /** A third page with a `backComponent`: it takes the Back slot, and clicking it
      does not run the page's `onClickBack`. */
  method BackComponentNotWired() returns (back: Control, outcome: Outcome, page: int, events: seq<Event>)
    ensures back == Custom(7) && outcome == Ignored && page == 2 && events == []
  {
    var w := new Wizard(TwoPages(true), FinishOnly());
    var third := PlainPage().(onClickBack := Some(BackCallback(None)), backComponent := Some(7));
    w.SetProps(w.pages + [third], w.props);
    w.currentPage := 2;
    back := w.CurrentFooter().back;
    outcome := w.ClickBackButton();
    page, events := w.currentPage, w.events;
  }

  /** `onClickNext` without a custom callback advances from page 0 to page 1. */
  method DefaultNext() returns (page: int)
    ensures page == 1
  {
    var w := new Wizard(TwoPages(true), FinishOnly());
    w.OnClickNext();
    page := w.currentPage;
  }

  /** Four pages, the third with an `onClickNext`: from the third page the callback
      runs first and the wizard then shows the last page. */
  method CustomNext() returns (page: int, last: int, events: seq<Event>)
    ensures page == last == 3 && events == [PageNextCalled(2), PageSet(3)]
  {
    var w := new Wizard(TwoPages(true), FinishOnly());
    w.SetProps(w.pages + [PlainPage().(hasOnClickNext := true), PlainPage()], w.props);
    w.currentPage := |w.pages| - 2;
    w.OnClickNext();
    page, last, events := w.currentPage, |w.pages| - 1, w.events;
  }

  /** `onClickFinish` calls the host's `finish` and stays on the page. */
  method FinishCallsHost() returns (outcome: Outcome, page: int, events: seq<Event>)
    ensures outcome == Handled && page == 1 && events == [FinishCalled]
  {
    var w := new Wizard(TwoPages(true), FinishOnly());
    w.currentPage := 1;
    outcome := w.OnClickFinish();
    page, events := w.currentPage, w.events;
  }

  /** The first page's footer: no Cancel without a `cancel` callback, no Back, and an
      enabled "Next"; Cancel appears with "Cancel", or "Close" when so labelled. */
  method FirstPageFooter() returns (plain: Footer, withCancel: Control, closeText: Control)
    ensures plain.cancel == Absent && plain.back == Absent && plain.finish == Absent
    ensures plain.next == Button("Next", false, false)
    ensures withCancel == Button("Cancel", false, false)
    ensures closeText == Button("Close", false, false)
  {
    var w := new Wizard(TwoPages(true), FinishOnly());
    plain := w.CurrentFooter();
    w := new Wizard(TwoPages(true), FinishOnly());
    w.SetProps(w.pages, w.props.(hasCancel := true));
    withCancel := w.CurrentFooter().cancel;
    // the custom-text scenario runs inside the cancel-callback one
    w := new Wizard(TwoPages(true), FinishOnly());
    w.SetProps(w.pages, w.props.(hasCancel := true));
    w.SetProps(w.pages, w.props.(cancelText := Some("Close")));
    closeText := w.CurrentFooter().cancel;
  }

  /** Clicking Next on the first page shows the second page. */
  method FirstPageNextClick() returns (outcome: Outcome, page: int)
    ensures outcome == Handled && page == 1
  {
    var w := new Wizard(TwoPages(true), FinishOnly());
    outcome := w.ClickNextButton();
    page := w.currentPage;
  }

  /** The first page's Next button: `hideNextButton` removes it; `nextText` relabels it. */
  method FirstPageNextOptions() returns (hidden: Control, relabelled: Control)
    ensures hidden == Absent
    ensures relabelled == Button("customNext", false, false)
  {
    var pages := TwoPages(true);
    var w := new Wizard(pages, FinishOnly());
    w.SetProps(pages[0 := pages[0].(hideNextButton := true)], w.props);
    hidden := w.CurrentFooter().next;
    w := new Wizard(pages, FinishOnly());
    w.SetProps(pages[0 := pages[0].(nextText := Some("customNext"))], w.props);
    relabelled := w.CurrentFooter().next;
  }

  /** When `nextEnabled` says no, the Next button is disabled and clicking it leaves
      the wizard on page 0. */
  method FirstPageNextDisabled() returns (next: Control, outcome: Outcome, page: int)
    ensures next.Button? && next.disabled
    ensures outcome == Ignored && page == 0
  {
    var w := new Wizard(TwoPages(false), FinishOnly());
    next := w.CurrentFooter().next;
    outcome := w.ClickNextButton();
    page := w.currentPage;
  }

  /** The last page's footer: "Finish" and "Back", no Next; the hide flags remove
      Finish and Back; `finishText` relabels Finish. */
  method LastPageFooter() returns (plain: Footer, noFinish: Control, noBack: Control, relabelled: Control)
    ensures plain.finish == Button("Finish", false, false)
    ensures plain.back == Button("Back", false, false)
    ensures plain.next == Absent && plain.cancel == Absent
    ensures noFinish == Absent && noBack == Absent
    ensures relabelled == Button("customFinish", false, false)
  {
    var pages := TwoPages(true);
    var w := new Wizard(pages, FinishOnly());
    w.currentPage := |pages| - 1;
    plain := w.CurrentFooter();
    w := new Wizard(pages, FinishOnly());
    w.currentPage := |pages| - 1;
    w.SetProps(pages[1 := pages[1].(hideFinishButton := true)], w.props);
    noFinish := w.CurrentFooter().finish;
    w := new Wizard(pages, FinishOnly());
    w.currentPage := |pages| - 1;
    w.SetProps(pages[1 := pages[1].(hideBackButton := true)], w.props);
    noBack := w.CurrentFooter().back;
    w := new Wizard(pages, FinishOnly());
    w.currentPage := |pages| - 1;
    w.SetProps(pages, w.props.(finishText := Some("customFinish")));
    relabelled := w.CurrentFooter().finish;
  }

  /** On the last page, Back shows the first page again and Finish calls `finish`. */
  method LastPageClicks() returns (back: Outcome, page: int, finish: Outcome, events: seq<Event>)
    ensures back == Handled && page == 0
    ensures finish == Handled && events == [FinishCalled]
  {
    var w := new Wizard(TwoPages(true), FinishOnly());
    w.currentPage := 1;
    back := w.ClickBackButton();
    page := w.currentPage;
    w := new Wizard(TwoPages(true), FinishOnly());
    w.currentPage := 1;
    finish := w.ClickFinishButton();
    events := w.events;
  }

  /** While saving, Finish shows a spinner and `savingText` ("Saving" by default) and
      Back is disabled; when not saving, Finish reads "Finish" and Back is enabled. */
  method LastPageSaving() returns (creating: Footer, saving: Control, idle: Footer)
    ensures creating.finish == Button("Creating", false, true)
    ensures creating.back.Button? && creating.back.disabled
    ensures saving == Button("Saving", false, true)
    ensures idle.finish == Button("Finish", false, false)
    ensures idle.back.Button? && !idle.back.disabled
  {
    var w := new Wizard(TwoPages(true), FinishOnly());
    w.currentPage := 1;
    idle := w.CurrentFooter();
    w := new Wizard(TwoPages(true), FinishOnly());
    w.currentPage := 1;
    w.SetProps(w.pages, w.props.(saving := true, savingText := Some("Creating")));
    creating := w.CurrentFooter();
    w := new Wizard(TwoPages(true), FinishOnly());
    w.currentPage := 1;
    w.SetProps(w.pages, w.props.(saving := true));
    saving := w.CurrentFooter().finish;
  }

  /** A last page with a `finishComponent`: it takes the Finish slot, and clicking it
      does not call `finish`. */
  method FinishComponentNotWired() returns (finish: Control, outcome: Outcome, events: seq<Event>)
    ensures finish == Custom(9) && outcome == Ignored && events == []
  {
    var pages := TwoPages(true);
    var w := new Wizard(pages[1 := pages[1].(finishComponent := Some(9))], FinishOnly());
    w.currentPage := 1;
    finish := w.CurrentFooter().finish;
    outcome := w.ClickFinishButton();
    events := w.events;
  }
}
