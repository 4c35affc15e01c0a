/** The Wizard component of Pivotal UI: a multi-step form controller that keeps one
    integer, the current page index, over an ordered list of host-supplied page
    descriptors, mediates Next/Back navigation, delegates Finish/Cancel to the host,
    and decides which footer controls are shown, with which labels, enabled or not. */
module WizardComponent {

  datatype Option<T> = None | Some(value: T) {
    /** The value held, or `default` when absent. */
    function GetOr(default: T): T {
      match this
      case Some(v) => v
      case None => default
    }
  }

  const NextLabel := "Next"
  const BackLabel := "Back"
  const FinishLabel := "Finish"
  const CancelLabel := "Cancel"
  const SavingLabel := "Saving"

  /** A host-supplied element (a custom back or finish control), identified opaquely. */
  type Element = nat

  /** A page's `onClickBack` callback, described by what it returns when invoked:
      `Some(j)` when it returns the number `j`, `None` when it returns a non-number. */
  datatype BackCallback = BackCallback(result: Option<int>)

  /** One step of the wizard as the host describes it. Every capability is optional.
      `nextEnabled` is the host predicate, applied to the value `getPage` yields;
      `hasOnClickNext` says whether the page supplies an `onClickNext` callback. */
  datatype PageDescriptor = PageDescriptor(
    nextEnabled: Option<int -> bool>,
    hasOnClickNext: bool,
    onClickBack: Option<BackCallback>,
    nextText: Option<string>,
    hideNextButton: bool,
    hideBackButton: bool,
    hideFinishButton: bool,
    backComponent: Option<Element>,
    finishComponent: Option<Element>)

  /** A page that declares nothing beyond its content: every capability takes its default. */
  function PlainPage(): PageDescriptor {
    PageDescriptor(None, false, None, None, false, false, false, None, None)
  }

  /** The wizard's own props, apart from `pages`: whether the host supplied the
      `finish` and `cancel` callbacks, the label overrides, and the busy flag. */
  datatype Props = Props(
    hasFinish: bool,
    hasCancel: bool,
    cancelText: Option<string>,
    finishText: Option<string>,
    saving: bool,
    savingText: Option<string>)

  /** One footer slot: nothing, a default button, or the host's custom element. */
  datatype Control = Absent | Button(text: string, disabled: bool, spinner: bool) | Custom(element: Element)

  datatype Footer = Footer(cancel: Control, back: Control, next: Control, finish: Control)

  /** What the wizard observably does, in order: the host callbacks it invokes (all
      with no arguments; the page index only says whose callback it was) and the
      page-index updates it makes through `setPage`. */
  datatype Event = CancelCalled | FinishCalled | PageNextCalled(page: int) | PageBackCalled(page: int) | PageSet(page: int)

  /** What happened to a click: no wizard handler ran, the handler ran, or the handler
      tried to call a host callback that the host did not supply. */
  datatype Outcome = Ignored | Handled | CallbackMissing

  /** A navigation request made through the wizard's handlers. */
  datatype Action = SetPageTo(index: int) | Next | Back | Finish | Cancel

  function Min(a: int, b: int): int { if a <= b then a else b }
  function Max(a: int, b: int): int { if a >= b then a else b }

  // ---------------------------------------------------------------------------
  // Page-index transitions

  /** `setPage`'s clamping: `max(0, min(index, count - 1))`. */
  function Clamp(index: int, count: nat): (r: int)
    ensures count == 0 ==> r == 0
    ensures count > 0 ==> 0 <= r < count
    ensures 0 <= index < count ==> r == index
    ensures index < 0 ==> r == 0
    ensures 0 < count <= index ==> r == count - 1
  {
    Max(0, Min(index, count - 1))
  }

  /** Whether the current page lets the user move on: the page's `nextEnabled`
      applied to the current index, or yes when the page has no such predicate. */
  function NextAllowed(page: PageDescriptor, current: int): (allowed: bool)
    ensures page.nextEnabled.None? ==> allowed
    ensures page.nextEnabled.Some? ==> (allowed <==> page.nextEnabled.value(current))
  {
    match page.nextEnabled
    case None => true
    case Some(enabled) => enabled(current)
  }

  /** The page the Next handler moves to from `current`. */
  function NextTarget(pages: seq<PageDescriptor>, current: int): (r: int)
    requires 0 <= current < |pages|
    ensures 0 <= r < |pages|
    ensures current < |pages| - 1 ==> r == current + 1
    ensures current == |pages| - 1 ==> r == current
  {
    Clamp(current + 1, |pages|)
  }

  /** The page the Back handler moves to from `current`: the index the page's own
      `onClickBack` returns, when it returns a number, else the previous page. */
  function BackTarget(pages: seq<PageDescriptor>, current: int): (r: int)
    requires 0 <= current < |pages|
    ensures 0 <= r < |pages|
    ensures (pages[current].onClickBack.None? || pages[current].onClickBack.value.result.None?) && current > 0
            ==> r == current - 1
    ensures pages[current].onClickBack.Some? && pages[current].onClickBack.value.result.Some?
            ==> r == Clamp(pages[current].onClickBack.value.result.value, |pages|)
  {
    match pages[current].onClickBack
    case Some(BackCallback(Some(j))) => Clamp(j, |pages|)
    case _ => Clamp(current - 1, |pages|)
  }

  /** The events of the Next handler: the page's `onClickNext` first, if any, then the update. */
  function NextEvents(pages: seq<PageDescriptor>, current: int): (es: seq<Event>)
    requires 0 <= current < |pages|
    ensures |es| == (if pages[current].hasOnClickNext then 2 else 1)
    ensures es[|es| - 1] == PageSet(NextTarget(pages, current))
    ensures pages[current].hasOnClickNext <==> PageNextCalled(current) in es
    ensures pages[current].hasOnClickNext ==> es[0] == PageNextCalled(current)
  {
    (if pages[current].hasOnClickNext then [PageNextCalled(current)] else [])
      + [PageSet(NextTarget(pages, current))]
  }

  /** The events of the Back handler: the page's `onClickBack` first, if any, then the update. */
  function BackEvents(pages: seq<PageDescriptor>, current: int): (es: seq<Event>)
    requires 0 <= current < |pages|
    ensures |es| == (if pages[current].onClickBack.Some? then 2 else 1)
    ensures es[|es| - 1] == PageSet(BackTarget(pages, current))
    ensures pages[current].onClickBack.Some? <==> PageBackCalled(current) in es
    ensures pages[current].onClickBack.Some? ==> es[0] == PageBackCalled(current)
  {
    (if pages[current].onClickBack.Some? then [PageBackCalled(current)] else [])
      + [PageSet(BackTarget(pages, current))]
  }

  /** The page index after one handler call. */
  function Step(pages: seq<PageDescriptor>, current: int, action: Action): (r: int)
    requires 0 <= current < |pages|
    ensures 0 <= r < |pages|
    ensures action.Finish? || action.Cancel? ==> r == current
    ensures action.SetPageTo? && 0 <= action.index < |pages| ==> r == action.index
  {
    match action
    case SetPageTo(i) => Clamp(i, |pages|)
    case Next => NextTarget(pages, current)
    case Back => BackTarget(pages, current)
    case Finish => current
    case Cancel => current
  }

  /** The page index after a sequence of handler calls: it never leaves the range. */
  function Run(pages: seq<PageDescriptor>, current: int, actions: seq<Action>): (r: int)
    requires 0 <= current < |pages|
    ensures 0 <= r < |pages|
    decreases |actions|
  {
    if actions == [] then current
    else Run(pages, Step(pages, current, actions[0]), actions[1..])
  }

  function Repeat(action: Action, n: nat): (s: seq<Action>)
    ensures |s| == n
    ensures forall i :: 0 <= i < n ==> s[i] == action
  {
    if n == 0 then [] else [action] + Repeat(action, n - 1)
  }

  /** Calling the Next handler `n` times advances `n` pages but stops at the last one. */
  lemma {:induction false} NextRepeated(pages: seq<PageDescriptor>, current: int, n: nat)
    requires 0 <= current < |pages|
    ensures Run(pages, current, Repeat(Next, n)) == Min(current + n, |pages| - 1)
    decreases n
  {
    if n > 0 {
      var s := Repeat(Next, n);
      assert s[1..] == Repeat(Next, n - 1);
      NextRepeated(pages, NextTarget(pages, current), n - 1);
    }
  }

  /** `setPage` is absolute: whatever came before, the last `setPage(i)` decides the page. */
  lemma {:induction false} SetPageLast(pages: seq<PageDescriptor>, current: int, actions: seq<Action>, i: int)
    requires 0 <= current < |pages|
    ensures Run(pages, current, actions + [SetPageTo(i)]) == Clamp(i, |pages|)
    decreases |actions|
  {
    if actions == [] {
      assert [SetPageTo(i)][1..] == [];
    } else {
      assert (actions + [SetPageTo(i)])[1..] == actions[1..] + [SetPageTo(i)];
      SetPageLast(pages, Step(pages, current, actions[0]), actions[1..], i);
    }
  }

  /** Finish and Cancel never move the wizard, however many are issued. */
  lemma {:induction false} FinishCancelKeepPage(pages: seq<PageDescriptor>, current: int, actions: seq<Action>)
    requires 0 <= current < |pages|
    requires forall k :: 0 <= k < |actions| ==> actions[k].Finish? || actions[k].Cancel?
    ensures Run(pages, current, actions) == current
    decreases |actions|
  {
    if actions != [] {
      FinishCancelKeepPage(pages, current, actions[1..]);
    }
  }

  /** Back undoes Next on any page but the last, when the next page has no custom back. */
  lemma BackUndoesNext(pages: seq<PageDescriptor>, current: int)
    requires 0 <= current < |pages| - 1
    requires pages[current + 1].onClickBack.None?
    ensures BackTarget(pages, NextTarget(pages, current)) == current
  {
  }

  /** Next undoes a default Back on any page but the first. */
  lemma NextUndoesBack(pages: seq<PageDescriptor>, current: int)
    requires 0 < current < |pages|
    requires pages[current].onClickBack.None?
    ensures NextTarget(pages, BackTarget(pages, current)) == current
  {
  }

  // ---------------------------------------------------------------------------
  // Footer-control selection

  /** Cancel appears on the first page only, and only when the host supplied `cancel`. */
  function CancelControl(current: int, props: Props): (c: Control)
    ensures c.Absent? <==> current != 0 || !props.hasCancel
    ensures !c.Custom?
    ensures c.Button? ==> c.text == props.cancelText.GetOr(CancelLabel) && !c.disabled && !c.spinner
  {
    if current == 0 && props.hasCancel then Button(props.cancelText.GetOr(CancelLabel), false, false)
    else Absent
  }

  /** Back appears on every page but the first unless the page hides it; a custom
      element replaces the default button; the button is disabled while saving. */
  function BackControl(pages: seq<PageDescriptor>, current: int, props: Props): (c: Control)
    requires 0 <= current < |pages|
    ensures c.Absent? <==> current == 0 || pages[current].hideBackButton
    ensures c.Custom? <==> !c.Absent? && pages[current].backComponent.Some?
    ensures c.Custom? ==> c.element == pages[current].backComponent.value
    ensures c.Button? ==> c.text == BackLabel && c.disabled == props.saving && !c.spinner
  {
    var page := pages[current];
    if current == 0 || page.hideBackButton then Absent
    else if page.backComponent.Some? then Custom(page.backComponent.value)
    else Button(BackLabel, props.saving, false)
  }

  /** Next appears on every page but the last unless the page hides it, labelled by
      the page's `nextText` or "Next", and disabled when `nextEnabled` says no. */
  function NextControl(pages: seq<PageDescriptor>, current: int): (c: Control)
    requires 0 <= current < |pages|
    ensures c.Absent? <==> current == |pages| - 1 || pages[current].hideNextButton
    ensures !c.Custom?
    ensures c.Button? ==> c.text == pages[current].nextText.GetOr(NextLabel) && !c.spinner
    ensures c.Button? ==> (c.disabled <==> !NextAllowed(pages[current], current))
  {
    var page := pages[current];
    if current == |pages| - 1 || page.hideNextButton then Absent
    else Button(page.nextText.GetOr(NextLabel), !NextAllowed(page, current), false)
  }

  /** Finish appears on the last page only unless the page hides it; a custom element
      replaces the default button; while saving it shows a spinner and `savingText`. */
  function FinishControl(pages: seq<PageDescriptor>, current: int, props: Props): (c: Control)
    requires 0 <= current < |pages|
    ensures c.Absent? <==> current != |pages| - 1 || pages[current].hideFinishButton
    ensures c.Custom? <==> !c.Absent? && pages[current].finishComponent.Some?
    ensures c.Custom? ==> c.element == pages[current].finishComponent.value
    ensures c.Button? ==> !c.disabled && c.spinner == props.saving
    ensures c.Button? && props.saving ==> c.text == props.savingText.GetOr(SavingLabel)
    ensures c.Button? && !props.saving ==> c.text == props.finishText.GetOr(FinishLabel)
  {
    var page := pages[current];
    if current != |pages| - 1 || page.hideFinishButton then Absent
    else if page.finishComponent.Some? then Custom(page.finishComponent.value)
    else if props.saving then Button(props.savingText.GetOr(SavingLabel), false, true)
    else Button(props.finishText.GetOr(FinishLabel), false, false)
  }

  /** The whole footer. Next and Finish never both show, nor do Cancel and Back; on a
      page with no hide flags exactly one of Next and Finish shows. */
  function FooterFor(pages: seq<PageDescriptor>, current: int, props: Props): (f: Footer)
    requires 0 <= current < |pages|
    ensures f.next.Absent? || f.finish.Absent?
    ensures f.cancel.Absent? || f.back.Absent?
    ensures !pages[current].hideNextButton && !pages[current].hideFinishButton
            ==> f.next.Absent? != f.finish.Absent?
  {
    Footer(CancelControl(current, props), BackControl(pages, current, props),
           NextControl(pages, current), FinishControl(pages, current, props))
  }

  /** A control whose click reaches a wizard handler: a default button that is enabled.
      Custom elements are wired by the host, not by the wizard. */
  function Wired(c: Control): (wired: bool)
    ensures wired ==> c.Button?
    ensures c.Button? ==> (wired <==> !c.disabled)
  {
    c.Button? && !c.disabled
  }

  /** A page with no options and no saving in progress can always be left through the
      footer: forward by Next on any page but the last, back by Back on any but the first. */
  lemma PlainPageNavigable(pages: seq<PageDescriptor>, current: int, props: Props)
    requires 0 <= current < |pages|
    requires pages[current] == PlainPage() && !props.saving
    ensures current < |pages| - 1 ==> Wired(NextControl(pages, current))
                                      && NextTarget(pages, current) == current + 1
    ensures current > 0 ==> Wired(BackControl(pages, current, props))
                            && BackTarget(pages, current) == current - 1
  {
  }

  // ---------------------------------------------------------------------------
  // The component

  class Wizard {
    var pages: seq<PageDescriptor>
    var props: Props
    var currentPage: int
    /** Host callbacks invoked and page updates made so far, in order. */
    var events: seq<Event>

    /** Rendering needs at least one page. The page index itself may be written
        directly and is therefore not part of the invariant. */
    ghost predicate Valid() reads this {
      |pages| > 0
    }

    predicate OnValidPage() reads this {
      0 <= currentPage < |pages|
    }

    constructor (pages: seq<PageDescriptor>, props: Props)
      requires |pages| > 0
      ensures Valid() && OnValidPage()
      ensures this.pages == pages && this.props == props
      ensures currentPage == 0 && events == []
    {
      this.pages := pages;
      this.props := props;
      currentPage := 0;
      events := [];
    }

    /** New props from the host; the page index is kept as it is. */
    method SetProps(pages: seq<PageDescriptor>, props: Props)
      requires |pages| > 0
      modifies this`pages, this`props
      ensures Valid()
      ensures this.pages == pages && this.props == props
    {
      this.pages := pages;
      this.props := props;
    }

    /** `getPage`: the stored index, exactly as stored. */
    function GetPage(): (r: int)
      reads this
      ensures r == currentPage
    {
      currentPage
    }

    /** `setPage`: clamp the requested index into range and store it. */
    method SetPage(index: int)
      requires Valid()
      modifies this`currentPage, this`events
      ensures Valid()
      ensures OnValidPage()
      ensures currentPage == Clamp(index, |pages|)
      ensures events == old(events) + [PageSet(currentPage)]
    {
      currentPage := Clamp(index, |pages|);
      events := events + [PageSet(currentPage)];
    }

    /** `onClickNext`: run the page's `onClickNext`, if any, then move one page on.
        `nextEnabled` is not consulted here; it only disables the rendered button. */
    method OnClickNext()
      requires Valid() && OnValidPage()
      modifies this`currentPage, this`events
      ensures Valid()
      ensures OnValidPage()
      ensures currentPage == NextTarget(pages, old(currentPage))
      ensures events == old(events) + NextEvents(pages, old(currentPage))
    {
      var page := pages[currentPage];
      if page.hasOnClickNext {
        events := events + [PageNextCalled(currentPage)];
      }
      SetPage(currentPage + 1);
    }

    /** `onClickBack`: run the page's `onClickBack`, if any; a number it returns is the
        page to go to, otherwise move one page back. */
    method OnClickBack()
      requires Valid() && OnValidPage()
      modifies this`currentPage, this`events
      ensures Valid()
      ensures OnValidPage()
      ensures currentPage == BackTarget(pages, old(currentPage))
      ensures events == old(events) + BackEvents(pages, old(currentPage))
    {
      var page := pages[currentPage];
      if page.onClickBack.Some? {
        events := events + [PageBackCalled(currentPage)];
        var returned := page.onClickBack.value.result;
        if returned.Some? {
          SetPage(returned.value);
          return;
        }
      }
      SetPage(currentPage - 1);
    }

    /** `onClickFinish`: call the host's `finish`; the page does not change. */
    method OnClickFinish() returns (outcome: Outcome)
      modifies this`events
      ensures currentPage == old(currentPage)
      ensures outcome == if props.hasFinish then Handled else CallbackMissing
      ensures events == old(events) + (if props.hasFinish then [FinishCalled] else [])
    {
      if props.hasFinish {
        events := events + [FinishCalled];
        outcome := Handled;
      } else {
        outcome := CallbackMissing;
      }
    }

    /** `onClickCancel`: call the host's `cancel`; the page does not change. */
    method OnClickCancel() returns (outcome: Outcome)
      modifies this`events
      ensures currentPage == old(currentPage)
      ensures outcome == if props.hasCancel then Handled else CallbackMissing
      ensures events == old(events) + (if props.hasCancel then [CancelCalled] else [])
    {
      if props.hasCancel {
        events := events + [CancelCalled];
        outcome := Handled;
      } else {
        outcome := CallbackMissing;
      }
    }

    /** The footer rendered for the current page. */
    function CurrentFooter(): (f: Footer)
      reads this
      requires Valid() && OnValidPage()
      ensures f == FooterFor(pages, currentPage, props)
    {
      FooterFor(pages, currentPage, props)
    }

    /** A user click on the Next slot: only an enabled default button runs the handler. */
    method ClickNextButton() returns (outcome: Outcome)
      requires Valid() && OnValidPage()
      modifies this`currentPage, this`events
      ensures Valid()
      ensures OnValidPage()
      ensures var wired := Wired(NextControl(pages, old(currentPage)));
        && outcome == (if wired then Handled else Ignored)
        && currentPage == (if wired then NextTarget(pages, old(currentPage)) else old(currentPage))
        && events == old(events) + (if wired then NextEvents(pages, old(currentPage)) else [])
    {
      if Wired(NextControl(pages, currentPage)) {
        OnClickNext();
        outcome := Handled;
      } else {
        outcome := Ignored;
      }
    }

    /** A user click on the Back slot: a custom element or a disabled button runs nothing. */
    method ClickBackButton() returns (outcome: Outcome)
      requires Valid() && OnValidPage()
      modifies this`currentPage, this`events
      ensures Valid()
      ensures OnValidPage()
      ensures var wired := Wired(BackControl(pages, old(currentPage), props));
        && outcome == (if wired then Handled else Ignored)
        && currentPage == (if wired then BackTarget(pages, old(currentPage)) else old(currentPage))
        && events == old(events) + (if wired then BackEvents(pages, old(currentPage)) else [])
    {
      if Wired(BackControl(pages, currentPage, props)) {
        OnClickBack();
        outcome := Handled;
      } else {
        outcome := Ignored;
      }
    }

    /** A user click on the Finish slot: a custom element runs nothing. */
    method ClickFinishButton() returns (outcome: Outcome)
      requires Valid() && OnValidPage()
      modifies this`events
      ensures Valid()
      ensures currentPage == old(currentPage)
      ensures var wired := Wired(FinishControl(pages, currentPage, props));
        && outcome == (if !wired then Ignored else if props.hasFinish then Handled else CallbackMissing)
        && events == old(events) + (if wired && props.hasFinish then [FinishCalled] else [])
    {
      if Wired(FinishControl(pages, currentPage, props)) {
        outcome := OnClickFinish();
      } else {
        outcome := Ignored;
      }
    }

    /** A user click on the Cancel slot. The button only exists when `cancel` was
        supplied, so a click never finds the callback missing. */
    method ClickCancelButton() returns (outcome: Outcome)
      requires Valid() && OnValidPage()
      modifies this`events
      ensures Valid()
      ensures currentPage == old(currentPage)
      ensures outcome != CallbackMissing
      ensures var wired := Wired(CancelControl(currentPage, props));
        && outcome == (if wired then Handled else Ignored)
        && events == old(events) + (if wired then [CancelCalled] else [])
    {
      if Wired(CancelControl(currentPage, props)) {
        outcome := OnClickCancel();
      } else {
        outcome := Ignored;
      }
    }
  }
}
