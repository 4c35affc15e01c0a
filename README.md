# Pivotal UI Wizard — a Dafny model

Pivotal UI's `Wizard` is a React component for multi-step forms. Its state is one integer, `currentPage`, an index into the ordered list of page descriptors that the host passes as the `pages` prop.

- `setPage` clamps the index into range.
- `onClickNext` runs the page's optional `onClickNext` callback, then moves one page on.
- `onClickBack` runs the page's optional `onClickBack` callback. A number that callback returns is the page to go to; otherwise the wizard moves one page back.
- `onClickFinish` and `onClickCancel` call the host's `finish` and `cancel` callbacks and leave the page alone.
- On each render the wizard decides which footer controls appear (Cancel, Back, Next, Finish, or a custom back or finish element), what each one says, and which are disabled.

The implementation (`src/react/wizard`) is not part of this model. The model is built from what the component's test suite, `spec/pivotal-ui-react/wizard/wizard_spec.js`, asserts. At some points the suite asserts nothing and the model still has to choose a behaviour; each such choice is named under "## Left out".

## Layout

`wizard.dfy` holds module `WizardComponent`:
- **Data.** Datatypes for page descriptors, the props, footer controls and the event log. A page's optional capabilities are `Option` fields or flags.
- **Navigation functions.** The pure functions for navigation (`Clamp`, `NextTarget`, `BackTarget`, `Step`, `Run`) and the lemmas about them.
- **Footer selection.** One function per slot, plus `FooterFor`.
- **The class.** `Wizard`, whose methods update the `currentPage` field in place.

The host's callbacks are not executed. Each call the wizard makes to one is recorded in the field `events`, before the page update that follows it. So the contracts state both which callbacks ran and in what order relative to the page change.

`wizard_scenarios.dfy` holds module `WizardScenarios`. It replays the scenarios of the test suite, each on a `Wizard` of its own, and states the expected observation as the method's postcondition. Where one method covers several scenarios, it builds a new wizard for each; a nested scenario also applies its enclosing scenario's setup first.

## Model

| member | source | states |
|---|---|---|
| WizardComponent.Clamp | spec/pivotal-ui-react/wizard/wizard_spec.js:30-59 | The result is always a valid index for a non-empty list. An index already in range is kept. A negative index gives 0. An index past the end gives the last page. |
| WizardComponent.Wizard.SetPage | spec/pivotal-ui-react/wizard/wizard_spec.js:30-59 | Afterwards the wizard is on a valid page, namely the clamped request. Exactly one page update is logged. |
| WizardComponent.Wizard.GetPage | spec/pivotal-ui-react/wizard/wizard_spec.js:20-27 | Returns the stored index as stored, with no clamping. Being a function, it changes nothing. |
| WizardComponent.NextAllowed | spec/pivotal-ui-react/wizard/wizard_spec.js:255-261 | A page without `nextEnabled` allows Next; otherwise Next is allowed exactly when `nextEnabled`, applied to the index `getPage` returns, says yes. |
| WizardComponent.NextTarget | spec/pivotal-ui-react/wizard/wizard_spec.js:157-200 | Next moves from page k to k+1 on every page but the last, and the target is always in range. |
| WizardComponent.BackTarget | spec/pivotal-ui-react/wizard/wizard_spec.js:76-121 | With no custom callback, or one that returns no number, Back moves from k > 0 to k-1. A callback that returns j sends the wizard to the clamped j instead. The target is always in range. |
| WizardComponent.NextEvents | spec/pivotal-ui-react/wizard/wizard_spec.js:168-200 | The page's `onClickNext` is invoked exactly once if the page defines one, and not at all otherwise. It is invoked first; the one update to the next page comes last, and nothing else is logged. |
| WizardComponent.BackEvents | spec/pivotal-ui-react/wizard/wizard_spec.js:91-121 | The page's `onClickBack` is invoked exactly once if the page defines one, and not at all otherwise. It is invoked first; the one update to the back target comes last, and nothing else is logged. |
| WizardComponent.Step | spec/pivotal-ui-react/wizard/wizard_spec.js:30-212 | One handler call leaves the index in range. A valid `setPage` request is stored as given. Finish and Cancel keep the page. |
| WizardComponent.Run | spec/pivotal-ui-react/wizard/wizard_spec.js:30-212 | No sequence of handler calls, started on a valid page, ever leaves the valid range. |
| WizardComponent.NextRepeated | spec/pivotal-ui-react/wizard/wizard_spec.js:157-200 | Calling `onClickNext` n times from page k reaches page min(k+n, last). |
| WizardComponent.SetPageLast | spec/pivotal-ui-react/wizard/wizard_spec.js:30-59 | Whatever came before, a final `setPage(i)` leaves the wizard on the clamped i. |
| WizardComponent.FinishCancelKeepPage | spec/pivotal-ui-react/wizard/wizard_spec.js:203-212 | Any number of finish and cancel calls leave the page unchanged. |
| WizardComponent.BackUndoesNext | spec/pivotal-ui-react/wizard/wizard_spec.js:76-89 | Back undoes Next on any page but the last, when the page reached has no custom back. |
| WizardComponent.NextUndoesBack | spec/pivotal-ui-react/wizard/wizard_spec.js:157-166 | Next undoes a default Back on any page but the first. |
| WizardComponent.CancelControl | spec/pivotal-ui-react/wizard/wizard_spec.js:224-249 | Cancel shows if and only if the wizard is on the first page and the host supplied `cancel`. Its label is `cancelText`, defaulting to "Cancel", and it is enabled. |
| WizardComponent.BackControl | spec/pivotal-ui-react/wizard/wizard_spec.js:123-154 | Back shows if and only if the page is not the first and does not hide it. A `backComponent` takes its place exactly when one is given. Otherwise the button reads "Back" and is disabled exactly while saving. |
| WizardComponent.NextControl | spec/pivotal-ui-react/wizard/wizard_spec.js:255-311 | Next shows if and only if the page is not the last and does not hide it. Its label is the page's `nextText`, defaulting to "Next". It is disabled exactly when `nextEnabled`, applied to the current index, says no. |
| WizardComponent.FinishControl | spec/pivotal-ui-react/wizard/wizard_spec.js:319-447 | Finish shows if and only if the page is the last and does not hide it. A `finishComponent` takes its place exactly when one is given. While saving, the button shows a spinner and `savingText`, defaulting to "Saving". Otherwise it reads `finishText`, defaulting to "Finish". |
| WizardComponent.FooterFor | spec/pivotal-ui-react/wizard/wizard_spec.js:214-459 | Next and Finish never show together, and neither do Cancel and Back. On a page without hide flags, exactly one of Next and Finish shows. |
| WizardComponent.Wired | spec/pivotal-ui-react/wizard/wizard_spec.js:145-153 | Only a default button reaches a wizard handler, and it does so exactly when it is enabled. A custom element or an absent slot never does. |
| WizardComponent.PlainPageNavigable | spec/pivotal-ui-react/wizard/wizard_spec.js:263-273 | On a page with no options and no save in progress, the Next button is live and leads to k+1 on every page but the last. The Back button is live and leads to k-1 on every page but the first. |
| WizardComponent.Wizard.constructor | spec/pivotal-ui-react/wizard/wizard_spec.js:7-18 | A freshly mounted wizard is on page 0, holds the given pages and props, and has invoked nothing. |
| WizardComponent.Wizard.SetProps | spec/pivotal-ui-react/wizard/wizard_spec.js:94-104 | New props from the host replace the old ones. The page index is kept. |
| WizardComponent.Wizard.OnClickNext | spec/pivotal-ui-react/wizard/wizard_spec.js:157-200 | The new page is the Next target of the old one. The log grows by exactly the Next events. |
| WizardComponent.Wizard.OnClickBack | spec/pivotal-ui-react/wizard/wizard_spec.js:76-121 | The new page is the Back target of the old one. The log grows by exactly the Back events. |
| WizardComponent.Wizard.OnClickFinish | spec/pivotal-ui-react/wizard/wizard_spec.js:203-212 | `finish` is invoked once and the page is unchanged. Without a `finish` prop, nothing is invoked and the call is reported as a missing callback. |
| WizardComponent.Wizard.OnClickCancel | spec/pivotal-ui-react/wizard/wizard_spec.js:62-74 | `cancel` is invoked once and the page is unchanged. Without a `cancel` prop, nothing is invoked and the call is reported as a missing callback. |
| WizardComponent.Wizard.CurrentFooter | spec/pivotal-ui-react/wizard/wizard_spec.js:214-222 | The footer rendered is the footer selected for the current page and props. |
| WizardComponent.Wizard.ClickNextButton | spec/pivotal-ui-react/wizard/wizard_spec.js:297-306 | A click on Next runs the Next handler if and only if the Next slot holds an enabled button. Otherwise nothing changes. |
| WizardComponent.Wizard.ClickBackButton | spec/pivotal-ui-react/wizard/wizard_spec.js:145-153 | A click on Back runs the Back handler if and only if the Back slot holds an enabled default button. A custom element or a disabled button runs nothing. |
| WizardComponent.Wizard.ClickFinishButton | spec/pivotal-ui-react/wizard/wizard_spec.js:449-457 | A click on Finish invokes `finish` if and only if the Finish slot holds the default button and `finish` was supplied. A custom element invokes nothing. |
| WizardComponent.Wizard.ClickCancelButton | spec/pivotal-ui-react/wizard/wizard_spec.js:228-238 | A click on Cancel invokes `cancel` exactly when the button shows. It never finds the callback missing, and the page does not move. |
| WizardScenarios.FinishOnly | spec/pivotal-ui-react/wizard/wizard_spec.js:17 | The suite's props: `finish` is supplied, `cancel` is not, nothing is saving, and no label is overridden. |
| WizardScenarios.TwoPages | spec/pivotal-ui-react/wizard/wizard_spec.js:11-16 | The suite's two pages: the first page's `nextEnabled` gives the chosen answer, and the second page is plain. |
| WizardScenarios.GetPageAfterDirectWrite | spec/pivotal-ui-react/wizard/wizard_spec.js:20-27 | After a direct write of 5, `getPage` reads 5. |
| WizardScenarios.SetPageClamps | spec/pivotal-ui-react/wizard/wizard_spec.js:30-59 | With 2 pages, `setPage(1)` gives 1, `setPage(-1)` gives 0 and `setPage(5)` gives 1. |
| WizardScenarios.CancelCallsHost | spec/pivotal-ui-react/wizard/wizard_spec.js:62-74 | With `cancel` supplied, `onClickCancel` calls it once and stays on page 0. |
| WizardScenarios.DefaultBack | spec/pivotal-ui-react/wizard/wizard_spec.js:76-89 | Back from page 1 with no custom callback reaches page 0. |
| WizardScenarios.CustomBack | spec/pivotal-ui-react/wizard/wizard_spec.js:91-121 | From page 2, a callback that returns 0 is invoked and the wizard lands on 0, not 1. |
| WizardScenarios.BackComponentNotWired | spec/pivotal-ui-react/wizard/wizard_spec.js:123-154 | The `backComponent` fills the Back slot. Clicking it invokes nothing and stays on page 2. |
| WizardScenarios.DefaultNext | spec/pivotal-ui-react/wizard/wizard_spec.js:157-166 | Next from page 0 reaches page 1. |
| WizardScenarios.CustomNext | spec/pivotal-ui-react/wizard/wizard_spec.js:168-200 | From page len-2, the page's `onClickNext` runs first and the wizard then reaches the last page. |
| WizardScenarios.FinishCallsHost | spec/pivotal-ui-react/wizard/wizard_spec.js:203-212 | `onClickFinish` calls `finish` once and stays on page 1. |
| WizardScenarios.FirstPageFooter | spec/pivotal-ui-react/wizard/wizard_spec.js:224-257 | On the first page there is no Back, and Cancel appears only with a `cancel` callback, reading "Cancel" or "Close". Next reads "Next" and is enabled. |
| WizardScenarios.FirstPageNextClick | spec/pivotal-ui-react/wizard/wizard_spec.js:263-273 | Clicking Next on the first page shows page 1. |
| WizardScenarios.FirstPageNextOptions | spec/pivotal-ui-react/wizard/wizard_spec.js:275-295 | `hideNextButton` removes Next. `nextText` relabels it "customNext". |
| WizardScenarios.FirstPageNextDisabled | spec/pivotal-ui-react/wizard/wizard_spec.js:297-311 | When `nextEnabled` says no, Next is disabled and clicking it leaves the wizard on page 0. |
| WizardScenarios.LastPageFooter | spec/pivotal-ui-react/wizard/wizard_spec.js:314-375 | On the last page Finish reads "Finish", Back reads "Back", and there is no Next. The hide flags remove Finish and Back, and `finishText` relabels Finish. |
| WizardScenarios.LastPageClicks | spec/pivotal-ui-react/wizard/wizard_spec.js:355-391 | On the last page Back shows page 0, and Finish calls `finish`. |
| WizardScenarios.LastPageSaving | spec/pivotal-ui-react/wizard/wizard_spec.js:393-433 | While saving, Finish shows a spinner with "Creating" or "Saving", and Back is disabled. When idle, Finish reads "Finish" and Back is enabled. |
| WizardScenarios.FinishComponentNotWired | spec/pivotal-ui-react/wizard/wizard_spec.js:435-458 | The `finishComponent` fills the Finish slot. Clicking it does not call `finish`. |

## Left out

- The implementation file `src/react/wizard` is not part of this model. Its behaviour is taken from the assertions of its test suite. The lines below name each point where the suite asserts nothing and say what the model chooses there.
- Rendering is not modelled: JSX trees, CSS classes, the spinner icon (only a flag), DOM queries and test mocking. A page's `render(nav)` and the identity of the `nav` functions have no meaning in Dafny, and the wizard renders the page at `currentPage`.
- Host callbacks are not executed; the model only records their invocation in `events`. A callback that itself calls `setPage` or `getPage` is not modelled.
- The calls `nextEnabled` receives are not recorded. The predicate is modelled as a function of the index `getPage` returns.
- BackTarget: an `onClickBack` callback is modelled by the one value it returns. The test suite does not assert what happens when that value is not a number; the model then moves one page back, as when the page has no callback.
- NextTarget: the test suite does not assert Next on the last page. The model keeps the wizard there, by the same clamping as `setPage`.
- BackTarget: the test suite does not assert a default Back on page 0. The model keeps the wizard there, by the same clamping as `setPage`.
- Wizard.OnClickNext: `nextEnabled` only disables the rendered Next button (lines 297-311). The handler itself does not check it, so a call through `nav.onClickNext` or a direct call still advances. No test calls the handler while `nextEnabled` says no.
- Page indices are JavaScript numbers, but the model uses `int`. A fractional index such as `setPage(1.5)`, or an `onClickBack` that returns `NaN` (which is of type number), cannot be represented.
- `nextText` is a function in the source (line 288). The model keeps only the string it returns.
- FinishControl: whether the Finish button is also disabled while saving is not asserted. It is modelled as enabled, with a spinner.
- CancelControl: the suite checks Cancel only on the first page (lines 224-249). The model shows it on no other page.
- FinishControl, NextControl, BackControl: no test checks that Finish is absent on the first page, and no test looks at a middle page. The model hides Finish on every page but the last, and shows the default Next and Back buttons on middle pages.
- Wizard.ClickCancelButton: the suite never clicks the Cancel button; lines 62-74 call `onClickCancel` directly. The model wires the button to that handler.
- CancelControl, NextControl: the suite tests saving only on the last page, where neither control exists. The model keeps both enabled while saving.
- BackControl: the Back button is disabled while saving on every page. The test checks this only on the last page.
- Wizard.OnClickFinish and Wizard.OnClickCancel: the test suite does not assert a call made without the matching callback prop. The model reports it as the outcome `CallbackMissing`, with nothing invoked.
- The range `0 <= currentPage < |pages|` is not a global invariant. The test writes `currentPage` directly (5 on a two-page wizard, lines 20-27). The range holds after `setPage`, Next and Back. Handlers that read the current page require it.
- Wizard.constructor and Wizard.SetProps: an empty `pages` list is excluded, because rendering reads the current page's descriptor.
- Four spots in the test file are malformed (lines 309, 314, 407 and 411). The model takes the evident intent of each block.
- `gulpfile.js` is build glue over external tools (bundling, stylesheets, asset copying, a dev server) and is not part of this model.
