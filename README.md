# Accessible modal dialog controller, modelled in Dafny

This project models the controller in `_component/modal/vendor/js/modal.js`, the 10up
accessible modal plugin. A call to `TenUp.modal(options)`:

- moves every `.a11y-modal` element to the front of the body;
- tags the element to hide while a modal is open (`a11y-hide-if-modal-open`);
- gives the dialog its role, tabindex and accessible name;
- prepares each `.modal` content region and its close control;
- binds the trigger elements to the dialog they open;
- registers the listeners that open, close and trap focus.

The model keeps the shape of the program:

- `ClassTokens` (`class_tokens.dfy`) models `TenUp.hasClass`, `addClass` and `removeClass`. A
  `className` is modelled as its token sequence. Both branches are modelled: the `classList`
  branch, and the string-based fallback for browsers without it.
- `Js` (`js.dfy`) models the JavaScript value rules the code relies on:
  - truthiness of `getAttribute` results;
  - `setAttribute` turning `null` into "null" and `undefined` into "undefined";
  - `String.prototype.split` on `'#'`.
- `Dom` (`dom.dfy`) is the document.
  - A `Page` value holds each element's attributes and class tokens, the body's children,
    each element's descendants in document order, parents, the focused element and which
    class API the browser has.
  - The pure functions on a `Page` (`SetAttr`, `AddClassTo`, `InsertFirst`, `FocusOn`, the
    queries `Select`/`First`/`ElementById`) are the specification.
  - The class `Document` holds the same state in mutable fields. Its methods are proved to
    match those functions.
- `ModalSpec` (`modal_spec.dfy`) has one pure function per function of the closure, plus
  the lemmas that state what the code guarantees. It covers `organize_dom`,
  `setup_a11y_modal`, `setup_a11y_modal_triggers`, `open_a11y_modal`, `close_a11y_modal`,
  the focus listener of `trap_focus`, the listeners and `TenUp.modal` itself.
  - A JavaScript exception (a `TypeError` from a `null` dereference, a `SyntaxError` from the
    selector `'#'`) is a `Threw` status. The changes made before it stay.
  - An exception in an event listener does not stop the other listeners of the same event.
- `Modal` (`modal.dfy`) is the class `Controller`.
  - Its fields are the closure's variables: `self`, the registered listeners, the trap area,
    and the module-level `safetyModalTitle`.
  - Each of its methods runs the steps of one source function on a live `Document`, with the
    loops of the source (`for k`, `for j`, `for m`).
  - Each method is proved to leave exactly the state the matching `ModalSpec` function
    describes, so every `ModalSpec` lemma holds of the running code.

The code is modelled as written, including its quirks:

- The defaults loop never runs, because `defaults.length` is `undefined`.
- `findTitle` and `findHeading` use the same selector, so the heading branch is dead. With no
  title, `aria-labelledby` becomes the string "undefined"; with a title that has no id, it
  becomes "null".
- The `typeof … === 'undefined'` test is never true, so no close button is synthesised. A
  content region without a close control makes setup throw.
- `body.querySelector('*:not(.a11y-modal)')` searches all descendants. It tags only the first
  element in document order without the modal class, usually an element inside the first
  dialog.
- `return false` inside the trigger loop ends the binding of all later triggers. The rest of
  `TenUp.modal` still runs.
- `split('#')[1]` is the text between the first `#` and the next one, or "undefined" when
  there is no `#`. An empty target makes `querySelector('#')` throw.
- A trigger's `data-set-modal-title` replaces `safetyModalTitle` for every later open.
- The focus trap uses the content region of the instance's own dialog, whichever dialog was
  opened.

More behaviour of the code as written, which its own comments or names suggest was meant
otherwise:

- A title element without an id does not get one: the branch commented "generate one"
  (`modal.js:188`) sits behind the heading lookup, which is never reached (see above).
- The comment at `modal.js:217` says a missing close control is created. Nothing creates
  one; setup throws a `TypeError` instead (`SetupRegionStatus`).
- A close control's `aria-controls` is the id of its content region's parent, which is
  the dialog's id only when the region is a direct child of the dialog.
- The comment at `modal.js:351` speaks of "all direct children of the BODY". One element
  is tagged, the first one in document order without `.a11y-modal`, at any depth
  (`OrganizeClasses`, `TaggedInFirstDialog`).
- A trigger without a target ends the binding loop, so no later trigger is bound
  (`BindStopsAtUnresolved`).
- Closing moves focus to the last element in document order whose `aria-controls` equals
  the dialog's id, which need not be the trigger that opened it (`CloseEffects`).
- An open while a dialog is already open, or a close while none is open, runs in full:
  nothing guards against it.
- The comment at `modal.js:364-367` expects a dialog without a label to get
  `safetyModalTitle` when it opens. After setup, a dialog always has a truthy `aria-label` or
  `aria-labelledby` unless its title element's id is the empty string (`SetupNamesDialog`),
  so the fallback rarely applies. The name can also be the dangling reference "undefined" or "null".
- Every open adds focus listeners to the elements present at that moment; the focus trap is
  not installed once.
- The dialog matched by `options.target` is looked up again by its id, so a dialog without
  an id is never set up (`Initialize`).

## Model

| member | source | states |
|---|---|---|
| ClassTokens.AddClass | _component/modal/vendor/js/modal.js:46-54 | after adding, the class is present; no other token appears; the class occurs once when the classList API is used or it was absent, and its count is unchanged otherwise; a duplicate-free list is unchanged, or gains the class at the end |
| ClassTokens.RemoveClass | _component/modal/vendor/js/modal.js:60-67 | other classes keep their membership; the class is gone with classList, or when it occurred at most once; the fallback branch removes exactly one occurrence, and changes nothing when the class is absent |
| ClassTokens.RemoveSingleLeavesOthers | _component/modal/vendor/js/modal.js:60-67 | removing a class that occurs once removes only it and keeps the order of the other tokens |
| ClassTokens.AddRemoveRoundTrip | _component/modal/vendor/js/modal.js:46-67 | adding an absent class and removing it again restores the token list: in the fallback branch for any list, with classList for a list without repeated tokens (which that branch re-serialises) |
| Js.Split | _component/modal/vendor/js/modal.js:298 | `split('#')` yields at least one piece, and no piece contains the separator |
| Js.JoinSplit | _component/modal/vendor/js/modal.js:298 | the pieces of a split, joined with the separator again, give back the string |
| Js.SplitJoin | _component/modal/vendor/js/modal.js:298 | splitting a join of separator-free pieces gives back the pieces |
| Dom.ElementById | _component/modal/vendor/js/modal.js:105 | `getElementById` finds only an element in the document whose id is that value, and never finds anything for "" |
| Dom.ElementByIdAbsent | _component/modal/vendor/js/modal.js:105 | `getElementById` finds nothing exactly when the id is "" or no element in the document carries it |
| Dom.ElementByIdFirst | _component/modal/vendor/js/modal.js:105 | when several elements carry the id, `getElementById` finds the first of them in document order |
| Dom.FirstEarliest | _component/modal/vendor/js/modal.js:353 | `querySelector` returns a match no later than any other match of the candidates |
| Dom.Document.AddClass | _component/modal/vendor/js/modal.js:46-54 | the live class list of the element becomes `ClassTokens.AddClass` of the old one; nothing else changes |
| Dom.Document.RemoveClass | _component/modal/vendor/js/modal.js:60-67 | the live class list of the element becomes `ClassTokens.RemoveClass` of the old one; nothing else changes |
| Dom.InsertFirst | _component/modal/vendor/js/modal.js:348 | `m` becomes the first child of the body, the body becomes its parent and no other parent changes; `m` leaves the body's other children; attributes, classes and focus stay; no element gains a descendant, `m` keeps its own, every former ancestor of `m` below the body loses `m` and its subtree, and the body keeps all its descendants |
| Dom.Document.InsertBefore | _component/modal/vendor/js/modal.js:348 | `body.insertBefore(m, body.firstChild)` makes `m` the first child of the body and takes its subtree out of every former ancestor below the body |
| ModalSpec.MoveAll | _component/modal/vendor/js/modal.js:347-349 | moving elements keeps every attribute, class and focus, and never gives an element a new descendant |
| ModalSpec.MoveAllBody | _component/modal/vendor/js/modal.js:347-349 | for a duplicate-free list of modals, the body after the loop starts with the modals in reverse order, followed by the other children in their old order |
| ModalSpec.Organize | _component/modal/vendor/js/modal.js:334-355 | attributes and focus are kept; the result is Ok exactly when an element without the modal class exists, and a `TypeError` otherwise; no element gains a descendant |
| ModalSpec.OrganizeBody | _component/modal/vendor/js/modal.js:337-349 | after `organize_dom`, the body's children are the modals in reverse document order, then the other children in their old order |
| ModalSpec.OrganizeClasses | _component/modal/vendor/js/modal.js:353 | exactly one class list changes: the tagged element gains `a11y-hide-if-modal-open` |
| ModalSpec.TaggedIsNotDialog | _component/modal/vendor/js/modal.js:353 | the tagged element lacks the modal class and carries the hiding class afterwards |
| ModalSpec.OrganizeAcyclic | _component/modal/vendor/js/modal.js:347-349 | moving the modals never makes an element its own descendant |
| ModalSpec.TaggedInFirstDialog | _component/modal/vendor/js/modal.js:347-353 | when the first dialog has a descendant without the modal class, the tagged element is inside that dialog |
| ModalSpec.SetupRegion | _component/modal/vendor/js/modal.js:205-238 | a round sets role "document" on the region and only that role; any `aria-label` it changes becomes "Close Modal"; only role, `aria-label` and `aria-controls` change |
| ModalSpec.SetupRegionStatus | _component/modal/vendor/js/modal.js:235-236 | a round completes exactly when the region has a close control and a parent; otherwise it throws a `TypeError` |
| ModalSpec.SetupRegionLabelsClose | _component/modal/vendor/js/modal.js:235-236 | a completed round gives the close control the label "Close Modal" and points its `aria-controls` at the parent's id ("null" when the parent has none) |
| ModalSpec.SetupRegions | _component/modal/vendor/js/modal.js:205-238 | elements outside the list keep their role; when the loop completes, every listed region has role "document"; only role, `aria-label` and `aria-controls` change |
| ModalSpec.SetupPrefix | _component/modal/vendor/js/modal.js:146-156 | the dialog gets role "alertdialog" when its `data-modal-alert` is "true" and "dialog" otherwise, and tabindex "-1"; nothing else changes |
| ModalSpec.SetupLabel | _component/modal/vendor/js/modal.js:157-200 | the first region gets tabindex "-1"; `aria-labelledby` becomes the title's id unless the dialog has a truthy `aria-label`, in which case it is kept |
| ModalSpec.SetupDialog | _component/modal/vendor/js/modal.js:125-240 | setup changes attributes only, never classes or the tree |
| ModalSpec.SetupDialogFrame | _component/modal/vendor/js/modal.js:125-240 | setup writes only role, tabindex, `aria-labelledby`, `aria-label` and `aria-controls`; every other attribute of every element, including the triggers' `data-modal-open` and `href`, is unchanged |
| ModalSpec.SetupRegionLookup | _component/modal/vendor/js/modal.js:156-157 | setting the dialog's role and tabindex does not change which region `querySelector('.modal')` finds |
| ModalSpec.SetupNeedsRegion | _component/modal/vendor/js/modal.js:157 | setup completes only for a dialog with a content region; without one it throws a `TypeError` after the role and tabindex |
| ModalSpec.SetupDialogRole | _component/modal/vendor/js/modal.js:146-150 | after setup, the dialog's role is "alertdialog" when its `data-modal-alert` is "true", and "dialog" otherwise |
| ModalSpec.SetupDialogFocusable | _component/modal/vendor/js/modal.js:156-157 | after setup, the dialog and its first content region have tabindex "-1" |
| ModalSpec.SetupDialogLabel | _component/modal/vendor/js/modal.js:162-198 | without a truthy `aria-label`, the dialog's `aria-labelledby` becomes the title element's id ("null" when the title has no id, "undefined" when there is no title); with one, it is kept |
| ModalSpec.SetupDialogRegions | _component/modal/vendor/js/modal.js:205-212 | after a completed setup, every content region of the dialog has role "document" |
| ModalSpec.SetupLabelNames | _component/modal/vendor/js/modal.js:162-198 | the labelling step leaves the dialog with a truthy `aria-label` or `aria-labelledby`, unless the title's id is "" |
| ModalSpec.SetupRegionsKeepName | _component/modal/vendor/js/modal.js:205-238 | the region rounds never take a dialog's name away |
| ModalSpec.SetupNamesDialog | _component/modal/vendor/js/modal.js:132-198 | after a completed setup the dialog never needs the open-time fallback label, unless its title element has an empty id |
| ModalSpec.FragmentOfLink | _component/modal/vendor/js/modal.js:298 | a link "a#b…" targets "b"; a link without '#' targets "undefined" |
| ModalSpec.Annotate | _component/modal/vendor/js/modal.js:264-301 | a link trigger gets role "button"; `aria-controls` is kept if truthy, else taken from `data-modal-open`, else from the `href` fragment, else left as it was; nothing else changes |
| ModalSpec.BindOne | _component/modal/vendor/js/modal.js:259-325 | a round changes only roles and the trigger's `aria-controls`; any other element's role either stays or becomes "alertdialog" |
| ModalSpec.BindOneResolves | _component/modal/vendor/js/modal.js:281-308 | a round returns `false` exactly when no target source exists, and then changes nothing; otherwise the trigger's `aria-controls` is the resolved target |
| ModalSpec.BindOneErrors | _component/modal/vendor/js/modal.js:315-323 | a `SyntaxError` is thrown exactly when the resolved target is empty; a `TypeError` exactly when an alert trigger's target is missing |
| ModalSpec.BindOneAlert | _component/modal/vendor/js/modal.js:323-325 | a bound alert trigger leaves its target with role "alertdialog" |
| ModalSpec.BindOneLinkRole | _component/modal/vendor/js/modal.js:264-268 | a trigger with a non-empty `href` ends the round with role "button", or "alertdialog" when it is its own alert target |
| ModalSpec.BindAll | _component/modal/vendor/js/modal.js:257-327 | the loop changes only roles, and `aria-controls` of the listed triggers; any element that is not a trigger keeps its role or gets "alertdialog", so an alert dialog is never downgraded |
| ModalSpec.BindAllAppend | _component/modal/vendor/js/modal.js:257-327 | running the loop over `a + b` runs it over `a` and then, if all of `a` was bound, over `b` |
| ModalSpec.BindStopsAtUnresolved | _component/modal/vendor/js/modal.js:305-308 | the first trigger without a target source makes the loop return `false`, with the page as the earlier rounds left it, so no later trigger is bound |
| ModalSpec.BindOneKeepsOthers | _component/modal/vendor/js/modal.js:259-325 | a round leaves the target sources of every other trigger unchanged |
| ModalSpec.BindAllControls | _component/modal/vendor/js/modal.js:257-327 | when the loop binds a duplicate-free list, every trigger ends with `aria-controls` set to the target resolved from its attributes before the loop |
| ModalSpec.FocusVia | _component/modal/vendor/js/modal.js:465-484 | focus lands on the element unless the modal is open and the element is outside the trap area, in which case it ends on the trap area; only focus changes; with no modal open, focus is exactly the element |
| ModalSpec.FocusKeepsContainment | _component/modal/vendor/js/modal.js:474-483 | while the modal is open with a trap area, focus stays inside the trap area whatever is focused |
| ModalSpec.LabelOnOpen | _component/modal/vendor/js/modal.js:369-382 | only the target's `aria-label` can change |
| ModalSpec.Reveal | _component/modal/vendor/js/modal.js:398-404 | the target gets `aria-hidden="false"` and the body gets `modal-is-open`; nothing else changes |
| ModalSpec.HideAndFocus | _component/modal/vendor/js/modal.js:410-414 | in the page only `aria-hidden` and focus change; no element moves or changes parent |
| ModalSpec.Prepare | _component/modal/vendor/js/modal.js:369-404 | in the page only `aria-label`, `aria-hidden` and the body's classes change; focus, the tree and every parent stay (the fallback title and the trap are state outside the page) |
| ModalSpec.Open | _component/modal/vendor/js/modal.js:357-416 | without a target element, nothing changes and a `TypeError` is thrown; otherwise only `aria-label`, `aria-hidden`, the body's classes and focus change |
| ModalSpec.OpenFrame | _component/modal/vendor/js/modal.js:357-416 | an open changes `aria-label` only on its target and `aria-hidden` only on the target and the tagged sibling, so no other dialog changes state; no element moves |
| ModalSpec.OpenLookups | _component/modal/vendor/js/modal.js:369-414 | the steps of an open do not change the hidden sibling or the content regions that the later steps look up |
| ModalSpec.OpenStatus | _component/modal/vendor/js/modal.js:362-414 | an open completes exactly when the target, the hidden sibling and the target's content region exist; every failure is a `TypeError` |
| ModalSpec.OpenLabel | _component/modal/vendor/js/modal.js:369-382 | an unnamed target gets `aria-label` set to the trigger's `data-set-modal-title`, which becomes the new fallback title, or to the current fallback; a named target and the fallback are left alone |
| ModalSpec.PrepareEffects | _component/modal/vendor/js/modal.js:369-404 | the start of an open shows the target, marks the body open and arms the trap on the instance's region, without changing what the later lookups find |
| ModalSpec.HideAndFocusEffects | _component/modal/vendor/js/modal.js:410-414 | the end of an open hides the tagged sibling and focuses the target's region, or the trap area when the listener redirects |
| ModalSpec.OpenEffects | _component/modal/vendor/js/modal.js:386-414 | a completed open marks the body open, shows the target, hides the tagged sibling, arms the trap on the instance's region, focuses a content region, and adds `modal-is-open` to the body's classes |
| ModalSpec.OpenTrapsFocus | _component/modal/vendor/js/modal.js:386-414 | opening the instance's own dialog focuses its content region, and focus is then contained |
| ModalSpec.Conceal | _component/modal/vendor/js/modal.js:430-431 | the body loses `modal-is-open` and the dialog gets `aria-hidden="true"`; nothing else changes |
| ModalSpec.Close | _component/modal/vendor/js/modal.js:421-439 | closing keeps the fallback title and the trap; no element moves; only the body's class list changes; `aria-hidden` changes only on the dialog and the tagged sibling, and every other attribute stays |
| ModalSpec.Uncover | _component/modal/vendor/js/modal.js:435-437 | unhiding the tagged sibling and returning focus change only that sibling's `aria-hidden` and focus |
| ModalSpec.CloseStatus | _component/modal/vendor/js/modal.js:425-437 | a close completes exactly when the hidden sibling and an element to return focus to exist; every failure is a `TypeError` |
| ModalSpec.CloseEffects | _component/modal/vendor/js/modal.js:425-437 | a completed close unhides the sibling, hides the dialog and removes `modal-is-open`; if the body is then not open, focus goes to the last element controlling the dialog; other class lists are unchanged |
| ModalSpec.OpenCloseRoundTrip | _component/modal/vendor/js/modal.js:357-439 | opening the instance's dialog and closing it completes; every class list is restored (with classList, when the body had no repeated class), the body is no longer open, the sibling is unhidden, and focus returns to the last element in document order whose `aria-controls` equals the dialog's id |
| ModalSpec.CloseAfterOpen | _component/modal/vendor/js/modal.js:421-439 | closing a state that an open produced completes, restores the class lists (with classList, when the body had no repeated class), and returns focus |
| ModalSpec.RoundTripLookups | _component/modal/vendor/js/modal.js:410-435 | after an open, close finds the same hidden sibling and return target as before the open, and a return target exists |
| ModalSpec.RoundTripClasses | _component/modal/vendor/js/modal.js:404-430 | adding `modal-is-open` to a body that lacked it and removing it again restores every class list, in the fallback branch even with repeated classes |
| ModalSpec.EscapeCloses | _component/modal/vendor/js/modal.js:512-517 | Escape inside an open dialog closes it |
| ModalSpec.EscapeIgnoredWhenClosed | _component/modal/vendor/js/modal.js:512-517 | Escape while no modal is open changes nothing |
| ModalSpec.OverlayClickCloses | _component/modal/vendor/js/modal.js:502-508 | a click on the overlay closes the dialog, and the trigger listener does not run for it |
| ModalSpec.CloseControlCloses | _component/modal/vendor/js/modal.js:521-523 | a click inside the close control closes the dialog |
| ModalSpec.TriggerClickOpens | _component/modal/vendor/js/modal.js:527-534 | a click on a trigger outside the dialog opens the dialog it controls |
| ModalSpec.KeyActivatesTrigger | _component/modal/vendor/js/modal.js:443-459 | on a trigger, only Space or Enter (by `keyCode`, or by `which` when `keyCode` is 0) opens, exactly as a click does; any other key changes nothing |
| ModalSpec.StrayClickIgnored | _component/modal/vendor/js/modal.js:502-534 | a click outside the dialog, the close control and the triggers changes nothing |
| ModalSpec.Initialize | _component/modal/vendor/js/modal.js:82-105 | nothing happens exactly when no element matches the target selector; a matched dialog without an id ends in a `TypeError` with no listener registered |
| ModalSpec.Launch | _component/modal/vendor/js/modal.js:492-494 | a start keeps the fallback title and the trap; a failed id lookup ends in a `TypeError` with no listeners; a completed start leaves the dialog with tabindex "-1", all listeners registered and the close control inside the dialog, and it has the role its own attribute selects, or "alertdialog" |
| ModalSpec.Listen | _component/modal/vendor/js/modal.js:494-543 | a failed setup registers nothing; a completed start registers every listener, with the close control inside the dialog; the dialog's role stays or becomes "alertdialog" |
| ModalSpec.InitRole | _component/modal/vendor/js/modal.js:146-150 | after a completed start the dialog's role is the one its `data-modal-alert` selects, or "alertdialog"; an alert dialog stays "alertdialog" |
| Modal.Controller.constructor | _component/modal/vendor/js/modal.js:74 | a new instance has `safetyModalTitle` "Dialog Window", no trap, no dialog and no listeners |
| Modal.Controller.Start | _component/modal/vendor/js/modal.js:82-105 | `TenUp.modal` leaves the document, title, dialog and listeners as `Initialize` describes, and changes nothing when no dialog matches |
| Modal.Controller.Launch | _component/modal/vendor/js/modal.js:492-494 | the steps after the lookup leave the state `ModalSpec.Launch` describes |
| Modal.Controller.Listen | _component/modal/vendor/js/modal.js:494-543 | trigger setup and listener registration leave the state `ModalSpec.Listen` describes |
| Modal.Controller.OrganizeDom | _component/modal/vendor/js/modal.js:334-355 | the `for k` loop and the tagging leave the document as `Organize` describes |
| Modal.Controller.SetupModal | _component/modal/vendor/js/modal.js:125-240 | `setup_a11y_modal` leaves the document and status `SetupDialog` describes |
| Modal.Controller.SetupRegionsLoop | _component/modal/vendor/js/modal.js:205-238 | the `for j` loop leaves the document and status `SetupRegions` describes |
| Modal.Controller.SetupRegionRound | _component/modal/vendor/js/modal.js:207-236 | one region round leaves the document and status `SetupRegion` describes |
| Modal.Controller.SetupTriggers | _component/modal/vendor/js/modal.js:248-328 | the `for m` loop, with its early `return false`, leaves the document and outcome `BindAll` describes |
| Modal.Controller.BindTrigger | _component/modal/vendor/js/modal.js:259-325 | one trigger round leaves the document and outcome `BindOne` describes |
| Modal.Controller.FocusElement | _component/modal/vendor/js/modal.js:465-484 | a focus call, answered by the trap's listener, leaves the state `FocusVia` describes |
| Modal.Controller.OpenModal | _component/modal/vendor/js/modal.js:357-416 | `open_a11y_modal` leaves the state and status `Open` describes |
| Modal.Controller.LabelDialog | _component/modal/vendor/js/modal.js:369-382 | the lazy labelling leaves the state `LabelOnOpen` describes, including the new fallback title |
| Modal.Controller.PrepareOpen | _component/modal/vendor/js/modal.js:369-404 | labelling, `trap_focus` and revealing leave the state `Prepare` describes |
| Modal.Controller.HideAndFocusOn | _component/modal/vendor/js/modal.js:410-414 | hiding the sibling and focusing leave the state `HideAndFocus` describes |
| Modal.Controller.CloseModal | _component/modal/vendor/js/modal.js:421-439 | `close_a11y_modal` leaves the state and status `Close` describes |
| Modal.Controller.SelfClicked | _component/modal/vendor/js/modal.js:502-508 | the overlay listener acts as `OnSelfClick`, and stops propagation exactly on an overlay click |
| Modal.Controller.SelfKeydown | _component/modal/vendor/js/modal.js:512-517 | the Escape listener acts as `OnSelfKeydown` |
| Modal.Controller.DocumentClicked | _component/modal/vendor/js/modal.js:527-534 | the trigger click listener acts as `OnDocumentClick` |
| Modal.Controller.DispatchClick | _component/modal/vendor/js/modal.js:502-534 | a click through every registered listener leaves the state `Click` describes |
| Modal.Controller.DispatchKeydown | _component/modal/vendor/js/modal.js:538-543 | a keydown through every registered listener, including the synthesized click, leaves the state `Keydown` describes |

## Left out

- The `Element.prototype.matches` polyfill and the `window.TenUp` set-up (lines 13-32) are
  browser feature detection.
- CSS selectors are not evaluated.
  - The target and trigger selectors are abstract: a `Selector` for the target, and a fixed
    set of elements for the triggers.
  - `querySelector('#' + id)` is modelled as a lookup by id, and its only syntax error
    modelled is the empty id.
  - The quoting in `[aria-controls="…"]` is not modelled.
- Regular-expression syntax in class names (a class containing regex metacharacters) is not
  modelled; a class name is a plain token.
- Whitespace handling inside `className` is reduced to the token sequence.
- `preventDefault` is not modelled, and neither are tab order, anchor navigation or any
  other browser default action.
- Only the `stopPropagation` calls that change which of this instance's listeners run are
  modelled.
- The generated close button (lines 113-123, `innerHTML`) is built but never inserted, so it
  is not modelled.
- The callback (lines 547-549) is a call into code the model cannot see.
- The document is reduced to the body's subtree. Elements outside `body` (the `head`, the
  `html` element) are not modelled, and the `html` variable, which is `document.body`, is the
  body element `bodyId`.
- Focus listeners are not stacked: each open re-runs `trap_focus` and adds listeners to the
  elements present at that moment. The model keeps only the most recent trap area, and
  treats every element as carrying a listener.
- Elements are not checked for focusability: `focus()` always moves focus.
- Several instances on one page, and their interleaved listeners, are not modelled. One
  `Controller` models one instance.
- Elements are never created or removed after start.
- The focus event that the redirect itself fires is not re-examined. It lands inside the
  trap area, where the listener does nothing.
- ModalSpec.BindOneLinkRole: stated weaker than "role is button". A trigger that
  is its own alert target ends as "alertdialog", which the code allows.
- ModalSpec.SetupNamesDialog: assumes the title element's id is not "". An empty id gives an
  empty `aria-labelledby`, and the dialog then falls back to the open-time label.
