/**
 * One `TenUp.modal` instance as the program runs it: the closure's variables held in the
 * fields of a `Controller`, each of the closure's functions a method that changes the live
 * `Document` step by step. Every method is proved to leave exactly the state the matching
 * function of `ModalSpec` describes, so the lemmas proved there hold of the running code.
 */
module Modal {
  import opened Wrappers
  import opened Js
  import opened Dom
  import opened ModalSpec

  class Controller {
    /** The document the instance works on. */
    const doc: Document
    /** The elements the trigger selector matches. */
    const triggers: set<ElemId>
    /** `safetyModalTitle`, replaced for good by a trigger's `data-set-modal-title`. */
    var title: string
    /** The focus listeners `trap_focus` installed, and the trap area they send focus to. */
    var trap: Trap
    /** `self`, the dialog looked up by id. */
    var self: Option<ElemId>
    /** The listeners registered so far. */
    var listeners: Listeners

    /** The state the specification functions work on. */
    function Snapshot(): State
      reads this, doc
    {
      State(doc.View(), title, trap)
    }

    /** The instance as the event listeners see it. */
    function Active(): Instance
      reads this
      requires self.Some?
    {
      Instance(self.value, triggers, listeners)
    }

    /** A controller over `d` before `TenUp.modal` has run, with the initial `safetyModalTitle`. */
    constructor (d: Document, triggerSet: set<ElemId>)
      ensures doc == d && triggers == triggerSet && title == DefaultTitle && trap == Uninstalled
      ensures self == None && listeners == NoListeners
    {
      doc, triggers, title, trap := d, triggerSet, DefaultTitle, Uninstalled;
      self, listeners := None, NoListeners;
    }

    /** The outcome of a start that found its dialog, as the specification describes it. */
    function Outcome(status: Status): InitRun
      reads this, doc
    {
      Started(Snapshot(), self, listeners, status)
    }

    /** `TenUp.modal(options)` with `target` as `options.target`. */
    method Start(target: Selector) returns (found: bool, status: Status)
      modifies this, doc
      ensures found <==> Initialize(old(Snapshot()), target, triggers).Started?
      ensures found ==> Outcome(status) == Initialize(old(Snapshot()), target, triggers)
      ensures !found ==> Snapshot() == old(Snapshot()) && self == old(self) && listeners == old(listeners)
    {
      var p := doc.View();
      var el := First(p, DocOrder(p), target);
      if el.None? {
        return false, Ok;
      }
      found := true;
      status := Launch(ElementById(p, IdProperty(p, el.value)));
    }

    /** Everything `TenUp.modal` does once the dialog `dialog` has been looked up by id. */
    method Launch(dialog: Option<ElemId>) returns (status: Status)
      modifies this, doc
      ensures Outcome(status) == ModalSpec.Launch(old(Snapshot()), dialog, triggers)
    {
      self, listeners := dialog, NoListeners;
      status := OrganizeDom();
      if status.Threw? {
        return;
      }
      if self.None? {
        return Threw(TypeError);
      }
      status := SetupModal(self.value);
      if status.Threw? {
        return;
      }
      status := Listen(self.value);
    }

    /** `setup_a11y_modal_triggers`, then the event bindings, after a setup that completed. */
    method Listen(sid: ElemId) returns (status: Status)
      requires self == Some(sid) && listeners == NoListeners
      modifies this, doc
      ensures Outcome(status) == ModalSpec.Listen(old(Snapshot()), Ok, sid, triggers)
    {
      var v := doc.View();
      var step := SetupTriggers(Select(v, DocOrder(v), AnyOf(triggers)));
      if step.Aborted? {
        return Threw(step.error);
      }
      listeners := Listeners(true, None, false);
      var w := doc.View();
      var close := First(w, Descendants(w, sid), HasAttr(CloseAttr));
      if close.None? {
        return Threw(TypeError);
      }
      listeners := Listeners(true, close, true);
      status := Ok;
    }

    /** `organize_dom`. */
    method OrganizeDom() returns (status: Status)
      modifies doc
      ensures doc.View() == Organize(old(doc.View())).page
      ensures status == Organize(old(doc.View())).status
    {
      var p0 := doc.View();
      var ms := ModalListing(p0);
      var k := 0;
      while k < |ms|
        invariant 0 <= k <= |ms|
        invariant doc.View() == MoveAll(p0, ms[..k])
      {
        doc.InsertBefore(ms[k]);
        assert ms[..k + 1][..k] == ms[..k];
        k := k + 1;
      }
      assert ms[..|ms|] == ms;
      var q := doc.View();
      var x := First(q, DocOrder(q), LacksClass(ModalClass));
      if x.None? {
        return Threw(TypeError);
      }
      doc.AddClass(x.value, HideClass);
      status := Ok;
    }

    /** `setup_a11y_modal` on the dialog `sid`. */
    method SetupModal(sid: ElemId) returns (status: Status)
      modifies doc
      ensures doc.View() == SetupDialog(old(doc.View()), sid).page
      ensures status == SetupDialog(old(doc.View()), sid).status
    {
      var p := doc.View();
      var heading := TitleElement(p, sid);
      var regions := Select(p, Descendants(p, sid), HasClassNamed(ModalDocClass));
      doc.SetAttribute(sid, Role, RoleFor(Attr(p, sid, DataModalAlert)));
      doc.SetAttribute(sid, TabIndex, "-1");
      SetupRegionLookup(p, sid);
      var region := Region(doc.View(), sid);
      if region.None? {
        return Threw(TypeError);
      }
      doc.SetAttribute(region.value, TabIndex, "-1");
      if !Truthy(Attr(doc.View(), sid, AriaLabel)) {
        doc.SetAttribute(sid, AriaLabelledBy, LabelSource(doc.View(), heading));
      }
      status := SetupRegionsLoop(regions);
    }

    /** The `for j` loop of `setup_a11y_modal` over the content regions `regions`. */
    method SetupRegionsLoop(regions: seq<ElemId>) returns (status: Status)
      modifies doc
      ensures PageRun(doc.View(), status) == SetupRegions(old(doc.View()), regions)
    {
      ghost var start := doc.View();
      var j := 0;
      while j < |regions|
        invariant 0 <= j <= |regions|
        invariant SetupRegions(doc.View(), regions[j..]) == SetupRegions(start, regions)
      {
        assert regions[j..][0] == regions[j] && regions[j..][1..] == regions[j + 1..];
        var st := SetupRegionRound(regions[j]);
        if st.Threw? {
          return st;
        }
        j := j + 1;
      }
      status := Ok;
    }

    /** One round of the `for j` loop of `setup_a11y_modal`. */
    method SetupRegionRound(region: ElemId) returns (status: Status)
      modifies doc
      ensures doc.View() == SetupRegion(old(doc.View()), region).page
      ensures status == SetupRegion(old(doc.View()), region).status
    {
      doc.SetAttribute(region, Role, "document");
      var close := CloseControl(doc.View(), region);
      if close.None? {
        return Threw(TypeError);
      }
      doc.SetAttribute(close.value, AriaLabel, CloseLabel);
      var parent := ParentOf(doc.View(), region);
      if parent.None? {
        return Threw(TypeError);
      }
      doc.SetAttribute(close.value, AriaControls, Stringify(Attr(doc.View(), parent.value, Id)));
      status := Ok;
    }

    /** `setup_a11y_modal_triggers` over the matched triggers `ts`. */
    method SetupTriggers(ts: seq<ElemId>) returns (step: BindStep)
      modifies doc
      ensures BindRun(doc.View(), step) == BindAll(old(doc.View()), ts)
    {
      ghost var start := doc.View();
      var m := 0;
      while m < |ts|
        invariant 0 <= m <= |ts|
        invariant BindAll(doc.View(), ts[m..]) == BindAll(start, ts)
      {
        assert ts[m..][0] == ts[m] && ts[m..][1..] == ts[m + 1..];
        var st := BindTrigger(ts[m]);
        if st != Bound {
          return st;
        }
        m := m + 1;
      }
      step := Bound;
    }

    /** One round of the `for m` loop of `setup_a11y_modal_triggers`. */
    method BindTrigger(t: ElemId) returns (step: BindStep)
      modifies doc
      ensures BindRun(doc.View(), step) == BindOne(old(doc.View()), t)
    {
      var p := doc.View();
      var href := Attr(p, t, Href);
      if Truthy(href) {
        doc.SetAttribute(t, Role, "button");
      }
      var p1 := doc.View();
      if Truthy(Attr(p1, t, AriaControls)) {
      } else if Truthy(Attr(p1, t, DataModalOpen)) {
        doc.SetAttribute(t, AriaControls, Attr(p1, t, DataModalOpen).value);
      } else if Truthy(href) {
        doc.SetAttribute(t, AriaControls, FragmentTarget(href.value));
      } else {
        return ReturnedFalse;
      }
      var q := doc.View();
      var controls := Stringify(Attr(q, t, AriaControls));
      if controls == "" {
        return Aborted(SyntaxError);
      }
      if Attr(q, t, DataModalAlert) == Some("true") {
        var d := ElementById(q, controls);
        if d.None? {
          return Aborted(TypeError);
        }
        if Attr(q, d.value, Role) != Some("alertdialog") {
          doc.SetAttribute(d.value, Role, "alertdialog");
        }
      }
      step := Bound;
    }

    /** `x.focus()`, with the focus listeners of `trap_focus` answering the focus event. */
    method FocusElement(x: ElemId)
      modifies doc
      ensures Snapshot() == FocusVia(old(Snapshot()), x)
    {
      if doc.focused == Some(x) {
        return;
      }
      doc.Focus(x);
      if Redirects(Snapshot(), x) {
        doc.Focus(trap.area.value);
      }
    }

    /** `open_a11y_modal` for a click on the trigger `t`. */
    method OpenModal(t: ElemId) returns (status: Status)
      requires self.Some?
      modifies this, doc
      ensures self == old(self) && listeners == old(listeners)
      ensures Run(Snapshot(), status) == Open(old(Snapshot()), t, self.value)
    {
      var p := doc.View();
      var d := OpenTarget(p, t);
      if d.None? {
        return Threw(TypeError);
      }
      PrepareOpen(t, d.value);
      status := HideAndFocusOn(d.value);
    }

    /** The start of `open_a11y_modal` on the dialog `d`: label it, trap focus, reveal it. */
    method PrepareOpen(t: ElemId, d: ElemId)
      requires self.Some?
      modifies this, doc
      ensures self == old(self) && listeners == old(listeners)
      ensures Snapshot() == Prepare(old(Snapshot()), t, d, self.value)
    {
      LabelDialog(t, d);
      trap := Installed(Region(doc.View(), self.value));
      doc.SetAttribute(d, AriaHidden, "false");
      doc.AddClass(doc.bodyId, OpenClass);
    }

    /** The lazy labelling at the start of `open_a11y_modal`. */
    method LabelDialog(t: ElemId, d: ElemId)
      modifies this, doc
      ensures self == old(self) && listeners == old(listeners)
      ensures Snapshot() == LabelOnOpen(old(Snapshot()), t, d)
    {
      var p := doc.View();
      if NeedsLabel(p, d) {
        if Truthy(Attr(p, t, DataSetModalTitle)) {
          title := Attr(p, t, DataSetModalTitle).value;
        }
        doc.SetAttribute(d, AriaLabel, title);
      }
    }

    /** The end of `open_a11y_modal`: hide the tagged sibling, focus the dialog's content region. */
    method HideAndFocusOn(d: ElemId) returns (status: Status)
      modifies doc
      ensures Run(Snapshot(), status) == HideAndFocus(old(Snapshot()), d)
    {
      var h := HiddenSibling(doc.View());
      if h.None? {
        return Threw(TypeError);
      }
      doc.SetAttribute(h.value, AriaHidden, "true");
      var c := Region(doc.View(), d);
      if c.None? {
        return Threw(TypeError);
      }
      FocusElement(c.value);
      status := Ok;
    }

    /** `close_a11y_modal`. */
    method CloseModal() returns (status: Status)
      requires self.Some?
      modifies doc
      ensures Run(Snapshot(), status) == Close(old(Snapshot()), self.value)
    {
      var sid := self.value;
      var back := ReturnFocusTarget(doc.View(), sid);
      doc.RemoveClass(doc.bodyId, OpenClass);
      doc.SetAttribute(sid, AriaHidden, "true");
      var h := HiddenSibling(doc.View());
      if h.None? {
        return Threw(TypeError);
      }
      doc.RemoveAttribute(h.value, AriaHidden);
      if back.None? {
        return Threw(TypeError);
      }
      FocusElement(back.value);
      status := Ok;
    }

    /** The dialog's click listener; `stopped` tells whether it stopped the event's propagation. */
    method SelfClicked(target: ElemId) returns (status: Status, stopped: bool)
      requires self.Some?
      modifies doc
      ensures Run(Snapshot(), status) == OnSelfClick(old(Snapshot()), self.value, target)
      ensures stopped <==> Region(old(doc.View()), self.value).Some? && OverlayHit(old(doc.View()), self.value, target)
    {
      var sid := self.value;
      var p := doc.View();
      if Region(p, sid).None? {
        return Threw(TypeError), false;
      }
      stopped := OverlayHit(p, sid, target);
      if stopped {
        status := CloseModal();
      } else {
        status := Ok;
      }
    }

    /** The dialog's keydown listener. */
    method SelfKeydown(keyCode: nat) returns (status: Status)
      requires self.Some?
      modifies doc
      ensures Run(Snapshot(), status) == OnSelfKeydown(old(Snapshot()), self.value, keyCode)
    {
      if keyCode == 27 && IsOpen(doc.View()) {
        status := CloseModal();
      } else {
        status := Ok;
      }
    }

    /** The document's click listener. */
    method DocumentClicked(target: ElemId) returns (status: Status)
      requires self.Some?
      modifies this, doc
      ensures self == old(self) && listeners == old(listeners)
      ensures Run(Snapshot(), status) == OnDocumentClick(old(Snapshot()), Active(), target)
    {
      if target in triggers {
        status := OpenModal(target);
      } else {
        status := Ok;
      }
    }

    /** A click on `target` reaching the registered listeners in bubbling order. */
    method DispatchClick(target: ElemId)
      requires self.Some?
      modifies this, doc
      ensures self == old(self) && listeners == old(listeners)
      ensures Snapshot() == Click(old(Snapshot()), Active(), target)
    {
      var sid := self.value;
      var p := doc.View();
      var st: Status;
      if listeners.onClose.Some? && Contains(p, listeners.onClose.value, target) {
        st := CloseModal();
      }
      var stopped := false;
      if listeners.onSelf && Contains(p, sid, target) {
        st, stopped := SelfClicked(target);
      }
      if listeners.onDocument && !stopped {
        st := DocumentClicked(target);
      }
    }

    /** A keydown on `target` reaching the dialog's listener, then the document's (`keytrolls_a11y_modal_trigger`). */
    method DispatchKeydown(target: ElemId, keyCode: nat, which: nat)
      requires self.Some?
      modifies this, doc
      ensures self == old(self) && listeners == old(listeners)
      ensures Snapshot() == Keydown(old(Snapshot()), Active(), target, keyCode, which)
    {
      var st: Status;
      if listeners.onSelf && Contains(doc.View(), self.value, target) {
        st := SelfKeydown(keyCode);
      }
      if listeners.onDocument && target in triggers {
        var key := if keyCode != 0 then keyCode else which;
        if key == 32 || key == 13 {
          DispatchClick(target);
        }
      }
    }
  }
}
