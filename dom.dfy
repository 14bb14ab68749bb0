/**
 * The browser document the controller works on, abstracted to what the controller reads
 * and writes:
 * - element identities (`ElemId`), each with an attribute map and a class token list;
 * - the body element's ordered child list;
 * - for every element, its descendants in document order (`within`), so that scoped
 *   `querySelector`/`querySelectorAll`, `Node.contains` and document order can be computed;
 * - every element's parent;
 * - the single focused-element slot.
 *
 * CSS selector matching is replaced by the `Selector` datatype, one constructor per kind
 * of selector the controller uses. The pure functions over `Page` are the specification;
 * class `Document` holds the same state in fields that its methods update in place.
 */
module Dom {
  import opened Wrappers
  import opened Seqs
  import ClassTokens

  type ElemId = int

  /** The attributes the controller reads or writes, one constructor per markup name. */
  datatype AttrName =
    | Id                 // id
    | Role               // role
    | TabIndex           // tabindex
    | Href               // href
    | AriaLabel          // aria-label
    | AriaLabelledBy     // aria-labelledby
    | AriaControls       // aria-controls
    | AriaHidden         // aria-hidden
    | DataModalAlert     // data-modal-alert
    | DataModalOpen      // data-modal-open
    | DataModalTitle     // data-modal-title
    | DataModalClose     // data-modal-close
    | DataSetModalTitle  // data-set-modal-title

  datatype Page = Page(
    attrs: map<ElemId, map<AttrName, string>>,
    classes: map<ElemId, seq<string>>,
    body: seq<ElemId>,
    within: map<ElemId, seq<ElemId>>,
    parentOf: map<ElemId, ElemId>,
    focused: Option<ElemId>,
    bodyId: ElemId,
    classListApi: bool)

  /** `x.getAttribute(name)`: `None` plays the part of `null`. */
  function Attr(p: Page, x: ElemId, name: AttrName): Option<string>
  {
    var a := AttrsOf(p, x);
    if name in a then Some(a[name]) else None
  }

  /** The attribute map of `x`; an element without an entry has no attributes. */
  function AttrsOf(p: Page, x: ElemId): map<AttrName, string>
  {
    if x in p.attrs then p.attrs[x] else map[]
  }

  /** The class tokens of `x`; an element without an entry has none. */
  function Classes(p: Page, x: ElemId): seq<string>
  {
    if x in p.classes then p.classes[x] else []
  }

  predicate HasClassOn(p: Page, x: ElemId, cls: string)
  {
    ClassTokens.HasClass(Classes(p, x), cls)
  }

  /** The descendants of `x` (not `x` itself) in document order. */
  function Descendants(p: Page, x: ElemId): seq<ElemId>
  {
    if x in p.within then p.within[x] else []
  }

  /** `x.parentNode`. */
  function ParentOf(p: Page, x: ElemId): Option<ElemId>
  {
    if x in p.parentOf then Some(p.parentOf[x]) else None
  }

  /** `a.contains(x)`: `x` is `a` or one of its descendants. */
  predicate Contains(p: Page, a: ElemId, x: ElemId)
  {
    x == a || x in Descendants(p, a)
  }

  /** Each child followed by its descendants, child after child. */
  function Flatten(within: map<ElemId, seq<ElemId>>, children: seq<ElemId>): seq<ElemId>
  {
    if children == [] then []
    else
      [children[0]] + (if children[0] in within then within[children[0]] else [])
      + Flatten(within, children[1..])
  }

  /** The elements under the body in document order: what document-wide queries search. */
  function DocOrder(p: Page): seq<ElemId>
  {
    Flatten(p.within, p.body)
  }

  /** No element is among its own descendants. */
  ghost predicate Acyclic(p: Page)
  {
    forall x :: x !in Descendants(p, x)
  }

  /** The selectors the controller uses, as predicates on an element. */
  datatype Selector =
    | HasAttr(name: AttrName)                  // [name]
    | AttrIs(name: AttrName, value: string)    // [name="value"], #value for name Id
    | HasClassNamed(cls: string)             // .cls
    | LacksClass(cls: string)                // *:not(.cls)
    | AnyOf(ids: set<ElemId>)                // a caller-supplied selector, by the elements it matches

  predicate Matches(p: Page, x: ElemId, sel: Selector)
  {
    match sel
    case HasAttr(n) => Attr(p, x, n).Some?
    case AttrIs(n, v) => Attr(p, x, n) == Some(v)
    case HasClassNamed(c) => HasClassOn(p, x, c)
    case LacksClass(c) => !HasClassOn(p, x, c)
    case AnyOf(ids) => x in ids
  }

  /** `querySelectorAll` over the candidates `xs`: the matching ones, in order. */
  function Select(p: Page, xs: seq<ElemId>, sel: Selector): (r: seq<ElemId>)
    ensures forall x :: x in r <==> x in xs && Matches(p, x, sel)
    ensures NoDup(xs) ==> NoDup(r)
  {
    if xs == [] then []
    else if Matches(p, xs[0], sel) then
      var r := [xs[0]] + Select(p, xs[1..], sel);
      NoDupCons(xs);
      NoDupCons(r);
      r
    else
      NoDupCons(xs);
      Select(p, xs[1..], sel)
  }

  /** `querySelector` over the candidates `xs`: the first match, or `None` for `null`. */
  function First(p: Page, xs: seq<ElemId>, sel: Selector): (r: Option<ElemId>)
    ensures r.Some? ==> r.value in xs && Matches(p, r.value, sel)
    ensures r.None? <==> forall x :: x in xs ==> !Matches(p, x, sel)
  {
    if xs == [] then None
    else if Matches(p, xs[0], sel) then Some(xs[0])
    else First(p, xs[1..], sel)
  }

  /** The last element of a node list, or `None` (`undefined`) when it is empty. */
  function Last(xs: seq<ElemId>): (r: Option<ElemId>)
    ensures r.Some? <==> xs != []
    ensures r.Some? ==> r.value == xs[|xs| - 1]
  {
    if xs == [] then None else Some(xs[|xs| - 1])
  }

  /** `document.getElementById(v)`: the first element whose id is `v`; never one for "". */
  function ElementById(p: Page, v: string): (r: Option<ElemId>)
    ensures r.Some? ==> v != "" && Attr(p, r.value, Id) == Some(v) && r.value in DocOrder(p)
  {
    if v == "" then None else First(p, DocOrder(p), AttrIs(Id, v))
  }

  /** `getElementById` finds nothing exactly for "" or an id no element in the document carries. */
  lemma ElementByIdAbsent(p: Page, v: string)
    ensures ElementById(p, v).None? <==> v == "" || forall x :: x in DocOrder(p) ==> Attr(p, x, Id) != Some(v)
  {
  }

  /** A match at position `i` means the first match is at `i` or before it. */
  lemma {:induction false} FirstEarliest(p: Page, xs: seq<ElemId>, sel: Selector, i: nat)
    requires i < |xs| && Matches(p, xs[i], sel)
    ensures First(p, xs, sel).Some? && First(p, xs, sel).value in xs[..i + 1]
  {
    if !Matches(p, xs[0], sel) {
      FirstEarliest(p, xs[1..], sel, i - 1);
      assert xs[1..][..i] == xs[1..i + 1];
    }
  }

  /** `getElementById` finds the first element in document order that carries the id. */
  lemma ElementByIdFirst(p: Page, v: string, i: nat)
    requires v != "" && i < |DocOrder(p)| && Attr(p, DocOrder(p)[i], Id) == Some(v)
    ensures ElementById(p, v).Some? && ElementById(p, v).value in DocOrder(p)[..i + 1]
  {
    FirstEarliest(p, DocOrder(p), AttrIs(Id, v), i);
  }

  /** Candidates that match under `p` exactly when they match under `q` select the same. */
  lemma {:induction false} SelectSame(p: Page, q: Page, xs: seq<ElemId>, sel: Selector)
    requires forall x :: x in xs ==> (Matches(p, x, sel) <==> Matches(q, x, sel))
    ensures Select(p, xs, sel) == Select(q, xs, sel)
    ensures First(p, xs, sel) == First(q, xs, sel)
  {
    if xs != [] {
      SelectSame(p, q, xs[1..], sel);
    }
  }

  /** The selector looks at attribute `n`. */
  predicate ReadsAttr(sel: Selector, n: AttrName)
  {
    sel == HasAttr(n) || (sel.AttrIs? && sel.name == n)
  }

  /** The selector looks at class tokens. */
  predicate ReadsClasses(sel: Selector)
  {
    sel.HasClassNamed? || sel.LacksClass?
  }

  /** Setting an attribute a selector does not look at changes no query with it. */
  lemma SetAttrKeepsQuery(p: Page, x: ElemId, n: AttrName, v: string, xs: seq<ElemId>, sel: Selector)
    requires !ReadsAttr(sel, n)
    ensures Select(SetAttr(p, x, n, v), xs, sel) == Select(p, xs, sel)
    ensures First(SetAttr(p, x, n, v), xs, sel) == First(p, xs, sel)
  {
    var q := SetAttr(p, x, n, v);
    forall y | y in xs ensures Matches(q, y, sel) <==> Matches(p, y, sel) {
    }
    SelectSame(q, p, xs, sel);
  }

  /** Pages with the same tree and class tokens agree on every query that looks at classes. */
  lemma ClassQueryKeeps(p: Page, q: Page, xs: seq<ElemId>, sel: Selector)
    requires ReadsClasses(sel)
    requires q.classes == p.classes
    ensures Select(q, xs, sel) == Select(p, xs, sel)
    ensures First(q, xs, sel) == First(p, xs, sel)
  {
    forall y | y in xs ensures Matches(q, y, sel) <==> Matches(p, y, sel) {
    }
    SelectSame(q, p, xs, sel);
  }

  /** Pages on which the same elements carry `cls` agree on every query for `cls`. */
  lemma TokenQueryKeeps(p: Page, q: Page, xs: seq<ElemId>, cls: string)
    requires forall y :: HasClassOn(q, y, cls) <==> HasClassOn(p, y, cls)
    ensures Select(q, xs, HasClassNamed(cls)) == Select(p, xs, HasClassNamed(cls))
    ensures First(q, xs, HasClassNamed(cls)) == First(p, xs, HasClassNamed(cls))
  {
    SelectSame(q, p, xs, HasClassNamed(cls));
  }

  /** The first match in `a + b` is the first match in `a`, if any, else the first in `b`. */
  lemma {:induction false} FirstConcat(p: Page, a: seq<ElemId>, b: seq<ElemId>, sel: Selector)
    ensures First(p, a + b, sel) == if First(p, a, sel).Some? then First(p, a, sel) else First(p, b, sel)
  {
    if a != [] {
      assert (a + b)[1..] == a[1..] + b;
      FirstConcat(p, a[1..], b, sel);
    } else {
      assert a + b == b;
    }
  }

  /** The page and `q` differ at most in attributes and class tokens. */
  predicate SameTree(p: Page, q: Page)
  {
    q.(attrs := p.attrs, classes := p.classes) == p
  }

  /** `x.setAttribute(name, v)`. */
  function SetAttr(p: Page, x: ElemId, name: AttrName, v: string): (q: Page)
    ensures Attr(q, x, name) == Some(v)
    ensures forall y, n :: y != x || n != name ==> Attr(q, y, n) == Attr(p, y, n)
    ensures q.classes == p.classes && SameTree(p, q)
  {
    p.(attrs := p.attrs[x := AttrsOf(p, x)[name := v]])
  }

  /** `x.removeAttribute(name)`. */
  function RemoveAttr(p: Page, x: ElemId, name: AttrName): (q: Page)
    ensures Attr(q, x, name) == None
    ensures forall y, n :: y != x || n != name ==> Attr(q, y, n) == Attr(p, y, n)
    ensures q.classes == p.classes && SameTree(p, q)
  {
    p.(attrs := p.attrs[x := AttrsOf(p, x) - {name}])
  }

  /** `TenUp.addClass(x, cls)` applied to the element's token list. */
  function AddClassTo(p: Page, x: ElemId, cls: string): (q: Page)
    ensures Classes(q, x) == ClassTokens.AddClass(Classes(p, x), cls, p.classListApi)
    ensures forall y :: y != x ==> Classes(q, y) == Classes(p, y)
    ensures q.attrs == p.attrs && SameTree(p, q)
  {
    p.(classes := p.classes[x := ClassTokens.AddClass(Classes(p, x), cls, p.classListApi)])
  }

  /** `TenUp.removeClass(x, cls)` applied to the element's token list. */
  function RemoveClassFrom(p: Page, x: ElemId, cls: string): (q: Page)
    ensures Classes(q, x) == ClassTokens.RemoveClass(Classes(p, x), cls, p.classListApi)
    ensures forall y :: y != x ==> Classes(q, y) == Classes(p, y)
    ensures q.attrs == p.attrs && SameTree(p, q)
  {
    p.(classes := p.classes[x := ClassTokens.RemoveClass(Classes(p, x), cls, p.classListApi)])
  }

  /**
   * `body.insertBefore(m, body.firstChild)`: `m` leaves its old place (the body's child
   * list, or the descendants of its former ancestors below the body, together with its own
   * subtree) and becomes the body's first child. The body's own descendant list keeps its
   * members: `m` and its subtree stay inside the body. Its order is not updated, since no
   * lookup reads the body's descendants (document order is `DocOrder`, built from `body`).
   */
  function InsertFirst(p: Page, m: ElemId): (q: Page)
    ensures q.body == [m] + Without(p.body, m)
    ensures q.attrs == p.attrs && q.classes == p.classes && q.focused == p.focused
    ensures q.bodyId == p.bodyId && q.classListApi == p.classListApi
    ensures forall a, y :: y in Descendants(q, a) ==> y in Descendants(p, a)
    ensures Descendants(q, m) == Descendants(p, m)
    ensures forall a, y ::
      a != m && a != p.bodyId && a in p.within && m in p.within[a] && (y == m || y in Descendants(p, m))
      ==> y !in Descendants(q, a)
    ensures Descendants(q, p.bodyId) == Descendants(p, p.bodyId)
    ensures q.parentOf == p.parentOf[m := p.bodyId]
  {
    var moved := [m] + Descendants(p, m);
    p.(body := [m] + Without(p.body, m),
       within := map a | a in p.within ::
         if a != m && a != p.bodyId && m in p.within[a] then FilterOut(p.within[a], moved) else p.within[a],
       parentOf := p.parentOf[m := p.bodyId])
  }

  /** The page and `q` differ at most in which element has focus. */
  predicate SameButFocus(p: Page, q: Page)
  {
    q.attrs == p.attrs && q.classes == p.classes && q.body == p.body && q.within == p.within &&
    q.parentOf == p.parentOf && q.bodyId == p.bodyId && q.classListApi == p.classListApi
  }

  /** Moving the focus slot to `x` (the listeners' reaction is the controller's concern). */
  function FocusOn(p: Page, x: ElemId): (q: Page)
    ensures q.focused == Some(x)
    ensures SameButFocus(p, q)
  {
    p.(focused := Some(x))
  }

  /** The live document: the state of a `Page`, held in fields and updated in place. */
  class Document {
    var attrs: map<ElemId, map<AttrName, string>>
    var classes: map<ElemId, seq<string>>
    var body: seq<ElemId>
    var within: map<ElemId, seq<ElemId>>
    var parentOf: map<ElemId, ElemId>
    var focused: Option<ElemId>
    const bodyId: ElemId
    const classListApi: bool

    function View(): Page
      reads this
    {
      Page(attrs, classes, body, within, parentOf, focused, bodyId, classListApi)
    }

    constructor (p: Page)
      ensures View() == p
    {
      attrs, classes, body, within, parentOf, focused := p.attrs, p.classes, p.body, p.within, p.parentOf, p.focused;
      bodyId, classListApi := p.bodyId, p.classListApi;
    }

    method SetAttribute(x: ElemId, name: AttrName, v: string)
      modifies this
      ensures View() == SetAttr(old(View()), x, name, v)
    {
      var now := if x in attrs then attrs[x] else map[];
      attrs := attrs[x := now[name := v]];
    }

    method RemoveAttribute(x: ElemId, name: AttrName)
      modifies this
      ensures View() == RemoveAttr(old(View()), x, name)
    {
      var now := if x in attrs then attrs[x] else map[];
      attrs := attrs[x := now - {name}];
    }

    /** `TenUp.addClass(x, cls)`. */
    method AddClass(x: ElemId, cls: string)
      modifies this
      ensures View() == AddClassTo(old(View()), x, cls)
    {
      var now := if x in classes then classes[x] else [];
      classes := classes[x := ClassTokens.AddClass(now, cls, classListApi)];
    }

    /** `TenUp.removeClass(x, cls)`. */
    method RemoveClass(x: ElemId, cls: string)
      modifies this
      ensures View() == RemoveClassFrom(old(View()), x, cls)
    {
      var now := if x in classes then classes[x] else [];
      classes := classes[x := ClassTokens.RemoveClass(now, cls, classListApi)];
    }

    /** `body.insertBefore(m, body.firstChild)`. */
    method InsertBefore(m: ElemId)
      modifies this
      ensures View() == InsertFirst(old(View()), m)
    {
      var moved := [m] + Descendants(View(), m);
      within := map a | a in within ::
        if a != m && a != bodyId && m in within[a] then FilterOut(within[a], moved) else within[a];
      body := [m] + Without(body, m);
      parentOf := parentOf[m := bodyId];
    }

    method Focus(x: ElemId)
      modifies this
      ensures View() == FocusOn(old(View()), x)
    {
      focused := Some(x);
    }
  }

}
