/**
 * The slice of the DOM that the evaluator touches: elements with a class list
 * and an inline style, and jQuery selections of them. jQuery's mutators apply
 * to every matched element and are idempotent; `hasClass` asks whether any
 * matched element carries the class.
 */
module Dom {

  /** The value of one inline style declaration: a pixel length or any other text. */
  datatype CssValue = Px(pixels: int) | Raw(text: string)

  /** One element: its class list and its inline `style` declarations. */
  datatype Element = Element(classes: set<string>, style: map<string, CssValue>)

  /** A jQuery selection: the matched elements in document order (possibly none). */
  type Selection = seq<Element>

  /** Applies `f` to every matched element, as each jQuery mutator does. */
  function Each(sel: Selection, f: Element -> Element): (r: Selection)
    ensures |r| == |sel|
    ensures forall i :: 0 <= i < |sel| ==> r[i] == f(sel[i])
  {
    if |sel| == 0 then [] else [f(sel[0])] + Each(sel[1..], f)
  }

  /** `$sel.addClass(c)`. */
  function AddClass(sel: Selection, c: string): (r: Selection)
    ensures |r| == |sel|
    ensures forall i :: 0 <= i < |sel| ==>
      r[i].classes == sel[i].classes + {c} && r[i].style == sel[i].style
  {
    Each(sel, (e: Element) => e.(classes := e.classes + {c}))
  }

  /** `$sel.removeClass(c)`. */
  function RemoveClass(sel: Selection, c: string): (r: Selection)
    ensures |r| == |sel|
    ensures forall i :: 0 <= i < |sel| ==>
      r[i].classes == sel[i].classes - {c} && r[i].style == sel[i].style
  {
    Each(sel, (e: Element) => e.(classes := e.classes - {c}))
  }

  /** `$sel.css({prop: v})`: sets one declaration and keeps the others. */
  function SetCss(sel: Selection, prop: string, v: CssValue): (r: Selection)
    ensures |r| == |sel|
    ensures forall i :: 0 <= i < |sel| ==>
      r[i].classes == sel[i].classes && r[i].style == sel[i].style[prop := v]
  {
    Each(sel, (e: Element) => e.(style := e.style[prop := v]))
  }

  /** `$sel.attr('style', '')`: drops every inline declaration. */
  function ClearStyle(sel: Selection): (r: Selection)
    ensures |r| == |sel|
    ensures forall i :: 0 <= i < |sel| ==>
      r[i].classes == sel[i].classes && r[i].style == map[]
  {
    Each(sel, (e: Element) => e.(style := map[]))
  }

  /** `$sel.hasClass(c)`: some matched element carries `c`; false on an empty selection. */
  predicate HasClass(sel: Selection, c: string)
  {
    exists i :: 0 <= i < |sel| && c in sel[i].classes
  }
}
