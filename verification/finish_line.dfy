/**
 * The FinishLine evaluator: a bound node whose classes (and inline `top`)
 * follow the scroll position between a start line and a finish line, plus a
 * class on the page body while the zone is running.
 *
 * Everything `run` reads from the live page (window width, scroll position,
 * the reference lines' geometry) arrives as a `Layout`; everything it writes
 * (the node's classes and inline style, the body's classes) is a `Page`.
 */
module FinishLine {
  import opened Wrappers
  import opened Dom
  import opened Geometry

  /** The options record the evaluator is constructed with. */
  datatype Options = Options(
    runningModifier: string,      // class on the node while running
    finishModifier: string,       // class on the node once completed
    bodyClass: string,            // class on the body while running
    north: bool,                  // watch upward scrolling instead of downward
    startOffset: Option<int>,
    finishOffset: Option<int>,
    killWidth: Option<int>)       // at or below this window width the zone is switched off

  /** What `run` reads from the live page, never cached between calls. */
  datatype Layout = Layout(
    windowWidth: int,
    scrollTop: int,
    startLine: seq<Box>,          // the start-line selection; its first element is measured
    finishLine: seq<Box>)         // the finish-line selection; its first element is measured

  /** What the evaluator writes: the bound node selection and the body's class list. */
  datatype Page = Page(node: Selection, body: set<string>)

  /** A JavaScript return value as far as these methods produce one. */
  datatype JsValue = Undefined | Bool(b: bool)

  /** A method's return value together with the page it leaves behind. */
  datatype Outcome = Outcome(returned: JsValue, page: Page)

  // ---------------------------------------------------------------------
  // Geometry of one evaluation

  predicate Guarded(o: Options, l: Layout, p: Page)
  {
    Killed(o.killWidth, l.windowWidth, |p.node|, |l.startLine|, |l.finishLine|)
  }

  function StartTriggerOf(o: Options, l: Layout): int
    requires |l.startLine| > 0
  {
    StartTrigger(o.north, l.startLine[0], OffsetOrZero(o.startOffset))
  }

  function FinishTriggerOf(o: Options, l: Layout): int
    requires |l.finishLine| > 0
  {
    FinishTrigger(o.north, l.finishLine[0], OffsetOrZero(o.finishOffset))
  }

  predicate IsRunningOf(o: Options, l: Layout)
    requires |l.startLine| > 0
  {
    IsRunning(o.north, l.scrollTop, StartTriggerOf(o, l))
  }

  predicate HasCompletedOf(o: Options, l: Layout)
    requires |l.finishLine| > 0
  {
    HasCompleted(o.north, l.scrollTop, FinishTriggerOf(o, l), l.finishLine[0].height)
  }

  /** The inline `top` a completed node is pinned to: the finish trigger plus the finish offset. */
  function CompletedTop(o: Options, l: Layout): int
    requires |l.finishLine| > 0
  {
    FinishTriggerOf(o, l) + OffsetOrZero(o.finishOffset)
  }

  /** The phase one evaluation puts the zone in. */
  function PhaseOf(o: Options, l: Layout, p: Page): (ph: Phase)
    ensures ph == Inert <==> Guarded(o, l, p)
  {
    if Guarded(o, l, p) then Inert
    else Classify(IsRunningOf(o, l), HasCompletedOf(o, l))
  }

  // ---------------------------------------------------------------------
  // The operations

  /** `isActive()`: whether the node carries the running class. */
  function IsActive(o: Options, p: Page): (active: bool)
    ensures active ==> |p.node| > 0
    ensures active <==> exists i :: 0 <= i < |p.node| && o.runningModifier in p.node[i].classes
  {
    HasClass(p.node, o.runningModifier)
  }

  /** `deactivate()`: strip the running and finish classes from the node and the body class from the body. */
  function Deactivate(o: Options, p: Page): (r: Outcome)
    ensures r.returned == Bool(true)
    ensures |r.page.node| == |p.node|
    ensures forall i :: 0 <= i < |p.node| ==>
      && r.page.node[i].classes == p.node[i].classes - {o.runningModifier, o.finishModifier}
      && r.page.node[i].style == p.node[i].style
    ensures r.page.body == p.body - {o.bodyClass}
    ensures !IsActive(o, r.page)
  {
    var node := RemoveClass(RemoveClass(p.node, o.runningModifier), o.finishModifier);
    Outcome(Bool(true), Page(node, p.body - {o.bodyClass}))
  }

  /**
   * `run()`, as the ordered sequence of class and style writes it performs.
   * The guard path deactivates and returns false; the other path returns
   * nothing (`undefined`).
   */
  function Run(o: Options, l: Layout, p: Page): (r: Outcome)
    ensures |r.page.node| == |p.node|
    ensures r.returned == (if Guarded(o, l, p) then Bool(false) else Undefined)
  {
    if Guarded(o, l, p) then
      Outcome(Bool(false), Deactivate(o, p).page)
    else
      var finishTrigger := FinishTriggerOf(o, l);
      var running := IsRunningOf(o, l);
      var completed := HasCompletedOf(o, l);
      var afterRunning :=
        if running then
          Page(AddClass(p.node, o.runningModifier), p.body + {o.bodyClass})
        else
          Page(RemoveClass(p.node, o.runningModifier), p.body - {o.bodyClass});
      var afterFinish :=
        if completed then
          var node := RemoveClass(afterRunning.node, o.runningModifier);
          var node := AddClass(node, o.finishModifier);
          var node := SetCss(node, "top", Px(finishTrigger + OffsetOrZero(o.finishOffset)));
          Page(node, afterRunning.body - {o.bodyClass})
        else
          var node := ClearStyle(afterRunning.node);
          var node := RemoveClass(node, o.finishModifier);
          Page(node, afterRunning.body);
      Outcome(Undefined, afterFinish)
  }

  // ---------------------------------------------------------------------
  // Net effect of `run`, stated per phase

  /** The state one node element is left in by a phase. */
  function Settle(o: Options, ph: Phase, top: int, e: Element): Element
  {
    var r, f := o.runningModifier, o.finishModifier;
    match ph
    case Inert => Element(e.classes - {r, f}, e.style)
    case Idle => Element(e.classes - {r, f}, map[])
    case Running => Element(e.classes + {r} - {f}, map[])
    case Completed => Element(e.classes - {r} + {f}, e.style["top" := Px(top)])
  }

  /** The body's classes after a phase: the body class is present exactly while running. */
  function SettleBody(o: Options, ph: Phase, body: set<string>): set<string>
  {
    if ph == Running then body + {o.bodyClass} else body - {o.bodyClass}
  }

  /** The page `run` should leave, computed from the phase alone. */
  function NetEffect(o: Options, l: Layout, p: Page): Page
  {
    var ph := PhaseOf(o, l, p);
    var top := if ph == Completed then CompletedTop(o, l) else 0;
    Page(Each(p.node, (e: Element) => Settle(o, ph, top, e)), SettleBody(o, ph, p.body))
  }

  /** The literal write sequence of `run` has exactly the per-phase net effect. */
  lemma RunIsNetEffect(o: Options, l: Layout, p: Page)
    ensures Run(o, l, p).page == NetEffect(o, l, p)
  {
    var r := Run(o, l, p).page;
    var n := NetEffect(o, l, p);
    forall i | 0 <= i < |p.node|
      ensures r.node[i] == n.node[i]
    {
    }
  }

  /** Guard: `run` returns false, behaves as `deactivate`, and leaves inline styles alone. */
  lemma RunGuarded(o: Options, l: Layout, p: Page)
    requires Guarded(o, l, p)
    ensures Run(o, l, p).returned == Bool(false)
    ensures Run(o, l, p).page == Deactivate(o, p).page
    ensures forall i :: 0 <= i < |p.node| ==>
      Run(o, l, p).page.node[i].style == p.node[i].style
  {
  }

  /**
   * Completed takes precedence: whatever `isRunning` says, the node ends with
   * the finish class, without the running class, pinned at the completed top,
   * and the body loses its class.
   */
  lemma RunCompleted(o: Options, l: Layout, p: Page)
    requires !Guarded(o, l, p) && HasCompletedOf(o, l)
    requires o.runningModifier != o.finishModifier
    ensures var q := Run(o, l, p).page;
      && q.body == p.body - {o.bodyClass}
      && forall i :: 0 <= i < |q.node| ==>
        && o.finishModifier in q.node[i].classes
        && o.runningModifier !in q.node[i].classes
        && "top" in q.node[i].style
        && q.node[i].style["top"] == Px(CompletedTop(o, l))
  {
  }

  /**
   * Not completed: inline styles are cleared, the finish class is gone, and
   * the running class and the body class are present exactly when running.
   */
  lemma RunNotCompleted(o: Options, l: Layout, p: Page)
    requires !Guarded(o, l, p) && !HasCompletedOf(o, l)
    requires o.runningModifier != o.finishModifier
    ensures var q := Run(o, l, p).page;
      && (o.bodyClass in q.body <==> IsRunningOf(o, l))
      && forall i :: 0 <= i < |q.node| ==>
        && q.node[i].style == map[]
        && o.finishModifier !in q.node[i].classes
        && (o.runningModifier in q.node[i].classes <==> IsRunningOf(o, l))
  {
  }

  /** Frame: `run` adds or removes no class other than the three it manages. */
  lemma RunFrame(o: Options, l: Layout, p: Page, x: string)
    ensures x != o.runningModifier && x != o.finishModifier ==>
      forall i :: 0 <= i < |p.node| ==>
        (x in Run(o, l, p).page.node[i].classes <==> x in p.node[i].classes)
    ensures x != o.bodyClass ==> (x in Run(o, l, p).page.body <==> x in p.body)
  {
  }

  /** Settling an element twice in the same phase is settling it once. */
  lemma SettleIdempotent(o: Options, ph: Phase, top: int, e: Element)
    ensures Settle(o, ph, top, Settle(o, ph, top, e)) == Settle(o, ph, top, e)
  {
  }

  /** Running twice with unchanged layout leaves the page as running once does. */
  lemma RunIdempotent(o: Options, l: Layout, p: Page)
    ensures Run(o, l, Run(o, l, p).page).page == Run(o, l, p).page
  {
    var q := Run(o, l, p).page;
    RunIsNetEffect(o, l, p);
    RunIsNetEffect(o, l, q);
    var ph := PhaseOf(o, l, p);
    var top := if ph == Completed then CompletedTop(o, l) else 0;
    assert PhaseOf(o, l, q) == ph;
    forall i | 0 <= i < |p.node|
      ensures Run(o, l, q).page.node[i] == q.node[i]
    {
      SettleIdempotent(o, ph, top, p.node[i]);
    }
  }

  /** After `run` the zone reports active exactly when it is in the Running phase. */
  lemma IsActiveAfterRun(o: Options, l: Layout, p: Page)
    requires o.runningModifier != o.finishModifier
    ensures IsActive(o, Run(o, l, p).page) <==> PhaseOf(o, l, p) == Running
  {
  }

  /** `deactivate` is idempotent. */
  lemma DeactivateIdempotent(o: Options, p: Page)
    ensures Deactivate(o, Deactivate(o, p).page) == Deactivate(o, p)
  {
    var q := Deactivate(o, p).page;
    var q2 := Deactivate(o, q).page;
    forall i | 0 <= i < |p.node|
      ensures q2.node[i] == q.node[i]
    {
    }
  }

  /**
   * The pinned `top` by direction: going north the finish offset cancels and
   * `top` is the finish line's bottom edge; going south the offset is added
   * twice to the finish line's top.
   */
  lemma CompletedTopByDirection(o: Options, l: Layout)
    requires |l.finishLine| > 0
    ensures o.north ==> CompletedTop(o, l) == l.finishLine[0].top + l.finishLine[0].height
    ensures !o.north ==> CompletedTop(o, l) == l.finishLine[0].top + 2 * OffsetOrZero(o.finishOffset)
  {
  }

  /** The worked example's page: start line at 500 (height 20), finish line at 1000 (height 50). */
  function ExampleLayout(scrollTop: int): Layout
  {
    Layout(1024, scrollTop, [Box(500, 20)], [Box(1000, 50)])
  }

  /**
   * The worked example, scrolling south with no offsets: the start trigger is
   * 520 and the completion threshold 950; scroll 300 is idle, 600 running and
   * 980 completed, with the node pinned at 1000.
   */
  lemma WorkedExample(p: Page)
    requires |p.node| > 0
    ensures var o := Options("running", "finished", "in-zone", false, None, None, None);
      && StartTriggerOf(o, ExampleLayout(300)) == 520
      && FinishTriggerOf(o, ExampleLayout(300)) - 50 == 950
      && PhaseOf(o, ExampleLayout(300), p) == Idle
      && PhaseOf(o, ExampleLayout(600), p) == Running
      && PhaseOf(o, ExampleLayout(980), p) == Completed
      && CompletedTop(o, ExampleLayout(980)) == 1000
  {
  }
}
