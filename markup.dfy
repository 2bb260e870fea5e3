/** The default-markup builder of `initCropper`: a configuration record
    becomes a fixed element skeleton whose four configurable elements carry
    attribute lists built by conditional pushes. */
module Markup {
  import opened Js
  import opened Tokens

  /** A numeric prop: its value decides truthiness; `text` is how a template
      literal prints it. */
  datatype Num = Num(value: real, text: string)

  /** A host callback, known only by its identity. */
  datatype Callback = Callback(id: nat)

  /** The component's props other than `src`, the one prop watched after mount. */
  datatype Config = Config(
    template: Option<string>,
    // canvas
    background: bool, disabled: bool, scaleStep: real, themeColor: Option<string>,
    // image
    rotatable: bool, scalable: bool, skewable: bool, translatable: bool,
    // selection
    aspectRatio: Option<Num>, initialAspectRatio: Option<Num>, initialCoverage: Option<Num>,
    movable: bool, resizable: bool, zoomable: bool, multiple: bool, keyboard: bool, outlined: bool,
    // grid
    rows: Option<Num>, columns: Option<Num>, bordered: bool, covered: bool,
    // event callbacks
    ready: Option<Callback>, cropstart: Option<Callback>, cropmove: Option<Callback>,
    cropend: Option<Callback>, crop: Option<Callback>, zoom: Option<Callback>,
    imageTransform: Option<Callback>, selectionChange: Option<Callback>)

  /** The declared prop defaults, with every prop that has no default left unset. */
  const DefaultConfig := Config(
    None,
    true, false, 0.1, None,
    true, true, false, true,
    None, None, Some(Num(0.5, "0.5")),
    true, true, true, false, true, true,
    None, None, true, true,
    None, None, None, None, None, None, None, None)

  /** `if (n)` on a numeric prop. */
  predicate TruthyNum(n: Option<Num>) {
    n.Some? && n.value.value != 0.0
  }

  /** What `${n}` prints. */
  function Text(n: Option<Num>): string {
    if n.Some? then n.value.text else "undefined"
  }

  /** The attribute names the markup uses. */
  datatype AttrName =
    | Background | Disabled
    | Rotatable | Scalable | Skewable | Translatable
    | Hidden | Action | Plain | ThemeColor | Centered | Role
    | Movable | Resizable | Zoomable | Multiple | Keyboard | Outlined
    | AspectRatio | InitialAspectRatio | InitialCoverage
    | Rows | Columns | Bordered | Covered

  function Spelling(n: AttrName): string {
    match n
    case Background => "background"
    case Disabled => "disabled"
    case Rotatable => "rotatable"
    case Scalable => "scalable"
    case Skewable => "skewable"
    case Translatable => "translatable"
    case Hidden => "hidden"
    case Action => "action"
    case Plain => "plain"
    case ThemeColor => "theme-color"
    case Centered => "centered"
    case Role => "role"
    case Movable => "movable"
    case Resizable => "resizable"
    case Zoomable => "zoomable"
    case Multiple => "multiple"
    case Keyboard => "keyboard"
    case Outlined => "outlined"
    case AspectRatio => "aspect-ratio"
    case InitialAspectRatio => "initial-aspect-ratio"
    case InitialCoverage => "initial-coverage"
    case Rows => "rows"
    case Columns => "columns"
    case Bordered => "bordered"
    case Covered => "covered"
  }

  /** One attribute: a bare flag or `name="text"`. */
  datatype Attr = Flag(name: AttrName) | Value(name: AttrName, text: string)

  function RenderAttr(a: Attr): string {
    match a
    case Flag(n) => Spelling(n)
    case Value(n, t) => Spelling(n) + "=\"" + t + "\""
  }

  function RenderAttrs(attrs: seq<Attr>): (r: seq<string>)
    ensures |r| == |attrs|
    ensures forall k :: 0 <= k < |attrs| ==> r[k] == RenderAttr(attrs[k])
  {
    seq(|attrs|, k requires 0 <= k < |attrs| => RenderAttr(attrs[k]))
  }

  /** Some attribute of the list has this name. */
  ghost predicate HasName(attrs: seq<Attr>, name: AttrName) {
    exists k :: 0 <= k < |attrs| && attrs[k].name == name
  }

  ghost predicate DistinctNames(cands: seq<Attr>) {
    forall i, j :: 0 <= i < j < |cands| ==> cands[i].name != cands[j].name
  }

  /** With distinctly named candidates, an attribute named like candidate i is
      present iff flag i is set. */
  lemma SelectHasName(cands: seq<Attr>, keep: seq<bool>, i: nat)
    requires |cands| == |keep| && i < |cands| && DistinctNames(cands)
    ensures HasName(Select(cands, keep), cands[i].name) <==> keep[i]
  {
    var s := Select(cands, keep);
    if keep[i] {
      SelectContains(cands, keep, cands[i]);
      var k :| 0 <= k < |s| && s[k] == cands[i];
    }
    if HasName(s, cands[i].name) {
      var k :| 0 <= k < |s| && s[k].name == cands[i].name;
      SelectContains(cands, keep, s[k]);
      var j :| 0 <= j < |cands| && cands[j] == s[k] && keep[j];
      assert i == j;
    }
  }

  /** Every selected attribute is one of the candidates. */
  lemma SelectOnlyCandidates(cands: seq<Attr>, keep: seq<bool>)
    requires |cands| == |keep|
    ensures forall a :: a in Select(cands, keep) ==> a in cands
  {
    forall a | a in Select(cands, keep) ensures a in cands {
      SelectContains(cands, keep, a);
    }
  }

  // ----- the four configurable attribute lists -----

  function ImageCandidates(): seq<Attr> {
    [Flag(Rotatable), Flag(Scalable), Flag(Skewable), Flag(Translatable)]
  }

  function ImageFlags(c: Config): seq<bool> {
    [c.rotatable, c.scalable, c.skewable, c.translatable]
  }

  function ImageAttrs(c: Config): seq<Attr> {
    Select(ImageCandidates(), ImageFlags(c))
  }

  function SelectionCandidates(c: Config): seq<Attr> {
    [Flag(Movable), Flag(Resizable), Flag(Zoomable), Flag(Multiple), Flag(Keyboard), Flag(Outlined),
     Value(AspectRatio, Text(c.aspectRatio)),
     Value(InitialAspectRatio, Text(c.initialAspectRatio)),
     Value(InitialCoverage, Text(c.initialCoverage))]
  }

  /** The numeric entries differ: aspect ratios need a truthy value, coverage only a defined one. */
  function SelectionFlags(c: Config): seq<bool> {
    [c.movable, c.resizable, c.zoomable, c.multiple, c.keyboard, c.outlined,
     TruthyNum(c.aspectRatio), TruthyNum(c.initialAspectRatio), c.initialCoverage != None]
  }

  function SelectionAttrs(c: Config): seq<Attr> {
    Select(SelectionCandidates(c), SelectionFlags(c))
  }

  function GridCandidates(c: Config): seq<Attr> {
    [Value(Rows, Text(c.rows)), Value(Columns, Text(c.columns)), Flag(Bordered), Flag(Covered)]
  }

  function GridFlags(c: Config): seq<bool> {
    [TruthyNum(c.rows), TruthyNum(c.columns), c.bordered, c.covered]
  }

  function GridAttrs(c: Config): seq<Attr> {
    Select(GridCandidates(c), GridFlags(c))
  }

  function CanvasCandidates(): seq<Attr> {
    [Flag(Background), Flag(Disabled)]
  }

  function CanvasFlags(c: Config): seq<bool> {
    [c.background, c.disabled]
  }

  /** The two conditional slots of the canvas tag. */
  function CanvasAttrs(c: Config): seq<Attr> {
    Select(CanvasCandidates(), CanvasFlags(c))
  }

  lemma ImageAttrsPushes(c: Config)
    ensures ImageAttrs(c) ==
      Push(Push(Push(Push([], c.rotatable, Flag(Rotatable)), c.scalable, Flag(Scalable)),
        c.skewable, Flag(Skewable)), c.translatable, Flag(Translatable))
  {
    SelectFour(ImageCandidates(), ImageFlags(c));
  }

  lemma GridAttrsPushes(c: Config)
    ensures GridAttrs(c) ==
      Push(Push(Push(Push([], TruthyNum(c.rows), Value(Rows, Text(c.rows))),
        TruthyNum(c.columns), Value(Columns, Text(c.columns))), c.bordered, Flag(Bordered)),
        c.covered, Flag(Covered))
  {
    SelectFour(GridCandidates(c), GridFlags(c));
  }

  lemma SelectionAttrsPushes(c: Config)
    ensures SelectionAttrs(c) ==
      Push(Push(Push(Push(Push(Push(Push(Push(Push([],
        c.movable, Flag(Movable)), c.resizable, Flag(Resizable)), c.zoomable, Flag(Zoomable)),
        c.multiple, Flag(Multiple)), c.keyboard, Flag(Keyboard)), c.outlined, Flag(Outlined)),
        TruthyNum(c.aspectRatio), Value(AspectRatio, Text(c.aspectRatio))),
        TruthyNum(c.initialAspectRatio), Value(InitialAspectRatio, Text(c.initialAspectRatio))),
        c.initialCoverage != None, Value(InitialCoverage, Text(c.initialCoverage)))
  {
    SelectNine(SelectionCandidates(c), SelectionFlags(c));
  }

  // ----- the builder's push runs -----

  method BuildImageAttrs(c: Config) returns (attrs: seq<Attr>)
    ensures attrs == ImageAttrs(c)
  {
    attrs := [];
    ghost var a := attrs;
    if c.rotatable { attrs := attrs + [Flag(Rotatable)]; }
    assert attrs == Push(a, c.rotatable, Flag(Rotatable));
    a := attrs;
    if c.scalable { attrs := attrs + [Flag(Scalable)]; }
    assert attrs == Push(a, c.scalable, Flag(Scalable));
    a := attrs;
    if c.skewable { attrs := attrs + [Flag(Skewable)]; }
    assert attrs == Push(a, c.skewable, Flag(Skewable));
    a := attrs;
    if c.translatable { attrs := attrs + [Flag(Translatable)]; }
    assert attrs == Push(a, c.translatable, Flag(Translatable));
    ImageAttrsPushes(c);
  }

  method BuildSelectionAttrs(c: Config) returns (attrs: seq<Attr>)
    ensures attrs == SelectionAttrs(c)
  {
    attrs := [];
    ghost var a := attrs;
    if c.movable { attrs := attrs + [Flag(Movable)]; }
    assert attrs == Push(a, c.movable, Flag(Movable));
    a := attrs;
    if c.resizable { attrs := attrs + [Flag(Resizable)]; }
    assert attrs == Push(a, c.resizable, Flag(Resizable));
    a := attrs;
    if c.zoomable { attrs := attrs + [Flag(Zoomable)]; }
    assert attrs == Push(a, c.zoomable, Flag(Zoomable));
    a := attrs;
    if c.multiple { attrs := attrs + [Flag(Multiple)]; }
    assert attrs == Push(a, c.multiple, Flag(Multiple));
    a := attrs;
    if c.keyboard { attrs := attrs + [Flag(Keyboard)]; }
    assert attrs == Push(a, c.keyboard, Flag(Keyboard));
    a := attrs;
    if c.outlined { attrs := attrs + [Flag(Outlined)]; }
    assert attrs == Push(a, c.outlined, Flag(Outlined));
    a := attrs;
    if TruthyNum(c.aspectRatio) { attrs := attrs + [Value(AspectRatio, Text(c.aspectRatio))]; }
    assert attrs == Push(a, TruthyNum(c.aspectRatio), Value(AspectRatio, Text(c.aspectRatio)));
    a := attrs;
    if TruthyNum(c.initialAspectRatio) {
      attrs := attrs + [Value(InitialAspectRatio, Text(c.initialAspectRatio))];
    }
    assert attrs == Push(a, TruthyNum(c.initialAspectRatio), Value(InitialAspectRatio, Text(c.initialAspectRatio)));
    a := attrs;
    if c.initialCoverage != None {
      attrs := attrs + [Value(InitialCoverage, Text(c.initialCoverage))];
    }
    assert attrs == Push(a, c.initialCoverage != None, Value(InitialCoverage, Text(c.initialCoverage)));
    SelectionAttrsPushes(c);
  }

  method BuildGridAttrs(c: Config) returns (attrs: seq<Attr>)
    ensures attrs == GridAttrs(c)
  {
    attrs := [];
    ghost var a := attrs;
    if TruthyNum(c.rows) { attrs := attrs + [Value(Rows, Text(c.rows))]; }
    assert attrs == Push(a, TruthyNum(c.rows), Value(Rows, Text(c.rows)));
    a := attrs;
    if TruthyNum(c.columns) { attrs := attrs + [Value(Columns, Text(c.columns))]; }
    assert attrs == Push(a, TruthyNum(c.columns), Value(Columns, Text(c.columns)));
    a := attrs;
    if c.bordered { attrs := attrs + [Flag(Bordered)]; }
    assert attrs == Push(a, c.bordered, Flag(Bordered));
    a := attrs;
    if c.covered { attrs := attrs + [Flag(Covered)]; }
    assert attrs == Push(a, c.covered, Flag(Covered));
    GridAttrsPushes(c);
  }

  /** With every prop at its declared default: the image is rotatable, scalable
      and translatable; the selection is movable, resizable, zoomable, keyboard
      driven and outlined with a coverage of 0.5; the grid is bordered and
      covered; the canvas has a background. */
  lemma DefaultConfigLists()
    ensures CanvasAttrs(DefaultConfig) == [Flag(Background)]
    ensures ImageAttrs(DefaultConfig) == [Flag(Rotatable), Flag(Scalable), Flag(Translatable)]
    ensures SelectionAttrs(DefaultConfig) ==
      [Flag(Movable), Flag(Resizable), Flag(Zoomable), Flag(Keyboard), Flag(Outlined), Value(InitialCoverage, "0.5")]
    ensures GridAttrs(DefaultConfig) == [Flag(Bordered), Flag(Covered)]
  {
    ImageAttrsPushes(DefaultConfig);
    SelectionAttrsPushes(DefaultConfig);
    GridAttrsPushes(DefaultConfig);
    SelectSnoc([Flag(Background)], [true], Flag(Disabled), false);
    SelectSnoc([], [], Flag(Background), true);
  }

  // ----- what the three lists promise -----

  lemma ImageAttrsCorrect(c: Config)
    ensures HasName(ImageAttrs(c), Rotatable) <==> c.rotatable
    ensures HasName(ImageAttrs(c), Scalable) <==> c.scalable
    ensures HasName(ImageAttrs(c), Skewable) <==> c.skewable
    ensures HasName(ImageAttrs(c), Translatable) <==> c.translatable
    ensures forall a :: a in ImageAttrs(c) ==> a in ImageCandidates()
    ensures IsSubsequence(ImageAttrs(c), ImageCandidates())
  {
    var x, k := ImageCandidates(), ImageFlags(c);
    SelectHasName(x, k, 0);
    SelectHasName(x, k, 1);
    SelectHasName(x, k, 2);
    SelectHasName(x, k, 3);
    SelectOnlyCandidates(x, k);
    SelectIsSubsequence(x, k);
  }

  lemma SelectionCandidatesDistinct(c: Config)
    ensures DistinctNames(SelectionCandidates(c))
  {
  }

  lemma SelectionAttrsCorrect(c: Config)
    ensures HasName(SelectionAttrs(c), Movable) <==> c.movable
    ensures HasName(SelectionAttrs(c), Resizable) <==> c.resizable
    ensures HasName(SelectionAttrs(c), Zoomable) <==> c.zoomable
    ensures HasName(SelectionAttrs(c), Multiple) <==> c.multiple
    ensures HasName(SelectionAttrs(c), Keyboard) <==> c.keyboard
    ensures HasName(SelectionAttrs(c), Outlined) <==> c.outlined
    ensures HasName(SelectionAttrs(c), AspectRatio) <==> TruthyNum(c.aspectRatio)
    ensures HasName(SelectionAttrs(c), InitialAspectRatio) <==> TruthyNum(c.initialAspectRatio)
    ensures HasName(SelectionAttrs(c), InitialCoverage) <==> c.initialCoverage != None
    ensures forall a :: a in SelectionAttrs(c) ==> a in SelectionCandidates(c)
    ensures IsSubsequence(SelectionAttrs(c), SelectionCandidates(c))
  {
    var x, k := SelectionCandidates(c), SelectionFlags(c);
    SelectionCandidatesDistinct(c);
    SelectHasName(x, k, 0);
    SelectHasName(x, k, 1);
    SelectHasName(x, k, 2);
    SelectHasName(x, k, 3);
    SelectHasName(x, k, 4);
    SelectHasName(x, k, 5);
    SelectHasName(x, k, 6);
    SelectHasName(x, k, 7);
    SelectHasName(x, k, 8);
    SelectOnlyCandidates(x, k);
    SelectIsSubsequence(x, k);
  }

  lemma GridAttrsCorrect(c: Config)
    ensures HasName(GridAttrs(c), Rows) <==> TruthyNum(c.rows)
    ensures HasName(GridAttrs(c), Columns) <==> TruthyNum(c.columns)
    ensures HasName(GridAttrs(c), Bordered) <==> c.bordered
    ensures HasName(GridAttrs(c), Covered) <==> c.covered
    ensures !HasName(GridAttrs(c), Role)
    ensures forall a :: a in GridAttrs(c) ==> a in GridCandidates(c)
    ensures IsSubsequence(GridAttrs(c), GridCandidates(c))
  {
    var x, k := GridCandidates(c), GridFlags(c);
    SelectHasName(x, k, 0);
    SelectHasName(x, k, 1);
    SelectHasName(x, k, 2);
    SelectHasName(x, k, 3);
    SelectOnlyCandidates(x, k);
    SelectIsSubsequence(x, k);
    GridAttrsHaveNoRole(c);
  }

  lemma GridAttrsHaveNoRole(c: Config)
    ensures !HasName(GridAttrs(c), Role)
  {
    var x, k := GridCandidates(c), GridFlags(c);
    SelectOnlyCandidates(x, k);
    assert forall a :: a in x ==> a.name != Role;
    var r := GridAttrs(c);
    assert forall i :: 0 <= i < |r| ==> r[i] in x;
  }

  lemma CanvasAttrsCorrect(c: Config)
    ensures HasName(CanvasAttrs(c), Background) <==> c.background
    ensures HasName(CanvasAttrs(c), Disabled) <==> c.disabled
    ensures forall a :: a in CanvasAttrs(c) ==> a in CanvasCandidates()
  {
    var x, k := CanvasCandidates(), CanvasFlags(c);
    SelectHasName(x, k, 0);
    SelectHasName(x, k, 1);
    SelectOnlyCandidates(x, k);
  }

  /** A zero aspect ratio, initial aspect ratio, row or column count is dropped;
      a zero initial coverage is kept, with its printed text. */
  lemma ZeroNumericOptions(c: Config)
    ensures c.aspectRatio.Some? && c.aspectRatio.value.value == 0.0 ==> !HasName(SelectionAttrs(c), AspectRatio)
    ensures c.initialAspectRatio.Some? && c.initialAspectRatio.value.value == 0.0 ==>
      !HasName(SelectionAttrs(c), InitialAspectRatio)
    ensures c.rows.Some? && c.rows.value.value == 0.0 ==> !HasName(GridAttrs(c), Rows)
    ensures c.columns.Some? && c.columns.value.value == 0.0 ==> !HasName(GridAttrs(c), Columns)
    ensures c.initialCoverage.Some? ==> Value(InitialCoverage, c.initialCoverage.value.text) in SelectionAttrs(c)
  {
    SelectionAttrsCorrect(c);
    GridAttrsCorrect(c);
    if c.initialCoverage.Some? {
      SelectionCandidatesDistinct(c);
      SelectContains(SelectionCandidates(c), SelectionFlags(c), SelectionCandidates(c)[8]);
    }
  }

  // ----- the element skeleton -----

  datatype Tag = CanvasTag | ImageTag | ShadeTag | HandleTag | SelectionTag | GridTag | CrosshairTag

  function TagName(t: Tag): string {
    match t
    case CanvasTag => "cropper-canvas"
    case ImageTag => "cropper-image"
    case ShadeTag => "cropper-shade"
    case HandleTag => "cropper-handle"
    case SelectionTag => "cropper-selection"
    case GridTag => "cropper-grid"
    case CrosshairTag => "cropper-crosshair"
  }

  datatype Element = Element(tag: Tag, attrs: seq<Attr>, children: seq<Element>)

  function Leaf(tag: Tag, attrs: seq<Attr>): Element {
    Element(tag, attrs, [])
  }

  function ResizeHandle(action: string): Element {
    Leaf(HandleTag, [Value(Action, action)])
  }

  const MoveHandleColor := "rgba(255, 255, 255, 0.35)"

  /** The fixed skeleton, with the four configurable lists in their places. */
  function Skeleton(canvas: seq<Attr>, image: seq<Attr>, selection: seq<Attr>, grid: seq<Attr>): Element {
    Element(CanvasTag, canvas, [
      Leaf(ImageTag, image),
      Leaf(ShadeTag, [Flag(Hidden)]),
      Leaf(HandleTag, [Value(Action, "select"), Flag(Plain)]),
      SelectionElement(selection, grid)])
  }

  function SelectionElement(selection: seq<Attr>, grid: seq<Attr>): Element {
    Element(SelectionTag, selection, [
      Leaf(GridTag, [Value(Role, "grid")] + grid),
      Leaf(CrosshairTag, [Flag(Centered)]),
      Leaf(HandleTag, [Value(Action, "move"), Value(ThemeColor, MoveHandleColor)]),
      ResizeHandle("n-resize"), ResizeHandle("e-resize"), ResizeHandle("s-resize"),
      ResizeHandle("w-resize"), ResizeHandle("ne-resize"), ResizeHandle("nw-resize"),
      ResizeHandle("se-resize"), ResizeHandle("sw-resize")])
  }

  function DefaultSkeleton(c: Config): Element {
    Skeleton(CanvasAttrs(c), ImageAttrs(c), SelectionAttrs(c), GridAttrs(c))
  }

  /** The elements in document order, each with its own attributes. */
  function Outline(e: Element): seq<(Tag, seq<Attr>)>
    decreases e
  {
    [(e.tag, e.attrs)] + OutlineAll(e.children)
  }

  function OutlineAll(es: seq<Element>): seq<(Tag, seq<Attr>)>
    decreases es
  {
    if es == [] then [] else Outline(es[0]) + OutlineAll(es[1..])
  }

  lemma {:induction false} OutlineAllAppend(a: seq<Element>, b: seq<Element>)
    ensures OutlineAll(a + b) == OutlineAll(a) + OutlineAll(b)
  {
    if a != [] {
      assert (a + b)[0] == a[0] && (a + b)[1..] == a[1..] + b;
      OutlineAllAppend(a[1..], b);
    } else {
      assert a + b == b;
    }
  }

  lemma OutlineOne(e: Element)
    ensures OutlineAll([e]) == Outline(e)
  {
    assert [e][1..] == [];
  }

  lemma SelectionOutline(selection: seq<Attr>, grid: seq<Attr>)
    ensures Outline(SelectionElement(selection, grid)) == [
      (SelectionTag, selection),
      (GridTag, [Value(Role, "grid")] + grid),
      (CrosshairTag, [Flag(Centered)]),
      (HandleTag, [Value(Action, "move"), Value(ThemeColor, MoveHandleColor)]),
      (HandleTag, [Value(Action, "n-resize")]),
      (HandleTag, [Value(Action, "e-resize")]),
      (HandleTag, [Value(Action, "s-resize")]),
      (HandleTag, [Value(Action, "w-resize")]),
      (HandleTag, [Value(Action, "ne-resize")]),
      (HandleTag, [Value(Action, "nw-resize")]),
      (HandleTag, [Value(Action, "se-resize")]),
      (HandleTag, [Value(Action, "sw-resize")])]
  {
    var inner := SelectionElement(selection, grid).children;
    forall k | 0 <= k < |inner| ensures Outline(inner[k]) == [(inner[k].tag, inner[k].attrs)] {
      assert inner[k].children == [];
    }
    OutlineLeaves(inner);
  }

  /** The skeleton in document order: the configurable lists sit on the canvas,
      the image, the selection and (after `role="grid"`) the grid; every other
      element has fixed attributes. */
  lemma SkeletonOutline(canvas: seq<Attr>, image: seq<Attr>, selection: seq<Attr>, grid: seq<Attr>)
    ensures Outline(Skeleton(canvas, image, selection, grid)) == [
      (CanvasTag, canvas),
      (ImageTag, image),
      (ShadeTag, [Flag(Hidden)]),
      (HandleTag, [Value(Action, "select"), Flag(Plain)])] +
      Outline(SelectionElement(selection, grid))
  {
    var top := Skeleton(canvas, image, selection, grid).children;
    var sel := top[3];
    forall k | 0 <= k < 3 ensures Outline(top[k]) == [(top[k].tag, top[k].attrs)] {
      assert top[k].children == [];
    }
    assert top == top[..3] + [sel];
    OutlineAllAppend(top[..3], [sel]);
    OutlineLeaves(top[..3]);
    OutlineOne(sel);
  }

  lemma {:induction false} OutlineLeaves(es: seq<Element>)
    requires forall k :: 0 <= k < |es| ==> Outline(es[k]) == [(es[k].tag, es[k].attrs)]
    ensures OutlineAll(es) == seq(|es|, k requires 0 <= k < |es| => (es[k].tag, es[k].attrs))
  {
    if es != [] {
      OutlineLeaves(es[1..]);
    }
  }

  /** Only the four configurable lists depend on the configuration: every element
      keeps its tag and position, and all others keep their attributes. */
  lemma DefaultSkeletonIsFixed(c: Config, d: Config)
    ensures |Outline(DefaultSkeleton(c))| == |Outline(DefaultSkeleton(d))| == 16
    ensures forall k :: 0 <= k < 16 ==> Outline(DefaultSkeleton(c))[k].0 == Outline(DefaultSkeleton(d))[k].0
    ensures forall k :: 0 <= k < 16 && k !in {0, 1, 4, 5} ==> Outline(DefaultSkeleton(c))[k] == Outline(DefaultSkeleton(d))[k]
  {
    SkeletonOutline(CanvasAttrs(c), ImageAttrs(c), SelectionAttrs(c), GridAttrs(c));
    SkeletonOutline(CanvasAttrs(d), ImageAttrs(d), SelectionAttrs(d), GridAttrs(d));
    SelectionOutline(SelectionAttrs(c), GridAttrs(c));
    SelectionOutline(SelectionAttrs(d), GridAttrs(d));
  }

  // ----- rendering -----

  /** An element as markup, its attributes space-joined. */
  function RenderElement(e: Element): string
    decreases e
  {
    "<" + TagName(e.tag) + (if e.attrs == [] then "" else " " + Join(RenderAttrs(e.attrs))) + ">" +
    RenderChildren(e.children) + "</" + TagName(e.tag) + ">"
  }

  function RenderChildren(es: seq<Element>): string
    decreases es
  {
    if es == [] then "" else RenderElement(es[0]) + RenderChildren(es[1..])
  }

  /** The template handed to the engine: a truthy override verbatim, else the default markup. */
  function Template(c: Config): string {
    if TruthyString(c.template) then c.template.value else RenderElement(DefaultSkeleton(c))
  }

  /** The default markup depends on the configuration only through the props
      that feed the four lists. */
  lemma SameMarkup(c: Config, d: Config)
    requires c.background == d.background && c.disabled == d.disabled
    requires c.rotatable == d.rotatable && c.scalable == d.scalable
    requires c.skewable == d.skewable && c.translatable == d.translatable
    requires c.aspectRatio == d.aspectRatio && c.initialAspectRatio == d.initialAspectRatio
    requires c.initialCoverage == d.initialCoverage
    requires c.movable == d.movable && c.resizable == d.resizable && c.zoomable == d.zoomable
    requires c.multiple == d.multiple && c.keyboard == d.keyboard && c.outlined == d.outlined
    requires c.rows == d.rows && c.columns == d.columns
    requires c.bordered == d.bordered && c.covered == d.covered
    ensures RenderElement(DefaultSkeleton(c)) == RenderElement(DefaultSkeleton(d))
  {
    assert CanvasFlags(c) == CanvasFlags(d) && ImageFlags(c) == ImageFlags(d);
    assert SelectionFlags(c) == SelectionFlags(d) && SelectionCandidates(c) == SelectionCandidates(d);
    assert GridFlags(c) == GridFlags(d) && GridCandidates(c) == GridCandidates(d);
    assert DefaultSkeleton(c) == DefaultSkeleton(d);
  }

  /** A truthy override is used verbatim; otherwise, an empty string included,
      the default markup is used. */
  lemma TemplateOverride(c: Config)
    ensures TruthyString(c.template) ==> Template(c) == c.template.value
    ensures c.template == None || c.template == Some("") ==> Template(c) == RenderElement(DefaultSkeleton(c))
  {
  }

  /** The theme colour and the scale step never reach the markup. */
  lemma TemplateIgnoresStyling(c: Config, themeColor: Option<string>, scaleStep: real)
    ensures Template(c.(themeColor := themeColor, scaleStep := scaleStep)) == Template(c)
  {
    var d := c.(themeColor := themeColor, scaleStep := scaleStep);
    SameMarkup(c, d);
  }

  /** `initCropper`'s template choice and, when there is no override, the three push runs. */
  method BuildTemplate(c: Config) returns (template: string)
    ensures template == Template(c)
  {
    template := if c.template.Some? then c.template.value else "";
    if template == "" {
      var imageAttrs := BuildImageAttrs(c);
      var selectionAttrs := BuildSelectionAttrs(c);
      var gridAttrs := BuildGridAttrs(c);
      template := RenderElement(Skeleton(CanvasAttrs(c), imageAttrs, selectionAttrs, gridAttrs));
    }
  }

  // ----- reading a rendered list back -----

  /** No attribute name contains a space (checked five names at a time). */
  lemma SpellingHasNoSpace(n: AttrName)
    ensures ' ' !in Spelling(n)
  {
    match n
    case Background | Disabled | Rotatable | Scalable | Skewable => NamesHaveNoSpace1(n);
    case Translatable | Hidden | Action | Plain | ThemeColor => NamesHaveNoSpace2(n);
    case Centered | Role | Movable | Resizable | Zoomable => NamesHaveNoSpace3(n);
    case Multiple | Keyboard | Outlined | AspectRatio | InitialAspectRatio => NamesHaveNoSpace4(n);
    case InitialCoverage | Rows | Columns | Bordered | Covered => NamesHaveNoSpace5(n);
  }

  lemma NamesHaveNoSpace1(n: AttrName)
    requires n.Background? || n.Disabled? || n.Rotatable? || n.Scalable? || n.Skewable?
    ensures ' ' !in Spelling(n)
  {
  }

  lemma NamesHaveNoSpace2(n: AttrName)
    requires n.Translatable? || n.Hidden? || n.Action? || n.Plain? || n.ThemeColor?
    ensures ' ' !in Spelling(n)
  {
  }

  lemma NamesHaveNoSpace3(n: AttrName)
    requires n.Centered? || n.Role? || n.Movable? || n.Resizable? || n.Zoomable?
    ensures ' ' !in Spelling(n)
  {
  }

  lemma NamesHaveNoSpace4(n: AttrName)
    requires n.Multiple? || n.Keyboard? || n.Outlined? || n.AspectRatio? || n.InitialAspectRatio?
    ensures ' ' !in Spelling(n)
  {
  }

  lemma NamesHaveNoSpace5(n: AttrName)
    requires n.InitialCoverage? || n.Rows? || n.Columns? || n.Bordered? || n.Covered?
    ensures ' ' !in Spelling(n)
  {
  }

  lemma AttrIsWord(a: Attr)
    requires a.Value? ==> ' ' !in a.text
    ensures IsWord(RenderAttr(a))
  {
    SpellingHasNoSpace(a.name);
    if a.Value? {
      assert RenderAttr(a)[0] == Spelling(a.name)[0];
    }
  }

  /** When no printed number contains a space, each rendered list splits back at
      its spaces into exactly the attributes that were pushed. */
  lemma RenderedListsReadBack(c: Config)
    requires ' ' !in Text(c.aspectRatio) && ' ' !in Text(c.initialAspectRatio) && ' ' !in Text(c.initialCoverage)
    requires ' ' !in Text(c.rows) && ' ' !in Text(c.columns)
    ensures Split(Join(RenderAttrs(ImageAttrs(c)))) == RenderAttrs(ImageAttrs(c))
    ensures Split(Join(RenderAttrs(SelectionAttrs(c)))) == RenderAttrs(SelectionAttrs(c))
    ensures Split(Join(RenderAttrs(GridAttrs(c)))) == RenderAttrs(GridAttrs(c))
  {
    SelectOnlyCandidates(ImageCandidates(), ImageFlags(c));
    ListReadsBack(ImageAttrs(c));
    SelectOnlyCandidates(SelectionCandidates(c), SelectionFlags(c));
    ListReadsBack(SelectionAttrs(c));
    SelectOnlyCandidates(GridCandidates(c), GridFlags(c));
    ListReadsBack(GridAttrs(c));
  }

  lemma ListReadsBack(attrs: seq<Attr>)
    requires forall a :: a in attrs && a.Value? ==> ' ' !in a.text
    ensures Split(Join(RenderAttrs(attrs))) == RenderAttrs(attrs)
  {
    forall k | 0 <= k < |attrs| ensures IsWord(RenderAttrs(attrs)[k]) {
      AttrIsWord(attrs[k]);
    }
    SplitJoin(RenderAttrs(attrs));
  }
}
