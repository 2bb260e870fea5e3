/** What each proxy method reads from the engine and which engine call it issues.

    Every proxy first asks for one sub-handle and does nothing when it is
    absent; otherwise it issues at most one call (`setCanvasData` at most two),
    with arguments computed by JavaScript's `||` defaults. The getters build
    plain records from the handle fields. */
module Proxy {
  import opened Js
  import opened Tokens
  import opened Markup
  import opened Engine

  // ----- records the getters return and the setters accept -----

  /** What `getData` returns when there is a selection. */
  datatype BoxData = BoxData(x: real, y: real, width: real, height: real)

  /** What `setData` accepts: any field may be missing or falsy. */
  datatype BoxInput = BoxInput(x: Number, y: Number, width: Number, height: Number)

  datatype ContainerData = ContainerData(width: Number, height: Number)

  datatype ImageData = ImageData(
    left: real, top: real, width: Number, height: Number,
    rotate: real, scaleX: real, scaleY: real,
    naturalWidth: Number, naturalHeight: Number)

  datatype CanvasData = CanvasData(
    left: real, top: real, width: Number, height: Number,
    naturalWidth: Number, naturalHeight: Number)

  /** What `setCanvasData` accepts. */
  datatype CanvasInput = CanvasInput(left: Number, top: Number, width: Number, height: Number)

  /** A returned object passed back in, as a caller would. */
  function BoxInputOf(d: BoxData): BoxInput {
    BoxInput(Some(d.x), Some(d.y), Some(d.width), Some(d.height))
  }

  function CanvasInputOf(d: CanvasData): CanvasInput {
    CanvasInput(Some(d.left), Some(d.top), d.width, d.height)
  }

  // ----- the proxy methods that issue calls or write handle fields -----

  /** One invocation of a proxy method with its arguments. An argument of type
      Number is None when the caller leaves it `undefined`. */
  datatype Request =
    | Reset | Clear | InitCrop
    | Move(offsetX: Number, offsetY: Number)
    | MoveTo(x: Number, y: Number)
    | RelativeZoom(ratio: Number)
    | ZoomTo(ratio: Number)
    | Rotate(degree: Number)
    | RotateTo(absolute: real)
    | ScaleX(sx: Number)
    | ScaleY(sy: Number)
    | Scale(scaleX: Number, scaleY: Number)
    | SetData(data: Option<BoxInput>)
    | SetCropBoxData(data: Option<BoxInput>)
    | SetCanvasData(canvasData: Option<CanvasInput>)
    | GetCroppedCanvas(options: Option<CanvasOptions>)
    | SetAspectRatio(aspectRatio: Number)
    | SetDragMode(mode: string)
    | Enable | Disable

  /** The sub-handle a request asks for first. */
  function Consults(r: Request): Target {
    match r
    case SetDragMode(_) => OnCanvas
    case Enable => OnCanvas
    case Disable => OnCanvas
    case ZoomTo(_) => OnImage
    case Rotate(_) => OnImage
    case RotateTo(_) => OnImage
    case ScaleX(_) => OnImage
    case ScaleY(_) => OnImage
    case Scale(_, _) => OnImage
    case SetCanvasData(_) => OnImage
    case _ => OnSelection
  }

  predicate Present(h: Handles, t: Target) {
    match t
    case OnCanvas => h.canvas.Some?
    case OnImage => h.image.Some?
    case OnSelection => h.selection.Some?
    case OnInstance(_) => false
  }

  /** A trailing parameter with default `= first`: a missing or `undefined`
      argument takes the first argument's value. */
  function DefaultToFirst(first: Number, second: Number): Number {
    if second.None? then first else second
  }

  /** `Math.round` on a box coordinate. */
  function RoundReal(v: real): (r: real)
    ensures r == r.Floor as real
    ensures r - 0.5 <= v < r + 0.5
  {
    Round(v) as real
  }

  /** The requests that always forward exactly one call to a present sub-handle. */
  predicate Forwards(r: Request) {
    r.Reset? || r.Clear? || r.InitCrop? || r.Move? || r.MoveTo? || r.RelativeZoom? || r.ZoomTo? ||
    r.Rotate? || r.RotateTo? || r.ScaleX? || r.ScaleY? || r.Scale? || r.GetCroppedCanvas? ||
    r.SetAspectRatio? || r.SetDragMode?
  }

  /** The calls a request issues, given the handles at the time of the call. */
  function Issued(h: Handles, r: Request): (calls: seq<Call>)
    ensures !Present(h, Consults(r)) ==> calls == []
    ensures forall k :: 0 <= k < |calls| ==> calls[k].target == Consults(r)
    ensures |calls| <= (if r.SetCanvasData? then 2 else 1)
    ensures Present(h, Consults(r)) && Forwards(r) ==> |calls| == 1
  {
    if !Present(h, Consults(r)) then []
    else
      match r
      case Reset => [Call(OnSelection, ResetOp)]
      case Clear => [Call(OnSelection, ClearOp)]
      case InitCrop => [Call(OnSelection, RenderOp)]
      case Move(dx, dy) => [Call(OnSelection, MoveOp(dx, dy))]
      case MoveTo(x, y) => [Call(OnSelection, MoveToOp(x, DefaultToFirst(x, y)))]
      case RelativeZoom(ratio) => [Call(OnSelection, ZoomOp(ratio))]
      case ZoomTo(ratio) => [Call(OnImage, ZoomOp(ratio))]
      case Rotate(degree) => [Call(OnImage, RotateOp(degree))]
      case RotateTo(degree) => [Call(OnImage, RotateOp(Some(degree - Or(h.image.value.rotate, 0.0))))]
      case ScaleX(sx) => [Call(OnImage, ScaleOp(sx, Some(Or(h.image.value.scaleY, 1.0))))]
      case ScaleY(sy) => [Call(OnImage, ScaleOp(Some(Or(h.image.value.scaleX, 1.0)), sy))]
      case Scale(sx, sy) => [Call(OnImage, ScaleOp(sx, DefaultToFirst(sx, sy)))]
      case SetData(data) => ChangeCalls(h.selection.value, data)
      case SetCropBoxData(data) => ChangeCalls(h.selection.value, data)
      case SetCanvasData(data) => CanvasCalls(h.image.value, data)
      case GetCroppedCanvas(options) =>
        [Call(OnSelection, ToCanvasOp(if options.Some? then options.value else EmptyOptions))]
      case SetAspectRatio(_) => [Call(OnSelection, RenderOp)]
      case SetDragMode(mode) => [Call(OnCanvas, SetActionOp(mode))]
      case Enable => []
      case Disable => []
  }

  /** `setData`: nothing for a falsy argument, else one `$change` whose falsy
      fields fall back to the selection's current box. */
  function ChangeCalls(s: SelectionHandle, data: Option<BoxInput>): seq<Call> {
    if data.None? then []
    else
      var d := data.value;
      [Call(OnSelection, ChangeOp(Or(d.x, s.x), Or(d.y, s.y), Or(d.width, s.width), Or(d.height, s.height)))]
  }

  /** `setCanvasData`: a `$moveTo` when a position is given, then a `$zoom`
      when a width is given and the image has a truthy width. */
  function CanvasCalls(img: ImageHandle, data: Option<CanvasInput>): seq<Call> {
    if data.None? then []
    else
      var d := data.value;
      (if d.left.Some? || d.top.Some? then [Call(OnImage, MoveToOp(OrElse(d.left, img.x), OrElse(d.top, img.y)))] else []) +
      (if d.width.Some? && Truthy(img.width) then [Call(OnImage, ZoomOp(Some(d.width.value / img.width.value)))] else [])
  }

  /** The handle fields a request writes: `enable`/`disable` set the canvas's
      `disabled`, `setAspectRatio` sets the selection's `aspectRatio`. */
  function Effect(h: Handles, r: Request): (h': Handles)
    ensures !(r.Enable? || r.Disable? || r.SetAspectRatio?) ==> h' == h
    ensures h'.canvas.Some? <==> h.canvas.Some?
    ensures h'.image == h.image
    ensures h'.selection.Some? <==> h.selection.Some?
  {
    match r
    case Enable =>
      if h.canvas.Some? then h.(canvas := Some(h.canvas.value.(disabled := false))) else h
    case Disable =>
      if h.canvas.Some? then h.(canvas := Some(h.canvas.value.(disabled := true))) else h
    case SetAspectRatio(ratio) =>
      if h.selection.Some? then h.(selection := Some(h.selection.value.(aspectRatio := ratio))) else h
    case _ => h
  }

  // ----- getters -----

  /** `rounded = false`: a missing or `undefined` argument means false. */
  function RoundedArg(rounded: Option<bool>): bool {
    rounded == Some(true)
  }

  /** `getData(rounded)`: None stands for the empty object `{}`. */
  function DataOf(h: Handles, rounded: Option<bool>): Option<BoxData> {
    if h.selection.None? then None
    else
      var s := h.selection.value;
      if RoundedArg(rounded) then Some(BoxData(RoundReal(s.x), RoundReal(s.y), RoundReal(s.width), RoundReal(s.height)))
      else Some(BoxData(s.x, s.y, s.width, s.height))
  }

  /** `getCropBoxData()` calls `getData()` with no argument. */
  function CropBoxDataOf(h: Handles): Option<BoxData> {
    DataOf(h, None)
  }

  function ContainerDataOf(h: Handles): Option<ContainerData> {
    if h.canvas.None? then None else Some(ContainerData(h.canvas.value.width, h.canvas.value.height))
  }

  function ImageDataOf(h: Handles): Option<ImageData> {
    if h.image.None? then None
    else
      var i := h.image.value;
      Some(ImageData(Or(i.x, 0.0), Or(i.y, 0.0), i.width, i.height,
                     Or(i.rotate, 0.0), Or(i.scaleX, 1.0), Or(i.scaleY, 1.0),
                     i.naturalWidth, i.naturalHeight))
  }

  function CanvasDataOf(h: Handles): Option<CanvasData> {
    if h.image.None? then None
    else
      var i := h.image.value;
      Some(CanvasData(Or(i.x, 0.0), Or(i.y, 0.0), i.width, i.height, i.naturalWidth, i.naturalHeight))
  }

  /** `getCroppedCanvas`: `null` without a selection, else the canvas the engine
      draws for the issued `$toCanvas` call. */
  function CroppedCanvasOf(h: Handles, options: Option<CanvasOptions>): Option<Call> {
    var calls := Issued(h, GetCroppedCanvas(options));
    if calls == [] then None else Some(calls[0])
  }

  // ----- listener wiring -----

  /** Every attachment the wiring may make, in the order it tries them. */
  function ListenerTable(c: Config): seq<Call> {
    [Call(OnCanvas, AddListener(CropStart, c.cropstart)),
     Call(OnCanvas, AddListener(CropMove, c.cropmove)),
     Call(OnCanvas, AddListener(CropEnd, c.cropend)),
     Call(OnCanvas, AddListener(CropEvent, c.crop)),
     Call(OnCanvas, AddListener(ZoomEvent, c.zoom)),
     Call(OnImage, AddListener(ReadyEvent, c.ready)),
     Call(OnImage, AddListener(TransformEvent, c.imageTransform)),
     Call(OnSelection, AddListener(ChangeEvent, c.selectionChange))]
  }

  /** An attachment is made when its callback prop is set and its sub-handle exists. */
  function ListenerFlags(c: Config, h: Handles): seq<bool> {
    [h.canvas.Some? && c.cropstart.Some?, h.canvas.Some? && c.cropmove.Some?,
     h.canvas.Some? && c.cropend.Some?, h.canvas.Some? && c.crop.Some?,
     h.canvas.Some? && c.zoom.Some?,
     h.image.Some? && c.ready.Some?, h.image.Some? && c.imageTransform.Some?,
     h.selection.Some? && c.selectionChange.Some?]
  }

  function Wiring(c: Config, h: Handles): seq<Call> {
    Select(ListenerTable(c), ListenerFlags(c, h))
  }

  lemma WiringPushes(c: Config, h: Handles)
    ensures Wiring(c, h) ==
      Push(Push(Push(Push(Push(Push(Push(Push([],
        h.canvas.Some? && c.cropstart.Some?, Call(OnCanvas, AddListener(CropStart, c.cropstart))),
        h.canvas.Some? && c.cropmove.Some?, Call(OnCanvas, AddListener(CropMove, c.cropmove))),
        h.canvas.Some? && c.cropend.Some?, Call(OnCanvas, AddListener(CropEnd, c.cropend))),
        h.canvas.Some? && c.crop.Some?, Call(OnCanvas, AddListener(CropEvent, c.crop))),
        h.canvas.Some? && c.zoom.Some?, Call(OnCanvas, AddListener(ZoomEvent, c.zoom))),
        h.image.Some? && c.ready.Some?, Call(OnImage, AddListener(ReadyEvent, c.ready))),
        h.image.Some? && c.imageTransform.Some?, Call(OnImage, AddListener(TransformEvent, c.imageTransform))),
        h.selection.Some? && c.selectionChange.Some?, Call(OnSelection, AddListener(ChangeEvent, c.selectionChange)))
  {
    SelectEight(ListenerTable(c), ListenerFlags(c, h));
  }

  /** The one pass of `addEventListener` calls made after construction. */
  method WireListeners(c: Config, h: Handles) returns (wired: seq<Call>)
    ensures wired == Wiring(c, h)
  {
    wired := [];
    ghost var a := wired;
    ghost var a0 := wired;
    if h.canvas.Some? {
      if c.cropstart.Some? { wired := wired + [Call(OnCanvas, AddListener(CropStart, c.cropstart))]; }
      assert wired == Push(a, h.canvas.Some? && c.cropstart.Some?, Call(OnCanvas, AddListener(CropStart, c.cropstart)));
      a := wired;
      if c.cropmove.Some? { wired := wired + [Call(OnCanvas, AddListener(CropMove, c.cropmove))]; }
      assert wired == Push(a, h.canvas.Some? && c.cropmove.Some?, Call(OnCanvas, AddListener(CropMove, c.cropmove)));
      a := wired;
      if c.cropend.Some? { wired := wired + [Call(OnCanvas, AddListener(CropEnd, c.cropend))]; }
      assert wired == Push(a, h.canvas.Some? && c.cropend.Some?, Call(OnCanvas, AddListener(CropEnd, c.cropend)));
      a := wired;
      if c.crop.Some? { wired := wired + [Call(OnCanvas, AddListener(CropEvent, c.crop))]; }
      assert wired == Push(a, h.canvas.Some? && c.crop.Some?, Call(OnCanvas, AddListener(CropEvent, c.crop)));
      a := wired;
      if c.zoom.Some? { wired := wired + [Call(OnCanvas, AddListener(ZoomEvent, c.zoom))]; }
      assert wired == Push(a, h.canvas.Some? && c.zoom.Some?, Call(OnCanvas, AddListener(ZoomEvent, c.zoom)));
    }
    assert wired ==
      Push(Push(Push(Push(Push(a0,
        h.canvas.Some? && c.cropstart.Some?, Call(OnCanvas, AddListener(CropStart, c.cropstart))),
        h.canvas.Some? && c.cropmove.Some?, Call(OnCanvas, AddListener(CropMove, c.cropmove))),
        h.canvas.Some? && c.cropend.Some?, Call(OnCanvas, AddListener(CropEnd, c.cropend))),
        h.canvas.Some? && c.crop.Some?, Call(OnCanvas, AddListener(CropEvent, c.crop))),
        h.canvas.Some? && c.zoom.Some?, Call(OnCanvas, AddListener(ZoomEvent, c.zoom)));
    a := wired;
    if h.image.Some? {
      if c.ready.Some? { wired := wired + [Call(OnImage, AddListener(ReadyEvent, c.ready))]; }
      assert wired == Push(a, h.image.Some? && c.ready.Some?, Call(OnImage, AddListener(ReadyEvent, c.ready)));
      a := wired;
      if c.imageTransform.Some? { wired := wired + [Call(OnImage, AddListener(TransformEvent, c.imageTransform))]; }
      assert wired == Push(a, h.image.Some? && c.imageTransform.Some?, Call(OnImage, AddListener(TransformEvent, c.imageTransform)));
    } else {
      assert wired == Push(Push(a, false, Call(OnImage, AddListener(ReadyEvent, c.ready))),
                           false, Call(OnImage, AddListener(TransformEvent, c.imageTransform)));
    }
    a := wired;
    if h.selection.Some? {
      if c.selectionChange.Some? { wired := wired + [Call(OnSelection, AddListener(ChangeEvent, c.selectionChange))]; }
    }
    assert wired == Push(a, h.selection.Some? && c.selectionChange.Some?, Call(OnSelection, AddListener(ChangeEvent, c.selectionChange)));
    WiringPushes(c, h);
  }

  /** Each callback is attached, to its own sub-handle and under its own event
      name, exactly when the callback is set and the sub-handle exists; nothing
      else is attached, and the order is the table's. */
  lemma WiringCorrect(c: Config, h: Handles)
    ensures Call(OnCanvas, AddListener(CropStart, c.cropstart)) in Wiring(c, h) <==> h.canvas.Some? && c.cropstart.Some?
    ensures Call(OnCanvas, AddListener(CropMove, c.cropmove)) in Wiring(c, h) <==> h.canvas.Some? && c.cropmove.Some?
    ensures Call(OnCanvas, AddListener(CropEnd, c.cropend)) in Wiring(c, h) <==> h.canvas.Some? && c.cropend.Some?
    ensures Call(OnCanvas, AddListener(CropEvent, c.crop)) in Wiring(c, h) <==> h.canvas.Some? && c.crop.Some?
    ensures Call(OnCanvas, AddListener(ZoomEvent, c.zoom)) in Wiring(c, h) <==> h.canvas.Some? && c.zoom.Some?
    ensures Call(OnImage, AddListener(ReadyEvent, c.ready)) in Wiring(c, h) <==> h.image.Some? && c.ready.Some?
    ensures Call(OnImage, AddListener(TransformEvent, c.imageTransform)) in Wiring(c, h) <==>
      h.image.Some? && c.imageTransform.Some?
    ensures Call(OnSelection, AddListener(ChangeEvent, c.selectionChange)) in Wiring(c, h) <==>
      h.selection.Some? && c.selectionChange.Some?
    ensures forall w :: w in Wiring(c, h) ==> w in ListenerTable(c) && w.op.listener.Some? && Present(h, w.target)
    ensures IsSubsequence(Wiring(c, h), ListenerTable(c))
  {
    var x, k := ListenerTable(c), ListenerFlags(c, h);
    assert Distinct(x);
    SelectMember(x, k, 0);
    SelectMember(x, k, 1);
    SelectMember(x, k, 2);
    SelectMember(x, k, 3);
    SelectMember(x, k, 4);
    SelectMember(x, k, 5);
    SelectMember(x, k, 6);
    SelectMember(x, k, 7);
    forall w | w in Wiring(c, h) ensures w in x && w.op.listener.Some? && Present(h, w.target) {
      SelectContains(x, k, w);
    }
    SelectIsSubsequence(x, k);
  }

  // ----- what the proxies promise -----

  /** Without an instance every handle is absent: no call, no write, and every getter gives its empty result. */
  lemma NoHandlesNoEffect(r: Request, rounded: Option<bool>, options: Option<CanvasOptions>)
    ensures Issued(Handles(None, None, None), r) == []
    ensures Effect(Handles(None, None, None), r) == Handles(None, None, None)
    ensures DataOf(Handles(None, None, None), rounded) == None
    ensures ContainerDataOf(Handles(None, None, None)) == None
    ensures ImageDataOf(Handles(None, None, None)) == None
    ensures CanvasDataOf(Handles(None, None, None)) == None
    ensures CroppedCanvasOf(Handles(None, None, None), options) == None
  {
  }

  /** The plain forwarders pass the caller's arguments on unchanged, each to
      its own sub-handle and engine method. */
  lemma ForwardedCalls(h: Handles, dx: Number, dy: Number, ratio: Number, degree: Number, mode: string)
    ensures h.selection.Some? ==>
      Issued(h, Reset) == [Call(OnSelection, ResetOp)] &&
      Issued(h, Clear) == [Call(OnSelection, ClearOp)] &&
      Issued(h, InitCrop) == [Call(OnSelection, RenderOp)] &&
      Issued(h, Move(dx, dy)) == [Call(OnSelection, MoveOp(dx, dy))] &&
      Issued(h, RelativeZoom(ratio)) == [Call(OnSelection, ZoomOp(ratio))]
    ensures h.image.Some? ==>
      Issued(h, ZoomTo(ratio)) == [Call(OnImage, ZoomOp(ratio))] &&
      Issued(h, Rotate(degree)) == [Call(OnImage, RotateOp(degree))]
    ensures h.canvas.Some? ==> Issued(h, SetDragMode(mode)) == [Call(OnCanvas, SetActionOp(mode))]
  {
  }

  /** `rotateTo(d)` issues one relative rotation that takes the rotation
      `getImageData` reports to d. */
  lemma RotateToIsRelative(h: Handles, degree: real)
    requires h.image.Some?
    ensures |Issued(h, RotateTo(degree))| == 1
    ensures Issued(h, RotateTo(degree))[0].op.RotateOp?
    ensures Issued(h, RotateTo(degree))[0].op.degree.Some?
    ensures ImageDataOf(h).value.rotate + Issued(h, RotateTo(degree))[0].op.degree.value == degree
  {
  }

  /** `scaleX` and `scaleY` keep the other axis at the scale `getImageData` reports:
      the image's own value, or 1 when that is falsy. */
  lemma ScaleKeepsOtherAxis(h: Handles, v: Number)
    requires h.image.Some?
    ensures Issued(h, ScaleX(v)) == [Call(OnImage, ScaleOp(v, Some(ImageDataOf(h).value.scaleY)))]
    ensures Issued(h, ScaleY(v)) == [Call(OnImage, ScaleOp(Some(ImageDataOf(h).value.scaleX), v))]
    ensures Truthy(h.image.value.scaleY) ==> ImageDataOf(h).value.scaleY == h.image.value.scaleY.value
    ensures !Truthy(h.image.value.scaleY) ==> ImageDataOf(h).value.scaleY == 1.0
    ensures Truthy(h.image.value.scaleX) ==> ImageDataOf(h).value.scaleX == h.image.value.scaleX.value
    ensures !Truthy(h.image.value.scaleX) ==> ImageDataOf(h).value.scaleX == 1.0
  {
  }

  /** `scale(x)` with the second argument missing scales both axes by x; a
      given second argument is used as is. */
  lemma ScaleSecondArgument(h: Handles, x: Number, y: real)
    ensures Issued(h, Scale(x, None)) == Issued(h, Scale(x, x))
    ensures h.image.Some? ==> Issued(h, Scale(x, Some(y))) == [Call(OnImage, ScaleOp(x, Some(y)))]
  {
  }

  /** `moveTo(x)` with the second argument missing moves to (x, x); a given
      second argument is used as is. */
  lemma MoveToSecondArgument(h: Handles, x: Number, y: real)
    ensures Issued(h, MoveTo(x, None)) == Issued(h, MoveTo(x, x))
    ensures h.selection.Some? ==> Issued(h, MoveTo(x, Some(y))) == [Call(OnSelection, MoveToOp(x, Some(y)))]
  {
  }

  /** `getData()` returns the selection's box unchanged; `getData(true)` rounds each
      of the four numbers to the nearest integer; `getCropBoxData()` is `getData()`. */
  lemma DataOfSelection(h: Handles, rounded: Option<bool>)
    ensures DataOf(h, rounded).Some? <==> h.selection.Some?
    ensures h.selection.Some? && !RoundedArg(rounded) ==>
      var s := h.selection.value;
      DataOf(h, rounded) == Some(BoxData(s.x, s.y, s.width, s.height))
    ensures h.selection.Some? && RoundedArg(rounded) ==>
      var s, d := h.selection.value, DataOf(h, rounded).value;
      d.x == Round(s.x) as real && d.y == Round(s.y) as real &&
      d.width == Round(s.width) as real && d.height == Round(s.height) as real
    ensures CropBoxDataOf(h) == DataOf(h, Some(false))
  {
  }

  /** The rounded box is made of integers, each within half a unit of the selection's value. */
  lemma RoundedBoxIsNearest(h: Handles)
    requires h.selection.Some?
    ensures var s, d := h.selection.value, DataOf(h, Some(true)).value;
      d.x == d.x.Floor as real && d.y == d.y.Floor as real &&
      d.width == d.width.Floor as real && d.height == d.height.Floor as real &&
      s.x - 0.5 < d.x <= s.x + 0.5 && s.y - 0.5 < d.y <= s.y + 0.5 &&
      s.width - 0.5 < d.width <= s.width + 0.5 && s.height - 0.5 < d.height <= s.height + 0.5
  {
  }

  /** `setData` keeps a truthy field and otherwise, an explicit 0 included,
      falls back to the selection's current value; `setCropBoxData` is `setData`. */
  lemma SetDataFallsBack(h: Handles, d: BoxInput)
    requires h.selection.Some?
    ensures Issued(h, SetData(None)) == []
    ensures |Issued(h, SetData(Some(d)))| == 1 && Issued(h, SetData(Some(d)))[0].op.ChangeOp?
    ensures var s, op := h.selection.value, Issued(h, SetData(Some(d)))[0].op;
      (op.x == if Truthy(d.x) then d.x.value else s.x) &&
      (op.y == if Truthy(d.y) then d.y.value else s.y) &&
      (op.width == if Truthy(d.width) then d.width.value else s.width) &&
      (op.height == if Truthy(d.height) then d.height.value else s.height)
    ensures d.x == Some(0.0) ==> Issued(h, SetData(Some(d)))[0].op.x == h.selection.value.x
    ensures Issued(h, SetCropBoxData(Some(d))) == Issued(h, SetData(Some(d)))
  {
  }

  /** Passing `getData()`'s result back to `setData` re-issues the current box,
      zero fields included. */
  lemma SetDataOfGetData(h: Handles)
    requires h.selection.Some?
    ensures var s := h.selection.value;
      Issued(h, SetData(Some(BoxInputOf(DataOf(h, None).value)))) ==
        [Call(OnSelection, ChangeOp(s.x, s.y, s.width, s.height))]
  {
  }

  /** `getImageData` maps falsy position and rotation to 0 and falsy scales to 1,
      and passes sizes through; `getCanvasData` is the same record without
      rotation and scale. */
  lemma ImageAndCanvasData(h: Handles)
    ensures ImageDataOf(h).Some? <==> h.image.Some?
    ensures CanvasDataOf(h).Some? <==> h.image.Some?
    ensures h.image.Some? ==>
      var i, d := h.image.value, ImageDataOf(h).value;
      d.left == (if Truthy(i.x) then i.x.value else 0.0) &&
      d.top == (if Truthy(i.y) then i.y.value else 0.0) &&
      d.rotate == (if Truthy(i.rotate) then i.rotate.value else 0.0) &&
      d.scaleX == (if Truthy(i.scaleX) then i.scaleX.value else 1.0) &&
      d.scaleY == (if Truthy(i.scaleY) then i.scaleY.value else 1.0) &&
      d.width == i.width && d.height == i.height &&
      d.naturalWidth == i.naturalWidth && d.naturalHeight == i.naturalHeight
    ensures h.image.Some? ==>
      var d, e := ImageDataOf(h).value, CanvasDataOf(h).value;
      e == CanvasData(d.left, d.top, d.width, d.height, d.naturalWidth, d.naturalHeight)
    ensures ContainerDataOf(h).Some? <==> h.canvas.Some?
    ensures h.canvas.Some? ==>
      ContainerDataOf(h).value == ContainerData(h.canvas.value.width, h.canvas.value.height)
  {
  }

  /** `setCanvasData` issues a move iff a position is given, a zoom iff a width is
      given and the image width is truthy (so it never divides by zero), the
      move first; the zoom ratio scales the image width to the requested one. */
  lemma SetCanvasDataCalls(h: Handles, d: CanvasInput)
    requires h.image.Some?
    ensures Issued(h, SetCanvasData(None)) == []
    ensures var i, calls := h.image.value, Issued(h, SetCanvasData(Some(d)));
      var moves, zooms := d.left.Some? || d.top.Some?, d.width.Some? && Truthy(i.width);
      |calls| == (if moves then 1 else 0) + (if zooms then 1 else 0) &&
      (moves ==> calls[0] == Call(OnImage, MoveToOp(OrElse(d.left, i.x), OrElse(d.top, i.y)))) &&
      (zooms ==> Last(calls).op.ZoomOp? && Last(calls).op.ratio.Some? &&
                 Last(calls).op.ratio.value * i.width.value == d.width.value) &&
      (forall k :: 0 <= k < |calls| ==> calls[k].op.MoveToOp? || calls[k].op.ZoomOp?)
  {
    var i := h.image.value;
    if d.width.Some? && Truthy(i.width) {
      var r := d.width.value / i.width.value;
      assert r * i.width.value == d.width.value;
    }
  }

  /** Passing `getCanvasData()`'s result back to `setCanvasData` moves the image
      to where it is (a falsy coordinate reported as 0 falls back to the image's
      own value) and, when the image width is truthy, zooms by exactly 1. */
  lemma SetCanvasDataOfGetCanvasData(h: Handles)
    requires h.image.Some?
    ensures var i := h.image.value;
      Issued(h, SetCanvasData(Some(CanvasInputOf(CanvasDataOf(h).value)))) ==
        [Call(OnImage, MoveToOp(i.x, i.y))] + (if Truthy(i.width) then [Call(OnImage, ZoomOp(Some(1.0)))] else [])
  {
    var i := h.image.value;
    if Truthy(i.width) {
      assert i.width.value / i.width.value == 1.0;
    }
  }

  /** `enable`/`disable` set the canvas's `disabled` and nothing else, and issue no call. */
  lemma EnableDisableWriteDisabled(h: Handles)
    ensures h.canvas.Some? ==> Effect(h, Enable) == h.(canvas := Some(h.canvas.value.(disabled := false)))
    ensures h.canvas.Some? ==> Effect(h, Disable) == h.(canvas := Some(h.canvas.value.(disabled := true)))
    ensures h.canvas.None? ==> Effect(h, Enable) == h && Effect(h, Disable) == h
    ensures Issued(h, Enable) == [] && Issued(h, Disable) == []
  {
  }

  /** `setAspectRatio` sets the selection's `aspectRatio` and nothing else, then re-renders the selection. */
  lemma SetAspectRatioWritesRatio(h: Handles, ratio: Number)
    ensures h.selection.Some? ==>
      Effect(h, SetAspectRatio(ratio)) == h.(selection := Some(h.selection.value.(aspectRatio := ratio))) &&
      Issued(h, SetAspectRatio(ratio)) == [Call(OnSelection, RenderOp)]
    ensures h.selection.None? ==> Effect(h, SetAspectRatio(ratio)) == h && Issued(h, SetAspectRatio(ratio)) == []
  {
  }

  /** `getCroppedCanvas` is `null` without a selection and otherwise the result of
      one `$toCanvas` call, with `{}` for missing options. */
  lemma CroppedCanvasRequest(h: Handles, options: Option<CanvasOptions>)
    ensures CroppedCanvasOf(h, options).None? <==> h.selection.None?
    ensures h.selection.Some? ==>
      CroppedCanvasOf(h, options) == Some(Call(OnSelection, ToCanvasOp(if options.None? then EmptyOptions else options.value)))
  {
  }
}
