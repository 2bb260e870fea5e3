/** The cropping engine as the adapter sees it: an instance with three optional
    sub-handles whose numeric fields the adapter reads, and the calls the
    adapter issues. What the engine does with a call is not modelled. */
module Engine {
  import opened Js
  import opened Markup

  /** The canvas element: its size and the `disabled` field the adapter writes. */
  datatype CanvasHandle = CanvasHandle(width: Number, height: Number, disabled: bool)

  /** The image element: position, size, transform and natural size, any of them possibly unset. */
  datatype ImageHandle = ImageHandle(
    x: Number, y: Number, width: Number, height: Number,
    rotate: Number, scaleX: Number, scaleY: Number,
    naturalWidth: Number, naturalHeight: Number)

  /** The selection element: its box, always numeric, and the `aspectRatio` field the adapter writes. */
  datatype SelectionHandle = SelectionHandle(x: real, y: real, width: real, height: real, aspectRatio: Number)

  /** What `getCropperCanvas`, `getCropperImage` and `getCropperSelection` return; None is `null`. */
  datatype Handles = Handles(canvas: Option<CanvasHandle>, image: Option<ImageHandle>, selection: Option<SelectionHandle>)

  /** One engine instance: the template and image source it was built with, and its handles. */
  datatype Instance = Instance(id: nat, template: string, imageSrc: string, handles: Handles)

  /** The events the adapter listens to, by their DOM names. */
  datatype Event = CropStart | CropMove | CropEnd | CropEvent | ZoomEvent | ReadyEvent | TransformEvent | ChangeEvent

  function EventName(e: Event): string {
    match e
    case CropStart => "cropstart"
    case CropMove => "cropmove"
    case CropEnd => "cropend"
    case CropEvent => "crop"
    case ZoomEvent => "zoom"
    case ReadyEvent => "ready"
    case TransformEvent => "transform"
    case ChangeEvent => "change"
  }

  /** The eight listeners go to eight different DOM events: no two event kinds share a name. */
  lemma EventNamesDistinct(e: Event, f: Event)
    ensures EventName(e) == EventName(f) <==> e == f
  {
  }

  /** The options object of `$toCanvas`; `{}` when the caller gives none. */
  datatype CanvasOptions = EmptyOptions | Options(id: nat)

  /** What receives a call: an engine instance or one of its sub-handles. */
  datatype Target = OnInstance(id: nat) | OnCanvas | OnImage | OnSelection

  /** The engine operations the adapter invokes, with the arguments it passes. */
  datatype Op =
    | ConstructOp(template: string, src: string)        // new Cropper(img, { template })
    | DestroyOp                                         // cropper.destroy()
    | AddListener(event: Event, listener: Option<Callback>)  // addEventListener(name, fn)
    | ResetOp                                           // $reset()
    | ClearOp                                           // $clear()
    | RenderOp                                          // $render()
    | MoveOp(dx: Number, dy: Number)                    // $move(dx, dy)
    | MoveToOp(toX: Number, toY: Number)                // $moveTo(x, y)
    | ZoomOp(ratio: Number)                             // $zoom(ratio)
    | RotateOp(degree: Number)                          // $rotate(degree)
    | ScaleOp(sx: Number, sy: Number)                   // $scale(x, y)
    | ChangeOp(x: real, y: real, width: real, height: real)  // $change(x, y, w, h)
    | ToCanvasOp(options: CanvasOptions)                // $toCanvas(options)
    | SetActionOp(mode: string)                         // $setAction(mode)

  datatype Call = Call(target: Target, op: Op)
}
