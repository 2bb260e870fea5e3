/** The component: it holds at most one engine instance, builds it from the
    template on mount, rebuilds it when the image source changes, and forwards
    every proxy method to one of the instance's sub-handles.

    `calls` records, in order, every engine call the component has issued;
    the engine's reaction to a call (and the value it returns) is outside the
    model. The sub-handles an instance exposes are given by the caller of the
    methods that construct one. */
module Component {
  import opened Js
  import opened Markup
  import opened Engine
  import opened Proxy

  class VueCropper {
    /** The props other than `src`. */
    const config: Config
    /** The `src` prop. */
    var src: string
    /** The `src` attribute of the rendered `<img>`. */
    var imgSrc: string
    /** `this.cropper`: never cleared once set. */
    var cropper: Option<Instance>
    /** Every engine call issued so far. */
    var calls: seq<Call>
    /** How many instances have been constructed; the next one gets this number as its id. */
    var built: nat

    /** The held instance, if any, is the latest one built. */
    ghost predicate Counted()
      reads this
    {
      (cropper.None? <==> built == 0) &&
      (cropper.Some? ==> cropper.value.id == built - 1)
    }

    /** The held instance is the latest one built, from this component's
        template and the image's current source. */
    ghost predicate Valid()
      reads this
    {
      Counted() &&
      (cropper.Some? ==>
        cropper.value.template == Template(config) &&
        cropper.value.imageSrc == imgSrc)
    }

    /** Creation and first render: the `<img>` shows the `src` prop. */
    constructor (config: Config, src: string)
      ensures this.config == config && this.src == src && imgSrc == src
      ensures cropper == None && calls == [] && built == 0
      ensures Valid()
    {
      this.config := config;
      this.src := src;
      imgSrc := src;
      cropper := None;
      calls := [];
      built := 0;
    }

    /** The held instance's sub-handles; all absent while there is none. */
    function CurrentHandles(): Handles
      reads this
    {
      if cropper.Some? then cropper.value.handles else Handles(None, None, None)
    }

    function GetCropperCanvas(): (r: Option<CanvasHandle>)
      reads this
      ensures cropper.None? ==> r == None
      ensures cropper.Some? ==> r == cropper.value.handles.canvas
    {
      if cropper.Some? then cropper.value.handles.canvas else None
    }

    function GetCropperImage(): (r: Option<ImageHandle>)
      reads this
      ensures cropper.None? ==> r == None
      ensures cropper.Some? ==> r == cropper.value.handles.image
    {
      if cropper.Some? then cropper.value.handles.image else None
    }

    function GetCropperSelection(): (r: Option<SelectionHandle>)
      reads this
      ensures cropper.None? ==> r == None
      ensures cropper.Some? ==> r == cropper.value.handles.selection
    {
      if cropper.Some? then cropper.value.handles.selection else None
    }

    // ----- lifecycle -----

    /** `initCropper`: construct a new instance from the template and the image's
        source, then attach the listeners. The previous instance, if any, is
        neither destroyed nor kept. */
    method InitCropper(h: Handles)
      requires Counted()
      modifies this`cropper, this`calls, this`built
      ensures Valid()
      ensures built == old(built) + 1
      ensures cropper == Some(Instance(old(built), Template(config), imgSrc, h))
      ensures calls == old(calls) + [Call(OnInstance(old(built)), ConstructOp(Template(config), imgSrc))] + Wiring(config, h)
    {
      var template := BuildTemplate(config);
      cropper := Some(Instance(built, template, imgSrc, h));
      calls := calls + [Call(OnInstance(built), ConstructOp(template, imgSrc))];
      built := built + 1;
      var wired := WireListeners(config, cropper.value.handles);
      calls := calls + wired;
    }

    /** `mounted`: Vue runs it once, before any instance exists, so it builds
        instance 0. */
    method Mounted(h: Handles)
      requires Valid() && cropper.None?
      modifies this`cropper, this`calls, this`built
      ensures Valid()
      ensures built == 1
      ensures cropper == Some(Instance(0, Template(config), imgSrc, h))
      ensures calls == old(calls) + [Call(OnInstance(0), ConstructOp(Template(config), imgSrc))] + Wiring(config, h)
    {
      InitCropper(h);
    }

    /** `unmounted`: destroy the held instance, if any, and keep the reference. */
    method Unmounted()
      modifies this`calls
      ensures old(cropper).None? ==> calls == old(calls)
      ensures old(cropper).Some? ==> calls == old(calls) + [Call(OnInstance(cropper.value.id), DestroyOp)]
    {
      if cropper.Some? {
        calls := calls + [Call(OnInstance(cropper.value.id), DestroyOp)];
      }
    }

    /** `destroy()`: the same as unmounting. */
    method Destroy()
      modifies this`calls
      ensures old(cropper).None? ==> calls == old(calls)
      ensures old(cropper).Some? ==> calls == old(calls) + [Call(OnInstance(cropper.value.id), DestroyOp)]
    {
      if cropper.Some? {
        calls := calls + [Call(OnInstance(cropper.value.id), DestroyOp)];
      }
    }

    /** `replace(url)`: without an instance nothing happens; otherwise destroy it,
        point the image at url, and construct a new instance. */
    method Replace(url: string, h: Handles)
      requires Valid()
      modifies this`cropper, this`calls, this`built, this`imgSrc
      ensures Valid()
      ensures old(cropper).None? ==>
        cropper == None && calls == old(calls) && imgSrc == old(imgSrc) && built == old(built)
      ensures old(cropper).Some? ==>
        imgSrc == url && built == old(built) + 1 &&
        cropper == Some(Instance(old(built), Template(config), url, h)) &&
        calls == old(calls) +
          [Call(OnInstance(old(cropper).value.id), DestroyOp), Call(OnInstance(old(built)), ConstructOp(Template(config), url))] +
          Wiring(config, h)
    {
      if cropper.Some? {
        calls := calls + [Call(OnInstance(cropper.value.id), DestroyOp)];
        imgSrc := url;
        InitCropper(h);
      }
    }

    /** The parent passes a `src` prop: when it differs, the watcher calls
        `replace` if there is an instance, and the re-render writes the new
        value to the `<img>`, whatever a direct `replace(url)` left there. */
    method SrcChanged(url: string, h: Handles)
      requires Valid()
      modifies this`src, this`imgSrc, this`cropper, this`calls, this`built
      ensures Valid() && src == url
      ensures url == old(src) ==> imgSrc == old(imgSrc)
      ensures url != old(src) ==> imgSrc == url
      ensures url == old(src) || old(cropper).None? ==> cropper == old(cropper) && calls == old(calls)
      ensures url != old(src) && old(cropper).Some? ==>
        cropper == Some(Instance(old(built), Template(config), url, h)) &&
        calls == old(calls) +
          [Call(OnInstance(old(cropper).value.id), DestroyOp), Call(OnInstance(old(built)), ConstructOp(Template(config), url))] +
          Wiring(config, h)
    {
      if url != src {
        src := url;
        if cropper.Some? {
          Replace(src, h);
        }
        imgSrc := src;
      }
    }

    // ----- proxies that issue one call -----

    method Reset()
      modifies this`calls
      ensures calls == old(calls) + Issued(CurrentHandles(), Request.Reset)
    {
      var selection := GetCropperSelection();
      if selection.Some? {
        calls := calls + [Call(OnSelection, ResetOp)];
      }
    }

    method Clear()
      modifies this`calls
      ensures calls == old(calls) + Issued(CurrentHandles(), Request.Clear)
    {
      var selection := GetCropperSelection();
      if selection.Some? {
        calls := calls + [Call(OnSelection, ClearOp)];
      }
    }

    method InitCrop()
      modifies this`calls
      ensures calls == old(calls) + Issued(CurrentHandles(), Request.InitCrop)
    {
      var selection := GetCropperSelection();
      if selection.Some? {
        calls := calls + [Call(OnSelection, RenderOp)];
      }
    }

    method Move(offsetX: Number, offsetY: Number)
      modifies this`calls
      ensures calls == old(calls) + Issued(CurrentHandles(), Request.Move(offsetX, offsetY))
    {
      var selection := GetCropperSelection();
      if selection.Some? {
        calls := calls + [Call(OnSelection, MoveOp(offsetX, offsetY))];
      }
    }

    /** `moveTo(x, y = x)`. */
    method MoveTo(x: Number, y: Number)
      modifies this`calls
      ensures calls == old(calls) + Issued(CurrentHandles(), Request.MoveTo(x, y))
    {
      var y' := if y.None? then x else y;
      var selection := GetCropperSelection();
      if selection.Some? {
        calls := calls + [Call(OnSelection, MoveToOp(x, y'))];
      }
    }

    method RelativeZoom(ratio: Number)
      modifies this`calls
      ensures calls == old(calls) + Issued(CurrentHandles(), Request.RelativeZoom(ratio))
    {
      var selection := GetCropperSelection();
      if selection.Some? {
        calls := calls + [Call(OnSelection, ZoomOp(ratio))];
      }
    }

    method ZoomTo(ratio: Number)
      modifies this`calls
      ensures calls == old(calls) + Issued(CurrentHandles(), Request.ZoomTo(ratio))
    {
      var image := GetCropperImage();
      if image.Some? {
        calls := calls + [Call(OnImage, ZoomOp(ratio))];
      }
    }

    method Rotate(degree: Number)
      modifies this`calls
      ensures calls == old(calls) + Issued(CurrentHandles(), Request.Rotate(degree))
    {
      var image := GetCropperImage();
      if image.Some? {
        calls := calls + [Call(OnImage, RotateOp(degree))];
      }
    }

    method RotateTo(degree: real)
      modifies this`calls
      ensures calls == old(calls) + Issued(CurrentHandles(), Request.RotateTo(degree))
    {
      var image := GetCropperImage();
      if image.Some? {
        var currentRotation := Or(image.value.rotate, 0.0);
        calls := calls + [Call(OnImage, RotateOp(Some(degree - currentRotation)))];
      }
    }

    method ScaleX(scaleX: Number)
      modifies this`calls
      ensures calls == old(calls) + Issued(CurrentHandles(), Request.ScaleX(scaleX))
    {
      var image := GetCropperImage();
      if image.Some? {
        var currentScaleY := Or(image.value.scaleY, 1.0);
        calls := calls + [Call(OnImage, ScaleOp(scaleX, Some(currentScaleY)))];
      }
    }

    method ScaleY(scaleY: Number)
      modifies this`calls
      ensures calls == old(calls) + Issued(CurrentHandles(), Request.ScaleY(scaleY))
    {
      var image := GetCropperImage();
      if image.Some? {
        var currentScaleX := Or(image.value.scaleX, 1.0);
        calls := calls + [Call(OnImage, ScaleOp(Some(currentScaleX), scaleY))];
      }
    }

    /** `scale(scaleX, scaleY = scaleX)`. */
    method Scale(scaleX: Number, scaleY: Number)
      modifies this`calls
      ensures calls == old(calls) + Issued(CurrentHandles(), Request.Scale(scaleX, scaleY))
    {
      var scaleY' := if scaleY.None? then scaleX else scaleY;
      var image := GetCropperImage();
      if image.Some? {
        calls := calls + [Call(OnImage, ScaleOp(scaleX, scaleY'))];
      }
    }

    method SetData(data: Option<BoxInput>)
      modifies this`calls
      ensures calls == old(calls) + Issued(CurrentHandles(), Request.SetData(data))
    {
      var selection := GetCropperSelection();
      if selection.Some? && data.Some? {
        var s, d := selection.value, data.value;
        calls := calls + [Call(OnSelection, ChangeOp(Or(d.x, s.x), Or(d.y, s.y), Or(d.width, s.width), Or(d.height, s.height)))];
      }
    }

    method SetCropBoxData(data: Option<BoxInput>)
      modifies this`calls
      ensures calls == old(calls) + Issued(CurrentHandles(), Request.SetCropBoxData(data))
    {
      SetData(data);
    }

    method SetCanvasData(data: Option<CanvasInput>)
      modifies this`calls
      ensures calls == old(calls) + Issued(CurrentHandles(), Request.SetCanvasData(data))
    {
      var image := GetCropperImage();
      if image.Some? && data.Some? {
        var i, d := image.value, data.value;
        ghost var before := calls;
        if d.left.Some? || d.top.Some? {
          calls := calls + [Call(OnImage, MoveToOp(OrElse(d.left, i.x), OrElse(d.top, i.y)))];
        }
        ghost var moved := calls;
        if d.width.Some? && Truthy(i.width) {
          var scale := d.width.value / i.width.value;
          calls := calls + [Call(OnImage, ZoomOp(Some(scale)))];
        }
        assert calls == before + (moved[|before|..] + calls[|moved|..]);
      }
    }

    method SetDragMode(mode: string)
      modifies this`calls
      ensures calls == old(calls) + Issued(CurrentHandles(), Request.SetDragMode(mode))
    {
      var canvas := GetCropperCanvas();
      if canvas.Some? {
        calls := calls + [Call(OnCanvas, SetActionOp(mode))];
      }
    }

    /** `getCroppedCanvas(options = {})`: the awaited `$toCanvas` result, or `null`. */
    method GetCroppedCanvas(options: Option<CanvasOptions>) returns (canvas: Option<Call>)
      modifies this`calls
      ensures calls == old(calls) + Issued(CurrentHandles(), Request.GetCroppedCanvas(options))
      ensures canvas == CroppedCanvasOf(CurrentHandles(), options)
    {
      var options' := if options.None? then EmptyOptions else options.value;
      var selection := GetCropperSelection();
      if selection.Some? {
        var call := Call(OnSelection, ToCanvasOp(options'));
        calls := calls + [call];
        return Some(call);
      }
      return None;
    }

    // ----- proxies that write a handle field -----

    method Enable()
      requires Valid()
      modifies this`cropper
      ensures Valid()
      ensures old(cropper).None? ==> cropper == None
      ensures old(cropper).Some? ==>
        cropper == Some(old(cropper).value.(handles := Effect(old(cropper).value.handles, Request.Enable)))
    {
      var canvas := GetCropperCanvas();
      if canvas.Some? {
        var inst := cropper.value;
        cropper := Some(inst.(handles := inst.handles.(canvas := Some(canvas.value.(disabled := false)))));
      }
    }

    method Disable()
      requires Valid()
      modifies this`cropper
      ensures Valid()
      ensures old(cropper).None? ==> cropper == None
      ensures old(cropper).Some? ==>
        cropper == Some(old(cropper).value.(handles := Effect(old(cropper).value.handles, Request.Disable)))
    {
      var canvas := GetCropperCanvas();
      if canvas.Some? {
        var inst := cropper.value;
        cropper := Some(inst.(handles := inst.handles.(canvas := Some(canvas.value.(disabled := true)))));
      }
    }

    /** `setAspectRatio`: write the selection's ratio, then re-render it. */
    method SetAspectRatio(aspectRatio: Number)
      requires Valid()
      modifies this`cropper, this`calls
      ensures Valid()
      ensures calls == old(calls) + Issued(old(CurrentHandles()), Request.SetAspectRatio(aspectRatio))
      ensures old(cropper).None? ==> cropper == None
      ensures old(cropper).Some? ==>
        cropper == Some(old(cropper).value.(handles := Effect(old(cropper).value.handles, Request.SetAspectRatio(aspectRatio))))
    {
      var selection := GetCropperSelection();
      if selection.Some? {
        var inst := cropper.value;
        cropper := Some(inst.(handles := inst.handles.(selection := Some(selection.value.(aspectRatio := aspectRatio)))));
        calls := calls + [Call(OnSelection, RenderOp)];
      }
    }

    // ----- getters -----

    /** `getData(rounded = false)`: copy the selection's box, then round it in place when asked. */
    method GetData(rounded: Option<bool>) returns (data: Option<BoxData>)
      ensures data == DataOf(CurrentHandles(), rounded)
    {
      var round := rounded.Some? && rounded.value;
      var selection := GetCropperSelection();
      if selection.Some? {
        var s := selection.value;
        var d := BoxData(s.x, s.y, s.width, s.height);
        if round {
          d := d.(x := RoundReal(d.x));
          d := d.(y := RoundReal(d.y));
          d := d.(width := RoundReal(d.width));
          d := d.(height := RoundReal(d.height));
        }
        return Some(d);
      }
      return None;
    }

    /** `getCropBoxData()`: `getData()` with no argument. */
    method GetCropBoxData() returns (data: Option<BoxData>)
      ensures data == CropBoxDataOf(CurrentHandles())
    {
      data := GetData(None);
    }

    function GetContainerData(): Option<ContainerData>
      reads this
    {
      ContainerDataOf(CurrentHandles())
    }

    function GetImageData(): Option<ImageData>
      reads this
    {
      ImageDataOf(CurrentHandles())
    }

    function GetCanvasData(): Option<CanvasData>
      reads this
    {
      CanvasDataOf(CurrentHandles())
    }
  }

  /** Mounting, a direct `replace`, then a new `src` prop: the watcher still
      rebuilds the instance, and the image ends up showing the new prop. */
  method ReplaceThenNewSrc(c: Config, h: Handles) returns (v: VueCropper)
    ensures v.src == "c.png" && v.imgSrc == "c.png" && v.built == 3
    ensures v.cropper == Some(Instance(2, Template(c), "c.png", h))
    ensures |v.calls| == 5 + 3 * |Wiring(c, h)|
  {
    v := new VueCropper(c, "a.png");
    v.Mounted(h);
    v.Replace("b.png", h);
    assert v.imgSrc == "b.png" && v.src == "a.png";
    v.SrcChanged("c.png", h);
  }
}
