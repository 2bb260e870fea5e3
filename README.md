# VueCropper adapter, modelled in Dafny

VueCropper is a Vue 3 component that wraps the Cropper.js v2 engine. The
engine's UI is a tree of custom elements: `cropper-canvas`, `cropper-image`,
`cropper-selection`, `cropper-grid` and the handles. The adapter does three
things, and this project models all three:

- **Markup.** When mounted without a `template` prop, it builds the engine's
  template string from its boolean and numeric props. Each attribute list is
  a run of `if (prop) list.push(token)` statements, rendered with
  `join(' ')`.
- **Listener wiring.** It attaches the callback props to the canvas, image
  and selection sub-handles as DOM event listeners.
- **Proxies.** Its methods forward to those sub-handles. Each proxy
  consults one sub-handle and does nothing when that sub-handle is absent.

The project has six modules:

- `Js` models JavaScript truthiness, `a || b` defaults and `Math.round`.
- `Tokens` models conditional pushes (`Select`) and space-joined lists (`Join`, `Split`).
- `Markup` models the config (every prop with its default), the attribute
  lists, the element skeleton and the rendered template.
- `Engine` models the engine as the sub-handles the component reads and
  the calls it issues (`Call(target, op)`).
- `Proxy` models what each proxy method issues, writes and returns, and the
  listener wiring.
- `Component.VueCropper` models the component's instance state and its
  lifecycle. It is a class. Its `calls` field logs every engine call in
  order, and its `built` field numbers the engine instances constructed.

The builder and the wiring are imperative methods. Each is proved equal to a
selection function (`Select` over a candidate table and a flag list), and
the lemmas about that function say what each list contains. A token is
present exactly when its prop is truthy. Nothing else is present. Tokens
keep the source's order. Numeric tokens follow JavaScript truthiness, so a
0 aspect ratio, row count or column count is dropped. A 0 initial coverage
is kept, because that test is `!== undefined`.

Numbers are `Option<real>`: `None` is `undefined` and `Some(0.0)` is falsy.
NaN is not modelled. A numeric prop used in markup also carries the text
JavaScript prints for it (`Num(value, text)`).

## Model

| member | source | states |
|---|---|---|
| Js.Round | VueCropper.js:386-391 | `Math.round`: the result is the integer within half a unit of the value, with halves going up |
| Js.RoundUnique | VueCropper.js:386-391 | only one integer meets those bounds, so rounding is determined by them |
| Tokens.SelectContains | VueCropper.js:145-166 | a run of conditional pushes contains a value iff some candidate equal to it had its condition true |
| Tokens.SelectIsSubsequence | VueCropper.js:145-166 | the pushed tokens appear in the order of the push statements |
| Tokens.SplitJoin | VueCropper.js:170-174 | reading back a space-joined list of space-free, non-empty tokens gives the same tokens |
| Markup.BuildImageAttrs | VueCropper.js:145-149 | the four conditional pushes leave exactly `ImageAttrs(c)` |
| Markup.BuildSelectionAttrs | VueCropper.js:151-160 | the nine conditional pushes leave exactly `SelectionAttrs(c)` |
| Markup.BuildGridAttrs | VueCropper.js:162-166 | the four conditional pushes leave exactly `GridAttrs(c)` |
| Markup.ImageAttrsCorrect | VueCropper.js:145-149 | `rotatable`, `scalable`, `skewable` and `translatable` are each present iff their prop is set; nothing else is present; the order is the source's |
| Markup.SelectionAttrsCorrect | VueCropper.js:151-160 | each of the six selection flags is present iff its prop is set; `aspect-ratio` and `initial-aspect-ratio` are present iff their prop is truthy; `initial-coverage` is present iff it is defined; every token is one of the candidates, whose value attributes carry the prop's printed text; the order is the source's |
| Markup.GridAttrsCorrect | VueCropper.js:162-166 | `rows` and `columns` are present iff truthy, carrying their text; `bordered` and `covered` are present iff set; the order is the source's |
| Markup.GridAttrsHaveNoRole | VueCropper.js:174 | the grid's generated attributes never include a second `role` |
| Markup.CanvasAttrsCorrect | VueCropper.js:169 | the canvas gets `background` iff that prop is set and `disabled` iff that prop is set, and nothing else |
| Markup.ZeroNumericOptions | VueCropper.js:158-164 | a 0 aspect ratio, initial aspect ratio, row count or column count yields no attribute, while a 0 initial coverage is still emitted |
| Markup.DefaultConfigLists | VueCropper.js:24-123 | with every prop at its declared default, the lists are canvas [background]; image [rotatable scalable translatable]; selection [movable resizable zoomable keyboard outlined initial-coverage="0.5"]; grid [bordered covered] |
| Markup.SelectionOutline | VueCropper.js:173-185 | the selection element holds, in order, the grid, the crosshair, the move handle with its fixed theme colour, and the eight resize handles n, e, s, w, ne, nw, se, sw |
| Markup.SkeletonOutline | VueCropper.js:168-187 | the default tree in document order is canvas, image, shade, select handle, selection, then the selection's children |
| Markup.DefaultSkeletonIsFixed | VueCropper.js:168-187 | any two configs produce the same sixteen elements with the same tags; only the attributes of the canvas, image, selection and grid can differ |
| Markup.SameMarkup | VueCropper.js:143-187 | two configs that agree on the 19 props the builder reads produce the same default markup |
| Markup.TemplateOverride | VueCropper.js:142-143 | a truthy `template` prop is used verbatim; an undefined or empty one yields the built default |
| Markup.TemplateIgnoresStyling | VueCropper.js:46-50 | `scaleStep` and `themeColor` are declared but do not affect the template |
| Markup.BuildTemplate | VueCropper.js:142-188 | the template computed step by step is `Template(c)`: the prop if truthy, else the rendered default tree |
| Markup.RenderedListsReadBack | VueCropper.js:169-174 | when the numeric texts contain no space, splitting each rendered attribute string on spaces gives back the list's attributes one by one |
| Markup.AttrIsWord | VueCropper.js:146-166 | a rendered attribute is non-empty and space-free whenever its value text has no space |
| Proxy.WireListeners | VueCropper.js:198-222 | the one pass of `addEventListener` calls appends exactly `Wiring(c, h)` |
| Engine.EventNamesDistinct | VueCropper.js:205-220 | the eight event kinds have eight different DOM event names, so no two callbacks share an event |
| Proxy.WiringCorrect | VueCropper.js:203-221 | each of the eight callbacks is attached, under its own event name to its own sub-handle, iff the callback is set and that sub-handle exists; nothing else is attached; the order is the source's |
| Proxy.Issued | VueCropper.js:239-509 | every proxy issues its calls only to the sub-handle it consults, and none when that sub-handle is absent; it issues at most one call, or two for `setCanvasData`; each forwarding proxy issues exactly one call when its sub-handle is present |
| Proxy.ForwardedCalls | VueCropper.js:239-509 | with its sub-handle present, `reset`, `clear`, `initCrop`, `move`, `relativeZoom`, `zoomTo`, `rotate` and `setDragMode` each issue exactly one call to their own engine method, with the caller's arguments unchanged |
| Proxy.Effect | VueCropper.js:275-500 | only `enable`, `disable` and `setAspectRatio` write a handle field; the image handle and the presence of each sub-handle never change |
| Proxy.NoHandlesNoEffect | dist/VueCropper.js:202-228 | with no instance, no proxy issues a call or writes a field; `getData` and the other data getters return `{}`; `getCroppedCanvas` returns `null` |
| Proxy.RotateToIsRelative | dist/VueCropper.js:288-294 | `rotateTo(d)` issues one relative rotation by `d` minus the current rotation (0 when falsy), so the rotation `getImageData` reports plus the delta is `d` |
| Proxy.ScaleKeepsOtherAxis | VueCropper.js:350-366 | `scaleX`/`scaleY` pass the other axis as the image's current scale, or 1 when that is falsy |
| Proxy.ScaleSecondArgument | VueCropper.js:368-374 | `scale(x)` means `scale(x, x)`; a given second factor is used as is |
| Proxy.MoveToSecondArgument | VueCropper.js:306-312 | `moveTo(x)` means `moveTo(x, x)`; a given second coordinate is used as is |
| Proxy.DataOfSelection | VueCropper.js:376-397 | `getData` returns a box iff there is a selection; unrounded it is the selection's own x, y, width and height; `getData(true)` rounds each with `Math.round`; `getCropBoxData()` is `getData(false)` |
| Proxy.RoundedBoxIsNearest | VueCropper.js:386-391 | each rounded number is an integer within half a unit of the selection's value |
| Proxy.SetDataFallsBack | VueCropper.js:399-410 | `setData(null)` issues nothing; otherwise it issues one `$change` where each truthy field is kept and each falsy one (an explicit 0 included) becomes the selection's current value; `setCropBoxData` issues the same |
| Proxy.SetDataOfGetData | VueCropper.js:376-410 | passing `getData()`'s result to `setData` re-issues the current box |
| Proxy.ImageAndCanvasData | VueCropper.js:412-457 | `getImageData` maps falsy position and rotation to 0 and falsy scales to 1, and passes sizes through; `getCanvasData` is the same record without rotation and scale; `getContainerData` is the canvas's width and height; each is `{}` without its sub-handle |
| Proxy.SetCanvasDataCalls | VueCropper.js:459-472 | `setCanvasData` issues a `$moveTo` iff left or top is given, then a `$zoom` iff a width is given and the image width is truthy; the zoom ratio times the image width is the requested width |
| Proxy.SetCanvasDataOfGetCanvasData | VueCropper.js:443-472 | for every image, passing `getCanvasData()`'s result back moves the image to where it is (a 0 or undefined coordinate falls back to the image's own value) and, iff the image width is truthy, then zooms by exactly 1 |
| Proxy.EnableDisableWriteDisabled | VueCropper.js:275-289 | `enable`/`disable` set the canvas's `disabled` to false/true, change nothing else, and issue no call |
| Proxy.SetAspectRatioWritesRatio | VueCropper.js:493-500 | `setAspectRatio` sets only the selection's `aspectRatio`, then issues one `$render`; without a selection it does nothing |
| Proxy.CroppedCanvasRequest | VueCropper.js:484-491 | `getCroppedCanvas` is `null` iff there is no selection; otherwise it is the selection's `$toCanvas` with the options, `{}` when missing |
| Component.VueCropper.constructor | VueCropper.js:5-22 | a new component has no instance and no calls, and its image source is the `src` prop |
| Component.VueCropper.GetCropperCanvas | VueCropper.js:226-228 | the current instance's canvas, or none without an instance |
| Component.VueCropper.GetCropperImage | VueCropper.js:230-232 | the current instance's image, or none without an instance |
| Component.VueCropper.GetCropperSelection | VueCropper.js:234-236 | the current instance's selection, or none without an instance |
| Component.VueCropper.InitCropper | VueCropper.js:140-223 | constructs a new engine instance from `Template(config)` and the current image source, then appends exactly the listener wiring for its handles |
| Component.VueCropper.Mounted | VueCropper.js:124-126 | mounting, which happens once while no instance exists, builds instance 0 with its wiring |
| Component.VueCropper.Unmounted | VueCropper.js:127-131 | unmounting destroys the instance if there is one and otherwise does nothing |
| Component.VueCropper.Destroy | VueCropper.js:291-295 | destroys the instance if there is one; the reference itself is kept |
| Component.VueCropper.Replace | VueCropper.js:263-272 | without an instance nothing happens; otherwise the old instance is destroyed, the image source becomes the URL, and a new instance is built and wired |
| Component.VueCropper.SrcChanged | VueCropper.js:132-137 | a new `src` rebuilds the instance through `replace` only when there is one and the value changed; a changed `src` is then what the image shows, even after a direct `replace(url)`; an unchanged one leaves the image as it was |
| Component.ReplaceThenNewSrc | VueCropper.js:132-137 | after mounting on `a.png` and a direct `replace("b.png")`, a new `src` of `c.png` still rebuilds: the third instance shows `c.png`, and the log holds three constructions, two destructions and three wirings |
| Component.VueCropper.Reset | VueCropper.js:239-245 | appends the calls `Issued` gives for `reset` |
| Component.VueCropper.Clear | VueCropper.js:247-253 | appends the calls `Issued` gives for `clear` |
| Component.VueCropper.InitCrop | VueCropper.js:255-261 | appends the calls `Issued` gives for `initCrop` |
| Component.VueCropper.Move | VueCropper.js:298-304 | appends the calls `Issued` gives for `move` |
| Component.VueCropper.MoveTo | VueCropper.js:306-312 | appends the calls `Issued` gives for `moveTo`, with `y` defaulting to `x` |
| Component.VueCropper.RelativeZoom | VueCropper.js:314-322 | appends the calls `Issued` gives for `relativeZoom` |
| Component.VueCropper.ZoomTo | VueCropper.js:324-330 | appends the calls `Issued` gives for `zoomTo` |
| Component.VueCropper.Rotate | VueCropper.js:332-338 | appends the calls `Issued` gives for `rotate` |
| Component.VueCropper.RotateTo | VueCropper.js:340-348 | appends the relative rotation `Issued` gives for `rotateTo` |
| Component.VueCropper.ScaleX | VueCropper.js:350-357 | appends the calls `Issued` gives for `scaleX` |
| Component.VueCropper.ScaleY | VueCropper.js:359-366 | appends the calls `Issued` gives for `scaleY` |
| Component.VueCropper.Scale | VueCropper.js:368-374 | appends the calls `Issued` gives for `scale` |
| Component.VueCropper.SetData | VueCropper.js:399-410 | appends the `$change` that `Issued` gives for `setData` |
| Component.VueCropper.SetCropBoxData | VueCropper.js:479-482 | appends what `setData` appends |
| Component.VueCropper.SetCanvasData | VueCropper.js:459-472 | appends the move and/or zoom that `Issued` gives for `setCanvasData`, move first |
| Component.VueCropper.SetDragMode | VueCropper.js:502-509 | appends the canvas `$setAction` that `Issued` gives |
| Component.VueCropper.GetCroppedCanvas | VueCropper.js:484-491 | appends the `$toCanvas` call and returns `CroppedCanvasOf` for the current handles |
| Component.VueCropper.Enable | VueCropper.js:275-281 | clears the canvas's `disabled` in place; the instance, calls and every other field are unchanged |
| Component.VueCropper.Disable | VueCropper.js:283-289 | sets the canvas's `disabled` in place; the instance, calls and every other field are unchanged |
| Component.VueCropper.SetAspectRatio | VueCropper.js:493-500 | writes the selection's `aspectRatio` in place and appends the `$render` call |
| Component.VueCropper.GetData | VueCropper.js:376-397 | the record built field by field, with optional in-place rounding, is `DataOf` for the current handles |
| Component.VueCropper.GetCropBoxData | VueCropper.js:474-477 | is `getData()` with no argument |

## Left out

- The engine (Cropper.js) is not part of this model. `new Cropper`, `$change`, `$zoom` and the other engine methods are recorded as calls in the component's `calls` log. Their effect on the engine is not modelled. Neither are their return values: the proxies discard them.
- An instance's sub-handles are fixed when it is built. After that, their presence and fields change only through `enable`, `disable` and `setAspectRatio`, so the wiring and every later proxy see the same handles. The source looks the handles up on every call. So the model cannot show a sub-handle that is missing when the wiring runs but present later: the source would then never attach its listeners, yet its proxies would still work.
- The handles a new instance exposes are a parameter of `InitCropper`, `Mounted`, `Replace` and `SrcChanged`. They stand for whatever the engine builds from the template.
- Vue plumbing is not modelled: `render`, `$refs.container`, `$refs.img`, `alt`, `crossorigin`, `containerStyle` and `imgStyle`. The props are a constant `Config`. Only `src` changes over time.
- `$nextTick`: the source defers the listener wiring to the next tick, and the deferred callback reads `this.cropper` only when it runs. The model wires each new instance in the same step as its construction. So it does not capture the race this opens: when two instances are built in one tick, only the newer one is wired in the source; and a proxy call made before the tick runs reaches an instance with no listeners attached.
- Calls to the canvas, image and selection carry no instance number. In the `calls` log, the instance they reach is the one most recently constructed before them: every `ConstructOp` carries its instance's number.
- DOM event dispatch is not modelled. Wiring records which callback is attached to which sub-handle under which event name.
- `getCroppedCanvas` is `async` in the source. The model returns the issued `$toCanvas` call in place of the promised canvas.
- Floating point is not modelled: numbers are reals, and NaN, infinities and number-to-string conversion are left out. Each numeric prop used in the markup carries its printed text.
- `rotateTo(undefined)` reaches `undefined - rotate` (NaN) in the source. The model's `RotateTo` takes a defined degree.
- JavaScript `null` is not modelled: a number is `undefined` (`None`) or a real. Vue passes `null` through for a `Number` prop, and the source's `!== undefined` tests (VueCropper.js:160, 462, 466) and parameter defaults (VueCropper.js:306, 368, 376, 484) treat `null` unlike `undefined`. For example, `initialCoverage: null` emits `initial-coverage="null"`, and `moveTo(5, null)` passes `null` as y. The model has no third state for these cases.
- `relativeZoom` and `zoomTo` accept a second `_originalEvent` argument that they never use. The model omits it.
- Template whitespace is not modelled. `Template` renders with single spaces between attributes and drops empty slots, so it equals the source's string up to whitespace. `DefaultSkeletonIsFixed` and the attribute lemmas state the content.
- `Component.VueCropper.Destroy`: `destroy` keeps the `cropper` reference, and so does the model. The model says nothing about the engine's handles after destruction. Proxies called later still see the destroyed instance's handles.
- `Component.VueCropper.SrcChanged`: Vue's re-render is modelled only by its one effect here: writing the new `src` to the `<img>` (`imgSrc`), after the watcher's `replace`. The real order of the watcher and the DOM patch is not modelled. After a direct `replace(url)`, the image shows `url` until the `src` prop next changes.
- `Component.VueCropper.GetContainerData`, `GetImageData` and `GetCanvasData` only apply `Proxy.ContainerDataOf`, `ImageDataOf` and `CanvasDataOf` to the current handles. They carry no contract of their own. `Proxy.ImageAndCanvasData` states what they return.
