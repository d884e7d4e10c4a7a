/**
 The viewer page bootstrap: read the query parameters, sanitise them, derive
 the attributes and children of the `model-viewer` element, or end in a fatal
 error message. The whole bootstrap is one pure function of the query map and
 the browser's parsing oracles.
 */
module Viewer {
  import opened Wrappers
  import opened Web
  import opened Sanitise

  /** `urlParams.get(key)`: the parameter's value, or `None` when it is absent. */
  function Param(q: map<string, string>, key: string): (r: Option<string>)
    ensures r.Some? <==> key in q
    ensures r.Some? ==> r.value == q[key]
  {
    if key in q then Some(q[key]) else None
  }

  // Defaults of the numeric parameters.
  const DefaultWidth: real := 16.0
  const DefaultHeight: real := 9.0
  const DefaultMinZoom: real := 25.0
  const DefaultMaxZoom: real := 200.0
  const DefaultFieldOfView: real := 45.0
  const DefaultRotationSpeed: real := 30.0

  /** The label used when neither `alt` nor `title` is given. */
  const DefaultLabel := "3D model viewer"

  const NoModelMessage := "No model URL provided"
  const InvalidModelMessage := "Invalid model URL provided"

  /** The sanitised optional parameters. `model` is handled by `Bootstrap`. */
  datatype Params = Params(
    title: Option<string>,
    width: real,
    height: real,
    minZoom: real,
    maxZoom: real,
    fieldOfView: real,
    rotationSpeed: real,
    autoRotate: bool,
    arButton: bool,
    environmentImage: Option<string>,
    skyboxImage: Option<string>,
    arButtonLabel: Option<string>,
    arPrompt: Option<string>,
    shadowIntensity: real,
    alt: Option<string>,
    a11y: Option<string>,
    usdz: Option<string>
  )

  /** Every numeric parameter lies in its declared inclusive range. */
  predicate InRange(p: Params) {
    && 1.0 <= p.width <= 100.0
    && 1.0 <= p.height <= 100.0
    && 10.0 <= p.minZoom <= 100.0
    && 100.0 <= p.maxZoom <= 500.0
    && 10.0 <= p.fieldOfView <= 90.0
    && 0.0 <= p.rotationSpeed <= 360.0
  }

  /**
   The shadow intensity: 1 when the parameter is absent or does not parse,
   otherwise the parsed value, not clamped.
   */
  function ShadowIntensity(raw: Option<string>, parseFloat: string -> Option<real>): (r: real)
    ensures raw.None? ==> r == 1.0
    ensures raw.Some? && parseFloat(raw.value).None? ==> r == 1.0
    ensures raw.Some? && parseFloat(raw.value).Some? ==> r == parseFloat(raw.value).value
  {
    // A NaN is written as the literal "1", which is also how the number 1 prints.
    match ParseNumber(raw, parseFloat)
    case None => 1.0
    case Some(v) => v
  }

  /** Extraction and sanitisation of the optional parameters. */
  function ReadParams(q: map<string, string>, parseFloat: string -> Option<real>): (p: Params)
    ensures InRange(p)
    ensures SanitisedFrom(p.width, ParseNumber(Param(q, "width"), parseFloat), 1.0, 100.0, DefaultWidth)
    ensures SanitisedFrom(p.height, ParseNumber(Param(q, "height"), parseFloat), 1.0, 100.0, DefaultHeight)
    ensures SanitisedFrom(p.minZoom, ParseNumber(Param(q, "minZoom"), parseFloat), 10.0, 100.0, DefaultMinZoom)
    ensures SanitisedFrom(p.maxZoom, ParseNumber(Param(q, "maxZoom"), parseFloat), 100.0, 500.0, DefaultMaxZoom)
    ensures SanitisedFrom(p.fieldOfView, ParseNumber(Param(q, "fieldOfView"), parseFloat),
                          10.0, 90.0, DefaultFieldOfView)
    ensures SanitisedFrom(p.rotationSpeed, ParseNumber(Param(q, "rotationSpeed"), parseFloat),
                          0.0, 360.0, DefaultRotationSpeed)
    ensures !p.autoRotate <==> Param(q, "autoRotate") == Some("false")
    ensures !p.arButton <==> Param(q, "arButton") == Some("false")
    ensures ParseNumber(Param(q, "shadowIntensity"), parseFloat).None? ==> p.shadowIntensity == 1.0
    ensures ParseNumber(Param(q, "shadowIntensity"), parseFloat).Some? ==>
      p.shadowIntensity == ParseNumber(Param(q, "shadowIntensity"), parseFloat).value
    ensures p.title == Param(q, "title") && p.alt == Param(q, "alt")
    ensures p.environmentImage == Param(q, "environmentImage") && p.skyboxImage == Param(q, "skyboxImage")
    ensures p.arButtonLabel == Param(q, "arButtonLabel") && p.arPrompt == Param(q, "arPrompt")
    ensures p.a11y == Param(q, "a11y") && p.usdz == Param(q, "usdz")
  {
    Params(
      title := Param(q, "title"),
      width := SanitiseNumber(Param(q, "width"), 1.0, 100.0, DefaultWidth, parseFloat),
      height := SanitiseNumber(Param(q, "height"), 1.0, 100.0, DefaultHeight, parseFloat),
      minZoom := SanitiseNumber(Param(q, "minZoom"), 10.0, 100.0, DefaultMinZoom, parseFloat),
      maxZoom := SanitiseNumber(Param(q, "maxZoom"), 100.0, 500.0, DefaultMaxZoom, parseFloat),
      fieldOfView := SanitiseNumber(Param(q, "fieldOfView"), 10.0, 90.0, DefaultFieldOfView, parseFloat),
      rotationSpeed := SanitiseNumber(Param(q, "rotationSpeed"), 0.0, 360.0, DefaultRotationSpeed, parseFloat),
      autoRotate := OptOutFlag(Param(q, "autoRotate")),
      arButton := OptOutFlag(Param(q, "arButton")),
      environmentImage := Param(q, "environmentImage"),
      skyboxImage := Param(q, "skyboxImage"),
      arButtonLabel := Param(q, "arButtonLabel"),
      arPrompt := Param(q, "arPrompt"),
      shadowIntensity := ShadowIntensity(Param(q, "shadowIntensity"), parseFloat),
      alt := Param(q, "alt"),
      a11y := Param(q, "a11y"),
      usdz := Param(q, "usdz")
    )
  }

  /**
   An attribute value. Numbers are kept as reals; how JavaScript prints them
   is not modelled.
   */
  datatype AttrValue =
    | Text(s: string)     // a literal string
    | Orbit(percent: real) // "auto auto <percent>%"
    | Degrees(deg: real)   // "<deg>deg"
    | Decimal(x: real)     // the number's own string form

  /** A child element appended to the viewer. */
  datatype ArChild =
    | ArButton(caption: string) // <button slot="ar-button">
    | ArPrompt(text: string)  // <div id="ar-prompt"><span>…</span></div>

  /** The attributes the bootstrap may set on the viewer element, with their HTML names. */
  datatype Attr =
    | Id                         // id
    | CameraControls             // camera-controls
    | MinCameraOrbit             // min-camera-orbit
    | MaxCameraOrbit             // max-camera-orbit
    | FieldOfView                // field-of-view
    | RotationPerSecond          // rotation-per-second
    | TouchAction                // touch-action
    | InteractionPrompt          // interaction-prompt
    | InteractionPromptStyle     // interaction-prompt-style
    | InteractionPromptThreshold // interaction-prompt-threshold
    | CameraOrbit                // camera-orbit
    | MinFieldOfView             // min-field-of-view
    | MaxFieldOfView             // max-field-of-view
    | InterpolationDecay         // interpolation-decay
    | Alt                        // alt
    | AriaLabel                  // aria-label
    | Src                        // src
    | ShadowIntensityAttr        // shadow-intensity
    | AutoRotate                 // auto-rotate
    | EnvironmentImage           // environment-image
    | SkyboxImage                // skybox-image
    | IosSrc                     // ios-src
    | Ar                         // ar
    | ArModes                    // ar-modes
    | ArScale                    // ar-scale
    | ArPlacement                // ar-placement

  /** The attributes set on every viewer element. */
  const AlwaysKeys: set<Attr> := {
    Id, CameraControls, MinCameraOrbit, MaxCameraOrbit, FieldOfView, RotationPerSecond,
    TouchAction, InteractionPrompt, InteractionPromptStyle, InteractionPromptThreshold,
    CameraOrbit, MinFieldOfView, MaxFieldOfView, InterpolationDecay,
    Alt, AriaLabel, Src, ShadowIntensityAttr
  }

  /** The attributes set only when their parameter asks for them. */
  const OptionalKeys: set<Attr> := {AutoRotate, EnvironmentImage, SkyboxImage, IosSrc}

  /** The attributes set exactly when AR is on. */
  const ArKeys: set<Attr> := {Ar, ArModes, ArScale, ArPlacement}

  /** The attributes every viewer element carries, with their values. */
  function FixedAttributes(p: Params, src: string): (m: map<Attr, AttrValue>)
    ensures m.Keys == AlwaysKeys
    ensures m[Src] == Text(src)
    ensures m[MinCameraOrbit] == Orbit(p.minZoom) && m[MaxCameraOrbit] == Orbit(p.maxZoom)
    ensures m[FieldOfView] == Degrees(p.fieldOfView)
    ensures m[RotationPerSecond] == Degrees(p.rotationSpeed)
    ensures m[ShadowIntensityAttr] == Decimal(p.shadowIntensity)
    ensures Truthy(p.alt) ==> m[Alt] == Text(p.alt.value)
    ensures !Truthy(p.alt) && Truthy(p.title) ==> m[Alt] == Text(p.title.value)
    ensures !Truthy(p.alt) && !Truthy(p.title) ==> m[Alt] == Text(DefaultLabel)
    ensures Truthy(p.title) ==> m[AriaLabel] == Text(p.title.value)
    ensures !Truthy(p.title) ==> m[AriaLabel] == Text(DefaultLabel)
    ensures m[Alt].Text? && m[Alt].s != "" && m[AriaLabel].Text? && m[AriaLabel].s != ""
    ensures m[Id] == Text("model-viewer") && m[CameraControls] == Text("")
    ensures m[TouchAction] == Text("pan-y pinch-zoom")
    ensures m[InteractionPrompt] == Text("auto") && m[InteractionPromptStyle] == Text("basic")
    ensures m[InteractionPromptThreshold] == Text("0")
    ensures m[CameraOrbit] == Text("0deg 75deg 105%")
    ensures m[MinFieldOfView] == Degrees(10.0) && m[MaxFieldOfView] == Degrees(90.0)
    ensures m[InterpolationDecay] == Text("200")
  {
    map[
      Id := Text("model-viewer"),
      CameraControls := Text(""),
      MinCameraOrbit := Orbit(p.minZoom),
      MaxCameraOrbit := Orbit(p.maxZoom),
      FieldOfView := Degrees(p.fieldOfView),
      RotationPerSecond := Degrees(p.rotationSpeed),
      TouchAction := Text("pan-y pinch-zoom"),
      InteractionPrompt := Text("auto"),
      InteractionPromptStyle := Text("basic"),
      InteractionPromptThreshold := Text("0"),
      CameraOrbit := Text("0deg 75deg 105%"),
      MinFieldOfView := Degrees(10.0),
      MaxFieldOfView := Degrees(90.0),
      InterpolationDecay := Text("200"),
      Alt := Text(OrElse(p.alt, OrElse(p.title, DefaultLabel))),
      AriaLabel := Text(OrElse(p.title, DefaultLabel)),
      Src := Text(src),
      ShadowIntensityAttr := Decimal(p.shadowIntensity)
    ]
  }

  /** The attributes that depend on an optional parameter. */
  function OptionalAttributes(p: Params): (m: map<Attr, AttrValue>)
    ensures m.Keys <= OptionalKeys
    ensures AutoRotate in m <==> p.autoRotate
    ensures EnvironmentImage in m <==> Truthy(p.environmentImage)
    ensures SkyboxImage in m <==> Truthy(p.skyboxImage)
    ensures IosSrc in m <==> Truthy(p.usdz)
    ensures AutoRotate in m ==> m[AutoRotate] == Text("")
    ensures EnvironmentImage in m ==> m[EnvironmentImage] == Text(p.environmentImage.value)
    ensures SkyboxImage in m ==> m[SkyboxImage] == Text(p.skyboxImage.value)
    ensures IosSrc in m ==> m[IosSrc] == Text(p.usdz.value)
  {
    (if p.autoRotate then map[AutoRotate := Text("")] else map[])
    + (if Truthy(p.environmentImage) then map[EnvironmentImage := Text(p.environmentImage.value)] else map[])
    + (if Truthy(p.skyboxImage) then map[SkyboxImage := Text(p.skyboxImage.value)] else map[])
    + (if Truthy(p.usdz) then map[IosSrc := Text(p.usdz.value)] else map[])
  }

  /** The augmented-reality attributes: all four when AR is on, none otherwise. */
  function ArAttributes(arButton: bool): (m: map<Attr, AttrValue>)
    ensures m.Keys == if arButton then ArKeys else {}
    ensures arButton ==>
      && m[Ar] == Text("")
      && m[ArModes] == Text("webxr scene-viewer quick-look")
      && m[ArScale] == Text("fixed")
      && m[ArPlacement] == Text("floor")
  {
    if arButton then
      map[
        Ar := Text(""),
        ArModes := Text("webxr scene-viewer quick-look"),
        ArScale := Text("fixed"),
        ArPlacement := Text("floor")
      ]
    else map[]
  }

  /**
   The attributes set on the viewer element, from sanitised parameters and
   the validated model URL. No attribute is written twice, so the order of
   the `setAttribute` calls does not matter and the parts combine by union.
   */
  function Attributes(p: Params, src: string): (m: map<Attr, AttrValue>)
    ensures AlwaysKeys <= m.Keys <= AlwaysKeys + OptionalKeys + ArKeys
    ensures forall a :: a in AlwaysKeys ==> m[a] == FixedAttributes(p, src)[a]
    ensures forall a :: a in OptionalKeys ==>
      (a in m <==> a in OptionalAttributes(p)) && (a in m ==> m[a] == OptionalAttributes(p)[a])
    ensures forall a :: a in ArKeys ==> (a in m <==> p.arButton)
    ensures p.arButton ==> forall a :: a in ArKeys ==> m[a] == ArAttributes(true)[a]
    ensures m[Src] == Text(src)
    ensures m[MinCameraOrbit] == Orbit(p.minZoom) && m[MaxCameraOrbit] == Orbit(p.maxZoom)
    ensures m[FieldOfView] == Degrees(p.fieldOfView) && m[RotationPerSecond] == Degrees(p.rotationSpeed)
  {
    assert AlwaysKeys !! OptionalKeys && AlwaysKeys !! ArKeys && OptionalKeys !! ArKeys;
    FixedAttributes(p, src) + OptionalAttributes(p) + ArAttributes(p.arButton)
  }

  /**
   The children appended inside the viewer: an AR button and an AR prompt,
   each only when AR is on and its text is non-empty, button first.
   */
  function ArChildren(p: Params): (cs: seq<ArChild>)
    ensures !p.arButton ==> cs == []
    ensures p.arButton && Truthy(p.arButtonLabel) ==> ArButton(p.arButtonLabel.value) in cs
    ensures p.arButton && Truthy(p.arPrompt) ==> ArPrompt(p.arPrompt.value) in cs
    ensures forall c :: c in cs && c.ArButton? ==> Truthy(p.arButtonLabel) && c.caption == p.arButtonLabel.value
    ensures forall c :: c in cs && c.ArPrompt? ==> Truthy(p.arPrompt) && c.text == p.arPrompt.value
    ensures forall i, j :: 0 <= i < j < |cs| ==> cs[i].ArButton? && cs[j].ArPrompt?
  {
    if !p.arButton then []
    else
      (if Truthy(p.arButtonLabel) then [ArButton(p.arButtonLabel.value)] else [])
      + (if Truthy(p.arPrompt) then [ArPrompt(p.arPrompt.value)] else [])
  }

  /**
   The container's bottom padding, `(height / width) * 100` percent: for
   sanitised dimensions it is defined and between 1 and 10000.
   */
  function AspectPadding(width: real, height: real): (r: real)
    requires 1.0 <= width <= 100.0 && 1.0 <= height <= 100.0
    ensures r * width == height * 100.0
    ensures 1.0 <= r <= 10000.0
  {
    AspectBounds(width, height);
    (height / width) * 100.0
  }

  lemma AspectBounds(width: real, height: real)
    requires 1.0 <= width <= 100.0 && 1.0 <= height <= 100.0
    ensures 1.0 <= (height / width) * 100.0 <= 10000.0
  {
    var r := height / width;
    assert width * r == height;
    assert r > 0.0;
    MulMonotone(width, 100.0, r);
    assert height <= 100.0 * r;
    MulMonotone(1.0, width, r);
    assert 1.0 * r <= height;
  }

  lemma MulMonotone(a: real, b: real, c: real)
    requires a <= b && c >= 0.0
    ensures a * c <= b * c
  {
  }

  /**
   The accessibility descriptor: `JSON.parse(decodeURIComponent(a11y))` when
   the parameter is non-empty; any failure just leaves it out.
   */
  function DecodeA11y(raw: Option<string>, o: Oracles): (r: Option<Json>)
    ensures r.Some? <==>
      && Truthy(raw)
      && o.decodeUri(raw.value).Success?
      && o.parseJson(o.decodeUri(raw.value).value).Some?
    ensures r.Some? ==> r.value == o.parseJson(o.decodeUri(raw.value).value).value
  {
    if !Truthy(raw) then None
    else match o.decodeUri(raw.value)
      case Failure(_) => None
      case Success(text) => o.parseJson(text)
  }

  /** The configured viewer element and its container. */
  datatype ViewerConfig = ViewerConfig(
    attributes: map<Attr, AttrValue>,
    children: seq<ArChild>,
    paddingBottom: real,
    a11y: Option<Json>
  )

  /** The derived values of a configured viewer lie within the declared ranges. */
  predicate WithinRanges(c: ViewerConfig) {
    && MinCameraOrbit in c.attributes && c.attributes[MinCameraOrbit].Orbit?
    && 10.0 <= c.attributes[MinCameraOrbit].percent <= 100.0
    && MaxCameraOrbit in c.attributes && c.attributes[MaxCameraOrbit].Orbit?
    && 100.0 <= c.attributes[MaxCameraOrbit].percent <= 500.0
    && FieldOfView in c.attributes && c.attributes[FieldOfView].Degrees?
    && MinFieldOfView in c.attributes && c.attributes[MinFieldOfView].Degrees?
    && MaxFieldOfView in c.attributes && c.attributes[MaxFieldOfView].Degrees?
    && c.attributes[MinFieldOfView].deg <= c.attributes[FieldOfView].deg <= c.attributes[MaxFieldOfView].deg
    && RotationPerSecond in c.attributes && c.attributes[RotationPerSecond].Degrees?
    && 0.0 <= c.attributes[RotationPerSecond].deg <= 360.0
    && 1.0 <= c.paddingBottom <= 10000.0
  }

  /** Builds the viewer element's configuration from sanitised parameters. */
  function Configure(p: Params, src: string, a11y: Option<Json>): (c: ViewerConfig)
    requires InRange(p)
    ensures WithinRanges(c)
    ensures c.paddingBottom == AspectPadding(p.width, p.height)
    ensures c.attributes == Attributes(p, src) && c.children == ArChildren(p)
    ensures c.a11y == a11y
  {
    var attributes := Attributes(p, src);
    assert attributes[MinCameraOrbit] == Orbit(p.minZoom);
    assert attributes[MaxCameraOrbit] == Orbit(p.maxZoom);
    assert attributes[FieldOfView] == Degrees(p.fieldOfView);
    assert attributes[RotationPerSecond] == Degrees(p.rotationSpeed);
    assert attributes[MinFieldOfView] == Degrees(10.0) && attributes[MaxFieldOfView] == Degrees(90.0);
    ViewerConfig(attributes, ArChildren(p), AspectPadding(p.width, p.height), a11y)
  }

  /** What the page shows after the bootstrap. */
  datatype Content = Error(message: string) | Viewer(config: ViewerConfig)

  /** The document title (`None`: left unchanged) and the page content. */
  datatype Page = Page(title: Option<string>, content: Content)

  /** `decodeURIComponent(title)` runs, and throws. */
  predicate TitleDecodeFails(q: map<string, string>, o: Oracles) {
    Truthy(Param(q, "title")) && o.decodeUri(Param(q, "title").value).Failure?
  }

  /**
   The bootstrap after the viewer library is available. Fatal errors, in the
   order they are detected: no model URL, a title that does not decode, a
   model URL that does not parse. A fatal error never yields a viewer; a bad
   accessibility descriptor never yields a fatal error.
   */
  function Bootstrap(q: map<string, string>, o: Oracles): (page: Page)
    ensures !Truthy(Param(q, "model")) ==> page == Page(None, Error(NoModelMessage))
    ensures Truthy(Param(q, "model")) && TitleDecodeFails(q, o) ==>
      page == Page(None, Error(o.decodeUri(Param(q, "title").value).message))
    ensures Truthy(Param(q, "model")) && !TitleDecodeFails(q, o) && o.parseUrl(q["model"]).None? ==>
      page.content == Error(InvalidModelMessage)
    ensures page.content.Viewer? <==>
      Truthy(Param(q, "model")) && !TitleDecodeFails(q, o) && o.parseUrl(q["model"]).Some?
    ensures Truthy(Param(q, "model")) && !TitleDecodeFails(q, o) ==>
      page.title == (if Truthy(Param(q, "title")) then Some(o.decodeUri(q["title"]).value) else None)
    ensures page.content.Viewer? ==>
      && WithinRanges(page.content.config)
      && AlwaysKeys <= page.content.config.attributes.Keys
      && page.content.config.attributes[Src] == Text(o.parseUrl(q["model"]).value.href)
      && page.content.config.a11y == DecodeA11y(Param(q, "a11y"), o)
      && page.content.config == Configure(ReadParams(q, o.parseFloat), o.parseUrl(q["model"]).value.href,
                                          DecodeA11y(Param(q, "a11y"), o))
      && (Ar in page.content.config.attributes <==> Param(q, "arButton") != Some("false"))
      && (AutoRotate in page.content.config.attributes <==> Param(q, "autoRotate") != Some("false"))
  {
    Render(Param(q, "model"), ReadParams(q, o.parseFloat), o)
  }

  /** The page for a model parameter and the sanitised parameters (the title among them). */
  function Render(model: Option<string>, p: Params, o: Oracles): Page
    requires InRange(p)
  {
    if !Truthy(model) then Page(None, Error(NoModelMessage))
    else
      var decoded := if Truthy(p.title) then o.decodeUri(p.title.value) else Success("");
      if decoded.Failure? then Page(None, Error(decoded.message))
      else
        var pageTitle := if Truthy(p.title) then Some(decoded.value) else None;
        match o.parseUrl(model.value)
        case None => Page(pageTitle, Error(InvalidModelMessage))
        case Some(url) => Page(pageTitle, Viewer(Configure(p, url.href, DecodeA11y(p.a11y, o))))
  }

  /**
   The shadow intensity is the sanitiser with fallback 1 and no clamping: it
   agrees with any clamp that leaves the parsed value alone, and stays above
   a bound the value crosses.
   */
  lemma ShadowIntensityIsUnclamped(raw: Option<string>, lo: real, hi: real, parseFloat: string -> Option<real>)
    requires lo <= hi
    ensures ParseNumber(raw, parseFloat).None? ==>
      ShadowIntensity(raw, parseFloat) == SanitiseNumber(raw, lo, hi, 1.0, parseFloat)
    ensures ParseNumber(raw, parseFloat).Some? && lo <= ParseNumber(raw, parseFloat).value <= hi ==>
      ShadowIntensity(raw, parseFloat) == SanitiseNumber(raw, lo, hi, 1.0, parseFloat)
    ensures ParseNumber(raw, parseFloat).Some? && ParseNumber(raw, parseFloat).value > hi ==>
      ShadowIntensity(raw, parseFloat) > SanitiseNumber(raw, lo, hi, 1.0, parseFloat)
  {
  }

  /** Each opt-out flag is read from its own parameter and no other. */
  lemma FlagsReadOnlyTheirParameter(q: map<string, string>, k: string, v: string,
                                    parseFloat: string -> Option<real>)
    ensures k != "autoRotate" ==> ReadParams(q[k := v], parseFloat).autoRotate == ReadParams(q, parseFloat).autoRotate
    ensures k != "arButton" ==> ReadParams(q[k := v], parseFloat).arButton == ReadParams(q, parseFloat).arButton
  {
  }

  /**
   The accessibility parameter is never fatal: whatever it holds, the page
   shows a viewer or an error exactly as it would without it, with the same
   title, attributes and children.
   */
  lemma A11yNeverFatal(q: map<string, string>, s: string, o: Oracles)
    ensures Bootstrap(q, o).title == Bootstrap(q["a11y" := s], o).title
    ensures Bootstrap(q, o).content.Viewer? <==> Bootstrap(q["a11y" := s], o).content.Viewer?
    ensures Bootstrap(q, o).content.Error? ==> Bootstrap(q, o).content == Bootstrap(q["a11y" := s], o).content
    ensures Bootstrap(q, o).content.Viewer? ==>
      && Bootstrap(q, o).content.config.attributes == Bootstrap(q["a11y" := s], o).content.config.attributes
      && Bootstrap(q, o).content.config.children == Bootstrap(q["a11y" := s], o).content.config.children
  {
    var q' := q["a11y" := s];
    var p := ReadParams(q, o.parseFloat);
    A11yOnlyReachesDescriptor(q, s, o.parseFloat);
    assert Param(q', "model") == Param(q, "model");
    RenderIgnoresA11y(Param(q, "model"), p, Some(s), o);
  }

  /** Only the page's descriptor depends on the accessibility parameter. */
  lemma RenderIgnoresA11y(model: Option<string>, p: Params, x: Option<string>, o: Oracles)
    requires InRange(p)
    ensures Render(model, p, o).title == Render(model, p.(a11y := x), o).title
    ensures Render(model, p, o).content.Viewer? <==> Render(model, p.(a11y := x), o).content.Viewer?
    ensures Render(model, p, o).content.Error? ==> Render(model, p, o).content == Render(model, p.(a11y := x), o).content
    ensures Render(model, p, o).content.Viewer? ==>
      && Render(model, p, o).content.config.attributes == Render(model, p.(a11y := x), o).content.config.attributes
      && Render(model, p, o).content.config.children == Render(model, p.(a11y := x), o).content.config.children
  {
    var p' := p.(a11y := x);
    assert InRange(p') && p'.title == p.title;
    if Truthy(model) && !(Truthy(p.title) && o.decodeUri(p.title.value).Failure?) {
      var title := if Truthy(p.title) then Some(o.decodeUri(p.title.value).value) else None;
      match o.parseUrl(model.value)
      case None =>
      case Some(url) =>
        var c := Configure(p, url.href, DecodeA11y(p.a11y, o));
        var c' := Configure(p', url.href, DecodeA11y(x, o));
        assert Render(model, p, o) == Page(title, Viewer(c));
        assert Render(model, p', o) == Page(title, Viewer(c'));
        ConfigureIgnoresA11y(p, x, url.href, DecodeA11y(p.a11y, o), DecodeA11y(x, o));
    }
  }

  /** Updating the accessibility parameter changes only the parameter record's `a11y` field. */
  lemma A11yOnlyReachesDescriptor(q: map<string, string>, s: string, parseFloat: string -> Option<real>)
    ensures ReadParams(q["a11y" := s], parseFloat) == ReadParams(q, parseFloat).(a11y := Some(s))
  {
    var q' := q["a11y" := s];
    assert Param(q', "title") == Param(q, "title");
    assert Param(q', "width") == Param(q, "width");
    assert Param(q', "height") == Param(q, "height");
    assert Param(q', "minZoom") == Param(q, "minZoom");
    assert Param(q', "maxZoom") == Param(q, "maxZoom");
    assert Param(q', "fieldOfView") == Param(q, "fieldOfView");
    assert Param(q', "rotationSpeed") == Param(q, "rotationSpeed");
    assert Param(q', "autoRotate") == Param(q, "autoRotate");
    assert Param(q', "arButton") == Param(q, "arButton");
    assert Param(q', "environmentImage") == Param(q, "environmentImage");
    assert Param(q', "skyboxImage") == Param(q, "skyboxImage");
    assert Param(q', "arButtonLabel") == Param(q, "arButtonLabel");
    assert Param(q', "arPrompt") == Param(q, "arPrompt");
    assert Param(q', "shadowIntensity") == Param(q, "shadowIntensity");
    assert Param(q', "alt") == Param(q, "alt");
    assert Param(q', "usdz") == Param(q, "usdz");
  }

  /** The configured element does not depend on the accessibility parameter, only its descriptor does. */
  lemma ConfigureIgnoresA11y(p: Params, x: Option<string>, src: string, d: Option<Json>, d': Option<Json>)
    requires InRange(p)
    ensures Configure(p.(a11y := x), src, d').attributes == Configure(p, src, d).attributes
    ensures Configure(p.(a11y := x), src, d').children == Configure(p, src, d).children
  {
    ElementIgnoresA11yParam(p, x, src);
  }

  /** The element's attributes and children do not depend on the accessibility parameter. */
  lemma ElementIgnoresA11yParam(p: Params, x: Option<string>, src: string)
    ensures Attributes(p.(a11y := x), src) == Attributes(p, src)
    ensures ArChildren(p.(a11y := x)) == ArChildren(p)
  {
    assert FixedAttributes(p.(a11y := x), src) == FixedAttributes(p, src);
    assert OptionalAttributes(p.(a11y := x)) == OptionalAttributes(p);
  }
}
