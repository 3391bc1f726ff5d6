/**
 * The rendered content of one 2D view of the overlay scene, as values.
 *
 * A view's content element holds layers in document order: the base image,
 * the gradient definitions, the group of spot ellipses and the group of
 * labels (and whatever the view itself put there). The scene reaches each
 * layer the way querySelector does: the first child of that kind. Every
 * incremental update is an Edit applied to that first layer; this module
 * says what each edit does and what a view that "shows" a scene state looks
 * like, and proves that the cheap paths keep a view showing the state.
 */
module Overlay {
  import opened Options
  import Decimal

  /** A colour map, reduced to what the scene uses of it: the CSS colour it yields for an intensity. */
  type ColorMap = real -> string

  /** One spot as the scene stores it; intensity None stands for NaN or undefined ("no data"). */
  datatype Spot = Spot(x: real, y: real, r: real, name: string, intensity: Option<real>)

  /** A gradient stop: its offset, its inline stop-color ("" = none) and its inline stop-opacity (None = not set). */
  datatype Stop = Stop(offset: string, color: string, opacity: Option<real>)

  /** A radialGradient element with its geometry attributes and its two stops. */
  datatype Gradient = Gradient(id: string, cx: string, cy: string, r: string, fx: string, fy: string,
                               stop0: Stop, stop1: Stop)

  datatype Ellipse = Ellipse(cx: real, cy: real, rx: real, ry: real, fill: string)

  datatype Label = Label(x: real, y: real, text: string)

  datatype Layer =
    | ImageLayer(href: string, width: real, height: real)
    | DefsLayer(gradients: seq<Gradient>)
    | SpotsGroup(ellipses: seq<Ellipse>)
    | LabelsGroup(fontSize: real, fill: string, visible: bool, labels: seq<Label>)
    | OtherElement(tag: string)

  datatype Kind = ImageKind | DefsKind | SpotsKind | LabelsKind | OtherKind

  function KindOf(l: Layer): Kind {
    match l
    case ImageLayer(_, _, _) => ImageKind
    case DefsLayer(_) => DefsKind
    case SpotsGroup(_) => SpotsKind
    case LabelsGroup(_, _, _, _) => LabelsKind
    case OtherElement(_) => OtherKind
  }

  // ---------------------------------------------------------------------------
  // Lookup: querySelector('image' | 'defs' | '#spots' | '#labels')
  // ---------------------------------------------------------------------------

  /** The position of the first child of kind k, if there is one. */
  function Find(ch: seq<Layer>, k: Kind): (r: Option<nat>)
    ensures r.Some? ==> r.value < |ch| && KindOf(ch[r.value]) == k
  {
    if ch == [] then None
    else if KindOf(ch[0]) == k then Some(0)
    else match Find(ch[1..], k)
      case None => None
      case Some(j) => Some(j + 1)
  }

  /** A lookup answers the first child of kind k, and fails only when there is none. */
  lemma {:induction false} FindFirst(ch: seq<Layer>, k: Kind)
    ensures Find(ch, k).Some? ==> forall j :: 0 <= j < Find(ch, k).value ==> KindOf(ch[j]) != k
    ensures Find(ch, k).None? ==> forall j :: 0 <= j < |ch| ==> KindOf(ch[j]) != k
  {
    if ch != [] && KindOf(ch[0]) != k {
      FindFirst(ch[1..], k);
      assert forall j :: 1 <= j < |ch| ==> ch[j] == ch[1..][j - 1];
    }
  }

  /** A lookup is characterised by its result: the first child of that kind. */
  lemma {:induction false} FindIs(ch: seq<Layer>, k: Kind, i: nat)
    requires i < |ch| && KindOf(ch[i]) == k
    requires forall j :: 0 <= j < i ==> KindOf(ch[j]) != k
    ensures Find(ch, k) == Some(i)
  {
    if i > 0 {
      assert KindOf(ch[0]) != k;
      assert forall j :: 0 <= j < i - 1 ==> ch[1..][j] == ch[j + 1];
      FindIs(ch[1..], k, i - 1);
    }
  }

  /** Children with the same kinds, position by position, answer every lookup alike. */
  lemma FindByKinds(a: seq<Layer>, b: seq<Layer>, k: Kind)
    requires |a| == |b|
    requires forall i :: 0 <= i < |a| ==> KindOf(a[i]) == KindOf(b[i])
    ensures Find(a, k) == Find(b, k)
  {
    FindFirst(a, k);
    FindFirst(b, k);
    if Find(a, k).Some? {
      FindIs(b, k, Find(a, k).value);
    } else if Find(b, k).Some? {
      FindIs(a, k, Find(b, k).value);
    }
  }

  /** Appending children never changes a lookup that already succeeds. */
  lemma {:induction false} FindAppendFound(a: seq<Layer>, b: seq<Layer>, k: Kind)
    requires Find(a, k).Some?
    ensures Find(a + b, k) == Find(a, k)
  {
    assert (a + b)[0] == a[0];
    if KindOf(a[0]) != k {
      assert (a + b)[1..] == a[1..] + b;
      FindAppendFound(a[1..], b, k);
    }
  }

  /** When the old children hold no layer of kind k, the lookup finds the first appended one. */
  lemma {:induction false} FindAppendNew(a: seq<Layer>, b: seq<Layer>, k: Kind)
    requires Find(a, k).None? && Find(b, k).Some?
    ensures Find(a + b, k) == Some(|a| + Find(b, k).value)
  {
    if a == [] {
      assert a + b == b;
    } else {
      assert (a + b)[0] == a[0];
      assert (a + b)[1..] == a[1..] + b;
      FindAppendNew(a[1..], b, k);
    }
  }

  /** The four layers the scene built are all present. */
  predicate Built(ch: seq<Layer>) {
    Find(ch, ImageKind).Some? && Find(ch, DefsKind).Some? &&
    Find(ch, SpotsKind).Some? && Find(ch, LabelsKind).Some?
  }

  /** The children hold no layer the scene builds (only the view's own elements). */
  predicate Bare(ch: seq<Layer>) {
    forall i :: 0 <= i < |ch| ==> KindOf(ch[i]) == OtherKind
  }

  function LayerOf(ch: seq<Layer>, k: Kind): Layer
    requires Find(ch, k).Some?
  {
    ch[Find(ch, k).value]
  }

  /** The children without the first one of kind k (removeChild of what querySelector found). */
  function RemoveLayer(ch: seq<Layer>, k: Kind): seq<Layer> {
    match Find(ch, k)
    case None => ch
    case Some(i) => ch[..i] + ch[i + 1..]
  }

  // ---------------------------------------------------------------------------
  // Rendering one spot set
  // ---------------------------------------------------------------------------

  /** The id of gradient i: "spot" + i. */
  function GradientId(i: nat): string {
    "spot" + Decimal.NatToString(i)
  }

  /** The CSS reference to the gradient with the given id: "url(#" + id + ")". */
  function FillRef(id: string): string {
    "url(#" + id + ")"
  }

  /** Gradient i as created: centred, 50% radius, stops at 0% and 100% without style. */
  function Skeleton(i: nat): Gradient {
    Gradient(GradientId(i), "50%", "50%", "50%", "50%", "50%",
             Stop("0%", "", None), Stop("100%", "", None))
  }

  function Skeletons(n: nat): seq<Gradient> {
    seq(n, i requires 0 <= i => Skeleton(i))
  }

  /** Ellipse i: centred on the spot, both radii r, filled with gradient i. */
  function EllipseOf(s: Spot, i: nat): Ellipse {
    Ellipse(s.x, s.y, s.r, s.r, FillRef(GradientId(i)))
  }

  function EllipsesOf(s: seq<Spot>): seq<Ellipse> {
    seq(|s|, i requires 0 <= i < |s| => EllipseOf(s[i], i))
  }

  /** A label: the spot's name, 5 pixels to the right of its centre. */
  function LabelOf(s: Spot): Label {
    Label(s.x + 5.0, s.y, s.name)
  }

  function LabelsOf(s: seq<Spot>): seq<Label> {
    seq(|s|, i requires 0 <= i < |s| => LabelOf(s[i]))
  }

  /** this._spots[i]: undefined past the end of the store. */
  function SpotAt(s: seq<Spot>, i: nat): Option<Spot> {
    if i < |s| then Some(s[i]) else None
  }

  /** Whether a spot is drawn in colour: it exists and its intensity is a number. */
  predicate HasData(spot: Option<Spot>) {
    spot.Some? && spot.value.intensity.Some?
  }

  /** The recolour of one gradient from the spot at its position. */
  function Recolor(g: Gradient, spot: Option<Spot>, m: ColorMap, border: real): Gradient {
    if HasData(spot) then
      var c := m(spot.value.intensity.value);
      g.(stop0 := g.stop0.(color := c, opacity := Some(1.0)),
         stop1 := g.stop1.(color := c, opacity := Some(border)))
    else
      g.(stop0 := g.stop0.(color := "", opacity := Some(0.0)),
         stop1 := g.stop1.(color := "", opacity := Some(0.0)))
  }

  /** The recolour pass over a definitions layer: bounded by the definitions present. */
  function RecolorAll(defs: seq<Gradient>, s: seq<Spot>, m: ColorMap, border: real): seq<Gradient> {
    seq(|defs|, i requires 0 <= i < |defs| => Recolor(defs[i], SpotAt(s, i), m, border))
  }

  /** The definitions a structural build leaves: one gradient per spot, then recoloured. */
  function Gradients(s: seq<Spot>, m: ColorMap, border: real): seq<Gradient> {
    RecolorAll(Skeletons(|s|), s, m, border)
  }

  /** Clamping of the spot border to [0, 1]. */
  function Clamp(v: real): (r: real)
    ensures 0.0 <= r <= 1.0
    ensures 0.0 <= v <= 1.0 ==> r == v
    ensures v < 0.0 ==> r == 0.0
    ensures v > 1.0 ==> r == 1.0
  {
    if v < 0.0 then 0.0 else if v > 1.0 then 1.0 else v
  }

  // ---------------------------------------------------------------------------
  // Properties of the recolour pass
  // ---------------------------------------------------------------------------

  /** Recolouring creates, removes and reorders nothing: only stop colours and opacities change. */
  lemma RecolorKeepsStructure(defs: seq<Gradient>, s: seq<Spot>, m: ColorMap, border: real)
    ensures |RecolorAll(defs, s, m, border)| == |defs|
    ensures forall i :: 0 <= i < |defs| ==>
      var g, h := defs[i], RecolorAll(defs, s, m, border)[i];
      h.id == g.id && h.cx == g.cx && h.cy == g.cy && h.r == g.r && h.fx == g.fx && h.fy == g.fy &&
      h.stop0.offset == g.stop0.offset && h.stop1.offset == g.stop1.offset
  {
  }

  /** A spot with data: both stops take the mapped colour; the inner stop is opaque, the outer one has the border's opacity. */
  lemma RecolorWithData(defs: seq<Gradient>, s: seq<Spot>, m: ColorMap, border: real, i: nat)
    requires i < |defs| && i < |s| && s[i].intensity.Some?
    ensures RecolorAll(defs, s, m, border)[i].stop0 ==
      Stop(defs[i].stop0.offset, m(s[i].intensity.value), Some(1.0))
    ensures RecolorAll(defs, s, m, border)[i].stop1 ==
      Stop(defs[i].stop1.offset, m(s[i].intensity.value), Some(border))
  {
  }

  /** No data renders as invisible, whatever the colour map and the border: a missing spot or a NaN intensity clears both stops. */
  lemma NoDataIsTransparent(defs: seq<Gradient>, s: seq<Spot>, m: ColorMap, border: real, i: nat)
    requires i < |defs| && (i >= |s| || s[i].intensity.None?)
    ensures RecolorAll(defs, s, m, border)[i].stop0 == Stop(defs[i].stop0.offset, "", Some(0.0))
    ensures RecolorAll(defs, s, m, border)[i].stop1 == Stop(defs[i].stop1.offset, "", Some(0.0))
  {
  }

  /** A recolour overwrites every colour the previous one wrote. */
  lemma RecolorOverwrites(defs: seq<Gradient>, s1: seq<Spot>, m1: ColorMap, b1: real,
                          s2: seq<Spot>, m2: ColorMap, b2: real)
    ensures RecolorAll(RecolorAll(defs, s1, m1, b1), s2, m2, b2) == RecolorAll(defs, s2, m2, b2)
  {
    var once := RecolorAll(defs, s1, m1, b1);
    var twice := RecolorAll(once, s2, m2, b2);
    assert forall i :: 0 <= i < |defs| ==> twice[i] == Recolor(defs[i], SpotAt(s2, i), m2, b2);
  }

  /** Recolouring twice with nothing changed in between gives the same stops as recolouring once. */
  lemma RecolorIdempotent(defs: seq<Gradient>, s: seq<Spot>, m: ColorMap, border: real)
    ensures RecolorAll(RecolorAll(defs, s, m, border), s, m, border) == RecolorAll(defs, s, m, border)
  {
    RecolorOverwrites(defs, s, m, border, s, m, border);
  }

  /** The outer stop's opacity grows with the border, from 0 at border 0 to 1 at border 1; the inner stop stays opaque. */
  lemma BorderMonotone(defs: seq<Gradient>, s: seq<Spot>, m: ColorMap, b1: real, b2: real, i: nat)
    requires 0.0 <= b1 <= b2 <= 1.0
    requires i < |defs| && i < |s| && s[i].intensity.Some?
    ensures RecolorAll(defs, s, m, b1)[i].stop0.opacity == RecolorAll(defs, s, m, b2)[i].stop0.opacity == Some(1.0)
    ensures 0.0 <= RecolorAll(defs, s, m, b1)[i].stop1.opacity.value
              <= RecolorAll(defs, s, m, b2)[i].stop1.opacity.value <= 1.0
  {
    RecolorWithData(defs, s, m, b1, i);
    RecolorWithData(defs, s, m, b2, i);
  }

  // ---------------------------------------------------------------------------
  // Positional correspondence
  // ---------------------------------------------------------------------------

  /** Gradient ids are unique: "spot" + i names position i only. */
  lemma GradientIdInjective(i: nat, j: nat)
    ensures GradientId(i) == GradientId(j) <==> i == j
  {
    if GradientId(i) == GradientId(j) {
      assert GradientId(i)[4..] == Decimal.NatToString(i);
      assert GradientId(j)[4..] == Decimal.NatToString(j);
      Decimal.NatToStringInjective(i, j);
    }
  }

  /** Ellipse i refers to gradient i and to no other gradient of the same build. */
  lemma FillNamesOwnGradient(s: seq<Spot>, m: ColorMap, border: real, i: nat, j: nat)
    requires i < |s| && j < |s|
    ensures |EllipsesOf(s)| == |Gradients(s, m, border)| == |LabelsOf(s)| == |s|
    ensures EllipsesOf(s)[i].fill == FillRef(Gradients(s, m, border)[j].id) <==> i == j
  {
    var a, b := GradientId(i), Gradients(s, m, border)[j].id;
    assert b == GradientId(j);
    if FillRef(a) == FillRef(b) {
      assert FillRef(a)[5..|FillRef(a)| - 1] == a;
      assert FillRef(b)[5..|FillRef(b)| - 1] == b;
      GradientIdInjective(i, j);
    }
  }

  /** Spot i is drawn at its own position with its own radius, labelled with its own name. */
  lemma SpotDrawnAtItsPlace(s: seq<Spot>, i: nat)
    requires i < |s|
    ensures EllipsesOf(s)[i].cx == s[i].x && EllipsesOf(s)[i].cy == s[i].y
    ensures EllipsesOf(s)[i].rx == EllipsesOf(s)[i].ry == s[i].r
    ensures LabelsOf(s)[i] == Label(s[i].x + 5.0, s[i].y, s[i].name)
  {
  }

  // ---------------------------------------------------------------------------
  // Edits: what each incremental update does to the first layer of its kind
  // ---------------------------------------------------------------------------

  datatype Edit =
    | ImageEdit(href: string, width: real, height: real)           // _updateImage
    | RecolorEdit(spots: seq<Spot>, colorMap: ColorMap, border: real) // _updateSpotsGradients
    | RefillDefs(gradients: seq<Gradient>)                          // defs cleared, then _createSpots
    | RefillSpots(ellipses: seq<Ellipse>)                           // #spots cleared, then _createSpots
    | RefillLabels(labels: seq<Label>)                              // #labels cleared, then _createSpots
    | FontSizeEdit(size: real)                                      // fontSize setter
    | FontColorEdit(color: string)                                  // fontColor setter

  function Target(e: Edit): Kind {
    match e
    case ImageEdit(_, _, _) => ImageKind
    case RecolorEdit(_, _, _) => DefsKind
    case RefillDefs(_) => DefsKind
    case RefillSpots(_) => SpotsKind
    case RefillLabels(_) => LabelsKind
    case FontSizeEdit(_) => LabelsKind
    case FontColorEdit(_) => LabelsKind
  }

  function ApplyEdit(l: Layer, e: Edit): (r: Layer)
    ensures KindOf(r) == KindOf(l)
  {
    match e
    case ImageEdit(h, w, ht) => if l.ImageLayer? then ImageLayer(h, w, ht) else l
    case RecolorEdit(s, m, b) => if l.DefsLayer? then DefsLayer(RecolorAll(l.gradients, s, m, b)) else l
    case RefillDefs(gs) => if l.DefsLayer? then DefsLayer(gs) else l
    case RefillSpots(es) => if l.SpotsGroup? then SpotsGroup(es) else l
    case RefillLabels(ls) => if l.LabelsGroup? then l.(labels := ls) else l
    case FontSizeEdit(v) => if l.LabelsGroup? then l.(fontSize := v, visible := v != 0.0) else l
    case FontColorEdit(c) => if l.LabelsGroup? then l.(fill := c) else l
  }

  /** An edit of the first layer of its kind; the children keep their number and their kinds. */
  function EditLayers(ch: seq<Layer>, e: Edit): (r: seq<Layer>)
    ensures |r| == |ch|
  {
    match Find(ch, Target(e))
    case None => ch
    case Some(i) => ch[i := ApplyEdit(ch[i], e)]
  }

  /** An edit keeps the number of children and the kind of each. */
  lemma EditKeepsKinds(ch: seq<Layer>, e: Edit)
    ensures forall i :: 0 <= i < |ch| ==> KindOf(EditLayers(ch, e)[i]) == KindOf(ch[i])
  {
  }

  /** After an edit every lookup finds the same position; the edited layer is the edit applied to the old one, the others are unchanged. */
  lemma LayerAfterEdit(ch: seq<Layer>, e: Edit, k: Kind)
    requires Find(ch, k).Some?
    ensures Find(EditLayers(ch, e), k) == Find(ch, k)
    ensures LayerOf(EditLayers(ch, e), k) ==
      if k == Target(e) then ApplyEdit(LayerOf(ch, k), e) else LayerOf(ch, k)
  {
    EditKeepsKinds(ch, e);
    FindByKinds(EditLayers(ch, e), ch, k);
    if k != Target(e) && Find(ch, Target(e)).Some? {
      assert Find(ch, Target(e)).value != Find(ch, k).value;
    }
  }

  /** Edits keep the built layers reachable. */
  lemma EditKeepsBuilt(ch: seq<Layer>, e: Edit)
    requires Built(ch)
    ensures Built(EditLayers(ch, e))
  {
    LayerAfterEdit(ch, e, ImageKind);
    LayerAfterEdit(ch, e, DefsKind);
    LayerAfterEdit(ch, e, SpotsKind);
    LayerAfterEdit(ch, e, LabelsKind);
  }

  /** The three refills of a structural rebuild, in the order the spots setter clears them. */
  function Rebuilt(ch: seq<Layer>, s: seq<Spot>, m: ColorMap, border: real): seq<Layer> {
    EditLayers(EditLayers(EditLayers(ch, RefillSpots(EllipsesOf(s))), RefillLabels(LabelsOf(s))),
               RefillDefs(Gradients(s, m, border)))
  }

  // ---------------------------------------------------------------------------
  // The scene state and the views that show it
  // ---------------------------------------------------------------------------

  /** The fields of a Scene2D that rendering reads. */
  datatype SceneState = SceneState(imageURL: Option<string>, width: real, height: real,
                                   spots: Option<seq<Spot>>, spotBorder: real,
                                   fontSize: real, fontColor: string, colorMap: ColorMap)

  /** A URL is truthy when it is set and not empty. */
  predicate IsSet(url: Option<string>) {
    url.Some? && url.value != ""
  }

  /** `this._imageURL || ''` */
  function Href(url: Option<string>): string {
    if IsSet(url) then url.value else ""
  }

  function LabelsStyle(fontSize: real, fontColor: string, labels: seq<Label>): Layer {
    LabelsGroup(fontSize, fontColor, fontSize != 0.0, labels)
  }

  /** The four layers _buildContent appends, in order: image, definitions, spots, labels. */
  function ContentLayers(st: SceneState): seq<Layer> {
    var s := if st.spots.Some? then st.spots.value else [];
    [ImageLayer(Href(st.imageURL), st.width, st.height),
     DefsLayer(if st.spots.Some? then Gradients(s, st.colorMap, st.spotBorder) else []),
     SpotsGroup(EllipsesOf(s)),
     LabelsStyle(st.fontSize, st.fontColor, LabelsOf(s))]
  }

  /**
   * The children show the state: the image layer and the labels' style match
   * it, and when spots are configured the definitions, ellipses and labels
   * are exactly those of a structural build from the current spots.
   */
  predicate Shows(ch: seq<Layer>, st: SceneState) {
    Built(ch) &&
    LayerOf(ch, ImageKind) == ImageLayer(Href(st.imageURL), st.width, st.height) &&
    LayerOf(ch, LabelsKind).fontSize == st.fontSize &&
    LayerOf(ch, LabelsKind).fill == st.fontColor &&
    LayerOf(ch, LabelsKind).visible == (st.fontSize != 0.0) &&
    (st.spots.Some? ==>
      LayerOf(ch, DefsKind) == DefsLayer(Gradients(st.spots.value, st.colorMap, st.spotBorder)) &&
      LayerOf(ch, SpotsKind) == SpotsGroup(EllipsesOf(st.spots.value)) &&
      LayerOf(ch, LabelsKind).labels == LabelsOf(st.spots.value))
  }

  /** The layers are appended in the fixed order image, definitions, spots, labels, with labels visible exactly when the font size is not 0. */
  lemma ContentLayerOrder(st: SceneState)
    ensures |ContentLayers(st)| == 4
    ensures KindOf(ContentLayers(st)[0]) == ImageKind && KindOf(ContentLayers(st)[1]) == DefsKind
    ensures KindOf(ContentLayers(st)[2]) == SpotsKind && KindOf(ContentLayers(st)[3]) == LabelsKind
    ensures ContentLayers(st)[3].visible <==> st.fontSize != 0.0
    ensures st.spots.None? ==> ContentLayers(st)[1].gradients == [] && ContentLayers(st)[2].ellipses == []
  {
  }

  /** Appending the four layers to any children leaves all four reachable. */
  lemma AppendKeepsBuilt(pre: seq<Layer>, st: SceneState)
    ensures Built(pre + ContentLayers(st))
  {
    var c := ContentLayers(st);
    FindIs(c, ImageKind, 0);
    FindIs(c, DefsKind, 1);
    FindIs(c, SpotsKind, 2);
    FindIs(c, LabelsKind, 3);
    AppendFinds(pre, c, ImageKind);
    AppendFinds(pre, c, DefsKind);
    AppendFinds(pre, c, SpotsKind);
    AppendFinds(pre, c, LabelsKind);
  }

  lemma AppendFinds(pre: seq<Layer>, c: seq<Layer>, k: Kind)
    requires Find(c, k).Some?
    ensures Find(pre + c, k).Some?
  {
    if Find(pre, k).Some? {
      FindAppendFound(pre, c, k);
    } else {
      FindAppendNew(pre, c, k);
    }
  }

  /** A rebuild keeps the built layers reachable. */
  lemma RebuildKeepsBuilt(ch: seq<Layer>, s: seq<Spot>, m: ColorMap, border: real)
    requires Built(ch)
    ensures Built(Rebuilt(ch, s, m, border))
  {
    var ch1 := EditLayers(ch, RefillSpots(EllipsesOf(s)));
    EditKeepsBuilt(ch, RefillSpots(EllipsesOf(s)));
    EditKeepsBuilt(ch1, RefillLabels(LabelsOf(s)));
    EditKeepsBuilt(EditLayers(ch1, RefillLabels(LabelsOf(s))), RefillDefs(Gradients(s, m, border)));
  }

  /** The store after updateIntensities: intensity i comes from the new values, undefined past their end. */
  function Reintensified(s: seq<Spot>, news: seq<Option<real>>): seq<Spot> {
    seq(|s|, i requires 0 <= i < |s| => s[i].(intensity := if i < |news| then news[i] else None))
  }

  /** updateIntensities keeps the store's length and every position, radius and name. */
  lemma ReintensifiedKeepsGeometry(s: seq<Spot>, news: seq<Option<real>>)
    ensures SameGeometry(s, Reintensified(s, news))
    ensures forall i :: 0 <= i < |s| ==>
      Reintensified(s, news)[i].intensity == (if i < |news| then news[i] else None)
  {
  }

  /** Binding a view whose element holds none of the scene's layers leaves it showing the state. */
  lemma BuildShows(pre: seq<Layer>, st: SceneState)
    requires Bare(pre)
    ensures Built(pre + ContentLayers(st)) && Shows(pre + ContentLayers(st), st)
  {
    var c := ContentLayers(st);
    BareBuildFinds(pre, c);
    assert LayerOf(pre + c, ImageKind) == c[0];
    assert LayerOf(pre + c, DefsKind) == c[1];
    assert LayerOf(pre + c, SpotsKind) == c[2];
    assert LayerOf(pre + c, LabelsKind) == c[3];
  }

  /** After a build into a bare element, each lookup finds the appended layer of its kind. */
  lemma BareBuildFinds(pre: seq<Layer>, c: seq<Layer>)
    requires Bare(pre) && |c| == 4
    requires KindOf(c[0]) == ImageKind && KindOf(c[1]) == DefsKind
    requires KindOf(c[2]) == SpotsKind && KindOf(c[3]) == LabelsKind
    ensures Find(pre + c, ImageKind) == Some(|pre|) && Find(pre + c, DefsKind) == Some(|pre| + 1)
    ensures Find(pre + c, SpotsKind) == Some(|pre| + 2) && Find(pre + c, LabelsKind) == Some(|pre| + 3)
    ensures forall k :: 0 <= k < 4 ==> (pre + c)[|pre| + k] == c[k]
  {
    FindIs(c, ImageKind, 0);
    FindIs(c, DefsKind, 1);
    FindIs(c, SpotsKind, 2);
    FindIs(c, LabelsKind, 3);
    FindAppendNew(pre, c, ImageKind);
    FindAppendNew(pre, c, DefsKind);
    FindAppendNew(pre, c, SpotsKind);
    FindAppendNew(pre, c, LabelsKind);
  }

  /** Changing the image and updating the image layer keeps the view showing the state. */
  lemma ShowsAfterImage(ch: seq<Layer>, st: SceneState, url: Option<string>, w: real, h: real)
    requires Shows(ch, st)
    ensures Shows(EditLayers(ch, ImageEdit(Href(url), w, h)), st.(imageURL := url, width := w, height := h))
  {
    var e := ImageEdit(Href(url), w, h);
    EditKeepsBuilt(ch, e);
    LayerAfterEdit(ch, e, ImageKind);
    LayerAfterEdit(ch, e, DefsKind);
    LayerAfterEdit(ch, e, SpotsKind);
    LayerAfterEdit(ch, e, LabelsKind);
  }

  /** Spot sets with the same positions, radii and names (intensities may differ). */
  predicate SameGeometry(a: seq<Spot>, b: seq<Spot>) {
    |a| == |b| &&
    forall i :: 0 <= i < |a| ==> a[i].x == b[i].x && a[i].y == b[i].y && a[i].r == b[i].r && a[i].name == b[i].name
  }

  /**
   * The cheap path equals the expensive one: when only intensities, the
   * colour map or the border changed, recolouring the existing definitions
   * leaves the view exactly as a structural rebuild would.
   */
  lemma ShowsAfterRecolor(ch: seq<Layer>, st: SceneState, st2: SceneState)
    requires Shows(ch, st) && st.spots.Some? && st2.spots.Some?
    requires SameGeometry(st.spots.value, st2.spots.value)
    requires st2.imageURL == st.imageURL && st2.width == st.width && st2.height == st.height
    requires st2.fontSize == st.fontSize && st2.fontColor == st.fontColor
    ensures Shows(EditLayers(ch, RecolorEdit(st2.spots.value, st2.colorMap, st2.spotBorder)), st2)
  {
    var s1, s2 := st.spots.value, st2.spots.value;
    var e := RecolorEdit(s2, st2.colorMap, st2.spotBorder);
    EditKeepsBuilt(ch, e);
    LayerAfterEdit(ch, e, ImageKind);
    LayerAfterEdit(ch, e, DefsKind);
    LayerAfterEdit(ch, e, SpotsKind);
    LayerAfterEdit(ch, e, LabelsKind);
    RecolorOverwrites(Skeletons(|s1|), s1, st.colorMap, st.spotBorder, s2, st2.colorMap, st2.spotBorder);
    GeometryFixesShapes(s1, s2);
  }

  /** The ellipses and the labels depend only on the geometry of the spots, not on their intensities. */
  lemma GeometryFixesShapes(a: seq<Spot>, b: seq<Spot>)
    requires SameGeometry(a, b)
    ensures EllipsesOf(a) == EllipsesOf(b) && LabelsOf(a) == LabelsOf(b)
  {
    assert EllipsesOf(a) == EllipsesOf(b);
    assert LabelsOf(a) == LabelsOf(b);
  }

  /** Clearing and refilling the three spot layers from a new spot set leaves the view showing the new set. */
  lemma ShowsAfterRebuild(ch: seq<Layer>, st: SceneState, s: seq<Spot>)
    requires Shows(ch, st)
    ensures Shows(Rebuilt(ch, s, st.colorMap, st.spotBorder), st.(spots := Some(s)))
  {
    var e1, e2, e3 := RefillSpots(EllipsesOf(s)), RefillLabels(LabelsOf(s)), RefillDefs(Gradients(s, st.colorMap, st.spotBorder));
    var ch1 := EditLayers(ch, e1);
    var ch2 := EditLayers(ch1, e2);
    EditKeepsBuilt(ch, e1);
    EditKeepsBuilt(ch1, e2);
    EditKeepsBuilt(ch2, e3);
    LayerAfterEdit(ch, e1, ImageKind);
    LayerAfterEdit(ch, e1, DefsKind);
    LayerAfterEdit(ch, e1, SpotsKind);
    LayerAfterEdit(ch, e1, LabelsKind);
    LayerAfterEdit(ch1, e2, ImageKind);
    LayerAfterEdit(ch1, e2, DefsKind);
    LayerAfterEdit(ch1, e2, SpotsKind);
    LayerAfterEdit(ch1, e2, LabelsKind);
    LayerAfterEdit(ch2, e3, ImageKind);
    LayerAfterEdit(ch2, e3, DefsKind);
    LayerAfterEdit(ch2, e3, SpotsKind);
    LayerAfterEdit(ch2, e3, LabelsKind);
  }

  /** Restyling the labels group keeps the view showing the state with the new font size. */
  lemma ShowsAfterFontSize(ch: seq<Layer>, st: SceneState, v: real)
    requires Shows(ch, st)
    ensures Shows(EditLayers(ch, FontSizeEdit(v)), st.(fontSize := v))
  {
    var e := FontSizeEdit(v);
    EditKeepsBuilt(ch, e);
    LayerAfterEdit(ch, e, ImageKind);
    LayerAfterEdit(ch, e, DefsKind);
    LayerAfterEdit(ch, e, SpotsKind);
    LayerAfterEdit(ch, e, LabelsKind);
  }

  /** Refilling the labels group keeps the view showing the state with the new font colour. */
  lemma ShowsAfterFontColor(ch: seq<Layer>, st: SceneState, c: string)
    requires Shows(ch, st)
    ensures Shows(EditLayers(ch, FontColorEdit(c)), st.(fontColor := c))
  {
    var e := FontColorEdit(c);
    EditKeepsBuilt(ch, e);
    LayerAfterEdit(ch, e, ImageKind);
    LayerAfterEdit(ch, e, DefsKind);
    LayerAfterEdit(ch, e, SpotsKind);
    LayerAfterEdit(ch, e, LabelsKind);
  }

  /**
   * Every view that shows a state with spots holds, in each of its four
   * layers, exactly what a fresh build from that state holds; so two such
   * views agree layer by layer.
   */
  lemma ShowingViewsAgree(ch1: seq<Layer>, ch2: seq<Layer>, st: SceneState, k: Kind)
    requires Shows(ch1, st) && Shows(ch2, st) && st.spots.Some? && k != OtherKind
    ensures Find(ContentLayers(st), k).Some?
    ensures LayerOf(ch1, k) == LayerOf(ContentLayers(st), k) == LayerOf(ch2, k)
  {
    var c := ContentLayers(st);
    FindIs(c, ImageKind, 0);
    FindIs(c, DefsKind, 1);
    FindIs(c, SpotsKind, 2);
    FindIs(c, LabelsKind, 3);
  }

  /** The overlay export holds the defs, spots and labels of a view that shows the state, and no image. */
  lemma OverlayMatchesViews(ch: seq<Layer>, st: SceneState, k: Kind)
    requires Shows(ch, st) && st.spots.Some? && k in {DefsKind, SpotsKind, LabelsKind}
    ensures Find(RemoveLayer(ContentLayers(st), ImageKind), ImageKind).None?
    ensures Find(RemoveLayer(ContentLayers(st), ImageKind), k).Some?
    ensures LayerOf(RemoveLayer(ContentLayers(st), ImageKind), k) == LayerOf(ch, k)
  {
    var c := ContentLayers(st);
    FindIs(c, ImageKind, 0);
    var o := RemoveLayer(c, ImageKind);
    assert o == c[1..];
    FindIs(o, DefsKind, 0);
    FindIs(o, SpotsKind, 1);
    FindIs(o, LabelsKind, 2);
  }
}
