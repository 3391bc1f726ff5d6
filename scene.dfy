/**
 * The 2D overlay scene (Scene2D): the spot store, the base image, the
 * display parameters and the views bound to it. Every setter changes the
 * scene's fields and then fans the change out to the content element of
 * every bound view, either by a structural rebuild (a new spot set) or by
 * an in-place edit of one layer (image, recolour, label style).
 */
module Scene {
  import opened Options
  import opened Overlay

  /** A spot object as the caller hands it over; the caller may change it afterwards. */
  class SpotRecord {
    var x: real
    var y: real
    var r: real
    var name: string
    var intensity: Option<real>

    constructor (x: real, y: real, r: real, name: string, intensity: Option<real>)
      ensures this.x == x && this.y == y && this.r == r && this.name == name
      ensures this.intensity == intensity
    {
      this.x, this.y, this.r, this.name, this.intensity := x, y, r, name, intensity;
    }
  }

  /** The field-by-field copy the spots setter makes of the caller's objects, in order. */
  function Snapshot(rs: seq<SpotRecord>): seq<Spot>
    reads rs
  {
    seq(|rs|, i requires 0 <= i < |rs| reads rs => Spot(rs[i].x, rs[i].y, rs[i].r, rs[i].name, rs[i].intensity))
  }

  /** The intensities updateIntensities reads from its argument, in order. */
  function IntensitiesOf(rs: seq<SpotRecord>): seq<Option<real>>
    reads rs
  {
    seq(|rs|, i requires 0 <= i < |rs| reads rs => rs[i].intensity)
  }

  /** The element a view lends the scene to draw into: its children, in document order. */
  class ContentElement {
    var children: seq<Layer>

    constructor (children: seq<Layer>)
      ensures this.children == children
    {
      this.children := children;
    }
  }

  /** A view bound to the scene: its content element and how many adjustOffset() calls it received. */
  class View {
    const contentElement: ContentElement
    var offsetAdjustments: nat

    constructor (c: ContentElement)
      ensures contentElement == c && offsetAdjustments == 0
    {
      contentElement := c;
      offsetAdjustments := 0;
    }

    /** The view re-fits itself to new image dimensions. */
    method AdjustOffset()
      modifies this
      ensures offsetAdjustments == old(offsetAdjustments) + 1
    {
      offsetAdjustments := offsetAdjustments + 1;
    }
  }

  /** What an image decode drew onto the caller's canvas at (0, 0). */
  datatype Picture =
    | Raster(url: string, width: real, height: real)
    | Vector(width: real, height: real, layers: seq<Layer>)

  /** The settled promise of an export: rejected, or resolved after drawing. */
  datatype ExportResult = Rejected | Drawn(picture: Picture)

  class Scene2D {
    var fontSize: real
    var fontColor: string
    var spotBorder: real
    var views: seq<View>
    var imageURL: Option<string>
    var width: real
    var height: real
    var spots: Option<seq<Spot>>
    var colorMap: ColorMap
    /** The URLs handed to URL.revokeObjectURL, oldest first. */
    var revoked: seq<string>

    /** The content elements of the bound views. */
    ghost function Elements(): set<ContentElement>
      reads this
    {
      set v | v in views :: v.contentElement
    }

    /** The bound views themselves. */
    ghost function ViewObjects(): set<View>
      reads this
    {
      set v | v in views
    }

    /** No two bound views share a content element. */
    ghost predicate DistinctElements()
      reads this
    {
      forall i, j :: 0 <= i < j < |views| ==> views[i].contentElement != views[j].contentElement
    }

    /** Every bound view holds the four scene layers. */
    ghost predicate AllBuilt()
      reads this, Elements()
    {
      forall v :: v in views ==> Built(v.contentElement.children)
    }

    ghost predicate Valid()
      reads this, Elements()
    {
      0.0 <= spotBorder <= 1.0 && DistinctElements() && AllBuilt()
    }

    ghost function State(): SceneState
      reads this
    {
      SceneState(imageURL, width, height, spots, spotBorder, fontSize, fontColor, colorMap)
    }

    /** Every bound view shows the current state. */
    ghost predicate Synced()
      reads this, Elements()
    {
      forall v :: v in views ==> Shows(v.contentElement.children, State())
    }

    /** A scene with no view, no image, no spots, hidden labels and a 0.05 border. */
    constructor (colorMap: ColorMap)
      ensures Valid() && Synced()
      ensures fontSize == 0.0 && fontColor == "#000000" && spotBorder == 0.05 && views == []
      ensures imageURL == None && width == 0.0 && height == 0.0 && spots == None
      ensures this.colorMap == colorMap && revoked == []
    {
      fontSize := 0.0;
      fontColor := "#000000";
      spotBorder := 0.05;
      views := [];
      imageURL := None;
      width := 0.0;
      height := 0.0;
      spots := None;
      this.colorMap := colorMap;
      revoked := [];
    }

    /** The hasImage getter. */
    function HasImage(): bool
      reads this
    {
      IsSet(imageURL)
    }

    /** The view setter: the view list becomes exactly [v] and v's element receives a full build. */
    method SetView(v: View)
      requires Valid()
      modifies this, v.contentElement
      ensures Valid()
      ensures views == [v]
      ensures v.contentElement.children == old(v.contentElement.children) + ContentLayers(State())
      ensures State() == old(State()) && revoked == old(revoked)
      ensures Bare(old(v.contentElement.children)) ==> Synced()
    {
      views := [v];
      BuildContent(v.contentElement);
      AppendKeepsBuilt(old(v.contentElement.children), State());
      if Bare(old(v.contentElement.children)) {
        BuildShows(old(v.contentElement.children), State());
      }
    }

    /** setImage: release the previous URL when it is truthy, store the new image and update every view. */
    method SetImage(url: Option<string>, w: real, h: real)
      requires Valid()
      modifies this, Elements(), ViewObjects()
      ensures Valid()
      ensures revoked == old(revoked) + (if IsSet(old(imageURL)) then [old(imageURL).value] else [])
      ensures State() == old(State()).(imageURL := url, width := w, height := h)
      ensures views == old(views)
      ensures forall v :: v in views ==>
        v.contentElement.children == EditLayers(old(v.contentElement.children), ImageEdit(Href(url), w, h)) &&
        v.offsetAdjustments == old(v.offsetAdjustments) + 1
      ensures old(Synced()) ==> Synced()
    {
      if IsSet(imageURL) {
        revoked := revoked + [imageURL.value];
      }
      imageURL := url;
      width := w;
      height := h;

      var e := ImageEdit(Href(imageURL), width, height);
      RefitViews(e);
      forall v | v in views
        ensures Built(v.contentElement.children)
      {
        EditKeepsBuilt(old(v.contentElement.children), e);
      }
      assert State() == old(State()).(imageURL := url, width := w, height := h);
      if old(Synced()) {
        forall v | v in views
          ensures Shows(v.contentElement.children, State())
        {
          ShowsAfterImage(old(v.contentElement.children), old(State()), url, w, h);
        }
      }
    }

    /** The per-view part of setImage: edit the image layer, then let the view adjust its offset. */
    method RefitViews(e: Edit)
      requires DistinctElements()
      modifies Elements(), ViewObjects()
      ensures forall v :: v in views ==>
        v.contentElement.children == EditLayers(old(v.contentElement.children), e) &&
        v.offsetAdjustments == old(v.offsetAdjustments) + 1
    {
      var i := 0;
      while i < |views|
        invariant 0 <= i <= |views|
        invariant forall j, l :: 0 <= j < l < |views| ==> views[j].contentElement != views[l].contentElement
        invariant forall j :: 0 <= j < i ==>
          views[j].contentElement.children == EditLayers(old(views[j].contentElement.children), e) &&
          views[j].offsetAdjustments == old(views[j].offsetAdjustments) + 1
        invariant forall j :: i <= j < |views| ==>
          views[j].contentElement.children == old(views[j].contentElement.children) &&
          views[j].offsetAdjustments == old(views[j].offsetAdjustments)
      {
        var c := views[i].contentElement;
        c.children := EditLayers(c.children, e);
        views[i].AdjustOffset();
        i := i + 1;
      }
    }

    /** resetImage: setImage(null, 0, 0). */
    method ResetImage()
      requires Valid()
      modifies this, Elements(), ViewObjects()
      ensures Valid()
      ensures !HasImage() && width == 0.0 && height == 0.0
      ensures revoked == old(revoked) + (if IsSet(old(imageURL)) then [old(imageURL).value] else [])
      ensures State() == old(State()).(imageURL := None, width := 0.0, height := 0.0)
      ensures views == old(views)
      ensures forall v :: v in views ==>
        v.contentElement.children == EditLayers(old(v.contentElement.children), ImageEdit("", 0.0, 0.0)) &&
        v.offsetAdjustments == old(v.offsetAdjustments) + 1
      ensures old(Synced()) ==> Synced()
    {
      SetImage(None, 0.0, 0.0);
    }

    /** _buildContent: append the image, definitions, spots and labels layers, filled from the current state. */
    method BuildContent(c: ContentElement)
      modifies c
      ensures c.children == old(c.children) + ContentLayers(State())
    {
      ghost var st := State();
      var image := ImageLayer(Href(imageURL), width, height);
      var defs: seq<Gradient> := [];
      var ellipses: seq<Ellipse> := [];
      var labels: seq<Label> := [];
      if spots.Some? {
        defs, ellipses, labels := CreateSpots([], [], []);
        assert [] + Skeletons(|spots.value|) == Skeletons(|spots.value|);
        assert [] + EllipsesOf(spots.value) == EllipsesOf(spots.value);
        assert [] + LabelsOf(spots.value) == LabelsOf(spots.value);
      } else {
        assert EllipsesOf([]) == [] && LabelsOf([]) == [];
      }
      var layers := [image, DefsLayer(defs), SpotsGroup(ellipses),
                     LabelsGroup(fontSize, fontColor, fontSize != 0.0, labels)];
      assert layers == ContentLayers(st);
      c.children := c.children + layers;
    }

    /**
     * _createSpots: append gradient i, ellipse i and label i for every spot i,
     * in order, then recolour the whole definitions layer.
     */
    method CreateSpots(defs0: seq<Gradient>, ellipses0: seq<Ellipse>, labels0: seq<Label>)
      returns (defs: seq<Gradient>, ellipses: seq<Ellipse>, labels: seq<Label>)
      requires spots.Some?
      ensures defs == RecolorAll(defs0 + Skeletons(|spots.value|), spots.value, colorMap, spotBorder)
      ensures ellipses == ellipses0 + EllipsesOf(spots.value)
      ensures labels == labels0 + LabelsOf(spots.value)
    {
      var s := spots.value;
      defs, ellipses, labels := defs0, ellipses0, labels0;
      var i := 0;
      while i < |s|
        invariant 0 <= i <= |s|
        invariant defs == defs0 + Skeletons(i)
        invariant ellipses == ellipses0 + EllipsesOf(s[..i])
        invariant labels == labels0 + LabelsOf(s[..i])
      {
        defs := defs + [Skeleton(i)];
        ellipses := ellipses + [EllipseOf(s[i], i)];
        labels := labels + [LabelOf(s[i])];
        assert Skeletons(i + 1) == Skeletons(i) + [Skeleton(i)];
        assert EllipsesOf(s[..i + 1]) == EllipsesOf(s[..i]) + [EllipseOf(s[i], i)];
        assert LabelsOf(s[..i + 1]) == LabelsOf(s[..i]) + [LabelOf(s[i])];
        i := i + 1;
      }
      assert s[..|s|] == s;
      defs := UpdateSpotsGradients(defs);
    }

    /**
     * _updateSpotsGradients: for every gradient present, colour both stops
     * from the spot at the same position, or clear them when that spot is
     * missing or has no data.
     */
    method UpdateSpotsGradients(defs: seq<Gradient>) returns (r: seq<Gradient>)
      requires spots.Some?
      ensures r == RecolorAll(defs, spots.value, colorMap, spotBorder)
    {
      var s := spots.value;
      r := defs;
      var i := 0;
      while i < |r|
        invariant 0 <= i <= |r| == |defs|
        invariant forall j :: 0 <= j < i ==> r[j] == Recolor(defs[j], SpotAt(s, j), colorMap, spotBorder)
        invariant forall j :: i <= j < |r| ==> r[j] == defs[j]
      {
        var g := r[i];
        if i < |s| && s[i].intensity.Some? {
          var color := colorMap(s[i].intensity.value);
          r := r[i := g.(stop0 := g.stop0.(color := color, opacity := Some(1.0)),
                         stop1 := g.stop1.(color := color, opacity := Some(spotBorder)))];
        } else {
          r := r[i := g.(stop0 := g.stop0.(color := "", opacity := Some(0.0)),
                         stop1 := g.stop1.(color := "", opacity := Some(0.0)))];
        }
        i := i + 1;
      }
    }

    /** _updateSpots: recolour the definitions of every bound view from the current spots. */
    method UpdateSpots()
      requires DistinctElements() && AllBuilt() && spots.Some?
      modifies Elements()
      ensures AllBuilt()
      ensures forall v :: v in views ==>
        v.contentElement.children ==
          EditLayers(old(v.contentElement.children), RecolorEdit(spots.value, colorMap, spotBorder))
    {
      var e := RecolorEdit(spots.value, colorMap, spotBorder);
      var i := 0;
      while i < |views|
        invariant 0 <= i <= |views|
        invariant forall j, l :: 0 <= j < l < |views| ==> views[j].contentElement != views[l].contentElement
        invariant forall j :: 0 <= j < |views| ==> Built(old(views[j].contentElement.children))
        invariant forall j :: 0 <= j < i ==>
          views[j].contentElement.children == EditLayers(old(views[j].contentElement.children), e)
        invariant forall j :: i <= j < |views| ==>
          views[j].contentElement.children == old(views[j].contentElement.children)
      {
        var c := views[i].contentElement;
        var d := Find(c.children, DefsKind).value;
        var gs := UpdateSpotsGradients(c.children[d].gradients);
        c.children := c.children[d := DefsLayer(gs)];
        i := i + 1;
      }
      forall v | v in views
        ensures Built(v.contentElement.children)
      {
        EditKeepsBuilt(old(v.contentElement.children), e);
      }
    }

    /** _forContentElement with a callback that edits one layer of every bound view. */
    method ForContentElements(e: Edit)
      requires DistinctElements()
      modifies Elements()
      ensures forall v :: v in views ==> v.contentElement.children == EditLayers(old(v.contentElement.children), e)
    {
      var i := 0;
      while i < |views|
        invariant 0 <= i <= |views|
        invariant forall j, l :: 0 <= j < l < |views| ==> views[j].contentElement != views[l].contentElement
        invariant forall j :: 0 <= j < i ==>
          views[j].contentElement.children == EditLayers(old(views[j].contentElement.children), e)
        invariant forall j :: i <= j < |views| ==>
          views[j].contentElement.children == old(views[j].contentElement.children)
      {
        var c := views[i].contentElement;
        c.children := EditLayers(c.children, e);
        i := i + 1;
      }
    }

    /**
     * The spotBorder setter: nothing happens when the value equals the stored
     * one; otherwise the value is clamped to [0, 1] and stored, and the views
     * are recoloured when spots are configured.
     */
    method SetSpotBorder(value: real)
      requires Valid()
      modifies this, Elements()
      ensures Valid()
      ensures value == old(spotBorder) ==> spotBorder == old(spotBorder)
      ensures value != old(spotBorder) ==> spotBorder == Clamp(value)
      ensures State() == old(State()).(spotBorder := spotBorder)
      ensures views == old(views) && revoked == old(revoked)
      ensures forall v :: v in views ==>
        v.contentElement.children ==
          (if value != old(spotBorder) && spots.Some?
         then EditLayers(old(v.contentElement.children), RecolorEdit(spots.value, colorMap, spotBorder))
         else old(v.contentElement.children))
      ensures old(Synced()) ==> Synced()
    {
      if spotBorder == value {
        return;
      }
      var b := value;
      if b < 0.0 {
        b := 0.0;
      }
      if b > 1.0 {
        b := 1.0;
      }
      spotBorder := b;
      if spots.Some? {
        ghost var st0, st := old(State()), State();
        UpdateSpots();
        assert State() == st;
        if old(Synced()) {
          forall v | v in views
            ensures Shows(v.contentElement.children, st)
          {
            assert Shows(old(v.contentElement.children), st0);
            ShowsAfterRecolor(old(v.contentElement.children), st0, st);
          }
        }
      }
    }

    /**
     * The spots setter: null empties the store and touches no view; a list
     * is copied field by field and every view is rebuilt from it.
     */
    method SetSpots(value: Option<seq<SpotRecord>>)
      requires Valid()
      modifies this, Elements()
      ensures Valid()
      ensures spots == if value.Some? then Some(Snapshot(value.value)) else None
      ensures State() == old(State()).(spots := spots)
      ensures views == old(views) && revoked == old(revoked)
      ensures forall v :: v in views ==>
        v.contentElement.children ==
          (if value.Some?
         then Rebuilt(old(v.contentElement.children), spots.value, colorMap, spotBorder)
         else old(v.contentElement.children))
      ensures old(Synced()) ==> Synced()
    {
      if value.None? {
        spots := None;
        return;
      }
      var s := Snapshot(value.value);
      spots := Some(s);

      RebuildViews();
      forall v | v in views
        ensures Built(v.contentElement.children)
      {
        RebuildKeepsBuilt(old(v.contentElement.children), s, colorMap, spotBorder);
      }
      if old(Synced()) {
        forall v | v in views
          ensures Shows(v.contentElement.children, State())
        {
          ShowsAfterRebuild(old(v.contentElement.children), old(State()), s);
        }
      }
    }

    /** The per-view part of the spots setter: empty the three spot layers and refill them through _createSpots. */
    method RebuildViews()
      requires DistinctElements() && spots.Some?
      modifies Elements()
      ensures forall v :: v in views ==>
        v.contentElement.children == Rebuilt(old(v.contentElement.children), spots.value, colorMap, spotBorder)
    {
      var i := 0;
      while i < |views|
        invariant 0 <= i <= |views|
        invariant forall j, l :: 0 <= j < l < |views| ==> views[j].contentElement != views[l].contentElement
        invariant forall j :: 0 <= j < i ==>
          views[j].contentElement.children == Rebuilt(old(views[j].contentElement.children), spots.value, colorMap, spotBorder)
        invariant forall j :: i <= j < |views| ==>
          views[j].contentElement.children == old(views[j].contentElement.children)
      {
        RebuildElement(views[i].contentElement);
        i := i + 1;
      }
    }

    /** One view of the spots setter: the three spot layers are emptied, then _createSpots appends to them. */
    method RebuildElement(c: ContentElement)
      requires spots.Some?
      modifies c
      ensures c.children == Rebuilt(old(c.children), spots.value, colorMap, spotBorder)
    {
      var defs, ellipses, labels := CreateSpots([], [], []);
      assert [] + Skeletons(|spots.value|) == Skeletons(|spots.value|);
      assert defs == Gradients(spots.value, colorMap, spotBorder);
      assert ellipses == EllipsesOf(spots.value) && labels == LabelsOf(spots.value);
      c.children := EditLayers(c.children, RefillSpots(ellipses));
      c.children := EditLayers(c.children, RefillLabels(labels));
      c.children := EditLayers(c.children, RefillDefs(defs));
    }

    /**
     * updateIntensities: no-op without spots; otherwise intensity i becomes
     * that of values[i] (undefined past its end) and every view is recoloured.
     */
    method UpdateIntensities(values: seq<SpotRecord>)
      requires Valid()
      modifies this, Elements()
      ensures Valid()
      ensures old(spots).None? ==> spots == None
      ensures old(spots).Some? ==> spots == Some(Reintensified(old(spots).value, IntensitiesOf(values)))
      ensures State() == old(State()).(spots := spots)
      ensures views == old(views) && revoked == old(revoked)
      ensures forall v :: v in views ==>
        v.contentElement.children ==
          (if spots.Some?
         then EditLayers(old(v.contentElement.children), RecolorEdit(spots.value, colorMap, spotBorder))
         else old(v.contentElement.children))
      ensures old(Synced()) ==> Synced()
    {
      if spots.None? {
        return;
      }
      var s0 := spots.value;
      var s := s0;
      var i := 0;
      while i < |s|
        invariant 0 <= i <= |s| == |s0|
        invariant forall j :: 0 <= j < i ==> s[j] == s0[j].(intensity := if j < |values| then values[j].intensity else None)
        invariant forall j :: i <= j < |s| ==> s[j] == s0[j]
      {
        s := s[i := s[i].(intensity := if i < |values| then values[i].intensity else None)];
        i := i + 1;
      }
      assert s == Reintensified(s0, IntensitiesOf(values));
      spots := Some(s);
      ghost var st0, st := old(State()), State();
      UpdateSpots();
      assert State() == st;
      if old(Synced()) {
        ReintensifiedKeepsGeometry(s0, IntensitiesOf(values));
        forall v | v in views
          ensures Shows(v.contentElement.children, st)
        {
          assert Shows(old(v.contentElement.children), st0);
          ShowsAfterRecolor(old(v.contentElement.children), st0, st);
        }
      }
    }

    /** The colorMap setter: store the map and recolour the views when spots are configured. */
    method SetColorMap(m: ColorMap)
      requires Valid()
      modifies this, Elements()
      ensures Valid()
      ensures State() == old(State()).(colorMap := m)
      ensures views == old(views) && revoked == old(revoked)
      ensures forall v :: v in views ==>
        v.contentElement.children ==
          (if spots.Some?
         then EditLayers(old(v.contentElement.children), RecolorEdit(spots.value, m, spotBorder))
         else old(v.contentElement.children))
      ensures old(Synced()) ==> Synced()
    {
      colorMap := m;
      if spots.Some? {
        ghost var st0, st := old(State()), State();
        UpdateSpots();
        assert State() == st;
        if old(Synced()) {
          forall v | v in views
            ensures Shows(v.contentElement.children, st)
          {
            assert Shows(old(v.contentElement.children), st0);
            ShowsAfterRecolor(old(v.contentElement.children), st0, st);
          }
        }
      }
    }

    /** The fontSize setter: store the size and restyle every view's labels (hidden at size 0). */
    method SetFontSize(value: real)
      requires Valid()
      modifies this, Elements()
      ensures Valid()
      ensures State() == old(State()).(fontSize := value)
      ensures views == old(views) && revoked == old(revoked)
      ensures forall v :: v in views ==>
        v.contentElement.children == EditLayers(old(v.contentElement.children), FontSizeEdit(value))
      ensures old(Synced()) ==> Synced()
    {
      fontSize := value;
      ForContentElements(FontSizeEdit(value));
      forall v | v in views
        ensures Built(v.contentElement.children)
      {
        EditKeepsBuilt(old(v.contentElement.children), FontSizeEdit(value));
      }
      if old(Synced()) {
        forall v | v in views
          ensures Shows(v.contentElement.children, State())
        {
          ShowsAfterFontSize(old(v.contentElement.children), old(State()), value);
        }
      }
    }

    /** The fontColor setter: store the colour and refill every view's labels. */
    method SetFontColor(value: string)
      requires Valid()
      modifies this, Elements()
      ensures Valid()
      ensures State() == old(State()).(fontColor := value)
      ensures views == old(views) && revoked == old(revoked)
      ensures forall v :: v in views ==>
        v.contentElement.children == EditLayers(old(v.contentElement.children), FontColorEdit(value))
      ensures old(Synced()) ==> Synced()
    {
      fontColor := value;
      ForContentElements(FontColorEdit(value));
      forall v | v in views
        ensures Built(v.contentElement.children)
      {
        EditKeepsBuilt(old(v.contentElement.children), FontColorEdit(value));
      }
      if old(Synced()) {
        forall v | v in views
          ensures Shows(v.contentElement.children, State())
        {
          ShowsAfterFontColor(old(v.contentElement.children), old(State()), value);
        }
      }
    }

    /**
     * exportImage: rejected at once when there is no image; otherwise the
     * image is decoded at the scene's size and, when the decode succeeds,
     * drawn on the canvas. The decode outcome is a parameter.
     */
    method ExportImage(decodes: bool) returns (r: ExportResult)
      ensures !IsSet(imageURL) ==> r == Rejected
      ensures IsSet(imageURL) && decodes ==> r == Drawn(Raster(imageURL.value, width, height))
      ensures IsSet(imageURL) && !decodes ==> r == Rejected
    {
      if !IsSet(imageURL) {
        return Rejected;
      }
      if decodes {
        r := Drawn(Raster(imageURL.value, width, height));
      } else {
        r := Rejected;
      }
    }

    /**
     * exportSpots: rejected at once when the width or the height is 0;
     * otherwise the overlay is built into a fresh element without its image
     * layer, decoded through the temporary URL tempURL, drawn when the decode
     * succeeds, and tempURL is released on both outcomes.
     */
    method ExportSpots(tempURL: string, decodes: bool) returns (r: ExportResult)
      modifies this`revoked
      ensures width == 0.0 || height == 0.0 ==> r == Rejected && revoked == old(revoked)
      ensures width != 0.0 && height != 0.0 ==>
        revoked == old(revoked) + [tempURL] &&
        r == if decodes
             then Drawn(Vector(width, height, RemoveLayer(ContentLayers(State()), ImageKind)))
             else Rejected
    {
      if width == 0.0 || height == 0.0 {
        return Rejected;
      }
      var svg := new ContentElement([]);
      BuildContent(svg);
      svg.children := RemoveLayer(svg.children, ImageKind);
      if decodes {
        r := Drawn(Vector(width, height, svg.children));
      } else {
        r := Rejected;
      }
      revoked := revoked + [tempURL];
    }
  }

  /**
   * setImage with a falsy URL still stores the size: the scene then has no
   * image but a non-zero size, and the overlay export passes its size gate.
   */
  method SizeWithoutImage(scene: Scene2D, tempURL: string) returns (r: ExportResult)
    requires scene.Valid()
    modifies scene, scene.Elements(), scene.ViewObjects()
    ensures !scene.HasImage() && scene.width == 5.0 && scene.height == 5.0
    ensures r.Drawn? && r.picture.Vector? && r.picture.width == 5.0
  {
    scene.SetImage(None, 5.0, 5.0);
    r := scene.ExportSpots(tempURL, true);
  }

  /** The store holds copies: a caller changing its spot object afterwards does not reach the scene. */
  method CallerEditsDoNotReachStore(scene: Scene2D, rec: SpotRecord)
    requires scene.Valid()
    modifies scene, scene.Elements(), rec
    ensures scene.spots == Some([Spot(old(rec.x), old(rec.y), old(rec.r), old(rec.name), old(rec.intensity))])
  {
    scene.SetSpots(Some([rec]));
    assert Snapshot([rec]) == [Spot(rec.x, rec.y, rec.r, rec.name, rec.intensity)];
    rec.x := rec.x + 1.0;
    rec.name := "";
  }
}
