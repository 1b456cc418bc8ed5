/**
 * The layer list that the single-SVG project manager and the SVG manager
 * derive from an uploaded drawing, and the layer-name check both offer.
 *
 * XML parsing is not modelled: a parsed file is the sequence of its `<g>`
 * elements in document order (what `root.findall(".//svg:g")` yields), or
 * `None` when `ET.parse` raised.
 */
module SvgLayers {
  import opened Wrappers
  import opened Strings

  /**
   * One `<g>` element: whether it carries `inkscape:groupmode="layer"`, its
   * namespaced `inkscape:label`, its `id`, and an attribute whose name is
   * literally `inkscape:label` (the second pass looks that name up without
   * expanding the namespace).
   */
  datatype Group = Group(isLayer: bool, inkscapeLabel: Option<string>, id: Option<string>, literalLabel: Option<string>)

  /** An entry `{'id': ..., 'name': ...}` of `available_layers`. */
  datatype Layer = Layer(id: string, name: string)

  const DefaultLayer := Layer("default", "Default Layer")

  /** The chunk `file_id` both single-drawing managers use when the client sends none. */
  const DefaultFileId := "svg_upload"

  /** Stands for the stored drawing's name `f"design_{md5(filename)[:8]}.svg"`. */
  function DesignFile(filename: string): string {
    "design_" + filename + ".svg"
  }

  /** The pseudo-layer name that selects every layer. */
  const AllLayers := "all"

  /** Whether the first pass keeps this group: an Inkscape layer with a non-empty label. */
  predicate Labelled(g: Group) {
    g.isLayer && OrElse(g.inkscapeLabel, "") != ""
  }

  function LabelledLayer(g: Group): Layer {
    Layer(OrElse(g.id, ""), OrElse(g.inkscapeLabel, ""))
  }

  /** First pass: the labelled Inkscape layers of `groups`, in order. */
  function LabelledLayers(groups: seq<Group>): seq<Layer> {
    if groups == [] then []
    else
      var front := LabelledLayers(groups[..|groups| - 1]);
      var g := groups[|groups| - 1];
      if Labelled(g) then front + [LabelledLayer(g)] else front
  }

  /** Second pass: group `i` becomes a layer with id `layer_{i}` when it has none. */
  function GroupLayer(g: Group, i: nat): Layer {
    var id := OrElse(g.id, Numbered("layer_", i));
    Layer(id, OrElse(g.literalLabel, id))
  }

  /**
   * Every group becomes a layer: its own id, or `layer_{i}` for the `i`th
   * group without one; named by its literal `inkscape:label` attribute, or
   * else by that id.
   */
  function AllGroups(groups: seq<Group>): (r: seq<Layer>)
    ensures |r| == |groups|
    ensures forall i | 0 <= i < |r| ::
              && r[i].id == (if groups[i].id.Some? then groups[i].id.value else Numbered("layer_", i))
              && r[i].name == (if groups[i].literalLabel.Some? then groups[i].literalLabel.value else r[i].id)
  {
    seq(|groups|, i requires 0 <= i < |groups| => GroupLayer(groups[i], i))
  }

  /** The list `_extract_layers_from_svg` leaves in `available_layers`. */
  function ExtractedLayers(parsed: Option<seq<Group>>): seq<Layer> {
    match parsed
    case None => [DefaultLayer]
    case Some(groups) =>
      if LabelledLayers(groups) != [] then LabelledLayers(groups)
      else if groups != [] then AllGroups(groups)
      else [DefaultLayer]
  }

  /** The two passes of `_extract_layers_from_svg` and its single-layer fallback. */
  method ExtractLayers(parsed: Option<seq<Group>>) returns (layers: seq<Layer>)
    ensures layers == ExtractedLayers(parsed)
  {
    if parsed.None? {
      return [DefaultLayer];
    }
    var groups := parsed.value;
    layers := [];
    var i := 0;
    while i < |groups|
      invariant 0 <= i <= |groups|
      invariant layers == LabelledLayers(groups[..i])
    {
      assert groups[..i + 1][..i] == groups[..i];
      if Labelled(groups[i]) {
        layers := layers + [LabelledLayer(groups[i])];
      }
      i := i + 1;
    }
    assert groups[..i] == groups;
    if layers == [] {
      i := 0;
      while i < |groups|
        invariant 0 <= i <= |groups|
        invariant |layers| == i
        invariant forall j | 0 <= j < i :: layers[j] == GroupLayer(groups[j], j)
      {
        layers := layers + [GroupLayer(groups[i], i)];
        i := i + 1;
      }
    }
    if layers == [] {
      layers := [DefaultLayer];
    }
  }

  /** A layer is listed by the first pass exactly when some group is a labelled layer with that id and label. */
  lemma {:induction false} LabelledLayersExact(groups: seq<Group>, l: Layer)
    ensures l in LabelledLayers(groups) <==>
              exists i | 0 <= i < |groups| :: Labelled(groups[i]) && LabelledLayer(groups[i]) == l
  {
    if groups != [] {
      var front := groups[..|groups| - 1];
      LabelledLayersExact(front, l);
      if exists i | 0 <= i < |front| :: Labelled(front[i]) && LabelledLayer(front[i]) == l {
        var i :| 0 <= i < |front| && Labelled(front[i]) && LabelledLayer(front[i]) == l;
        assert groups[i] == front[i];
      }
      if exists i | 0 <= i < |groups| :: Labelled(groups[i]) && LabelledLayer(groups[i]) == l {
        var i :| 0 <= i < |groups| && Labelled(groups[i]) && LabelledLayer(groups[i]) == l;
        if i < |front| {
          assert front[i] == groups[i];
        }
      }
    }
  }

  /** The first pass comes back empty exactly when no group is a labelled Inkscape layer. */
  lemma {:induction false} NoLabelledLayers(groups: seq<Group>)
    ensures LabelledLayers(groups) == [] <==> forall i | 0 <= i < |groups| :: !Labelled(groups[i])
  {
    if LabelledLayers(groups) != [] {
      var l := LabelledLayers(groups)[0];
      LabelledLayersExact(groups, l);
    } else {
      forall i | 0 <= i < |groups| ensures !Labelled(groups[i]) {
        LabelledLayersExact(groups, LabelledLayer(groups[i]));
      }
    }
  }

  /** Every layer the first pass keeps has a non-empty name. */
  lemma LabelledLayersNamed(groups: seq<Group>)
    ensures forall l | l in LabelledLayers(groups) :: l.name != ""
  {
    forall l | l in LabelledLayers(groups) ensures l.name != "" {
      LabelledLayersExact(groups, l);
    }
  }

  /**
   * The layer list is never empty. A parse failure, or a drawing with no
   * group at all, gives the single default layer. Labelled Inkscape layers
   * win when there is one. Otherwise every group is listed, number `i`
   * under the id `layer_{i}` when it has no id of its own.
   */
  lemma ExtractedLayersCases(parsed: Option<seq<Group>>)
    ensures ExtractedLayers(parsed) != []
    ensures parsed.None? || parsed.value == [] ==> ExtractedLayers(parsed) == [DefaultLayer]
    ensures parsed.Some? && (exists i | 0 <= i < |parsed.value| :: Labelled(parsed.value[i])) ==>
              ExtractedLayers(parsed) == LabelledLayers(parsed.value)
    ensures parsed.Some? && parsed.value != [] && (forall i | 0 <= i < |parsed.value| :: !Labelled(parsed.value[i])) ==>
              var r := ExtractedLayers(parsed);
              |r| == |parsed.value|
              && forall i | 0 <= i < |r| ::
                   && r[i].id == (if parsed.value[i].id.Some? then parsed.value[i].id.value else Numbered("layer_", i))
                   && r[i].name == (if parsed.value[i].literalLabel.Some? then parsed.value[i].literalLabel.value else r[i].id)
  {
    if parsed.Some? {
      NoLabelledLayers(parsed.value);
    }
  }

  /** The search loop of `is_valid_layer`: some layer has this name or this id. */
  function Matches(layers: seq<Layer>, name: string): bool {
    if layers == [] then false
    else layers[0].name == name || layers[0].id == name || Matches(layers[1..], name)
  }

  lemma {:induction false} MatchesExact(layers: seq<Layer>, name: string)
    ensures Matches(layers, name) <==> exists i | 0 <= i < |layers| :: layers[i].name == name || layers[i].id == name
  {
    if layers != [] {
      MatchesExact(layers[1..], name);
      if exists i | 0 <= i < |layers[1..]| :: layers[1..][i].name == name || layers[1..][i].id == name {
        var i :| 0 <= i < |layers[1..]| && (layers[1..][i].name == name || layers[1..][i].id == name);
        assert layers[i + 1] == layers[1..][i];
      }
      if exists i | 0 <= i < |layers| :: layers[i].name == name || layers[i].id == name {
        var i :| 0 <= i < |layers| && (layers[i].name == name || layers[i].id == name);
        if i > 0 {
          assert layers[1..][i - 1] == layers[i];
        }
      }
    }
  }

  /**
   * `is_valid_layer` given the current layer list (`None` with no drawing):
   * false without a drawing; otherwise `all` or the name or id of a listed layer.
   */
  function ValidLayer(layers: Option<seq<Layer>>, name: string): (r: bool)
    ensures r <==> layers.Some? && (name == AllLayers
                     || exists i | 0 <= i < |layers.value| :: layers.value[i].name == name || layers.value[i].id == name)
  {
    if layers.Some? then MatchesExact(layers.value, name); name == AllLayers || Matches(layers.value, name)
    else false
  }
}
