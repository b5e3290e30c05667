/**
  `add_flywirelayer`: dispatch on the request's type, build the layer
  record(s), append them to the caller's document (or render constructed
  annotation layers onto it), and publish the result as a share URL.
 */
module Flywire {

  import opened Wrappers
  import opened StateDocument
  import opened SegmentColors
  import opened LayerBuilder
  import opened Gateway

  /** The request keys the core itself reads. */
  datatype LayerRequest = LayerRequest(layerType: string, name: Option<string>)

  /**
    What the external helpers return for this request: the annotation mode
    (`get_annotationstatetype`), the palette (`get_hexcolor`), the alpha
    (`get_alphavalue`), the results of `add_precomputed` in each of its three
    shapes, and the point tables of `skeletons2nodepoints` and
    `synapses2nodepoints`.
   */
  datatype Collaborators<T> = Collaborators(
    annotationMode: string,
    palette: seq<string>,
    alpha: real,
    segmentIds: seq<SegmentId>, segmentHost: string,   // (seglist, host): skeletons, volumes
    synapseHost: string,                               // host: synapses
    pointHost: string, pointName: string,              // (host, name): points
    skeletonRows: seq<SkeletonRow<T>>,
    synapseRows: seq<SynapseRow<T>>)

  /** The error the source raises: `hexcolor[0]` or `hexcolor[1]` past the end of the palette. */
  datatype Failure = PaletteIndexError

  /** The external state renderer: draws one step's annotation layers onto a document. */
  type Renderer<!T> = (Document, RenderStep<T>) -> Document

  const SupportedTypes: set<string> := {"skeletons", "volumes", "synapses", "points"}

  /** What a request leads to. */
  datatype Plan<T> =
    | AppendLayers(layers: seq<Layer>)
    | RenderSkeletons(skeletons: seq<SkeletonRow<T>>)
    | RenderSynapses(synapses: seq<SynapseRow<T>>)
    | Unsupported

  /** The dispatch of `add_flywirelayer` on `type` and, for skeletons and synapses, on the annotation mode. */
  function Dispatch<T>(request: LayerRequest, env: Collaborators<T>): (p: Plan<T>)
    ensures p.Unsupported? <==> request.layerType !in SupportedTypes
    ensures p.AppendLayers? <==>
              request.layerType in {"volumes", "points"} ||
              (request.layerType in {"skeletons", "synapses"} && env.annotationMode == "precomputed")
    ensures p.AppendLayers? ==> |p.layers| == if request.layerType == "synapses" then 2 else 1
    ensures p.RenderSkeletons? ==> p.skeletons == env.skeletonRows
    ensures p.RenderSynapses? ==> p.synapses == env.synapseRows
  {
    if request.layerType == "skeletons" then
      if env.annotationMode == "precomputed" then
        AppendLayers([SkeletonLayer(env.segmentIds, env.segmentHost, env.palette, env.alpha)])
      else
        RenderSkeletons(env.skeletonRows)
    else if request.layerType == "volumes" then
      AppendLayers([VolumeLayer(env.segmentIds, env.segmentHost, request.name.GetOr("volumes"), env.palette, env.alpha)])
    else if request.layerType == "synapses" then
      if env.annotationMode == "precomputed" then AppendLayers(SynapseLayers(env.synapseHost))
      else RenderSynapses(env.synapseRows)
    else if request.layerType == "points" then
      AppendLayers([PointLayer(env.pointHost, env.pointName)])
    else
      Unsupported
  }

  /** The left fold of the renderer over the steps, each rendered onto the previous result. */
  function RenderAll<T>(base: Document, steps: seq<RenderStep<T>>, render: Renderer<T>): (d: Document)
    ensures steps == [] ==> d == base
    ensures |steps| == 1 ==> d == render(base, steps[0])
    decreases |steps|
  {
    if steps == [] then base else render(RenderAll(base, steps[..|steps| - 1], render), steps[|steps| - 1])
  }

  lemma RenderAllSnoc<T>(base: Document, steps: seq<RenderStep<T>>, step: RenderStep<T>, render: Renderer<T>)
    ensures RenderAll(base, steps + [step], render) == render(RenderAll(base, steps, render), step)
  {
    assert (steps + [step])[..|steps|] == steps;
  }

  /** Rendering a concatenation of steps is rendering the second part onto the result of the first. */
  lemma {:induction false} RenderAllConcat<T>(base: Document, s: seq<RenderStep<T>>, t: seq<RenderStep<T>>, render: Renderer<T>)
    ensures RenderAll(base, s + t, render) == RenderAll(RenderAll(base, s, render), t, render)
    decreases |t|
  {
    if t == [] {
      assert s + t == s;
    } else {
      assert (s + t)[..|s + t| - 1] == s + t[..|t| - 1];
      RenderAllConcat(base, s, t[..|t| - 1], render);
    }
  }

  /** The document that gets published, `None` for an unsupported type. */
  function PublishedDocument<T>(doc: Document, request: LayerRequest, env: Collaborators<T>, render: Renderer<T>)
    : (r: Result<Option<Document>, Failure>)
    ensures r == Ok(None) <==> request.layerType !in SupportedTypes
    ensures r.Err? ==> env.annotationMode != "precomputed" && request.layerType in {"skeletons", "synapses"}
  {
    match Dispatch(request, env)
    case AppendLayers(layers) => Ok(Some(doc.WithLayers(layers)))
    case RenderSkeletons(rows) =>
      if rows != [] && |env.palette| < 1 then Err(PaletteIndexError)
      else Ok(Some(RenderAll(doc, SkeletonSteps(rows, env.palette), render)))
    case RenderSynapses(rows) =>
      if rows != [] && |env.palette| < 2 then Err(PaletteIndexError)
      else Ok(Some(RenderAll(doc, SynapseSteps(rows, env.palette), render)))
    case Unsupported => Ok(None)
  }

  /** What `add_flywirelayer` returns: the share URL, `None`, or the error raised. */
  function AddLayerUrl<T>(doc: Document, request: LayerRequest, env: Collaborators<T>,
                          publish: Document -> string, render: Renderer<T>): (r: Result<Option<string>, Failure>)
    ensures r.Err? <==> PublishedDocument(doc, request, env, render).Err?
    ensures r == Ok(None) <==> PublishedDocument(doc, request, env, render) == Ok(None)
    ensures r.Ok? && r.value.Some? ==>
              |r.value.value| >= |JsonUrlPrefix| && r.value.value[..|JsonUrlPrefix|] == JsonUrlPrefix
  {
    match PublishedDocument(doc, request, env, render)
    case Ok(Some(published)) => Ok(Some(FlywireDictToUrl(published, publish)))
    case Ok(None) => Ok(None)
    case Err(e) => Err(e)
  }

  /** The constructed-skeleton loop: one line annotation layer per skeleton, rendered in table order. */
  method AnnotateSkeletons<T>(base: Document, rows: seq<SkeletonRow<T>>, palette: seq<string>, render: Renderer<T>)
    returns (r: Result<Document, Failure>)
    ensures r == if rows != [] && |palette| < 1 then Err(PaletteIndexError)
                 else Ok(RenderAll(base, SkeletonSteps(rows, palette), render))
  {
    var ngdict := base;
    var i := 0;
    while i < |rows|
      invariant 0 <= i <= |rows|
      invariant i > 0 ==> |palette| >= 1
      invariant ngdict == RenderAll(base, SkeletonSteps(rows[..i], palette), render)
    {
      if |palette| < 1 {
        return Err(PaletteIndexError);
      }
      var row := rows[i];
      var lines := LineMapper("pointA", "pointB");
      var annoLayer := AnnotationLayerConfig(SkeletonAnnotationName(row.id), palette[0], lines);
      SkeletonStepsExtend(rows, palette, i);
      RenderAllSnoc(base, SkeletonSteps(rows[..i], palette), SkeletonSteps(rows, palette)[i], render);
      ngdict := render(ngdict, [(annoLayer, row.pointsTable)]);
      i := i + 1;
    }
    assert rows[..i] == rows;
    r := Ok(ngdict);
  }

  /** The constructed-synapse loop: per neuron, a chained render of the post- then the presynaptic layer. */
  method AnnotateSynapses<T>(base: Document, rows: seq<SynapseRow<T>>, palette: seq<string>, render: Renderer<T>)
    returns (r: Result<Document, Failure>)
    ensures r == if rows != [] && |palette| < 2 then Err(PaletteIndexError)
                 else Ok(RenderAll(base, SynapseSteps(rows, palette), render))
  {
    var ngdict := base;
    var i := 0;
    while i < |rows|
      invariant 0 <= i <= |rows|
      invariant i > 0 ==> |palette| >= 2
      invariant ngdict == RenderAll(base, SynapseSteps(rows[..i], palette), render)
    {
      if |palette| < 2 {
        return Err(PaletteIndexError);
      }
      var row := rows[i];
      var presynAnnos := AnnotationLayerConfig(PresynapseAnnotationName(row.id), palette[0], PointMapper("presyn_pt"));
      var postsynAnnos := AnnotationLayerConfig(PostsynapseAnnotationName(row.id), palette[1], PointMapper("postsyn_pt"));
      SynapseStepsExtend(rows, palette, i);
      RenderAllSnoc(base, SynapseSteps(rows[..i], palette), SynapseSteps(rows, palette)[i], render);
      ngdict := render(ngdict, [(postsynAnnos, row.postSynTable), (presynAnnos, row.preSynTable)]);
      i := i + 1;
    }
    assert rows[..i] == rows;
    r := Ok(ngdict);
  }

  /**
    `add_flywirelayer`: the precomputed branches append to the caller's
    document in place; the constructed branches render onto a copy.
   */
  method AddFlywireLayer<T>(ngdict: ViewerState, request: LayerRequest, env: Collaborators<T>,
                            publish: Document -> string, render: Renderer<T>)
    returns (flywireUrl: Result<Option<string>, Failure>)
    modifies ngdict
    ensures flywireUrl == AddLayerUrl(old(ngdict.Snapshot()), request, env, publish, render)
    ensures ngdict.Snapshot() == match Dispatch(request, env)
                                 case AppendLayers(layers) => old(ngdict.Snapshot()).WithLayers(layers)
                                 case _ => old(ngdict.Snapshot())
  {
    var layerType := request.layerType;
    if layerType == "skeletons" {
      if env.annotationMode == "precomputed" {
        var skeletonLayer := SkeletonLayer(env.segmentIds, env.segmentHost, env.palette, env.alpha);
        ngdict.AppendLayer(skeletonLayer);
        flywireUrl := Ok(Some(FlywireDictToUrl(ngdict.Snapshot(), publish)));
      } else {
        var rendered := AnnotateSkeletons(ngdict.Snapshot(), env.skeletonRows, env.palette, render);
        flywireUrl := if rendered.Ok? then Ok(Some(FlywireDictToUrl(rendered.value, publish))) else Err(rendered.error);
      }
    } else if layerType == "volumes" {
      var layerName := request.name.GetOr("volumes");
      var volumeLayer := VolumeLayer(env.segmentIds, env.segmentHost, layerName, env.palette, env.alpha);
      ngdict.AppendLayer(volumeLayer);
      flywireUrl := Ok(Some(FlywireDictToUrl(ngdict.Snapshot(), publish)));
    } else if layerType == "synapses" {
      if env.annotationMode == "precomputed" {
        var layers := SynapseLayers(env.synapseHost);
        ngdict.AppendLayer(layers[0]);
        ngdict.AppendLayer(layers[1]);
        assert ngdict.layers == old(ngdict.layers) + layers;
        flywireUrl := Ok(Some(FlywireDictToUrl(ngdict.Snapshot(), publish)));
      } else {
        var rendered := AnnotateSynapses(ngdict.Snapshot(), env.synapseRows, env.palette, render);
        flywireUrl := if rendered.Ok? then Ok(Some(FlywireDictToUrl(rendered.value, publish))) else Err(rendered.error);
      }
    } else if layerType == "points" {
      var pointLayer := PointLayer(env.pointHost, env.pointName);
      ngdict.AppendLayer(pointLayer);
      flywireUrl := Ok(Some(FlywireDictToUrl(ngdict.Snapshot(), publish)));
    } else {
      flywireUrl := Ok(None);
    }
  }

  // Properties of the dispatch and of the published document.

  /** No URL comes back exactly when the type is unsupported; then the document is unchanged and nothing is published. */
  lemma UnsupportedIffNoUrl<T>(doc: Document, request: LayerRequest, env: Collaborators<T>,
                               publish: Document -> string, render: Renderer<T>)
    ensures AddLayerUrl(doc, request, env, publish, render) == Ok(None) <==> request.layerType !in SupportedTypes
    ensures PublishedDocument(doc, request, env, render) == Ok(None) <==> request.layerType !in SupportedTypes
  {
  }

  /**
    Merging is append-only: in every precomputed branch the prior layers stay
    an unchanged prefix, the metadata is kept, and the list grows by one layer,
    or by two for synapses.
   */
  lemma AppendOnly<T>(doc: Document, request: LayerRequest, env: Collaborators<T>, render: Renderer<T>)
    requires Dispatch(request, env).AppendLayers?
    ensures PublishedDocument(doc, request, env, render).Ok?
    ensures PublishedDocument(doc, request, env, render).value.Some?
    ensures var d := PublishedDocument(doc, request, env, render).value.value;
            d.metadata == doc.metadata &&
            |d.layers| == |doc.layers| + (if request.layerType == "synapses" then 2 else 1) &&
            d.layers[..|doc.layers|] == doc.layers
  {
  }

  /** A precomputed branch returns the viewer host, `/?json_url=` and the pointer of the appended document. */
  lemma PrecomputedUrl<T>(doc: Document, request: LayerRequest, env: Collaborators<T>,
                          publish: Document -> string, render: Renderer<T>)
    requires Dispatch(request, env).AppendLayers?
    ensures AddLayerUrl(doc, request, env, publish, render) ==
            Ok(Some("https://ngl.flywire.ai" + "/?json_url=" + publish(doc.WithLayers(Dispatch(request, env).layers))))
  {
  }

  /** Constructed mode fails exactly when a row exists and the palette lacks the entry it indexes. */
  lemma ConstructedPaletteError<T>(doc: Document, request: LayerRequest, env: Collaborators<T>, render: Renderer<T>)
    ensures PublishedDocument(doc, request, env, render).Err? <==>
            env.annotationMode != "precomputed" &&
            ((request.layerType == "skeletons" && env.skeletonRows != [] && |env.palette| < 1) ||
             (request.layerType == "synapses" && env.synapseRows != [] && |env.palette| < 2))
  {
  }

  /**
    The precomputed skeleton layer: a segmentation layer named `skeleton` over
    the resolver's ids and host, rendered as lines and points in 2D and lines
    in 3D, whose colour map assigns no colour outside the id list.
   */
  lemma SkeletonBranchLayer<T>(request: LayerRequest, env: Collaborators<T>)
    requires request.layerType == "skeletons" && env.annotationMode == "precomputed"
    ensures var p := Dispatch(request, env);
            p.AppendLayers? && |p.layers| == 1 &&
            var l := p.layers[0];
            l.Segmentation? && l.TypeName() == "segmentation" &&
            l.geometry == SkeletonSource("precomputed://" + env.segmentHost + "/precomputed/skeletons") &&
            l.skeletonRendering == Rendering("lines_and_points", "lines") &&
            l.segments == env.segmentIds && l.name == "skeleton" && l.objectAlpha == env.alpha &&
            l.segmentColors == ColorMap(env.segmentIds, env.palette) &&
            WellFormed(l)
  {
    NoOrphanColors(env.segmentIds, env.palette);
  }

  /**
    The volumes layer: the mesh path uses the requested name (default
    `volumes`), but the layer's own name is `volumes` whatever was requested.
   */
  lemma VolumeBranchLayer<T>(request: LayerRequest, env: Collaborators<T>)
    requires request.layerType == "volumes"
    ensures var p := Dispatch(request, env);
            p.AppendLayers? && |p.layers| == 1 &&
            var l := p.layers[0];
            l.Segmentation? && l.TypeName() == "segmentation" &&
            l.geometry == MeshSource("precomputed://" + env.segmentHost + "/precomputed/" +
                                     (if request.name.Some? then request.name.value else "volumes") + "/mesh") &&
            l.skeletonRendering == Rendering("lines_and_points", "lines") &&
            l.segments == env.segmentIds && l.name == "volumes" && l.objectAlpha == env.alpha &&
            l.segmentColors == ColorMap(env.segmentIds, env.palette) &&
            WellFormed(l)
  {
    NoOrphanColors(env.segmentIds, env.palette);
  }

  /** Two volume requests differing only in the name give layers with the same `name` field. */
  lemma VolumeNameIgnoresRequest<T>(r1: LayerRequest, r2: LayerRequest, env: Collaborators<T>)
    requires r1.layerType == "volumes" && r2.layerType == "volumes"
    ensures Dispatch(r1, env).layers[0].name == Dispatch(r2, env).layers[0].name
  {
  }

  /** The points layer: source under the host and the resolver's name, red, named after the layer. */
  lemma PointBranchLayer<T>(request: LayerRequest, env: Collaborators<T>)
    requires request.layerType == "points"
    ensures var p := Dispatch(request, env);
            p.AppendLayers? && |p.layers| == 1 &&
            var l := p.layers[0];
            l.Annotation? && l.TypeName() == "annotation" &&
            l.source == "precomputed://" + env.pointHost + "/precomputed/" + env.pointName &&
            l.annotationColor == "#ff0000" && l.name == env.pointName &&
            l.linkedSegmentationLayer.None? && l.filterBySegmentation.None?
  {
  }

  /**
    Precomputed synapses: exactly two annotation layers, presynapses (red)
    then postsynapses (blue), both linked to the `skeleton` layer and both
    filtered by `postsynapses_cell`.
   */
  lemma SynapseBranchLayers<T>(request: LayerRequest, env: Collaborators<T>)
    requires request.layerType == "synapses" && env.annotationMode == "precomputed"
    ensures var p := Dispatch(request, env);
            p.AppendLayers? && |p.layers| == 2 &&
            var pre, post := p.layers[0], p.layers[1];
            pre.Annotation? && post.Annotation? &&
            pre.name == "presynapses" && post.name == "postsynapses" &&
            pre.annotationColor == "#ff0000" && post.annotationColor == "#0000ff" &&
            pre.source == "precomputed://" + env.synapseHost + "/precomputed/presynapses" &&
            post.source == "precomputed://" + env.synapseHost + "/precomputed/postsynapses" &&
            pre.linkedSegmentationLayer == Some(SegmentationLink("presynapses_cell", "skeleton")) &&
            post.linkedSegmentationLayer == Some(SegmentationLink("postsynapses_cell", "skeleton")) &&
            pre.filterBySegmentation == Some(["postsynapses_cell"]) &&
            post.filterBySegmentation == Some(["postsynapses_cell"])
  {
  }

  /** Every layer a precomputed branch appends keeps the no-orphan-colour invariant, so a well-formed document stays well-formed. */
  lemma AppendedLayersWellFormed<T>(doc: Document, request: LayerRequest, env: Collaborators<T>, render: Renderer<T>)
    requires Dispatch(request, env).AppendLayers?
    requires forall i :: 0 <= i < |doc.layers| ==> WellFormed(doc.layers[i])
    ensures var d := PublishedDocument(doc, request, env, render).value.value;
            forall i :: 0 <= i < |d.layers| ==> WellFormed(d.layers[i])
  {
    NoOrphanColors(env.segmentIds, env.palette);
    var d := PublishedDocument(doc, request, env, render).value.value;
    forall i | 0 <= i < |d.layers| ensures WellFormed(d.layers[i]) {
      if i >= |doc.layers| {
        assert d.layers[i] == Dispatch(request, env).layers[i - |doc.layers|];
      } else {
        assert d.layers[i] == doc.layers[i];
      }
    }
  }

  /**
    Adding precomputed skeletons and then precomputed synapses leaves both
    synapse layers linked to a segmentation layer that is in the document: the
    skeleton layer the first call appended.
   */
  lemma SynapseLinksResolveAfterSkeletons<T>(doc: Document, skeletons: LayerRequest, synapses: LayerRequest,
                                             env1: Collaborators<T>, env2: Collaborators<T>, render: Renderer<T>)
    requires skeletons.layerType == "skeletons" && env1.annotationMode == "precomputed"
    requires synapses.layerType == "synapses" && env2.annotationMode == "precomputed"
    ensures var d1 := PublishedDocument(doc, skeletons, env1, render).value.value;
            var d2 := PublishedDocument(d1, synapses, env2, render).value.value;
            var n := |doc.layers|;
            |d2.layers| == n + 3 &&
            d2.layers[n].Segmentation? &&
            d2.layers[n + 1].linkedSegmentationLayer.value.layerName == d2.layers[n].name &&
            d2.layers[n + 2].linkedSegmentationLayer.value.layerName == d2.layers[n].name
  {
  }
}
