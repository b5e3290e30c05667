/**
  The viewer-state document: an ordered list of layer records plus the
  remaining top-level keys (coordinate space, position, ...), which this core
  carries along without looking at them.
 */
module StateDocument {

  import opened Wrappers

  type SegmentId = nat

  /** The `skeletonRendering` record of a segmentation layer. */
  datatype Rendering = Rendering(mode2d: string, mode3d: string)

  /** Where a segmentation layer takes its geometry from: the `skeletons` key or the `mesh` key. */
  datatype SegmentationSource = SkeletonSource(skeletons: string) | MeshSource(mesh: string)

  /**
    A value of a `segmentColors` map: either one hex colour, or (in the
    single-colour case) the whole palette list stored under every id.
   */
  datatype ColorValue = Hex(color: string) | WholePalette(colors: seq<string>)

  /** One-entry dictionary `{role: layer name}` of an annotation layer's `linkedSegmentationLayer`. */
  datatype SegmentationLink = SegmentationLink(role: string, layerName: string)

  datatype Layer =
    | Segmentation(geometry: SegmentationSource, skeletonRendering: Rendering, segments: seq<SegmentId>,
                   name: string, objectAlpha: real, segmentColors: map<SegmentId, ColorValue>)
    | Annotation(source: string, annotationColor: string, linkedSegmentationLayer: Option<SegmentationLink>,
                 filterBySegmentation: Option<seq<string>>, name: string)
      /** A layer already in the document, of a shape this core never inspects. */
    | Other(json: string)
  {
    /** The record's `type` key. */
    function TypeName(): string
      requires !Other?
    {
      if Segmentation? then "segmentation" else "annotation"
    }
  }

  function Elements<X>(s: seq<X>): set<X> {
    set x | x in s
  }

  /** No colour is assigned to an id outside the layer's segment list. */
  predicate WellFormed(layer: Layer) {
    layer.Segmentation? ==> layer.segmentColors.Keys <= Elements(layer.segments)
  }

  datatype Document = Document(layers: seq<Layer>, metadata: map<string, string>) {
    /** This document with `extra` appended to its layer list. */
    function WithLayers(extra: seq<Layer>): (d: Document)
      ensures d.metadata == metadata
      ensures |d.layers| == |layers| + |extra|
      ensures d.layers[..|layers|] == layers && d.layers[|layers|..] == extra
    {
      Document(layers + extra, metadata)
    }
  }

  /** The dictionary the caller passes in, whose `layers` list is appended to in place. */
  class ViewerState {
    var layers: seq<Layer>
    var metadata: map<string, string>

    constructor (doc: Document)
      ensures Snapshot() == doc
    {
      layers := doc.layers;
      metadata := doc.metadata;
    }

    function Snapshot(): Document
      reads this
    {
      Document(layers, metadata)
    }

    /** `ngdict['layers'].append(layer)` */
    method AppendLayer(layer: Layer)
      modifies this
      ensures Snapshot() == old(Snapshot()).WithLayers([layer])
    {
      layers := layers + [layer];
    }
  }
}
