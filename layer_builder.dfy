/**
  The layer records `add_flywirelayer` builds: the precomputed ones it
  appends itself, and the annotation-layer configurations it hands to the
  state renderer in constructed mode.
 */
module LayerBuilder {

  import opened Wrappers
  import opened StateDocument
  import opened SegmentColors
  import Decimal

  /** The `skeletonRendering` both segmentation layers carry. */
  const SkeletonRendering := Rendering("lines_and_points", "lines")

  /** The name of the precomputed skeleton layer, which the synapse layers link to. */
  const SkeletonLayerName := "skeleton"

  /** The segmentation layer of precomputed skeletons. */
  function SkeletonLayer(ids: seq<SegmentId>, host: string, palette: seq<string>, alpha: real): (l: Layer)
    ensures l.Segmentation? && l.name == SkeletonLayerName && l.segments == ids && WellFormed(l)
  {
    NoOrphanColors(ids, palette);
    Segmentation(SkeletonSource("precomputed://" + host + "/precomputed/skeletons"),
                 SkeletonRendering, ids, SkeletonLayerName, alpha, ColorMap(ids, palette))
  }

  /** The segmentation layer of volume meshes; `meshName` only enters the path. */
  function VolumeLayer(ids: seq<SegmentId>, host: string, meshName: string, palette: seq<string>, alpha: real): (l: Layer)
    ensures l.Segmentation? && l.name == "volumes" && l.segments == ids && WellFormed(l)
  {
    NoOrphanColors(ids, palette);
    Segmentation(MeshSource("precomputed://" + host + "/precomputed/" + meshName + "/mesh"),
                 SkeletonRendering, ids, "volumes", alpha, ColorMap(ids, palette))
  }

  /** The presynapse and postsynapse annotation layers, in the order they are appended. */
  function SynapseLayers(host: string): (ls: seq<Layer>)
    ensures |ls| == 2
    ensures forall l :: l in ls ==>
              l.Annotation? && l.linkedSegmentationLayer.Some? && l.linkedSegmentationLayer.value.layerName == SkeletonLayerName
    ensures ls[0].name != ls[1].name
  {
    [Annotation("precomputed://" + host + "/precomputed/presynapses", "#ff0000",
                Some(SegmentationLink("presynapses_cell", SkeletonLayerName)),
                Some(["postsynapses_cell"]), "presynapses"),
     Annotation("precomputed://" + host + "/precomputed/postsynapses", "#0000ff",
                Some(SegmentationLink("postsynapses_cell", SkeletonLayerName)),
                Some(["postsynapses_cell"]), "postsynapses")]
  }

  /** The annotation layer of precomputed points. */
  function PointLayer(host: string, layerName: string): (l: Layer)
    ensures l.Annotation? && l.name == layerName && l.linkedSegmentationLayer.None?
  {
    Annotation("precomputed://" + host + "/precomputed/" + layerName, "#ff0000", None, None, layerName)
  }

  // Constructed mode: configurations for the external state renderer.

  datatype MappingRules = LineMapper(pointColumnA: string, pointColumnB: string) | PointMapper(pointColumn: string)

  datatype AnnotationLayerConfig = AnnotationLayerConfig(name: string, color: string, mappingRules: MappingRules)

  /** One row of the skeleton point table: a neuron id and its table of point pairs. */
  datatype SkeletonRow<T> = SkeletonRow(id: nat, pointsTable: T)

  /** One row of the synapse point table: a neuron id and its pre- and postsynaptic tables. */
  datatype SynapseRow<T> = SynapseRow(id: nat, preSynTable: T, postSynTable: T)

  /** One render call: the builders of a (possibly chained) state builder, each with its data. */
  type RenderStep<T> = seq<(AnnotationLayerConfig, T)>

  const SkeletonAnnotationPrefix := "skel_annot_"
  const PresynapseAnnotationPrefix := "presyn_annot_"
  const PostsynapseAnnotationPrefix := "postsyn_annot_"

  /** `prefix` followed by the decimal id; the id can be read back from what follows the prefix. */
  function AnnotationName(prefix: string, id: nat): (name: string)
    ensures |name| > |prefix| && name[..|prefix|] == prefix
    ensures Decimal.AllDigits(name[|prefix|..]) && Decimal.ToNat(name[|prefix|..]) == id
  {
    Decimal.ToNatFromNat(id);
    assert (prefix + Decimal.FromNat(id))[|prefix|..] == Decimal.FromNat(id);
    prefix + Decimal.FromNat(id)
  }

  /** `f'skel_annot_{neuronid}'` */
  function SkeletonAnnotationName(id: nat): (name: string)
    ensures |name| > |SkeletonAnnotationPrefix| && name[..|SkeletonAnnotationPrefix|] == SkeletonAnnotationPrefix
    ensures Decimal.AllDigits(name[|SkeletonAnnotationPrefix|..])
    ensures Decimal.ToNat(name[|SkeletonAnnotationPrefix|..]) == id
  {
    AnnotationName(SkeletonAnnotationPrefix, id)
  }

  /** `f'presyn_annot_{neuronid}'` */
  function PresynapseAnnotationName(id: nat): (name: string)
    ensures |name| > |PresynapseAnnotationPrefix| && name[..|PresynapseAnnotationPrefix|] == PresynapseAnnotationPrefix
    ensures Decimal.AllDigits(name[|PresynapseAnnotationPrefix|..])
    ensures Decimal.ToNat(name[|PresynapseAnnotationPrefix|..]) == id
  {
    AnnotationName(PresynapseAnnotationPrefix, id)
  }

  /** `f'postsyn_annot_{neuronid}'` */
  function PostsynapseAnnotationName(id: nat): (name: string)
    ensures |name| > |PostsynapseAnnotationPrefix| && name[..|PostsynapseAnnotationPrefix|] == PostsynapseAnnotationPrefix
    ensures Decimal.AllDigits(name[|PostsynapseAnnotationPrefix|..])
    ensures Decimal.ToNat(name[|PostsynapseAnnotationPrefix|..]) == id
  {
    AnnotationName(PostsynapseAnnotationPrefix, id)
  }

  /** One render call per skeleton: a line layer coloured with the first palette entry. */
  function SkeletonSteps<T>(rows: seq<SkeletonRow<T>>, palette: seq<string>): (steps: seq<RenderStep<T>>)
    requires rows == [] || |palette| >= 1
    ensures |steps| == |rows|
    ensures forall k :: 0 <= k < |rows| ==>
              steps[k] == [(AnnotationLayerConfig(SkeletonAnnotationName(rows[k].id), palette[0], LineMapper("pointA", "pointB")),
                            rows[k].pointsTable)]
  {
    seq(|rows|, k requires 0 <= k < |rows| =>
      [(AnnotationLayerConfig(SkeletonAnnotationName(rows[k].id), palette[0], LineMapper("pointA", "pointB")),
        rows[k].pointsTable)])
  }

  /**
    One chained render call per neuron: the postsynaptic point layer
    (second palette entry), then the presynaptic one (first entry).
   */
  function SynapseSteps<T>(rows: seq<SynapseRow<T>>, palette: seq<string>): (steps: seq<RenderStep<T>>)
    requires rows == [] || |palette| >= 2
    ensures |steps| == |rows|
    ensures forall k :: 0 <= k < |rows| ==> |steps[k]| == 2
    ensures forall k :: 0 <= k < |rows| ==>
              steps[k][0] == (AnnotationLayerConfig(PostsynapseAnnotationName(rows[k].id), palette[1], PointMapper("postsyn_pt")),
                              rows[k].postSynTable)
    ensures forall k :: 0 <= k < |rows| ==>
              steps[k][1] == (AnnotationLayerConfig(PresynapseAnnotationName(rows[k].id), palette[0], PointMapper("presyn_pt")),
                              rows[k].preSynTable)
  {
    seq(|rows|, k requires 0 <= k < |rows| =>
      [(AnnotationLayerConfig(PostsynapseAnnotationName(rows[k].id), palette[1], PointMapper("postsyn_pt")),
        rows[k].postSynTable),
       (AnnotationLayerConfig(PresynapseAnnotationName(rows[k].id), palette[0], PointMapper("presyn_pt")),
        rows[k].preSynTable)])
  }

  /** The steps of one more row are the earlier steps followed by that row's step. */
  lemma SkeletonStepsExtend<T>(rows: seq<SkeletonRow<T>>, palette: seq<string>, i: nat)
    requires i < |rows| && |palette| >= 1
    ensures SkeletonSteps(rows[..i + 1], palette) == SkeletonSteps(rows[..i], palette) + [SkeletonSteps(rows, palette)[i]]
  {
  }

  lemma SynapseStepsExtend<T>(rows: seq<SynapseRow<T>>, palette: seq<string>, i: nat)
    requires i < |rows| && |palette| >= 2
    ensures SynapseSteps(rows[..i + 1], palette) == SynapseSteps(rows[..i], palette) + [SynapseSteps(rows, palette)[i]]
  {
  }

  lemma PrefixedNamesInjective(prefix: string, a: nat, b: nat)
    ensures prefix + Decimal.FromNat(a) == prefix + Decimal.FromNat(b) ==> a == b
  {
    if prefix + Decimal.FromNat(a) == prefix + Decimal.FromNat(b) {
      assert (prefix + Decimal.FromNat(a))[|prefix|..] == Decimal.FromNat(a);
      assert (prefix + Decimal.FromNat(b))[|prefix|..] == Decimal.FromNat(b);
      Decimal.FromNatInjective(a, b);
    }
  }

  /** Each skeleton gets a layer name of its own: distinct neuron ids give distinct names. */
  lemma SkeletonNamesDistinct<T>(rows: seq<SkeletonRow<T>>, palette: seq<string>, j: nat, k: nat)
    requires rows == [] || |palette| >= 1
    requires j < |rows| && k < |rows| && rows[j].id != rows[k].id
    ensures SkeletonSteps(rows, palette)[j][0].0.name != SkeletonSteps(rows, palette)[k][0].0.name
  {
    PrefixedNamesInjective(SkeletonAnnotationPrefix, rows[j].id, rows[k].id);
  }

  /**
    The synapse layers' names never clash: within a neuron the pre- and
    postsynaptic names differ, and across neurons with distinct ids all differ.
   */
  lemma SynapseNamesDistinct<T>(rows: seq<SynapseRow<T>>, palette: seq<string>, j: nat, a: nat, k: nat, b: nat)
    requires rows == [] || |palette| >= 2
    requires j < |rows| && k < |rows| && a < 2 && b < 2
    requires if j == k then a != b else rows[j].id != rows[k].id
    ensures SynapseSteps(rows, palette)[j][a].0.name != SynapseSteps(rows, palette)[k][b].0.name
  {
    var steps: seq<RenderStep<T>> := SynapseSteps(rows, palette);
    var x: string, y: string := steps[j][a].0.name, steps[k][b].0.name;
    if a == b {
      PrefixedNamesInjective(if a == 0 then PostsynapseAnnotationPrefix else PresynapseAnnotationPrefix, rows[j].id, rows[k].id);
    } else {
      assert x[1] != y[1];
    }
  }
}
