# pyroglancer flywire layers, modelled in Dafny

This project models the flywire layer logic of pyroglancer. `add_flywirelayer` takes a
viewer-state document and a layer request. It dispatches on the request's `type`
and builds the fixed layer record(s) for that type:

- precomputed skeletons: one segmentation layer;
- volumes: one segmentation layer;
- precomputed synapses: two annotation layers;
- points: one annotation layer.

It appends the record(s) to the document's `layers` list in place and publishes the
document as a share URL. In constructed mode, skeletons and synapses are rendered as
annotation layers by an external state builder instead. An unknown type returns `None`.

Modules:

- `Wrappers`: `Option` and `Result`.
- `Decimal`: decimal notation of neuron ids, as the f-strings of the annotation layer names write them.
- `StateDocument`: the `Layer` and `Document` values, and the `ViewerState` class. `ViewerState` is the caller's dictionary, whose `layers` list is appended to in place.
- `SegmentColors`: the broadcast-or-zip segment colour map. It comes as two named strategies, `BroadcastColors` and `PairwiseColors`, chosen by `ColorMap`.
- `LayerBuilder`: the four precomputed layer records, and the annotation-layer configurations and names of constructed mode.
- `Gateway`: share-URL composition (`flywiredict2url`) and the `json_url` decision of `flywireurl2dict`.
- `Flywire`: the dispatch, the specification functions of the published document and of the returned URL, the two constructed-mode loops, the `AddFlywireLayer` method, and the lemmas.

External helpers are inputs, collected in `Flywire.Collaborators`:

- `add_precomputed`, in its three result shapes: `(seglist, host)`, `host`, and `(host, name)`;
- `get_hexcolor`, `get_alphavalue` and `get_annotationstatetype`;
- the point tables of `skeletons2nodepoints` and `synapses2nodepoints`.

Three outside calls are function parameters:

- `publish` (the authenticated POST, returning the server's pointer);
- `fetch` (the authenticated GET);
- the nglui `render_state` (`Flywire.Renderer`).

The model follows the code as written, in these places:

- With a one-entry palette, every segment id is mapped to the whole palette list, not to its one colour (`ColorValue.WholePalette`).
- With any other palette length, `zip` pairs ids and colours up to the shorter list. No error is raised on a length mismatch; trailing ids simply get no colour (`ColorMapCoverage`). An empty palette gives an empty map.
- A repeated segment id keeps the colour of its last pair (`PairwiseLastWins`).
- The volumes layer's `name` field is always `"volumes"`. Only the mesh path uses the requested name.
- Both precomputed synapse layers filter by `["postsynapses_cell"]`.
- In constructed synapse mode the presynaptic layer takes palette entry 0 and the postsynaptic layer entry 1. The chained builder renders the postsynaptic layer first.
- `hexcolor[0]` (and `hexcolor[1]` for synapses) is evaluated inside the row loop. So a palette that is too short raises an index error only when the point table has at least one row (`ConstructedPaletteError`).

## Model

| member | source | states |
|---|---|---|
| `Decimal.FromNat` | pyroglancer/flywire.py:139 | the id written into a layer name is a non-empty digit string with no leading zero unless the id is 0 |
| `Decimal.ToNatFromNat` | pyroglancer/flywire.py:139 | reading back the digits of a formatted id gives the id, so the formatting loses nothing |
| `SegmentColors.BroadcastColors` | pyroglancer/flywire.py:113 | the single-colour map has exactly the segment ids as keys, and every id maps to the whole palette list |
| `SegmentColors.PairwiseColors` | pyroglancer/flywire.py:115 | `dict(zip(ids, palette))`: every key is one of the ids and every value a single palette colour; its exact keys and values are stated by `PairwiseKeys`, `PairwiseLastWins` and `PairwiseValueOrigin` |
| `SegmentColors.ColorMap` | pyroglancer/flywire.py:112-115 | the broadcast-or-zip choice: a value is the whole palette list exactly when the palette has one entry; coverage and the no-orphan property are stated by `ColorMapCoverage` and `NoOrphanColors` |
| `SegmentColors.SingleColorBroadcast` | pyroglancer/flywire.py:112-113 | with a one-entry palette the colour map covers exactly the ids, and every id gets the same value, the palette list |
| `SegmentColors.PairwiseKeys` | pyroglancer/flywire.py:115 | the zipped map's keys are exactly the ids among the first min(len(ids), len(palette)) |
| `SegmentColors.PairwiseLastWins` | pyroglancer/flywire.py:115 | an id whose last pair is at position i maps to palette entry i (later pairs overwrite earlier ones) |
| `SegmentColors.PairwiseValueOrigin` | pyroglancer/flywire.py:115 | every colour in the zipped map is the palette entry of a pair that carries that id |
| `SegmentColors.PairwisePositional` | pyroglancer/flywire.py:114-115 | with distinct ids, the i-th id maps to the i-th palette entry for every i below both lengths |
| `SegmentColors.NoOrphanColors` | pyroglancer/flywire.py:112-115 | whatever the palette length, no colour is assigned to an id outside the segment list |
| `SegmentColors.ColorMapCoverage` | pyroglancer/flywire.py:112-115 | for distinct ids, every id gets a colour if and only if the palette has one entry or at least as many entries as ids; a length mismatch is truncated silently |
| `StateDocument.Document.WithLayers` | pyroglancer/flywire.py:126 | appending keeps the metadata, keeps the old layers as an unchanged prefix, and puts the new layers after them in order |
| `StateDocument.ViewerState.AppendLayer` | pyroglancer/flywire.py:126 | the in-place append adds exactly the one layer at the end of the caller's layer list |
| `LayerBuilder.SkeletonLayer` | pyroglancer/flywire.py:118-125 | the precomputed skeleton record is a segmentation layer named `skeleton` over exactly the resolver's ids, with no orphan colours; all its fields are stated by `Flywire.SkeletonBranchLayer` |
| `LayerBuilder.VolumeLayer` | pyroglancer/flywire.py:159-165 | the volume record is a segmentation layer named `volumes` over exactly the resolver's ids, with no orphan colours; all its fields are stated by `Flywire.VolumeBranchLayer` |
| `LayerBuilder.SynapseLayers` | pyroglancer/flywire.py:174-187 | two annotation layers with different names, both linked to the `skeleton` layer; all their fields are stated by `Flywire.SynapseBranchLayers` |
| `LayerBuilder.PointLayer` | pyroglancer/flywire.py:223-227 | an annotation layer named after the resolver's layer name, with no segmentation link; all its fields are stated by `Flywire.PointBranchLayer` |
| `LayerBuilder.AnnotationName` | pyroglancer/flywire.py:139 | a prefix followed by the formatted id, from which the id can be read back |
| `LayerBuilder.SkeletonAnnotationName` | pyroglancer/flywire.py:139 | the name starts with `skel_annot_` and the rest is the decimal id, which reads back as the id |
| `LayerBuilder.PresynapseAnnotationName` | pyroglancer/flywire.py:205 | the name starts with `presyn_annot_` and the rest is the decimal id, which reads back as the id |
| `LayerBuilder.PostsynapseAnnotationName` | pyroglancer/flywire.py:210 | the name starts with `postsyn_annot_` and the rest is the decimal id, which reads back as the id |
| `LayerBuilder.SkeletonSteps` | pyroglancer/flywire.py:135-143 | constructed skeleton mode makes one render call per table row; row k's call holds one line layer named `skel_annot_<id>`, coloured with palette entry 0, mapped by `pointA`/`pointB`, with that row's point table |
| `LayerBuilder.SynapseSteps` | pyroglancer/flywire.py:200-216 | constructed synapse mode makes one chained render call per table row; row k's call holds first the `postsyn_annot_<id>` point layer (palette entry 1, column `postsyn_pt`, the postsynaptic table), then the `presyn_annot_<id>` point layer (palette entry 0, column `presyn_pt`, the presynaptic table) |
| `LayerBuilder.PrefixedNamesInjective` | pyroglancer/flywire.py:139 | a fixed prefix followed by a formatted id determines the id |
| `LayerBuilder.SkeletonNamesDistinct` | pyroglancer/flywire.py:139-141 | skeletons with distinct ids get distinct `skel_annot_<id>` layer names |
| `LayerBuilder.SynapseNamesDistinct` | pyroglancer/flywire.py:203-211 | a `presyn_annot_` name never equals a `postsyn_annot_` name, and distinct ids give distinct names of either kind |
| `Gateway.FlywireDictToUrl` | pyroglancer/flywire.py:82-88 | the share URL is the viewer host, `/?json_url=` and then exactly the pointer the publish step returned |
| `Gateway.FlywireUrlToDict` | pyroglancer/flywire.py:53-63 | a fetch happens if and only if the query has `json_url`, and fetches its first value; otherwise the query itself is the result |
| `Gateway.PublishThenDecode` | pyroglancer/flywire.py:56-59 | when the store returns what was posted, decoding the pointer of a share URL gives back the published document |
| `Flywire.Dispatch` | pyroglancer/flywire.py:105-235 | a type outside skeletons/volumes/synapses/points is unsupported, and only such a type; a layer is appended exactly for volumes, points and the precomputed modes; one layer is appended, or two for synapses |
| `Flywire.RenderAll` | pyroglancer/flywire.py:143 | rebinding `ngdict` to each render result in turn: no steps leave the document as it was, one step is one render call |
| `Flywire.RenderAllConcat` | pyroglancer/flywire.py:135-143 | rendering a concatenation of steps is rendering the second part onto the result of the first, as the loop rebinds `ngdict` row by row |
| `Flywire.PublishedDocument` | pyroglancer/flywire.py:105-233 | the document handed to the publish step is absent exactly for an unsupported type, and only the constructed skeleton or synapse branches can fail |
| `Flywire.AddLayerUrl` | pyroglancer/flywire.py:127-235 | the result fails exactly when building the document fails, is `None` exactly when there is no document, and every URL returned starts with `https://ngl.flywire.ai/?json_url=` |
| `Flywire.AnnotateSkeletons` | pyroglancer/flywire.py:131-145 | the loop renders `skel_annot_<id>` line layers row by row onto the document; an empty palette raises an index error if there is a row |
| `Flywire.AnnotateSynapses` | pyroglancer/flywire.py:196-218 | the loop renders, per row, the postsynaptic then the presynaptic point layer; a palette with fewer than two entries raises an index error if there is a row |
| `Flywire.AddFlywireLayer` | pyroglancer/flywire.py:93-235 | the result is the URL of the published document, `None`, or the index error; the caller's document grows by the appended layers in the precomputed branches and is unchanged otherwise |
| `Flywire.UnsupportedIffNoUrl` | pyroglancer/flywire.py:232-235 | the result is `None` (and nothing is published) if and only if the type is unsupported |
| `Flywire.AppendOnly` | pyroglancer/flywire.py:118-228 | in the precomputed branches the prior layers remain an unchanged prefix and the list grows by exactly one layer, or two for synapses (the appends at lines 126, 166, 189-190 and 228) |
| `Flywire.PrecomputedUrl` | pyroglancer/flywire.py:88-229 | a precomputed branch returns `https://ngl.flywire.ai/?json_url=` followed by the pointer of the appended document (the URL built at line 88, published at lines 127, 167, 192 and 229) |
| `Flywire.ConstructedPaletteError` | pyroglancer/flywire.py:141-211 | an error arises if and only if constructed mode meets a non-empty table with a palette too short for the index it reads (0 for skeletons, 1 for synapses) (the indexing at lines 141, 206 and 211) |
| `Flywire.SkeletonBranchLayer` | pyroglancer/flywire.py:110-126 | precomputed skeletons append one `segmentation` layer with the skeletons path under the host, rendering `lines_and_points`/`lines`, the resolver's ids, name `skeleton`, and a colour map with no orphan colours |
| `Flywire.VolumeBranchLayer` | pyroglancer/flywire.py:149-166 | volumes append one `segmentation` layer, rendered `lines_and_points`/`lines`, whose mesh path uses the requested name (default `volumes`) while its `name` field is `volumes` |
| `Flywire.VolumeNameIgnoresRequest` | pyroglancer/flywire.py:163 | two volume requests with different names give layers with the same `name` field |
| `Flywire.PointBranchLayer` | pyroglancer/flywire.py:222-228 | points append one annotation layer with source under the host and layer name, colour `#ff0000`, and that name |
| `Flywire.SynapseBranchLayers` | pyroglancer/flywire.py:173-190 | precomputed synapses append, in this order, `presynapses` (#ff0000) and `postsynapses` (#0000ff), both linked to `skeleton` and both filtered by `postsynapses_cell` |
| `Flywire.AppendedLayersWellFormed` | pyroglancer/flywire.py:112-126 | a document without orphan colours keeps that property after any precomputed branch |
| `Flywire.SynapseLinksResolveAfterSkeletons` | pyroglancer/flywire.py:118-126 | after adding precomputed skeletons and then precomputed synapses, both synapse layers link to the segmentation layer the first call appended |

## Left out

- HTTP calls, bearer-token lookup from `cloudvolume.secrets`, JSON (de)serialisation and `raise_for_status` (pyroglancer/flywire.py:55-59, 77-87). They are network I/O and global credential state. `publish` and `fetch` are total function parameters, so an HTTP error status is not modelled.
- Gateway.FlywireDictToUrl: a new remote object per publish, and so a fresh pointer on every call, is not captured. `publish` is a function of the document, and pointer freshness is the store's property.
- `urlparse`/`parse_qs` and the `isinstance` assertion (pyroglancer/flywire.py:46-51). These are library calls. `FlywireUrlToDict` takes the parsed query map, whose values are non-empty lists as `parse_qs` produces them.
- The nglui `StateBuilder`/`ChainedStateBuilder.render_state` and the pandas row iteration (pyroglancer/flywire.py:135-143, 200-216). They are foreign code. Rendering is the `Renderer` parameter applied to each row's configurations in table order. The model assumes `render_state` does not alter the caller's dictionary, so the constructed branches leave it unchanged.
- `get_scalevalue` and `layer_kws['source']` in constructed mode. They only feed the point-table helpers, whose tables are inputs.
- A request without a `type` key, and a document without a `layers` key (both a `KeyError` in the source). A model request always has a type, and a model document always has a layer list.
- A request whose `name` key is present but holds `None` or another non-string. `layer_kws.get('name', 'volumes')` then returns that value and the path concatenation at pyroglancer/flywire.py:160 raises `TypeError`. A model request's `name` is either absent or a string.
- Alpha is kept as a `real` that the core never inspects. Segment and neuron ids are natural numbers.
- `print` calls.
- pyroglancer/createconfig.py and pyroglancer/spaces.py. They are filesystem, environment and module-global I/O around helpers that are not part of this model.
