/**
  The segment-to-colour map of a segmentation layer: one palette entry is
  broadcast to every id, otherwise ids and palette entries are zipped.
 */
module SegmentColors {

  import opened StateDocument

  function Min(a: nat, b: nat): nat {
    if a <= b then a else b
  }

  predicate Distinct<X(==)>(s: seq<X>) {
    forall i, j :: 0 <= i < j < |s| ==> s[i] != s[j]
  }

  /** `dict(map(lambda e: (e, hexcolor), ids))`: every id maps to the palette list itself. */
  function BroadcastColors(ids: seq<SegmentId>, palette: seq<string>): (m: map<SegmentId, ColorValue>)
    ensures m.Keys == Elements(ids)
    ensures forall k :: k in m ==> m[k] == WholePalette(palette)
  {
    map e | e in ids :: WholePalette(palette)
  }

  /**
    `dict(zip(ids, palette))`: the pairs run as far as the shorter list, and a
    repeated id keeps the colour of its last pair.
   */
  function PairwiseColors(ids: seq<SegmentId>, palette: seq<string>): (m: map<SegmentId, ColorValue>)
    ensures m.Keys <= Elements(ids)
    ensures forall k :: k in m ==> m[k].Hex? && m[k].color in palette
    decreases |ids|
  {
    if ids == [] || palette == [] then map[]
    else map[ids[0] := Hex(palette[0])] + PairwiseColors(ids[1..], palette[1..])
  }

  /** The rule shared by the skeleton and volume layers. */
  function ColorMap(ids: seq<SegmentId>, palette: seq<string>): (m: map<SegmentId, ColorValue>)
    ensures forall k :: k in m ==> (m[k].WholePalette? <==> |palette| == 1)
  {
    if |palette| == 1 then BroadcastColors(ids, palette) else PairwiseColors(ids, palette)
  }

  lemma ElementsCons<X>(x: X, s: seq<X>)
    ensures Elements([x] + s) == {x} + Elements(s)
  {
  }

  /** The zipped map's keys are exactly the ids that found a palette entry. */
  lemma {:induction false} PairwiseKeys(ids: seq<SegmentId>, palette: seq<string>)
    ensures PairwiseColors(ids, palette).Keys == Elements(ids[..Min(|ids|, |palette|)])
  {
    var n := Min(|ids|, |palette|);
    if ids == [] || palette == [] {
      assert ids[..n] == [];
    } else {
      PairwiseKeys(ids[1..], palette[1..]);
      assert ids[..n] == [ids[0]] + ids[1..][..n - 1];
      ElementsCons(ids[0], ids[1..][..n - 1]);
    }
  }

  /** An id paired for the last time at position `i` gets palette entry `i`. */
  lemma {:induction false} PairwiseLastWins(ids: seq<SegmentId>, palette: seq<string>, i: nat)
    requires i < |ids| && i < |palette|
    requires forall j :: i < j < Min(|ids|, |palette|) ==> ids[j] != ids[i]
    ensures ids[i] in PairwiseColors(ids, palette)
    ensures PairwiseColors(ids, palette)[ids[i]] == Hex(palette[i])
  {
    var n := Min(|ids|, |palette|);
    if i == 0 {
      PairwiseKeys(ids[1..], palette[1..]);
      var tail := ids[1..][..n - 1];
      forall k | 0 <= k < |tail| ensures tail[k] != ids[0] {
        assert tail[k] == ids[k + 1];
      }
      assert ids[0] !in Elements(tail);
    } else {
      PairwiseLastWins(ids[1..], palette[1..], i - 1);
    }
  }

  /** Every colour in the zipped map is the palette entry of some pair carrying that id. */
  lemma {:induction false} PairwiseValueOrigin(ids: seq<SegmentId>, palette: seq<string>, k: SegmentId)
    requires k in PairwiseColors(ids, palette)
    ensures exists j :: 0 <= j < Min(|ids|, |palette|) && ids[j] == k && PairwiseColors(ids, palette)[k] == Hex(palette[j])
  {
    var rest := PairwiseColors(ids[1..], palette[1..]);
    if k in rest {
      PairwiseValueOrigin(ids[1..], palette[1..], k);
      var j :| 0 <= j < Min(|ids| - 1, |palette| - 1) && ids[1..][j] == k && rest[k] == Hex(palette[1..][j]);
      assert ids[j + 1] == k && palette[j + 1] == palette[1..][j];
    } else {
      assert ids[0] == k;
    }
  }

  /** With distinct ids, the zip is the positional pairing over the first min(len) ids. */
  lemma PairwisePositional(ids: seq<SegmentId>, palette: seq<string>, i: nat)
    requires Distinct(ids)
    requires i < |ids| && i < |palette|
    ensures ids[i] in PairwiseColors(ids, palette)
    ensures PairwiseColors(ids, palette)[ids[i]] == Hex(palette[i])
  {
    PairwiseLastWins(ids, palette, i);
  }

  /** Whatever the palette length, no colour is assigned to an id outside the list. */
  lemma NoOrphanColors(ids: seq<SegmentId>, palette: seq<string>)
    ensures ColorMap(ids, palette).Keys <= Elements(ids)
  {
    if |palette| != 1 {
      PairwiseKeys(ids, palette);
      var n := Min(|ids|, |palette|);
      assert forall x :: x in ids[..n] ==> x in ids;
    }
  }

  /**
    For distinct ids the map covers every id exactly when the palette has one
    entry or at least as many entries as there are ids; a shorter palette
    silently leaves the trailing ids without a colour, and no error arises.
   */
  lemma ColorMapCoverage(ids: seq<SegmentId>, palette: seq<string>)
    requires Distinct(ids)
    ensures ColorMap(ids, palette).Keys == Elements(ids) <==> (|palette| == 1 || |palette| >= |ids|)
  {
    if |palette| != 1 {
      PairwiseKeys(ids, palette);
      if |palette| >= |ids| {
        assert ids[..Min(|ids|, |palette|)] == ids;
      } else {
        var n := |palette|;
        assert ids[n] in Elements(ids);
        forall k | 0 <= k < n ensures ids[..n][k] != ids[n] {
          assert ids[..n][k] == ids[k];
        }
        assert ids[n] !in Elements(ids[..n]);
      }
    }
  }

  /** A one-entry palette gives every id the same value: the palette list. */
  lemma SingleColorBroadcast(ids: seq<SegmentId>, palette: seq<string>)
    requires |palette| == 1
    ensures ColorMap(ids, palette).Keys == Elements(ids)
    ensures forall k :: k in ColorMap(ids, palette) ==> ColorMap(ids, palette)[k] == WholePalette(palette)
  {
  }
}
