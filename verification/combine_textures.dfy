/** `Combine3DTextures.CombineTextures`: three 3D noise textures are merged
    channel-wise into one, the red channel of each input becoming the red,
    green and blue channel of the output, with alpha 1. */
module Combine3D {
  import opened Formats
  import opened Textures

  // ---------------------------------------------------------------------
  // The merge loop

  /** The merged voxel: the red channels of the three inputs, opaque. */
  function MergeVoxel(r: Color, g: Color, b: Color): Color {
    Color(r.r, g.r, b.r, 1.0)
  }

  /** The merged voxels, one per voxel of `rs`, built front to back: the
      reference the loop is checked against. */
  function Merged(rs: seq<Color>, gs: seq<Color>, bs: seq<Color>): seq<Color>
    requires |gs| >= |rs| && |bs| >= |rs|
    decreases |rs|
  {
    if |rs| == 0 then [] else [MergeVoxel(rs[0], gs[0], bs[0])] + Merged(rs[1..], gs[1..], bs[1..])
  }

  /** The reference holds one voxel per voxel of `rs`, voxel `i` merged from
      voxel `i` of each input. */
  lemma {:induction false} MergedAt(rs: seq<Color>, gs: seq<Color>, bs: seq<Color>)
    requires |gs| >= |rs| && |bs| >= |rs|
    ensures |Merged(rs, gs, bs)| == |rs|
    ensures forall i :: 0 <= i < |rs| ==> Merged(rs, gs, bs)[i] == MergeVoxel(rs[i], gs[i], bs[i])
    decreases |rs|
  {
    if |rs| > 0 {
      MergedAt(rs[1..], gs[1..], bs[1..]);
      forall i | 0 <= i < |rs|
        ensures Merged(rs, gs, bs)[i] == MergeVoxel(rs[i], gs[i], bs[i])
      {
        if i > 0 {
          assert Merged(rs, gs, bs)[i] == Merged(rs[1..], gs[1..], bs[1..])[i - 1];
        }
      }
    }
  }

  /** Only the red channels of the inputs are read: inputs that agree on
      their red channels (and on `rs`'s length) merge to the same voxels. */
  lemma {:induction false} MergedReadsOnlyRed(rs: seq<Color>, gs: seq<Color>, bs: seq<Color>,
                                              rs': seq<Color>, gs': seq<Color>, bs': seq<Color>)
    requires |gs| >= |rs| && |bs| >= |rs| && |gs'| >= |rs'| && |bs'| >= |rs'|
    requires |rs| == |rs'|
    requires forall i :: 0 <= i < |rs| ==> rs[i].r == rs'[i].r && gs[i].r == gs'[i].r && bs[i].r == bs'[i].r
    ensures Merged(rs, gs, bs) == Merged(rs', gs', bs')
    decreases |rs|
  {
    if |rs| > 0 {
      MergedReadsOnlyRed(rs[1..], gs[1..], bs[1..], rs'[1..], gs'[1..], bs'[1..]);
    }
  }

  /** The loop over `colorsR`: voxel `i` of the output takes the red channel
      of voxel `i` of each input, and alpha 1. Its caller must ensure `gs`
      and `bs` are at least as long as `rs`; the source does not, which is
      where `CombineTexturesAsWritten` throws. */
  method MergeChannels(rs: seq<Color>, gs: seq<Color>, bs: seq<Color>) returns (merged: seq<Color>)
    requires |gs| >= |rs| && |bs| >= |rs|
    ensures |merged| == |rs|
    ensures forall i :: 0 <= i < |rs| ==>
              merged[i].r == rs[i].r && merged[i].g == gs[i].r && merged[i].b == bs[i].r && merged[i].a == 1.0
    ensures merged == Merged(rs, gs, bs)
  {
    merged := [];
    var i := 0;
    while i < |rs|
      invariant 0 <= i <= |rs|
      invariant |merged| == i
      invariant forall j :: 0 <= j < i ==> merged[j] == MergeVoxel(rs[j], gs[j], bs[j])
    {
      merged := merged + [MergeVoxel(rs[i], gs[i], bs[i])];
      i := i + 1;
    }
    MergedAt(rs, gs, bs);
  }

  // ---------------------------------------------------------------------
  // The whole operation

  /** The asset the result replaces. */
  function OutputPath(): string {
    "Assets/VolumCloud/Texture/Generated/Worly.asset"
  }

  /** The asset database calls the operation makes, in order. */
  datatype AssetOp = DeleteAsset(path: string) | CreateAsset(path: string) | Refresh

  /** How the operation ends: an input missing (nothing is written), the
      inputs' sizes differing (corrected version only), an index out of
      range in the merge loop (as written only), or the merged texture
      stored at `OutputPath` by the listed calls. */
  datatype CombineOutcome =
    | MissingInput
    | SizeMismatch
    | Threw
    | Created(result: Texture3D, ops: seq<AssetOp>)

  /** The three textures have the same width, height and depth. */
  predicate SameSize(a: Texture3D, b: Texture3D) {
    a.width == b.width && a.height == b.height && a.depth == b.depth
  }

  /** The calls that replace the asset at `OutputPath`: the old asset is
      deleted before the new one is created. */
  function ReplaceOps(): seq<AssetOp> {
    [DeleteAsset(OutputPath()), Refresh, CreateAsset(OutputPath()), Refresh]
  }

  /** The texture built from `texR`'s size and the merged voxels. */
  function Build(texR: Texture3D, texG: Texture3D, texB: Texture3D): Texture3D
    requires |texG.pixels| >= |texR.pixels| && |texB.pixels| >= |texR.pixels|
  {
    Texture3D(texR.width, texR.height, texR.depth, Merged(texR.pixels, texG.pixels, texB.pixels))
  }

  /** `CombineTextures` as written: a missing input aborts; a size mismatch is
      only logged, so the loop runs over the red texture's voxels and reads
      past the end of a shorter green or blue texture. */
  function CombineTexturesAsWritten(texR: Option<Texture3D>, texG: Option<Texture3D>, texB: Option<Texture3D>): (o: CombineOutcome)
    ensures o == MissingInput <==> texR.Nothing? || texG.Nothing? || texB.Nothing?
    ensures o != SizeMismatch
    ensures o == Threw <==>
              texR.Some? && texG.Some? && texB.Some? &&
              (|texG.value.pixels| < |texR.value.pixels| || |texB.value.pixels| < |texR.value.pixels|)
    ensures o.Created? ==>
              o.ops == ReplaceOps() &&
              SameSize(o.result, texR.value) && |o.result.pixels| == |texR.value.pixels| &&
              |texG.value.pixels| >= |texR.value.pixels| && |texB.value.pixels| >= |texR.value.pixels| &&
              forall i :: 0 <= i < |texR.value.pixels| ==>
                o.result.pixels[i] == MergeVoxel(texR.value.pixels[i], texG.value.pixels[i], texB.value.pixels[i])
  {
    if texR.Nothing? || texG.Nothing? || texB.Nothing? then MissingInput
    else
      var r, g, b := texR.value, texG.value, texB.value;
      if |g.pixels| < |r.pixels| || |b.pixels| < |r.pixels| then Threw
      else
        MergedAt(r.pixels, g.pixels, b.pixels);
        Created(Build(r, g, b), ReplaceOps())
  }

  /** The defect: textures of different shapes but the same voxel count are
      merged without complaint, so voxels at different positions of the
      volumes are combined into one. Here a 2x1x1 red texture is merged with
      a 1x2x1 green one: output voxel 1 takes red from voxel (1, 0, 0) of
      the red texture and green from voxel (0, 1, 0) of the green one
      (voxel `(x, y, z)` of a texture is `x + y * width + z * width *
      height`). */
  lemma AsWrittenMergesDifferentShapes()
    ensures var texR := Texture3D(2, 1, 1, [Color(0.1, 0.0, 0.0, 1.0), Color(0.2, 0.0, 0.0, 1.0)]);
            var texG := Texture3D(1, 2, 1, [Color(0.3, 0.0, 0.0, 1.0), Color(0.4, 0.0, 0.0, 1.0)]);
            var o := CombineTexturesAsWritten(Some(texR), Some(texG), Some(texR));
            !SameSize(texR, texG) && o.Created? &&
            o.result.pixels[1] == MergeVoxel(texR.pixels[1 + 0 * 2 + 0 * 2 * 1], texG.pixels[0 + 1 * 1 + 0 * 1 * 2], texR.pixels[1]) &&
            o.result.pixels[1] == Color(0.2, 0.4, 0.2, 1.0)
  {
  }

  /** The defect, second form: a green texture smaller than the red one
      makes the loop index past its end. */
  lemma AsWrittenThrowsOnSmallerInput()
    ensures var c := Color(0.5, 0.0, 0.0, 1.0);
            var texR := Texture3D(2, 1, 1, [c, c]);
            var texG := Texture3D(1, 1, 1, [c]);
            CombineTexturesAsWritten(Some(texR), Some(texG), Some(texR)) == Threw
  {
  }

  /** `CombineTextures` as evidently intended: the size check aborts the
      operation, as the missing-input check does. */
  function CombineTextures(texR: Option<Texture3D>, texG: Option<Texture3D>, texB: Option<Texture3D>): (o: CombineOutcome)
    requires texR.Some? ==> texR.value.Valid()
    requires texG.Some? ==> texG.value.Valid()
    requires texB.Some? ==> texB.value.Valid()
    ensures o == MissingInput <==> texR.Nothing? || texG.Nothing? || texB.Nothing?
    ensures o != Threw
    ensures o == SizeMismatch <==>
              texR.Some? && texG.Some? && texB.Some? &&
              !(SameSize(texG.value, texR.value) && SameSize(texB.value, texR.value))
    ensures o.Created? ==>
              var r, g, b := texR.value, texG.value, texB.value;
              o.ops == ReplaceOps() && o.result.Valid() &&
              SameSize(o.result, r) && SameSize(g, r) && SameSize(b, r) &&
              |o.result.pixels| == |r.pixels| &&
              forall i :: 0 <= i < |r.pixels| ==> o.result.pixels[i] == MergeVoxel(r.pixels[i], g.pixels[i], b.pixels[i])
  {
    if texR.Nothing? || texG.Nothing? || texB.Nothing? then MissingInput
    else
      var r, g, b := texR.value, texG.value, texB.value;
      if !(SameSize(g, r) && SameSize(b, r)) then SizeMismatch
      else
        MergedAt(r.pixels, g.pixels, b.pixels);
        Created(Build(r, g, b), ReplaceOps())
  }

  /** On inputs of one size the corrected operation does what the source
      does; it differs only where the source merges mismatched volumes or
      throws. */
  lemma CombineTexturesAgrees(texR: Option<Texture3D>, texG: Option<Texture3D>, texB: Option<Texture3D>)
    requires texR.Some? ==> texR.value.Valid()
    requires texG.Some? ==> texG.value.Valid()
    requires texB.Some? ==> texB.value.Valid()
    ensures CombineTextures(texR, texG, texB) != SizeMismatch ==>
              CombineTextures(texR, texG, texB) == CombineTexturesAsWritten(texR, texG, texB)
  {
  }
}
