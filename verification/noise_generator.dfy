/** `NoiseGenerator.GenerateTexture3D`: the 2D slices found in the noise
    folder are ordered by name, checked, and stacked into one 3D texture,
    slice `z` filling the `z`-th block of `width * height` texels. */
module NoiseGenerator {
  import opened Formats
  import opened Textures
  import opened Seqs

  // ---------------------------------------------------------------------
  // Ordering slices by name

  /** Ordinal string order: the first differing character decides, and a
      proper prefix comes first. */
  predicate NameLe(a: string, b: string)
    decreases |a|
  {
    if |a| == 0 then true
    else if |b| == 0 then false
    else if a[0] != b[0] then a[0] < b[0]
    else NameLe(a[1..], b[1..])
  }

  /** Any two names are ordered one way or the other. */
  lemma {:induction false} NameLeTotal(a: string, b: string)
    ensures NameLe(a, b) || NameLe(b, a)
    decreases |a|
  {
    if |a| > 0 && |b| > 0 && a[0] == b[0] {
      NameLeTotal(a[1..], b[1..]);
    }
  }

  /** The order is transitive. */
  lemma {:induction false} NameLeTransitive(a: string, b: string, c: string)
    requires NameLe(a, b) && NameLe(b, c)
    ensures NameLe(a, c)
    decreases |a|
  {
    if |a| > 0 && |b| > 0 && |c| > 0 && a[0] == b[0] && b[0] == c[0] {
      NameLeTransitive(a[1..], b[1..], c[1..]);
    }
  }

  /** Each slice's name is no greater than the next one's. */
  predicate SortedByName(s: seq<Texture2D>) {
    forall i :: 0 <= i < |s| - 1 ==> NameLe(s[i].name, s[i + 1].name)
  }

  /** `t` placed into `s` just before the first slice whose name is not
      smaller than its own. */
  function InsertByName(t: Texture2D, s: seq<Texture2D>): (r: seq<Texture2D>)
    ensures |r| == |s| + 1
    ensures multiset(r) == multiset(s) + multiset{t}
    ensures |s| > 0 ==> r[0] == t || r[0] == s[0]
    decreases |s|
  {
    if |s| == 0 then [t]
    else if NameLe(t.name, s[0].name) then [t] + s
    else
      assert s == [s[0]] + s[1..];
      [s[0]] + InsertByName(t, s[1..])
  }

  /** Insertion keeps a sorted sequence sorted. */
  lemma {:induction false} InsertByNameSorted(t: Texture2D, s: seq<Texture2D>)
    requires SortedByName(s)
    ensures SortedByName(InsertByName(t, s))
    decreases |s|
  {
    if |s| > 0 && !NameLe(t.name, s[0].name) {
      InsertByNameSorted(t, s[1..]);
      NameLeTotal(t.name, s[0].name);
      var r := InsertByName(t, s);
      var rest := InsertByName(t, s[1..]);
      assert r == [s[0]] + rest;
      assert rest[0] == t || rest[0] == s[1];
      forall i | 0 <= i < |r| - 1
        ensures NameLe(r[i].name, r[i + 1].name)
      {
        if i > 0 {
          assert r[i] == rest[i - 1] && r[i + 1] == rest[i];
        }
      }
    }
  }

  /** The slices in name order (LINQ's `OrderBy(tex => tex.name)`), by
      insertion. */
  function SortByName(s: seq<Texture2D>): (r: seq<Texture2D>)
    ensures |r| == |s|
    ensures multiset(r) == multiset(s)
    decreases |s|
  {
    if |s| == 0 then []
    else
      assert s == [s[0]] + s[1..];
      InsertByName(s[0], SortByName(s[1..]))
  }

  /** Sorting yields the same slices, in name order. */
  lemma {:induction false} SortByNameSorted(s: seq<Texture2D>)
    ensures SortedByName(SortByName(s))
    ensures multiset(SortByName(s)) == multiset(s)
    decreases |s|
  {
    if |s| > 0 {
      SortByNameSorted(s[1..]);
      InsertByNameSorted(s[0], SortByName(s[1..]));
    }
  }

  /** The slices named `n`. */
  function Named(n: string): Texture2D -> bool {
    (t: Texture2D) => t.name == n
  }

  /** Inserting a slice adds it to the slices of its own name, ahead of
      them all, and leaves the slices of every other name as they were. */
  lemma {:induction false} InsertByNameFilter(t: Texture2D, s: seq<Texture2D>, n: string)
    ensures Filter(InsertByName(t, s), Named(n)) == (if t.name == n then [t] else []) + Filter(s, Named(n))
    decreases |s|
  {
    NameLeReflexive(t.name);
    if |s| > 0 {
      var r := InsertByName(t, s);
      if NameLe(t.name, s[0].name) {
        assert r == [t] + s;
        assert r[1..] == s;
      } else {
        InsertByNameFilter(t, s[1..], n);
        assert r == [s[0]] + InsertByName(t, s[1..]);
        assert r[1..] == InsertByName(t, s[1..]);
        assert s[0].name != t.name;
      }
    }
  }

  /** The sort is stable: slices of equal name (`noise.png` and `noise.tga`,
      say) come out in the order they went in, as with `OrderBy`. */
  lemma {:induction false} SortByNameStable(s: seq<Texture2D>, n: string)
    ensures Filter(SortByName(s), Named(n)) == Filter(s, Named(n))
    decreases |s|
  {
    if |s| > 0 {
      SortByNameStable(s[1..], n);
      InsertByNameFilter(s[0], SortByName(s[1..]), n);
    }
  }

  /** In a sorted sequence every earlier slice's name is no greater than every
      later one's. */
  lemma {:induction false} SortedPairwise(s: seq<Texture2D>, i: nat, j: nat)
    requires SortedByName(s) && i <= j < |s|
    ensures NameLe(s[i].name, s[j].name)
    decreases j - i
  {
    if i == j {
      NameLeReflexive(s[i].name);
    } else {
      SortedPairwise(s, i + 1, j);
      NameLeTransitive(s[i].name, s[i + 1].name, s[j].name);
    }
  }

  lemma {:induction false} NameLeReflexive(a: string)
    ensures NameLe(a, a)
    decreases |a|
  {
    if |a| > 0 {
      NameLeReflexive(a[1..]);
    }
  }

  // ---------------------------------------------------------------------
  // Validation

  /** Why a slice is rejected. */
  datatype SliceError = NotReadable(name: string) | SizeMismatch(name: string)

  /** The check of one slice against the first slice's size: readability
      first, then size. */
  function CheckSlice(t: Texture2D, width: nat, height: nat): (r: Option<SliceError>)
    ensures r == Nothing <==> t.isReadable && t.width == width && t.height == height
    ensures r.Some? && r.value.SizeMismatch? ==> t.isReadable
    ensures r.Some? ==> r.value.name == t.name
  {
    if !t.isReadable then Some(NotReadable(t.name))
    else if t.width != width || t.height != height then Some(SizeMismatch(t.name))
    else Nothing
  }

  /** The validation loop: the error of the first slice that fails. */
  function FirstInvalid(s: seq<Texture2D>, width: nat, height: nat): Option<SliceError>
    decreases |s|
  {
    if |s| == 0 then Nothing
    else if CheckSlice(s[0], width, height).Some? then CheckSlice(s[0], width, height)
    else FirstInvalid(s[1..], width, height)
  }

  /** Every slice of `s` passes the check. */
  predicate AllPass(s: seq<Texture2D>, width: nat, height: nat) {
    forall i :: 0 <= i < |s| ==> CheckSlice(s[i], width, height) == Nothing
  }

  /** One more passing slice. */
  lemma AllPassCons(s: seq<Texture2D>, width: nat, height: nat)
    requires |s| > 0
    ensures AllPass(s, width, height) <==>
              CheckSlice(s[0], width, height) == Nothing && AllPass(s[1..], width, height)
  {
    if CheckSlice(s[0], width, height) == Nothing && AllPass(s[1..], width, height) {
      forall i | 0 <= i < |s|
        ensures CheckSlice(s[i], width, height) == Nothing
      {
        if i > 0 {
          assert s[i] == s[1..][i - 1];
        }
      }
    }
  }

  /** The loop reports nothing exactly when every slice passes, and otherwise
      reports the error of a failing slice all of whose predecessors pass. */
  lemma {:induction false} FirstInvalidIsFirst(s: seq<Texture2D>, width: nat, height: nat)
    ensures FirstInvalid(s, width, height) == Nothing <==> AllPass(s, width, height)
    ensures FirstInvalid(s, width, height).Some? ==>
              exists i :: 0 <= i < |s| && FirstInvalid(s, width, height) == CheckSlice(s[i], width, height) &&
                AllPass(s[..i], width, height)
    decreases |s|
  {
    if |s| > 0 {
      FirstInvalidIsFirst(s[1..], width, height);
      AllPassCons(s, width, height);
      if CheckSlice(s[0], width, height).Some? {
        assert AllPass(s[..0], width, height);
      } else if FirstInvalid(s, width, height).Some? {
        var i :| 0 <= i < |s[1..]| && FirstInvalid(s[1..], width, height) == CheckSlice(s[1..][i], width, height) &&
                 AllPass(s[1..][..i], width, height);
        AllPassCons(s[..i + 1], width, height);
        assert s[..i + 1][1..] == s[1..][..i];
      }
    }
  }

  // ---------------------------------------------------------------------
  // Stacking

  /** The slices' pixels one after the other: the reference layout of the
      stack. */
  function Flatten(slices: seq<Texture2D>): seq<Color>
    decreases |slices|
  {
    if |slices| == 0 then [] else slices[0].pixels + Flatten(slices[1..])
  }

  /** Every slice holds `n` texels. */
  predicate UniformSlices(slices: seq<Texture2D>, n: nat) {
    forall z :: 0 <= z < |slices| ==> |slices[z].pixels| == n
  }

  lemma MulSucc(n: nat, z: nat)
    ensures n * (z + 1) == n * z + n
  {
  }

  /** Stacking two runs of slices is stacking each and concatenating. */
  lemma {:induction false} FlattenAppend(a: seq<Texture2D>, b: seq<Texture2D>)
    ensures Flatten(a + b) == Flatten(a) + Flatten(b)
    decreases |a|
  {
    if |a| > 0 {
      assert (a + b)[0] == a[0];
      assert (a + b)[1..] == a[1..] + b;
      FlattenAppend(a[1..], b);
      calc {
        Flatten(a + b);
        a[0].pixels + Flatten(a[1..] + b);
        a[0].pixels + (Flatten(a[1..]) + Flatten(b));
        (a[0].pixels + Flatten(a[1..])) + Flatten(b);
      }
    } else {
      assert a + b == b;
    }
  }

  /** The stack of `d` slices of `n` texels holds `n * d` texels. */
  lemma {:induction false} FlattenLength(slices: seq<Texture2D>, n: nat)
    requires UniformSlices(slices, n)
    ensures |Flatten(slices)| == n * |slices|
    decreases |slices|
  {
    if |slices| > 0 {
      FlattenLength(slices[1..], n);
      MulSucc(n, |slices| - 1);
    }
  }

  /** Slice `z` occupies block `z` of the stack: texel `k` of the slice is
      voxel `n * z + k`. */
  lemma {:induction false} FlattenBlock(slices: seq<Texture2D>, n: nat, z: nat, k: nat)
    requires UniformSlices(slices, n) && z < |slices| && k < n
    ensures n * z + k < |Flatten(slices)|
    ensures Flatten(slices)[n * z + k] == slices[z].pixels[k]
    decreases z
  {
    FlattenLength(slices, n);
    if z > 0 {
      FlattenBlock(slices[1..], n, z - 1, k);
      MulSucc(n, z - 1);
    }
  }

  /** The block voxel `i` falls in, when blocks hold `n` voxels (`i / n`,
      by repeated subtraction). */
  function BlockOf(i: nat, n: nat): nat
    decreases i
  {
    if n == 0 || i < n then 0 else 1 + BlockOf(i - n, n)
  }

  /** Voxel `i`'s offset within its block (`i % n`, by repeated
      subtraction). */
  function OffsetOf(i: nat, n: nat): nat
    decreases i
  {
    if n == 0 || i < n then i else OffsetOf(i - n, n)
  }

  /** Read the other way: every voxel `i` of the stack lies in block
      `BlockOf(i, n)`, at offset `OffsetOf(i, n)`, and comes from that slice
      at that offset. */
  lemma {:induction false} FlattenOwner(slices: seq<Texture2D>, n: nat, i: nat)
    requires UniformSlices(slices, n) && i < |Flatten(slices)|
    ensures BlockOf(i, n) < |slices| && OffsetOf(i, n) < n
    ensures i == n * BlockOf(i, n) + OffsetOf(i, n)
    ensures Flatten(slices)[i] == slices[BlockOf(i, n)].pixels[OffsetOf(i, n)]
    decreases |slices|
  {
    assert |slices| > 0;
    if i >= n {
      FlattenOwner(slices[1..], n, i - n);
      MulSucc(n, BlockOf(i - n, n));
    }
  }

  /** Voxel `n * z + k` with `k < n` lies in block `z` at offset `k`: no
      two (slice, texel) pairs land on the same voxel, so with `FlattenOwner`
      every voxel is written exactly once. */
  lemma {:induction false} BlockOfBlock(n: nat, z: nat, k: nat)
    requires k < n
    ensures BlockOf(n * z + k, n) == z && OffsetOf(n * z + k, n) == k
    decreases z
  {
    if z > 0 {
      BlockOfBlock(n, z - 1, k);
      MulSucc(n, z - 1);
      assert n * z + k - n == n * (z - 1) + k;
    }
  }

  /** Stacking one more slice appends its pixels. */
  lemma FlattenSnoc(slices: seq<Texture2D>, z: nat)
    requires z < |slices|
    ensures Flatten(slices[..z + 1]) == Flatten(slices[..z]) + slices[z].pixels
  {
    assert slices[..z + 1] == slices[..z] + [slices[z]];
    FlattenAppend(slices[..z], [slices[z]]);
    assert Flatten([slices[z]]) == slices[z].pixels + Flatten([]);
  }

  /** The stacking loop: each slice's pixels are copied, in order, to the
      block after the previous slice's, so the result is the reference
      layout `Flatten` (whose blocks `FlattenBlock` and `FlattenOwner`
      describe) and holds `width * height` texels per slice. */
  method StackSlices(slices: seq<Texture2D>, width: nat, height: nat) returns (colors: seq<Color>)
    requires UniformSlices(slices, width * height)
    ensures colors == Flatten(slices)
    ensures |colors| == width * height * |slices|
  {
    colors := [];
    var z := 0;
    while z < |slices|
      invariant 0 <= z <= |slices|
      invariant colors == Flatten(slices[..z])
    {
      FlattenSnoc(slices, z);
      colors := colors + slices[z].pixels;
      z := z + 1;
    }
    assert slices[..z] == slices;
    FlattenLength(slices, width * height);
  }

  // ---------------------------------------------------------------------
  // The whole operation

  /** Slices that all pass the check against `width` x `height` hold
      `width * height` texels each. */
  lemma CheckedSlicesUniform(s: seq<Texture2D>, width: nat, height: nat)
    requires forall t :: t in s ==> t.Valid()
    requires AllPass(s, width, height)
    ensures UniformSlices(s, width * height)
  {
    forall z | 0 <= z < |s|
      ensures |s[z].pixels| == width * height
    {
      assert s[z] in s;
      assert CheckSlice(s[z], width, height) == Nothing;
    }
  }

  /** Sorting loads no new slice. */
  lemma SortedFromFound(found: seq<Texture2D>)
    ensures forall t :: t in SortByName(found) ==> t in found
  {
    forall t | t in SortByName(found)
      ensures t in found
    {
      assert t in multiset(SortByName(found));
    }
  }

  /** Where the texture is saved. */
  function SavePath(): string {
    "Assets/SkyCloud/Textures/CloudSDF.asset"
  }

  /** How `GenerateTexture3D` ends: no slice found, a slice rejected (no asset
      is built), or the texture saved at `SavePath`. */
  datatype GenerateOutcome =
    | NoTextures
    | Rejected(error: SliceError)
    | Generated(texture: Texture3D, path: string)

  /** `GenerateTexture3D` on the slices the folder search loaded. The slices
      are ordered by name, the first slice's size is the size of all,
      every slice is checked in that order, and the checked slices are
      stacked. */
  method GenerateTexture3D(found: seq<Texture2D>) returns (r: GenerateOutcome)
    requires forall t :: t in found ==> t.Valid()
    ensures r == NoTextures <==> |found| == 0
    ensures r.Rejected? ==>
              var sorted := SortByName(found);
              exists i :: 0 <= i < |sorted| && Some(r.error) == CheckSlice(sorted[i], sorted[0].width, sorted[0].height) &&
                AllPass(sorted[..i], sorted[0].width, sorted[0].height)
    ensures r.Generated? ==>
              |found| > 0 &&
              var sorted := SortByName(found);
              var t := r.texture;
              r.path == SavePath() && t.Valid() && t.pixels == Flatten(sorted) &&
              t.width == sorted[0].width && t.height == sorted[0].height && t.depth == |found| &&
              AllPass(sorted, t.width, t.height)
  {
    if |found| == 0 {
      return NoTextures;
    }
    var sorted := SortByName(found);
    SortByNameSorted(found);
    var width, height := sorted[0].width, sorted[0].height;
    var error := FirstInvalid(sorted, width, height);
    FirstInvalidIsFirst(sorted, width, height);
    if error.Some? {
      return Rejected(error.value);
    }
    SortedFromFound(found);
    CheckedSlicesUniform(sorted, width, height);
    var colors := StackSlices(sorted, width, height);
    r := Generated(Texture3D(width, height, |sorted|, colors), SavePath());
  }
}
