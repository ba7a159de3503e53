/** What the three renderer features share: the camera, render-texture
    descriptors, the handles a pass allocates, the blits it records and how
    a frame's `Execute` ends. Colour values, shader uniforms and the
    command buffer itself are not modelled; a frame is the handles it
    (re)allocates and the blits it issues. */
module RenderCommon {
  import opened Formats

  /** Unity's `CameraType`. */
  datatype CameraType = Game | SceneView | Preview | VR | Reflection

  /** `RenderPassEvent`, restricted to the values the features use and one
      more for any other choice in the settings. */
  datatype RenderPassEvent = BeforeRenderingPostProcessing | AfterRenderingPostProcessing | OtherEvent(order: int)

  /** `RenderTextureFormat`: the two formats the passes force, and whatever
      else the camera uses. */
  datatype RenderTextureFormat = ARGBFloat | RFloat | OtherColorFormat(code: nat)

  /** The fields of a `RenderTextureDescriptor` the passes read or write.
      Camera sizes are never negative, so C#'s truncating integer division
      of a size agrees with Dafny's. */
  datatype Descriptor = Descriptor(width: nat, height: nat, depthBufferBits: nat, msaaSamples: nat, colorFormat: RenderTextureFormat)

  /** The render targets a pass blits between: the camera's colour target and
      the passes' own `RTHandle`s. */
  datatype Handle = CameraColor | TempTexture | DownSampleDepthTexture | DepthTexture

  /** The descriptor each of a pass's handles was last allocated with
      (`RenderingUtils.ReAllocateHandleIfNeeded` replaces a handle whose
      descriptor differs and keeps one that matches, so after the call the
      handle has the requested descriptor either way). A handle that is not
      a key has never been allocated. */
  type Handles = map<Handle, Descriptor>

  /** A shader asset and the material built from it. */
  datatype Shader = Shader(id: nat)
  datatype Material = Material(shader: Shader)

  /** One `Blitter.BlitCameraTexture` call: from `source` to `dest` with the
      given pass of the feature's material, or, for `Nothing`, the plain copy
      made without a material. */
  datatype Blit = Blit(source: Handle, dest: Handle, pass: Option<nat>)

  /** How a pass's `Execute` ends: it returned before recording anything,
      it threw, or it submitted the listed blits. */
  datatype ExecuteOutcome = Skipped | Threw | Issued(blits: seq<Blit>)

  /** What `AddRenderPasses` does: nothing, or enqueue the feature's pass
      field (which may be null). */
  datatype Enqueue<P> = NotEnqueued | Enqueued(pass: Option<P>)

  /** The blits start from the camera's colour target, end in it, and each
      one reads the target the previous one wrote. */
  predicate Chained(blits: seq<Blit>) {
    |blits| > 0 && blits[0].source == CameraColor && blits[|blits| - 1].dest == CameraColor &&
    forall i :: 0 < i < |blits| ==> blits[i].source == blits[i - 1].dest
  }

  /** Every target the blits read or write, other than the camera's, has been
      allocated. */
  predicate UsesAllocated(blits: seq<Blit>, handles: Handles) {
    forall i :: 0 <= i < |blits| ==>
      (blits[i].source == CameraColor || blits[i].source in handles) &&
      (blits[i].dest == CameraColor || blits[i].dest in handles)
  }

  /** The camera's descriptor with depth buffer and MSAA switched off, as all
      three passes start their temporary targets. */
  function NoDepthNoMsaa(camera: Descriptor): (d: Descriptor)
    ensures d.depthBufferBits == 0 && d.msaaSamples == 1
    ensures d.width == camera.width && d.height == camera.height && d.colorFormat == camera.colorFormat
  {
    camera.(depthBufferBits := 0, msaaSamples := 1)
  }

  /** `Mathf.Clamp` on integers, as a `ClampedIntParameter` applies it. */
  function ClampInt(x: int, lo: int, hi: int): (r: int)
    requires lo <= hi
    ensures lo <= r <= hi
    ensures lo <= x <= hi ==> r == x
    ensures x < lo ==> r == lo
    ensures x > hi ==> r == hi
  {
    if x < lo then lo else if x > hi then hi else x
  }

  /** `Mathf.Clamp` on floats, as a `ClampedFloatParameter` applies it. */
  function ClampReal(x: real, lo: real, hi: real): (r: real)
    requires lo <= hi
    ensures lo <= r <= hi
    ensures lo <= x <= hi ==> r == x
    ensures x < lo ==> r == lo
    ensures x > hi ==> r == hi
  {
    if x < lo then lo else if x > hi then hi else x
  }

  /** Clamping twice clamps once: a value read back from a clamped parameter
      and written again is unchanged. */
  lemma ClampIdempotent(x: int, lo: int, hi: int)
    requires lo <= hi
    ensures ClampInt(ClampInt(x, lo, hi), lo, hi) == ClampInt(x, lo, hi)
  {
  }
}
