/** `SkyCloudRenderFeature`: the renderer feature that draws the sky clouds
    at an eighth of the camera's resolution and copies them onto the camera
    image. Unlike the ray-marching feature, its pass looks the volume
    component up again on every `Configure`. */
module SkyCloud {
  import opened Formats
  import opened RenderCommon
  import opened Volumes

  /** The pass: its material, the component the last `Configure` found (null
      before the first), the descriptors of its handles, and the input
      handle `SetInput` last stored (null until then). */
  datatype Pass = Pass(material: Material, volume: Option<SkyCloudVolume>, event: RenderPassEvent, handles: Handles,
                       input: Option<Handle>)

  /** The feature's fields: the material and the pass, both null until a
      shader is given. */
  datatype Feature = Feature(material: Option<Material>, pass: Option<Pass>)

  /** The feature before its first `Create`. */
  function NewFeature(): Feature {
    Feature(Nothing, Nothing)
  }

  /** `Create`: with a shader, a new material and a new pass built on it;
      without one, the feature is left as it was. */
  function Create(f: Feature, shader: Option<Shader>): (r: Feature)
    ensures shader.Nothing? ==> r == f
    ensures shader.Some? ==>
              r.material == Some(Material(shader.value)) && r.pass.Some? &&
              r.pass.value.material == r.material.value && r.pass.value.volume.Nothing? &&
              r.pass.value.event == AfterRenderingPostProcessing && r.pass.value.handles == map[] &&
              r.pass.value.input.Nothing?
  {
    if shader.Nothing? then f
    else
      var m := Material(shader.value);
      Feature(Some(m), Some(Pass(m, Nothing, AfterRenderingPostProcessing, map[], Nothing)))
  }

  /** `AddRenderPasses`: the pass field is enqueued whenever the material is
      set. */
  function AddRenderPasses(f: Feature): (r: Enqueue<Pass>)
    ensures r.NotEnqueued? <==> f.material.Nothing?
    ensures r.Enqueued? ==> r.pass == f.pass
  {
    if f.material.Nothing? then NotEnqueued else Enqueued(f.pass)
  }

  /** The component is present and switched on. */
  predicate Active(volume: Option<SkyCloudVolume>) {
    volume.Some? && volume.value.IsActive()
  }

  /** The descriptor of both targets: the camera's, without depth or MSAA, in
      RFloat, at an eighth of each side. */
  function EighthRes(camera: Descriptor): (d: Descriptor)
    ensures d.depthBufferBits == 0 && d.msaaSamples == 1 && d.colorFormat == RFloat
    ensures d.width * 8 <= camera.width < (d.width + 1) * 8
    ensures d.height * 8 <= camera.height < (d.height + 1) * 8
  {
    NoDepthNoMsaa(camera).(colorFormat := RFloat, width := camera.width / 8, height := camera.height / 8)
  }

  /** The quarter-resolution descriptor `Configure` computes for the depth
      target and then never uses. */
  function UnusedDepthDescriptor(camera: Descriptor): (d: Descriptor)
    ensures d.width * 4 <= camera.width < (d.width + 1) * 4
    ensures d.colorFormat == RFloat
  {
    NoDepthNoMsaa(camera).(colorFormat := RFloat, width := camera.width / 4, height := camera.height / 4)
  }

  /** `Configure`: the component is looked up again and kept for `Execute`;
      for a missing or inactive one nothing is allocated, otherwise the
      temporary and the depth target are both (re)allocated at an eighth of
      the camera's size, and any other handle is kept. */
  function Configure(p: Pass, stackVolume: Option<SkyCloudVolume>, camera: Descriptor): (r: Pass)
    ensures r.volume == stackVolume && r.material == p.material && r.event == p.event && r.input == p.input
    ensures !Active(stackVolume) ==> r.handles == p.handles
    ensures Active(stackVolume) ==>
              r.handles.Keys == p.handles.Keys + {TempTexture, DepthTexture} &&
              r.handles[TempTexture] == EighthRes(camera) && r.handles[DepthTexture] == EighthRes(camera) &&
              forall h :: h in p.handles && h != TempTexture && h != DepthTexture ==> r.handles[h] == p.handles[h]
  {
    var p := p.(volume := stackVolume);
    if !Active(stackVolume) then p
    else
      var desc := EighthRes(camera);
      p.(handles := p.handles[TempTexture := desc][DepthTexture := desc])
  }

  /** The three blits: the camera image into the depth target with material
      pass 1, that into the temporary target with pass 0, and a plain copy
      of the temporary target back onto the camera. */
  function SkyBlits(): (b: seq<Blit>)
    ensures Chained(b)
  {
    [Blit(CameraColor, DepthTexture, Some(1)),
     Blit(DepthTexture, TempTexture, Some(0)),
     Blit(TempTexture, CameraColor, Nothing)]
  }

  /** `Execute`, on the component the last `Configure` found: nothing for a
      preview camera or a missing or inactive component, otherwise the three
      blits. */
  function Execute(p: Pass, cameraType: CameraType): (r: ExecuteOutcome)
    ensures r == Skipped <==> cameraType == Preview || !Active(p.volume)
    ensures r != Threw
    ensures r.Issued? ==> r.blits == SkyBlits()
  {
    if cameraType == Preview then Skipped
    else if !Active(p.volume) then Skipped
    else Issued(SkyBlits())
  }

  /** The feature after `Dispose` and the handles it released. */
  datatype Disposed = Disposed(feature: Feature, released: seq<Handle>)

  /** `Dispose`: whatever `disposing` says, the pass's own `Dispose` releases
      the input handle `SetInput` stored, if any, and the pass is dropped;
      the material is kept. */
  function Dispose(f: Feature, disposing: bool): (r: Disposed)
    ensures r.feature.pass.Nothing? && r.feature.material == f.material
    ensures forall h :: h in r.released <==> f.pass.Some? && f.pass.value.input == Some(h)
    ensures |r.released| <= 1
  {
    var released := if f.pass.Some? && f.pass.value.input.Some? then [f.pass.value.input.value] else [];
    Disposed(f.(pass := Nothing), released)
  }

  /** `SetupRenderPasses`: the camera's colour target is handed to the pass,
      which must exist. */
  function SetupRenderPasses(f: Feature): (r: Feature)
    requires f.pass.Some?
    ensures r.pass.Some? && r.pass.value.input == Some(CameraColor) && r.material == f.material
  {
    f.(pass := Some(f.pass.value.(input := Some(CameraColor))))
  }

  /** One frame of the feature, and what it leaves behind. */
  datatype Frame = Frame(feature: Feature, outcome: ExecuteOutcome)

  /** A frame of the active feature: `AddRenderPasses`, then
      `SetupRenderPasses`, which the renderer calls whether or not a pass
      was enqueued and which hands the camera target to the pass without
      checking it for null, so a feature without a pass throws. Otherwise
      nothing happens unless the pass is enqueued, and then `Configure` and
      `Execute` run on it. */
  function RunFrame(f: Feature, stackVolume: Option<SkyCloudVolume>, cameraType: CameraType, camera: Descriptor): Frame {
    if f.pass.Nothing? then Frame(f, Threw)
    else
      var g := SetupRenderPasses(f);
      if AddRenderPasses(f).NotEnqueued? then Frame(g, Skipped)
      else
        var p' := Configure(g.pass.value, stackVolume, camera);
        Frame(g.(pass := Some(p')), Execute(p', cameraType))
  }

  /** What a frame does: it throws exactly when there is no pass (a feature
      created without a shader, or disposed); the blits are issued exactly
      when a material and pass exist, the camera is not a preview and this
      frame's component is present and on; then they read and write only
      targets this frame allocated at an eighth of the camera's size. The
      component the pass keeps is this frame's, whatever an earlier frame
      found. */
  lemma RunFrameEffect(f: Feature, stackVolume: Option<SkyCloudVolume>, cameraType: CameraType, camera: Descriptor)
    ensures var fr := RunFrame(f, stackVolume, cameraType, camera);
      (fr.outcome == Threw <==> f.pass.Nothing?) &&
      (fr.outcome.Issued? <==> f.material.Some? && f.pass.Some? && cameraType != Preview && Active(stackVolume)) &&
      (f.material.Some? && f.pass.Some? ==> fr.feature.pass.Some? && fr.feature.pass.value.volume == stackVolume) &&
      (fr.outcome.Issued? ==>
         UsesAllocated(fr.outcome.blits, fr.feature.pass.value.handles) &&
         fr.feature.pass.value.handles[TempTexture] == EighthRes(camera) &&
         fr.feature.pass.value.handles[DepthTexture] == EighthRes(camera)) &&
      (f.pass.Some? ==> fr.feature.pass.Some? && fr.feature.pass.value.input == Some(CameraColor)) &&
      fr.feature.material == f.material
  {
  }

  /** The depth target is allocated at an eighth of the camera's size like
      the temporary one, not at the quarter its own descriptor asks for,
      which differ once the camera is at least four texels wide. */
  lemma DepthDescriptorUnused(p: Pass, stackVolume: Option<SkyCloudVolume>, camera: Descriptor)
    requires Active(stackVolume) && camera.width >= 4
    ensures var r := Configure(p, stackVolume, camera);
      r.handles[DepthTexture] == r.handles[TempTexture] &&
      r.handles[DepthTexture] != UnusedDepthDescriptor(camera)
  {
  }

  /** Without a shader no pass is ever enqueued; with one, the pass is
      enqueued and is built on the feature's material. */
  lemma CreateThenEnqueue(shader: Option<Shader>)
    ensures var f := Create(NewFeature(), shader);
      (AddRenderPasses(f).Enqueued? <==> shader.Some?) &&
      (shader.Some? ==> AddRenderPasses(f).pass.Some? && AddRenderPasses(f).pass.value.material == f.material.value)
  {
  }

  /** After `Dispose` the material is still set, so the next
      `AddRenderPasses` enqueues the null pass. */
  lemma DisposeLeavesNullPassEnqueued(f: Feature, disposing: bool)
    requires f.material.Some?
    ensures AddRenderPasses(Dispose(f, disposing).feature) == Enqueued(Nothing)
  {
  }

  /** A feature that never got a shader, and any feature after `Dispose`,
      throws in every frame, whatever the component and the camera. */
  lemma PasslessFrameThrows(f: Feature, disposing: bool,
                            stackVolume: Option<SkyCloudVolume>, cameraType: CameraType, camera: Descriptor)
    ensures RunFrame(Create(NewFeature(), Nothing), stackVolume, cameraType, camera).outcome == Threw
    ensures RunFrame(Dispose(f, disposing).feature, stackVolume, cameraType, camera).outcome == Threw
  {
  }

  /** What `Dispose` releases: nothing for a feature that never ran a frame,
      and the camera's colour target, which the renderer owns and the pass
      never allocated, once any frame has run. */
  lemma DisposeReleasesInput(shader: Option<Shader>, f: Feature, disposing: bool,
                             stackVolume: Option<SkyCloudVolume>, cameraType: CameraType, camera: Descriptor)
    ensures Dispose(Create(NewFeature(), shader), disposing).released == []
    ensures f.pass.Some? ==> Dispose(RunFrame(f, stackVolume, cameraType, camera).feature, disposing).released == [CameraColor]
  {
  }
}
