/** `RayMarchingCloud`: the renderer feature that ray-marches the cloud
    volume at a reduced resolution and composites it over the camera
    image. A frame is `AddRenderPasses`, then the pass's `Configure`,
    then its `Execute`. */
module RayMarchingCloud {
  import opened Formats
  import opened RenderCommon
  import opened Volumes

  /** The pass: its material, whether the volume stack held the component
      when the pass was constructed (the pass keeps that reference for its
      whole life and only reads the component's current values), the
      descriptors of its handles, and the input handle `SetInput` last
      stored (null until then). */
  datatype Pass = Pass(material: Material, volumeFound: bool, event: RenderPassEvent, handles: Handles,
                       input: Option<Handle>)

  /** The feature's fields: the material and the pass, both null until a
      shader is given. */
  datatype Feature = Feature(material: Option<Material>, pass: Option<Pass>)

  /** The feature before its first `Create`. */
  function NewFeature(): Feature {
    Feature(Nothing, Nothing)
  }

  /** `Create`: with a shader, a new material and a new pass built on it,
      which resolves the volume component now; without one, the feature is
      left as it was. */
  function Create(f: Feature, shader: Option<Shader>, stackHasVolume: bool): (r: Feature)
    ensures shader.Nothing? ==> r == f
    ensures shader.Some? ==>
              r.material == Some(Material(shader.value)) && r.pass.Some? &&
              r.pass.value.material == r.material.value && r.pass.value.volumeFound == stackHasVolume &&
              r.pass.value.event == AfterRenderingPostProcessing && r.pass.value.handles == map[] &&
              r.pass.value.input.Nothing?
  {
    if shader.Nothing? then f
    else
      var m := Material(shader.value);
      Feature(Some(m), Some(Pass(m, stackHasVolume, AfterRenderingPostProcessing, map[], Nothing)))
  }

  /** `AddRenderPasses`: the pass field is enqueued whenever the material is
      set; the pass itself is not checked. */
  function AddRenderPasses(f: Feature): (r: Enqueue<Pass>)
    ensures r.NotEnqueued? <==> f.material.Nothing?
    ensures r.Enqueued? ==> r.pass == f.pass
  {
    if f.material.Nothing? then NotEnqueued else Enqueued(f.pass)
  }

  /** The pass draws this frame only if it found the component at
      construction and the component is switched on. */
  predicate VolumeActive(p: Pass, volume: RayMarchingCloudVolume) {
    p.volumeFound && volume.IsActive()
  }

  /** The low-resolution descriptor: the camera's, without depth or MSAA, in
      ARGBFloat, with both sides divided by `downSample`. */
  function LowRes(camera: Descriptor, downSample: DownSample): (d: Descriptor)
    ensures d.depthBufferBits == 0 && d.msaaSamples == 1 && d.colorFormat == ARGBFloat
    ensures d.width * downSample <= camera.width < (d.width + 1) * downSample
    ensures d.height * downSample <= camera.height < (d.height + 1) * downSample
  {
    NoDepthNoMsaa(camera).(colorFormat := ARGBFloat, width := camera.width / downSample, height := camera.height / downSample)
  }

  /** The descriptor `Configure` computes for the depth target (RFloat) and
      then never uses. */
  function UnusedDepthDescriptor(camera: Descriptor, downSample: DownSample): (d: Descriptor)
    ensures d.colorFormat == RFloat
  {
    NoDepthNoMsaa(camera).(colorFormat := RFloat, width := camera.width / downSample, height := camera.height / downSample)
  }

  /** `Configure`: nothing for a missing or inactive component; otherwise the
      temporary target and the low-resolution depth target are both
      (re)allocated with the low-resolution descriptor, and any other handle
      is kept. */
  function Configure(p: Pass, volume: RayMarchingCloudVolume, camera: Descriptor): (r: Pass)
    ensures !VolumeActive(p, volume) ==> r == p
    ensures VolumeActive(p, volume) ==>
              r.material == p.material && r.volumeFound == p.volumeFound && r.event == p.event && r.input == p.input &&
              r.handles.Keys == p.handles.Keys + {TempTexture, DownSampleDepthTexture} &&
              r.handles[TempTexture] == LowRes(camera, volume.downSample) &&
              r.handles[DownSampleDepthTexture] == LowRes(camera, volume.downSample) &&
              forall h :: h in p.handles && h != TempTexture && h != DownSampleDepthTexture ==> r.handles[h] == p.handles[h]
  {
    if !VolumeActive(p, volume) then p
    else
      var desc := LowRes(camera, volume.downSample);
      p.(handles := p.handles[TempTexture := desc][DownSampleDepthTexture := desc])
  }

  /** The three blits: the camera image into the low-resolution depth target
      with material pass 1, that into the temporary target with pass 0, and
      the temporary target back onto the camera with pass 2. */
  function CloudBlits(): (b: seq<Blit>)
    ensures Chained(b)
  {
    [Blit(CameraColor, DownSampleDepthTexture, Some(1)),
     Blit(DownSampleDepthTexture, TempTexture, Some(0)),
     Blit(TempTexture, CameraColor, Some(2))]
  }

  /** `Execute`: nothing for a preview camera or a missing or inactive
      component; otherwise the uniforms are set, which reads the blue-noise
      texture's size and throws when none is set, and the three blits are
      recorded. */
  function Execute(p: Pass, volume: RayMarchingCloudVolume, cameraType: CameraType): (r: ExecuteOutcome)
    ensures r == Skipped <==> cameraType == Preview || !VolumeActive(p, volume)
    ensures r == Threw <==> cameraType != Preview && VolumeActive(p, volume) && !volume.hasBlueNoise
    ensures r.Issued? ==> r.blits == CloudBlits()
  {
    if cameraType == Preview then Skipped
    else if !VolumeActive(p, volume) then Skipped
    else if !volume.hasBlueNoise then Threw
    else Issued(CloudBlits())
  }

  /** The feature after `Dispose` and the handles it released. */
  datatype Disposed = Disposed(feature: Feature, released: seq<Handle>)

  /** `Dispose`: whatever `disposing` says, the pass's own `Dispose` releases
      the input handle `SetInput` stored, if any, and the pass is dropped;
      the material is kept. */
  function Dispose(f: Feature, disposing: bool): (r: Disposed)
    ensures r.feature.pass.Nothing? && r.feature.material == f.material
    ensures forall h :: h in r.released <==> f.pass.Some? && f.pass.value.input == Some(h)
    ensures |r.released| <= 1
  {
    var released := if f.pass.Some? && f.pass.value.input.Some? then [f.pass.value.input.value] else [];
    Disposed(f.(pass := Nothing), released)
  }

  /** `SetupRenderPasses`: the camera's colour target is handed to the pass,
      which must exist. */
  function SetupRenderPasses(f: Feature): (r: Feature)
    requires f.pass.Some?
    ensures r.pass.Some? && r.pass.value.input == Some(CameraColor) && r.material == f.material
  {
    f.(pass := Some(f.pass.value.(input := Some(CameraColor))))
  }

  /** One frame of the feature, and what it leaves behind. */
  datatype Frame = Frame(feature: Feature, outcome: ExecuteOutcome)

  /** A frame of the active feature: `AddRenderPasses`, then
      `SetupRenderPasses`, which the renderer calls whether or not a pass
      was enqueued and which hands the camera target to the pass without
      checking it for null, so a feature without a pass throws. Otherwise
      nothing happens unless the pass is enqueued, and then `Configure` and
      `Execute` run on it. */
  function RunFrame(f: Feature, volume: RayMarchingCloudVolume, cameraType: CameraType, camera: Descriptor): Frame {
    if f.pass.Nothing? then Frame(f, Threw)
    else
      var g := SetupRenderPasses(f);
      if AddRenderPasses(f).NotEnqueued? then Frame(g, Skipped)
      else
        var p' := Configure(g.pass.value, volume, camera);
        Frame(g.(pass := Some(p')), Execute(p', volume, cameraType))
  }

  /** What a frame does, from the feature's state and the frame's inputs:
      it throws exactly when there is no pass (a feature created without a
      shader, or disposed) or when the pass draws without a blue-noise
      texture; the blits are issued exactly when a material and pass exist,
      the camera is not a preview, the component was found and is on, and a
      blue-noise texture is set; then they read and write only targets this
      frame allocated, at `camera / downSample`. */
  lemma RunFrameEffect(f: Feature, volume: RayMarchingCloudVolume, cameraType: CameraType, camera: Descriptor)
    ensures var fr := RunFrame(f, volume, cameraType, camera);
      (fr.outcome == Threw <==>
         f.pass.Nothing? ||
         (f.material.Some? && cameraType != Preview && VolumeActive(f.pass.value, volume) && !volume.hasBlueNoise)) &&
      (fr.outcome.Issued? <==>
         f.material.Some? && f.pass.Some? && cameraType != Preview &&
         VolumeActive(f.pass.value, volume) && volume.hasBlueNoise) &&
      (fr.outcome.Issued? ==>
         fr.feature.pass.Some? &&
         UsesAllocated(fr.outcome.blits, fr.feature.pass.value.handles) &&
         fr.feature.pass.value.handles[TempTexture] == LowRes(camera, volume.downSample) &&
         fr.feature.pass.value.handles[DownSampleDepthTexture] == LowRes(camera, volume.downSample)) &&
      (f.pass.Some? ==> fr.feature.pass.Some? && fr.feature.pass.value.input == Some(CameraColor)) &&
      fr.feature.material == f.material
  {
  }

  /** The component is resolved once: a pass constructed while the stack
      lacked it never allocates or draws, whatever the component's values
      in later frames. */
  lemma VolumeResolvedOnce(shader: Shader, v1: RayMarchingCloudVolume, v2: RayMarchingCloudVolume,
                           cameraType: CameraType, camera: Descriptor)
    ensures var f := Create(NewFeature(), Some(shader), false);
      RunFrame(f, v1, cameraType, camera).feature == SetupRenderPasses(f) &&
      RunFrame(f, v1, cameraType, camera) == RunFrame(f, v2, cameraType, camera) &&
      RunFrame(f, v1, cameraType, camera).outcome == Skipped
  {
  }

  /** Both low-resolution targets share one ARGBFloat descriptor; the RFloat
      depth descriptor is never used. */
  lemma DepthDescriptorUnused(p: Pass, volume: RayMarchingCloudVolume, camera: Descriptor)
    requires VolumeActive(p, volume)
    ensures var r := Configure(p, volume, camera);
      r.handles[DownSampleDepthTexture] == r.handles[TempTexture] &&
      r.handles[DownSampleDepthTexture] != UnusedDepthDescriptor(camera, volume.downSample)
  {
  }

  /** A `downSample` of 1 renders at the camera's full size. */
  lemma FullResolutionAtOne(camera: Descriptor)
    ensures LowRes(camera, 1).width == camera.width && LowRes(camera, 1).height == camera.height
  {
  }

  /** Without a shader no pass is ever enqueued; with one, the pass is
      enqueued and is built on the feature's material. */
  lemma CreateThenEnqueue(shader: Option<Shader>, stackHasVolume: bool)
    ensures var f := Create(NewFeature(), shader, stackHasVolume);
      (AddRenderPasses(f).Enqueued? <==> shader.Some?) &&
      (shader.Some? ==> AddRenderPasses(f).pass.Some? && AddRenderPasses(f).pass.value.material == f.material.value)
  {
  }

  /** After `Dispose` the material is still set, so the next
      `AddRenderPasses` enqueues the null pass. */
  lemma DisposeLeavesNullPassEnqueued(f: Feature, disposing: bool)
    requires f.material.Some?
    ensures AddRenderPasses(Dispose(f, disposing).feature) == Enqueued(Nothing)
  {
  }

  /** A feature that never got a shader, and any feature after `Dispose`,
      throws in every frame, whatever the component and the camera. */
  lemma PasslessFrameThrows(f: Feature, stackHasVolume: bool, disposing: bool,
                            volume: RayMarchingCloudVolume, cameraType: CameraType, camera: Descriptor)
    ensures RunFrame(Create(NewFeature(), Nothing, stackHasVolume), volume, cameraType, camera).outcome == Threw
    ensures RunFrame(Dispose(f, disposing).feature, volume, cameraType, camera).outcome == Threw
  {
  }

  /** What `Dispose` releases: nothing for a feature that never ran a frame,
      and the camera's colour target, which the renderer owns and the pass
      never allocated, once any frame has run. */
  lemma DisposeReleasesInput(shader: Option<Shader>, stackHasVolume: bool, f: Feature, disposing: bool,
                             volume: RayMarchingCloudVolume, cameraType: CameraType, camera: Descriptor)
    ensures Dispose(Create(NewFeature(), shader, stackHasVolume), disposing).released == []
    ensures f.pass.Some? ==> Dispose(RunFrame(f, volume, cameraType, camera).feature, disposing).released == [CameraColor]
  {
  }

  /** Configuring twice in one frame allocates nothing new: the second call
      finds every handle already at its descriptor. */
  lemma ConfigureIdempotent(p: Pass, volume: RayMarchingCloudVolume, camera: Descriptor)
    ensures Configure(Configure(p, volume, camera), volume, camera) == Configure(p, volume, camera)
  {
  }
}
