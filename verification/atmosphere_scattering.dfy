/** `AtmosphereScatteringRenderFeature`: the renderer feature that draws the
    atmosphere into a full-resolution temporary target and copies it onto
    the camera image. Its pass is built even without a shader, and checks
    the material itself. */
module AtmosphereScattering {
  import opened Formats
  import opened RenderCommon
  import opened Volumes

  /** The feature's serialized settings: the shader and the event the pass
      runs at. */
  datatype Settings = Settings(shader: Option<Shader>, event: RenderPassEvent)

  /** The settings as declared: no shader, before post-processing. */
  function DefaultSettings(): (s: Settings)
    ensures s.shader.Nothing? && s.event == BeforeRenderingPostProcessing
  {
    Settings(Nothing, BeforeRenderingPostProcessing)
  }

  /** The pass: the material it was built with (possibly null), the
      component the last `Configure` found, its event, and the descriptors
      of its handles. */
  datatype Pass = Pass(material: Option<Material>, volume: Option<AtmosphereScatteringVolume>, event: RenderPassEvent, handles: Handles)

  /** The feature's fields. */
  datatype Feature = Feature(settings: Settings, material: Option<Material>, pass: Option<Pass>)

  /** The feature before its first `Create`. */
  function NewFeature(settings: Settings): Feature {
    Feature(settings, Nothing, Nothing)
  }

  /** `Create`: a shader replaces the material (without one the previous
      material, if any, stays), and a new pass is always built on the
      material with the settings' event. */
  function Create(f: Feature): (r: Feature)
    ensures r.settings == f.settings
    ensures r.material == (if f.settings.shader.Some? then Some(Material(f.settings.shader.value)) else f.material)
    ensures r.pass == Some(Pass(r.material, Nothing, f.settings.event, map[]))
  {
    var m := if f.settings.shader.Some? then Some(Material(f.settings.shader.value)) else f.material;
    f.(material := m, pass := Some(Pass(m, Nothing, f.settings.event, map[])))
  }

  /** `AddRenderPasses`: the pass is enqueued only when both it and the
      material are set. */
  function AddRenderPasses(f: Feature): (r: Enqueue<Pass>)
    ensures r.Enqueued? <==> f.pass.Some? && f.material.Some?
    ensures r.Enqueued? ==> r.pass == f.pass
  {
    if f.pass.Some? && f.material.Some? then Enqueued(f.pass) else NotEnqueued
  }

  /** The component is present and switched on. */
  predicate Active(volume: Option<AtmosphereScatteringVolume>) {
    volume.Some? && volume.value.IsActive()
  }

  /** `Configure`: the component is looked up again and kept for `Execute`;
      for a missing or inactive one nothing is allocated, otherwise the
      temporary target is (re)allocated at the camera's full size and format
      without depth or MSAA, and any other handle is kept. */
  function Configure(p: Pass, stackVolume: Option<AtmosphereScatteringVolume>, camera: Descriptor): (r: Pass)
    ensures r.volume == stackVolume && r.material == p.material && r.event == p.event
    ensures !Active(stackVolume) ==> r.handles == p.handles
    ensures Active(stackVolume) ==>
              r.handles.Keys == p.handles.Keys + {TempTexture} &&
              var d := r.handles[TempTexture];
              d.width == camera.width && d.height == camera.height && d.colorFormat == camera.colorFormat &&
              d.depthBufferBits == 0 && d.msaaSamples == 1 &&
              forall h :: h in p.handles && h != TempTexture ==> r.handles[h] == p.handles[h]
  {
    var p := p.(volume := stackVolume);
    if !Active(stackVolume) then p
    else p.(handles := p.handles[TempTexture := NoDepthNoMsaa(camera)])
  }

  /** The two blits: the camera image into the temporary target with
      material pass 0, and a plain copy back onto the camera. */
  function AtmosphereBlits(): (b: seq<Blit>)
    ensures Chained(b)
  {
    [Blit(CameraColor, TempTexture, Some(0)), Blit(TempTexture, CameraColor, Nothing)]
  }

  /** `Execute`, on the component the last `Configure` found: nothing for a
      preview camera, a missing or inactive component or a null material,
      otherwise the two blits. */
  function Execute(p: Pass, cameraType: CameraType): (r: ExecuteOutcome)
    ensures r == Skipped <==> cameraType == Preview || !Active(p.volume) || p.material.Nothing?
    ensures r != Threw
    ensures r.Issued? ==> r.blits == AtmosphereBlits()
  {
    if cameraType == Preview then Skipped
    else if !Active(p.volume) || p.material.Nothing? then Skipped
    else Issued(AtmosphereBlits())
  }

  /** What `Dispose` releases: the pass's handles, and the material. */
  datatype Release = ReleasePassHandles | DestroyMaterial

  /** The feature after `Dispose` and what it released. */
  datatype Disposed = Disposed(feature: Feature, released: seq<Release>)

  /** `Dispose(disposing)`: with `disposing`, the pass releases its handles
      and is dropped, and the material is destroyed and dropped, each only
      if present; without it, nothing happens. */
  function Dispose(f: Feature, disposing: bool): (r: Disposed)
    ensures !disposing ==> r == Disposed(f, [])
    ensures disposing ==>
              r.feature == f.(pass := Nothing, material := Nothing) &&
              (ReleasePassHandles in r.released <==> f.pass.Some?) &&
              (DestroyMaterial in r.released <==> f.material.Some?)
  {
    if !disposing then Disposed(f, [])
    else
      var released := (if f.pass.Some? then [ReleasePassHandles] else []) +
                      (if f.material.Some? then [DestroyMaterial] else []);
      Disposed(f.(pass := Nothing, material := Nothing), released)
  }

  /** One frame of the feature, and what it leaves behind. */
  datatype Frame = Frame(feature: Feature, outcome: ExecuteOutcome)

  /** A frame of the active feature: `AddRenderPasses`, then
      `SetupRenderPasses`, which here checks the pass for null and so does
      nothing without one. Nothing happens unless the pass is enqueued;
      otherwise `Configure` and then `Execute` run on it. */
  function RunFrame(f: Feature, stackVolume: Option<AtmosphereScatteringVolume>, cameraType: CameraType, camera: Descriptor): Frame {
    match AddRenderPasses(f)
    case NotEnqueued => Frame(f, Skipped)
    case Enqueued(Nothing) => Frame(f, Threw)
    case Enqueued(Some(p)) =>
      var p' := Configure(p, stackVolume, camera);
      Frame(f.(pass := Some(p')), Execute(p', cameraType))
  }

  /** What a frame of a created feature does: the blits are issued exactly
      when a material exists, the camera is not a preview and this frame's
      component is present and on; then they use only the temporary target
      this frame allocated at the camera's full size. No frame throws. */
  lemma RunFrameEffect(f: Feature, stackVolume: Option<AtmosphereScatteringVolume>, cameraType: CameraType, camera: Descriptor)
    requires f.pass.Some? ==> f.pass.value.material == f.material
    ensures var fr := RunFrame(f, stackVolume, cameraType, camera);
      fr.outcome != Threw &&
      (fr.outcome.Issued? <==> f.material.Some? && f.pass.Some? && cameraType != Preview && Active(stackVolume)) &&
      (fr.outcome.Issued? ==>
         UsesAllocated(fr.outcome.blits, fr.feature.pass.value.handles) &&
         fr.feature.pass.value.handles[TempTexture] == NoDepthNoMsaa(camera)) &&
      fr.feature.material == f.material
  {
  }

  /** `Create` always leaves a pass built on the feature's material, so the
      precondition of `RunFrameEffect` holds after it; the pass is enqueued
      exactly when some shader has been given. */
  lemma CreateThenEnqueue(f: Feature)
    ensures var c := Create(f);
      c.pass.Some? && c.pass.value.material == c.material && c.pass.value.event == f.settings.event &&
      (AddRenderPasses(c).Enqueued? <==> f.settings.shader.Some? || f.material.Some?)
  {
  }

  /** With the declared settings no pass is ever enqueued, and the pass runs
      before post-processing. */
  lemma DefaultNeverEnqueued()
    ensures var c := Create(NewFeature(DefaultSettings()));
      AddRenderPasses(c) == NotEnqueued && c.pass.value.event == BeforeRenderingPostProcessing
  {
  }

  /** After `Dispose(true)` nothing is enqueued until the next `Create`. */
  lemma DisposeStopsEnqueue(f: Feature)
    ensures AddRenderPasses(Dispose(f, true).feature) == NotEnqueued
  {
  }
}
