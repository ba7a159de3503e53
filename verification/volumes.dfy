/** The volume components the three passes read: their activity switch and,
    for the ray-marching cloud, the two clamped parameters the model
    uses. Every other parameter is a float, colour, vector or texture
    handed to a shader and is not modelled. */
module Volumes {
  import opened RenderCommon

  /** A `downSample` value: `ClampedIntParameter(1, 1, 16)` keeps it in
      [1, 16]. */
  type DownSample = x: int | 1 <= x <= 16 witness 1

  /** A `heightWeights` value: `ClampedFloatParameter(1, 0, 1)` keeps it in
      [0, 1]. */
  type Weight = x: real | 0.0 <= x <= 1.0 witness 1.0

  /** `RayMarchingCloudVolume`: the effect switch, the two clamped parameters,
      and whether a blue-noise texture is set (its size is read on every
      executed frame). */
  datatype RayMarchingCloudVolume = RayMarchingCloudVolume(
    enabledEffect: bool, heightWeights: Weight, downSample: DownSample, hasBlueNoise: bool)
  {
    /** The component is active exactly when its effect switch is on. */
    predicate IsActive() {
      enabledEffect
    }
  }

  /** The component as declared: effect off, both clamped parameters at 1, no
      blue-noise texture. */
  function DefaultRayMarchingCloudVolume(): (v: RayMarchingCloudVolume)
    ensures !v.IsActive()
    ensures v.downSample == 1 && v.heightWeights == 1.0 && !v.hasBlueNoise
  {
    RayMarchingCloudVolume(false, 1.0, 1, false)
  }

  /** Writing `downSample` clamps the value to [1, 16]; nothing else changes. */
  function SetDownSample(v: RayMarchingCloudVolume, x: int): (r: RayMarchingCloudVolume)
    ensures 1 <= r.downSample <= 16
    ensures 1 <= x <= 16 ==> r.downSample == x
    ensures x < 1 ==> r.downSample == 1
    ensures x > 16 ==> r.downSample == 16
    ensures r.(downSample := v.downSample) == v
  {
    v.(downSample := ClampInt(x, 1, 16))
  }

  /** Writing `heightWeights` clamps the value to [0, 1]; nothing else
      changes. */
  function SetHeightWeights(v: RayMarchingCloudVolume, x: real): (r: RayMarchingCloudVolume)
    ensures 0.0 <= r.heightWeights <= 1.0
    ensures 0.0 <= x <= 1.0 ==> r.heightWeights == x
    ensures x < 0.0 ==> r.heightWeights == 0.0
    ensures x > 1.0 ==> r.heightWeights == 1.0
    ensures r.(heightWeights := v.heightWeights) == v
  {
    v.(heightWeights := ClampReal(x, 0.0, 1.0))
  }

  /** Writing a value read back from `downSample` changes nothing. */
  lemma SetDownSampleReadBack(v: RayMarchingCloudVolume)
    ensures SetDownSample(v, v.downSample) == v
  {
  }

  /** `SkyCloudVolume`: only its activity switch is modelled. */
  datatype SkyCloudVolume = SkyCloudVolume(isActive: bool)
  {
    predicate IsActive() {
      isActive
    }
  }

  /** The component as declared: inactive. */
  function DefaultSkyCloudVolume(): (v: SkyCloudVolume)
    ensures !v.IsActive()
  {
    SkyCloudVolume(false)
  }

  /** `AtmosphereScatteringVolume`: only its activity switch is modelled. */
  datatype AtmosphereScatteringVolume = AtmosphereScatteringVolume(enable: bool)
  {
    predicate IsActive() {
      enable
    }
  }

  /** The component as declared: inactive. */
  function DefaultAtmosphereScatteringVolume(): (v: AtmosphereScatteringVolume)
    ensures !v.IsActive()
  {
    AtmosphereScatteringVolume(false)
  }

  /** None of the three components can be rendered per tile: the answer does
      not depend on the component's state. */
  function IsTileCompatible(): (r: bool)
    ensures !r
  {
    false
  }
}
