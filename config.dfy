/**
 * The tracker configuration as a key-to-value store with per-call defaults.
 * Loading the configuration file is not modelled: a configuration is the
 * map it would produce. A value stored under a key with another type than
 * the one requested reads as absent, so the caller's default applies.
 */
module Config {

  datatype Value = RealValue(r: real) | BoolValue(b: bool) | TextValue(s: string) | CountValue(n: nat)

  type FwdTrackerConfig = map<string, Value>

  const RasterRKey := "SiRasterizer:r"
  const RasterPhiKey := "SiRasterizer:phi"
  const RasterActiveKey := "SiRasterizer:active"
  const FttSourceKey := "Source:ftt"
  const FttFilterKey := "Source:fttFilter"
  const MultMaxKey := "McEvent.Mult:max"

  function GetReal(cfg: FwdTrackerConfig, key: string, default: real): real
  {
    if key in cfg && cfg[key].RealValue? then cfg[key].r else default
  }

  function GetBool(cfg: FwdTrackerConfig, key: string, default: bool): bool
  {
    if key in cfg && cfg[key].BoolValue? then cfg[key].b else default
  }

  function GetText(cfg: FwdTrackerConfig, key: string, default: string): string
  {
    if key in cfg && cfg[key].TextValue? then cfg[key].s else default
  }

  function GetCount(cfg: FwdTrackerConfig, key: string, default: nat): nat
  {
    if key in cfg && cfg[key].CountValue? then cfg[key].n else default
  }

  /** Radial bin size of the silicon rasterizer (default 3.0). */
  function RasterR(cfg: FwdTrackerConfig): real { GetReal(cfg, RasterRKey, 3.0) }

  /** Azimuthal bin size of the silicon rasterizer (default 0.1). */
  function RasterPhi(cfg: FwdTrackerConfig): real { GetReal(cfg, RasterPhiKey, 0.1) }

  /** Whether silicon hits are rasterized (default false). */
  function RasterActive(cfg: FwdTrackerConfig): bool { GetBool(cfg, RasterActiveKey, false) }

  /** Radial size used for the silicon covariance (default 3.0). */
  function CovRSize(cfg: FwdTrackerConfig): real { GetReal(cfg, RasterRKey, 3.0) }

  /** Azimuthal size used for the silicon covariance: same key, other default (0.004). */
  function CovPhiSize(cfg: FwdTrackerConfig): real { GetReal(cfg, RasterPhiKey, 0.004) }

  /** Whether the sTGC hits must come from the simulation records ("GEANT"). */
  function FttFromGeant(cfg: FwdTrackerConfig): bool { GetText(cfg, FttSourceKey, "") == "GEANT" }

  /** Whether simulated sTGC hits of tracks with |eta| > 5 are dropped (default false). */
  function FttFilter(cfg: FwdTrackerConfig): bool { GetBool(cfg, FttFilterKey, false) }

  /** Largest forward multiplicity an event may have (default 10000). */
  function MaxForwardTracks(cfg: FwdTrackerConfig): nat { GetCount(cfg, MultMaxKey, 10000) }

  /**
   * The rasterizer and the covariance read the same azimuthal key: they agree
   * whenever it is set, and fall back to two different defaults when it is not.
   */
  lemma PhiSizeDefaults(cfg: FwdTrackerConfig)
    ensures RasterPhiKey in cfg && cfg[RasterPhiKey].RealValue? ==> RasterPhi(cfg) == CovPhiSize(cfg)
    ensures RasterPhiKey !in cfg ==> RasterPhi(cfg) == 0.1 && CovPhiSize(cfg) == 0.004
    ensures RasterR(cfg) == CovRSize(cfg)
  {
  }
}
