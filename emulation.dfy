/** The engine flags built from the effective request: the requested categories
    and formats, and one of two fixed device profiles
    (src/tools/lighthouse.ts:68-107). Throttling figures are exact reals. */
module Emulation {
  import opened Wrappers
  import opened AuditRequest

  datatype ScreenEmulation = ScreenEmulation(
    mobile: bool,
    width: nat,
    height: nat,
    deviceScaleFactor: real,
    disabled: bool)

  datatype Throttling = Throttling(
    rttMs: real,
    throughputKbps: real,
    cpuSlowdownMultiplier: real,
    requestLatencyMs: real,
    downloadThroughputKbps: real,
    uploadThroughputKbps: real)

  /** The engine's flags; the three profile fields are unset until the
      device branch assigns them. */
  datatype Flags = Flags(
    onlyCategories: seq<Category>,
    output: seq<Format>,
    formFactor: Option<Device>,
    screenEmulation: Option<ScreenEmulation>,
    throttling: Option<Throttling>)

  const DESKTOP_SCREEN := ScreenEmulation(false, 1350, 940, 1.0, false)
  const DESKTOP_THROTTLING := Throttling(40.0, 10.0 * 1024.0, 1.0, 0.0, 0.0, 0.0)
  const MOBILE_SCREEN := ScreenEmulation(true, 412, 823, 1.75, false)
  const MOBILE_THROTTLING := Throttling(150.0, 1.6 * 1024.0, 4.0, 0.0, 0.0, 0.0)

  /** The screen a device emulates: a mobile layout exactly for the mobile
      device, never with emulation disabled. */
  function ScreenFor(d: Device): (s: ScreenEmulation)
    ensures s.mobile <==> d == Mobile
    ensures !s.disabled && s.deviceScaleFactor >= 1.0
  {
    match d
    case Desktop => DESKTOP_SCREEN
    case Mobile => MOBILE_SCREEN
  }

  /** The network and CPU throttling of a device: no extra request latency and
      no download or upload overrides on either profile. */
  function ThrottlingFor(d: Device): (t: Throttling)
    ensures t.requestLatencyMs == 0.0
    ensures t.downloadThroughputKbps == 0.0 && t.uploadThroughputKbps == 0.0
    ensures t.rttMs > 0.0 && t.throughputKbps > 0.0 && t.cpuSlowdownMultiplier >= 1.0
  {
    match d
    case Desktop => DESKTOP_THROTTLING
    case Mobile => MOBILE_THROTTLING
  }

  /** The mobile profile is the more constrained one: slower CPU, longer round
      trips, less bandwidth, a denser and smaller screen. */
  lemma MobileIsMoreConstrained()
    ensures ThrottlingFor(Mobile).cpuSlowdownMultiplier == 4.0 && ThrottlingFor(Desktop).cpuSlowdownMultiplier == 1.0
    ensures ThrottlingFor(Mobile).rttMs == 150.0 && ThrottlingFor(Desktop).rttMs == 40.0
    ensures ThrottlingFor(Mobile).cpuSlowdownMultiplier > ThrottlingFor(Desktop).cpuSlowdownMultiplier
    ensures ThrottlingFor(Mobile).rttMs > ThrottlingFor(Desktop).rttMs
    ensures ThrottlingFor(Mobile).throughputKbps < ThrottlingFor(Desktop).throughputKbps
    ensures ScreenFor(Mobile).deviceScaleFactor > ScreenFor(Desktop).deviceScaleFactor
    ensures ScreenFor(Mobile).width < ScreenFor(Desktop).width
  {
  }

  /** The flags the handler hands to the engine: categories and formats pass
      through unchanged, the form factor is the device, and the device's
      profile fills the screen and throttling fields. */
  function ResolveFlags(categories: seq<Category>, formats: seq<Format>, device: Device): (f: Flags)
    ensures f.onlyCategories == categories && f.output == formats
    ensures f.formFactor == Some(device)
    ensures f.screenEmulation == Some(ScreenFor(device))
    ensures f.throttling == Some(ThrottlingFor(device))
  {
    Flags(categories, formats, Some(device), Some(ScreenFor(device)), Some(ThrottlingFor(device)))
  }

  /** Distinct requests give distinct flags: the flags the engine is given
      determine the requested categories, formats and device. */
  lemma ResolveFlagsInjective(c1: seq<Category>, f1: seq<Format>, d1: Device,
                              c2: seq<Category>, f2: seq<Format>, d2: Device)
    requires ResolveFlags(c1, f1, d1) == ResolveFlags(c2, f2, d2)
    ensures c1 == c2 && f1 == f2 && d1 == d2
  {
  }

  /** Builds the flags as the handler does: a record with the categories and
      formats, then the three profile fields assigned in the device branch. */
  method BuildFlags(categories: seq<Category>, formats: seq<Format>, device: Device) returns (flags: Flags)
    ensures flags == ResolveFlags(categories, formats, device)
  {
    flags := Flags(categories, formats, None, None, None);
    if device == Desktop {
      flags := flags.(formFactor := Some(Desktop));
      flags := flags.(screenEmulation := Some(DESKTOP_SCREEN));
      flags := flags.(throttling := Some(DESKTOP_THROTTLING));
    } else {
      flags := flags.(formFactor := Some(Mobile));
      flags := flags.(screenEmulation := Some(MOBILE_SCREEN));
      flags := flags.(throttling := Some(MOBILE_THROTTLING));
    }
  }
}
