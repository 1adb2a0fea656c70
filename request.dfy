/** The tool's parameters and the defaults substituted for omitted ones
    (src/tools/lighthouse.ts:28-66). */
module AuditRequest {
  import opened Wrappers

  datatype Mode = Navigation | Snapshot
  datatype Device = Desktop | Mobile
  datatype Category = Accessibility | Seo | BestPractices
  datatype Format = Json | Html

  /** The identifier of a report format, as used in file names. */
  function FormatName(f: Format): string {
    match f
    case Json => "json"
    case Html => "html"
  }

  const DEFAULT_CATEGORIES: seq<Category> := [Accessibility, Seo, BestPractices]
  const DEFAULT_FORMATS: seq<Format> := [Json, Html]

  /** The parameters as the caller sent them; `None` is an omitted field. */
  datatype Params = Params(
    mode: Option<Mode>,
    device: Option<Device>,
    categories: Option<seq<Category>>,
    outputDirPath: Option<string>,
    formats: Option<seq<Format>>)

  /** The effective request: every field but the output directory is present. */
  datatype Request = Request(
    mode: Mode,
    device: Device,
    categories: seq<Category>,
    outputDirPath: Option<string>,
    formats: seq<Format>)

  /** Destructuring with defaults: an omitted field gets its default, a supplied
      one (even an empty list) is kept as it is, the directory stays optional. */
  function Defaults(p: Params): (r: Request)
    ensures p.mode.None? ==> r.mode == Navigation
    ensures p.mode.Some? ==> r.mode == p.mode.value
    ensures p.device.None? ==> r.device == Desktop
    ensures p.device.Some? ==> r.device == p.device.value
    ensures p.categories.None? ==> r.categories == [Accessibility, Seo, BestPractices]
    ensures p.categories.Some? ==> r.categories == p.categories.value
    ensures p.formats.None? ==> r.formats == [Json, Html]
    ensures p.formats.Some? ==> r.formats == p.formats.value
    ensures r.outputDirPath == p.outputDirPath
  {
    Request(
      p.mode.GetOr(Navigation),
      p.device.GetOr(Desktop),
      p.categories.GetOr(DEFAULT_CATEGORIES),
      p.outputDirPath,
      p.formats.GetOr(DEFAULT_FORMATS))
  }

  /** The parameters that supply every field of `r` explicitly. */
  function Explicit(r: Request): Params {
    Params(Some(r.mode), Some(r.device), Some(r.categories), r.outputDirPath, Some(r.formats))
  }

  /** Supplying every field explicitly leaves nothing for the defaults to change. */
  lemma DefaultsKeepExplicit(r: Request)
    ensures Defaults(Explicit(r)) == r
  {
  }
}
