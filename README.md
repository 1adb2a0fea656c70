# Lighthouse audit tool handler, modelled in Dafny

This project models the `lighthouse_audit` tool of a browser-automation server. The tool runs a
Lighthouse audit on the selected page. The handler goes through these steps:

1. It fills in defaults for omitted parameters: navigation mode, desktop device, the
   accessibility, SEO and best-practices categories, and the JSON and HTML formats.
2. It builds the engine flags from the requested categories and formats plus one of two fixed
   device profiles (screen emulation and network/CPU throttling).
3. It calls the navigation entry point on the page's current URL or the snapshot entry point, and
   throws when no result comes back.
4. It writes the report in each format, in order. A report goes to `<dir>/report.<format>` when
   the output directory is non-empty, and to a temporary file suggested as `report.<format>`
   otherwise.
5. It summarises the report into category scores and failed/passed audit counts, and attaches
   the summary and the report paths to the response once.

Modules, in dependency order:

- `Wrappers` (`wrappers.dfy`): `Option` and `Result`.
- `AuditRequest` (`request.dfy`): the parameter enums, caller parameters, the effective request
  and `Defaults`.
- `Emulation` (`emulation.dfy`): the flags record, the two constant profiles, `ResolveFlags`
  and the imperative `BuildFlags`.
- `LighthouseEngine` (`engine.dfy`): the report fields the handler reads, the page, and an
  `Engine` class. The class's function fields fix what the two entry points and the report
  generator return. It also logs every audit it is asked to run.
- `Reports` (`reports.dfy`): a `Storage` class that logs every accepted write, destination
  choice, path joining, and the format loop `Materialize`.
- `Summary` (`summary.dfy`): `Filter`, the three-way audit classification and its counting
  lemmas, category scores and `Summarize`.
- `LighthouseAudit` (`lighthouse.dfy`): the response channel, the handler `Handle` and the
  all-defaults run.

Foreign behaviour is a parameter of the model, fixed per object by function-valued constant
fields:

- `Engine.navigationRun`, `Engine.snapshotRun`, `Engine.generateReport`: the Lighthouse engine.
- `Storage.refuses`: which writes fail.
- `Storage.tempPath`: how temporary files are named. It receives the position of the write in
  the storage's log, so two temporary files never share an index.

`saveFile` is taken to report the path it was given.

## Model

| member | source | states |
|---|---|---|
| `AuditRequest.Defaults` | src/tools/lighthouse.ts:60-66 | an omitted mode, device, category list or format list becomes navigation, desktop, [accessibility, seo, best-practices], [json, html]; a supplied value, even an empty list, is kept; the output directory stays optional |
| `AuditRequest.DefaultsKeepExplicit` | src/tools/lighthouse.ts:60-66 | when every field is supplied, applying the defaults returns the request unchanged |
| `Emulation.ScreenFor` | src/tools/lighthouse.ts:73-107 | the screen has a mobile layout exactly for the mobile device; emulation is never disabled; the scale factor is at least 1 |
| `Emulation.ThrottlingFor` | src/tools/lighthouse.ts:82-106 | both profiles have zero request latency and zero download/upload throughput overrides, with a positive RTT and throughput and a CPU multiplier of at least 1 |
| `Emulation.MobileIsMoreConstrained` | src/tools/lighthouse.ts:73-107 | compared with desktop, mobile has a larger CPU slowdown (4 vs 1), a longer RTT (150 vs 40), lower throughput, a higher device scale factor and a narrower screen |
| `Emulation.ResolveFlags` | src/tools/lighthouse.ts:68-107 | `onlyCategories` is the requested categories, `output` is the requested formats, `formFactor` is the device, and the screen and throttling fields are that device's profile |
| `Emulation.ResolveFlagsInjective` | src/tools/lighthouse.ts:68-107 | distinct requests give distinct flags: equal flags come only from equal categories, formats and device |
| `Emulation.BuildFlags` | src/tools/lighthouse.ts:68-107 | the flags built by setting the three fields in the device branch equal `ResolveFlags` |
| `LighthouseEngine.Engine.Navigation` | src/tools/lighthouse.ts:111-113 | logs exactly one navigation call with the given page, URL and flags, and returns the engine's answer to that call |
| `LighthouseEngine.Engine.Snapshot` | src/tools/lighthouse.ts:115-117 | logs exactly one snapshot call with the given page and flags, and returns the engine's answer |
| `LighthouseEngine.CallFor` | src/tools/lighthouse.ts:110-118 | the call is a navigation call exactly in navigation mode, and then it targets the page's current URL; every call carries the page and the flags |
| `LighthouseEngine.RunAudit` | src/tools/lighthouse.ts:109-118 | exactly one engine call is made, the one of the mode, and its answer is the result |
| `Reports.Storage.SaveFile` | src/tools/lighthouse.ts:133 | a refused write records nothing and reports no file; otherwise it records the data written at the path and reports that path |
| `Reports.Storage.SaveTemporaryFile` | src/tools/lighthouse.ts:136-139 | a refused write records nothing; otherwise it records the data written to the temporary file named for this write's position and suggested name, and reports that path |
| `Reports.DestinationFor` | src/tools/lighthouse.ts:131-139 | a present, non-empty directory gives `join(dir, "report.<format>")`; an absent or empty directory gives a temporary file suggested as `report.<format>`, because the test is JavaScript truthiness |
| `Reports.EmptyDirectoryIsOmitted` | src/tools/lighthouse.ts:131 | an empty directory string sends the report to the same temporary destination as an omitted directory |
| `Reports.Join` | src/tools/lighthouse.ts:132 | the joined path is longer than directory plus name, starts with the directory and ends with the file name |
| `Reports.FirstRefused` | src/tools/lighthouse.ts:128-142 | the loop stops at the first format whose save fails: every earlier save succeeds, and that one, if any, fails |
| `Reports.SaveReport` | src/tools/lighthouse.ts:128-141 | one pass of the loop saves the engine's report for the i-th format. With a present, non-empty directory it goes to `join(dir, "report.<format>")` through `saveFile`; otherwise to a temporary file suggested as `report.<format>`. It reports the path, or records nothing when the write fails |
| `Reports.Materialize` | src/tools/lighthouse.ts:125-142 | on success it returns one path per format, in order, the i-th from saving the i-th format's generated report, and the storage records exactly those writes; at the first failed save it fails with that format and destination, and the writes already made stay |
| `Reports.PathsUnderDirectory` | src/tools/lighthouse.ts:131-134 | with a present, non-empty directory, the i-th report path is `join(dir, "report.<format>")`: it starts with the directory and ends with `report.<format>` |
| `Reports.PathsTemporary` | src/tools/lighthouse.ts:135-140 | with an absent or empty directory (the test is truthiness), the i-th report path is the temporary file for `report.<format>` at the i-th write |
| `Summary.Filter` | src/tools/lighthouse.ts:150-156 | the filtered sequence is no longer than the input, and an element occurs in it exactly when it occurs in the input and satisfies the predicate |
| `Summary.FilterMultiset` | src/tools/lighthouse.ts:150-156 | each element that satisfies the predicate occurs in the filtered sequence as often as in the input, and any other element not at all; so its length is the number of matching audits |
| `Summary.FilterConcat` | src/tools/lighthouse.ts:150-156 | filtering keeps order: filtering a concatenation gives the concatenation of the filtered parts |
| `Summary.ClassesPartition` | src/tools/lighthouse.ts:150-156 | the failed, passed, not-applicable and above-range counts add up to the number of audits, and no audit is counted as both failed and passed |
| `Summary.CountsCoverAudits` | src/tools/lighthouse.ts:150-156 | failed + passed + not-applicable equals the number of audits if and only if no score is above 1, which holds whenever all scores lie in [0, 1] |
| `Summary.CategoryScores` | src/tools/lighthouse.ts:144-148 | one entry per category, in report order, each copying that category's id, title and score |
| `Summary.Summarize` | src/tools/lighthouse.ts:144-173 | the summary echoes the mode, device, main-document URL and total timing; its scores follow the categories in order; `failed` counts audits with a non-null score below 1; `passed` counts audits scored exactly 1; together they never exceed the audit count |
| `LighthouseAudit.Response.AttachLighthouseResult` | src/tools/lighthouse.ts:175 | the response gains exactly the one attached output |
| `LighthouseAudit.Handle` | src/tools/lighthouse.ts:58-176 | exactly one engine call, for the effective mode with the effective request's flags. With no result: the engine-failure error, nothing saved, nothing attached. Otherwise the saves of `Materialize` happen. A failed save gives a write error and nothing is attached. When every save succeeds, the output is the summary plus one path per format, attached exactly once |
| `LighthouseAudit.AuditWithDefaults` | tests/tools/lighthouse.test.ts:26 | with no parameters and a storage that accepts every write, the handler navigates the page's URL with desktop flags over the three default categories. It fails only when the engine gives no result. On success it returns two temporary reports (`report.json`, then `report.html`) and a navigation/desktop summary |

## Left out

- The Lighthouse engine's scoring and report rendering are foreign. The engine's entry points and
  `generateReport` are arbitrary functions fixed per `Engine` object, and the model does not
  constrain what they return.
- The engine call is modelled as deterministic in its arguments. The page is reduced to its
  current URL, and the reload that a navigation run performs is not modelled.
- `TextEncoder` byte encoding is left out: the stored data is the report string itself.
- `Reports.Join` is `dir + "/" + name`. Node's `path.join` normalisation (collapsing `//`, `.` and
  `..`, turning an empty result into `.`) is not modelled.
- `Reports.Storage.SaveFile` reports the path it was given. The filename the real tool context
  returns, possibly resolved to an absolute path, is not modelled.
- Exceptions thrown by the engine are not modelled. In the source a rejected `navigation` or
  `snapshot` (src/tools/lighthouse.ts:111, 115) propagates the engine's own error. A
  `generateReport` that throws at some format (src/tools/lighthouse.ts:129) propagates after the
  earlier formats' files are written. The model's entry points and `generateReport` are total:
  a run can only answer with a result or `None`, and `None` yields the "failed to produce a
  result" error of src/tools/lighthouse.ts:120-121.
- When a save throws, the source does not catch the exception. The model returns a `WriteError`
  carrying the format and destination where the source would propagate the storage's own
  exception.
- Schema validation and tool registration (src/tools/lighthouse.ts:21-57) are left out. The enum
  parameters are Dafny datatypes, so invalid values cannot be expressed.
- `async`/`await` scheduling is left out. The handler is one sequential method, and the writes
  happen one after another as in the source.
- Floating-point behaviour of scores and throttling constants is left out: they are exact reals.
- The single-category accessibility variant of the tool, which attaches a text payload, and
  scripts/prepare.ts (a build-time file cleanup) are not part of this model.
- Repeating `Summarize` on the same report gives the same summary because it is a Dafny function.
  No separate lemma states this.
