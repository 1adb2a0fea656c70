/** The Lighthouse engine as the handler sees it: the fields of its report that
    the handler reads, and its two entry points and report generator
    (src/tools/lighthouse.ts:9-16, 109-118, 129). What the engine computes is
    fixed per engine object by its function fields; the object logs the audits
    it is asked to run. */
module LighthouseEngine {
  import opened Wrappers
  import opened AuditRequest
  import opened Emulation

  /** A category of the report (`lhr.categories`); `auditRefs` stands for the
      fields the handler does not read. */
  datatype CategoryResult = CategoryResult(id: string, title: string, score: Option<real>, auditRefs: seq<string>)

  /** An audit of the report (`lhr.audits`); a `None` score is "not applicable". */
  datatype AuditResult = AuditResult(id: string, score: Option<real>)

  /** The report object, with categories and audits in iteration order. */
  datatype Lhr = Lhr(categories: seq<CategoryResult>, audits: seq<AuditResult>, mainDocumentUrl: string, timingTotal: real)

  datatype RunnerResult = RunnerResult(lhr: Lhr)

  /** The selected browser page, reduced to its current URL. */
  datatype Page = Page(url: string)

  /** One request to the engine: a navigation run reloads `url` in `page`, a
      snapshot run audits the page as it is. */
  datatype EngineCall =
    | NavigationCall(page: Page, url: string, flags: Flags)
    | SnapshotCall(page: Page, flags: Flags)

  class Engine {
    const navigationRun: (Page, string, Flags) -> Option<RunnerResult>
    const snapshotRun: (Page, Flags) -> Option<RunnerResult>
    const generateReport: (Lhr, Format) -> string
    /** The audits requested so far, oldest first. */
    var calls: seq<EngineCall>

    constructor (navigationRun: (Page, string, Flags) -> Option<RunnerResult>,
                 snapshotRun: (Page, Flags) -> Option<RunnerResult>,
                 generateReport: (Lhr, Format) -> string)
      ensures this.navigationRun == navigationRun && this.snapshotRun == snapshotRun
      ensures this.generateReport == generateReport
      ensures calls == []
    {
      this.navigationRun := navigationRun;
      this.snapshotRun := snapshotRun;
      this.generateReport := generateReport;
      calls := [];
    }

    /** What the engine answers to a call; `None` is a run without a result. */
    function Outcome(call: EngineCall): Option<RunnerResult> {
      match call
      case NavigationCall(page, url, flags) => navigationRun(page, url, flags)
      case SnapshotCall(page, flags) => snapshotRun(page, flags)
    }

    /** The navigation entry point. */
    method Navigation(page: Page, url: string, flags: Flags) returns (result: Option<RunnerResult>)
      modifies this
      ensures calls == old(calls) + [NavigationCall(page, url, flags)]
      ensures result == Outcome(NavigationCall(page, url, flags))
    {
      calls := calls + [NavigationCall(page, url, flags)];
      result := navigationRun(page, url, flags);
    }

    /** The snapshot entry point. */
    method Snapshot(page: Page, flags: Flags) returns (result: Option<RunnerResult>)
      modifies this
      ensures calls == old(calls) + [SnapshotCall(page, flags)]
      ensures result == Outcome(SnapshotCall(page, flags))
    {
      calls := calls + [SnapshotCall(page, flags)];
      result := snapshotRun(page, flags);
    }
  }

  /** The call a mode leads to: navigation mode reloads the page's current URL,
      snapshot mode audits the page in place; both carry the page and flags. */
  function CallFor(mode: Mode, page: Page, flags: Flags): (c: EngineCall)
    ensures c.page == page && c.flags == flags
    ensures c.NavigationCall? <==> mode == Navigation
    ensures c.NavigationCall? ==> c.url == page.url
  {
    match mode
    case Navigation => NavigationCall(page, page.url, flags)
    case Snapshot => SnapshotCall(page, flags)
  }

  /** Mode dispatch: exactly one call to the entry point of the mode, and its
      answer. */
  method RunAudit(engine: Engine, page: Page, mode: Mode, flags: Flags) returns (result: Option<RunnerResult>)
    modifies engine
    ensures engine.calls == old(engine.calls) + [CallFor(mode, page, flags)]
    ensures result == engine.Outcome(CallFor(mode, page, flags))
  {
    if mode == Navigation {
      result := engine.Navigation(page, page.url, flags);
    } else {
      result := engine.Snapshot(page, flags);
    }
  }
}
