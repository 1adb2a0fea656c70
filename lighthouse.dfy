/** The `lighthouse_audit` tool handler (src/tools/lighthouse.ts:58-176):
    defaults, flags, one engine run, the report files, then the summary and
    report paths attached to the response once. */
module LighthouseAudit {
  import opened Wrappers
  import opened AuditRequest
  import opened Emulation
  import opened LighthouseEngine
  import opened Reports
  import opened Summary

  /** The attached result: the summary and the report paths in format order. */
  datatype Output = Output(summary: AuditSummary, reports: seq<string>)

  /** Why the handler throws: the engine gave no result, or a save failed. */
  datatype HandlerError =
    | EngineFailure(message: string)
    | ArtifactWriteFailure(cause: WriteError)

  const ENGINE_FAILURE_MESSAGE := "Lighthouse failed to produce a result."

  /** The response channel; it records every attached result, oldest first. */
  class Response {
    var attached: seq<Output>

    constructor ()
      ensures attached == []
    {
      attached := [];
    }

    method AttachLighthouseResult(output: Output)
      modifies this
      ensures attached == old(attached) + [output]
    {
      attached := attached + [output];
    }
  }

  /** The handler. It asks the engine for exactly one audit, of the effective
      mode with the flags of the effective request. Without a result it fails
      with nothing saved and nothing attached. Otherwise it saves the reports
      in format order; a failed save stops it with the files written so far
      and nothing attached. When every save succeeds it attaches, once, the
      summary of the report together with one path per format. */
  method Handle(params: Params, page: Page, engine: Engine, storage: Storage, response: Response)
    returns (r: Result<Output, HandlerError>)
    modifies engine, storage, response
    ensures var req := Defaults(params);
            engine.calls == old(engine.calls) + [CallFor(req.mode, page, ResolveFlags(req.categories, req.formats, req.device))]
    ensures var req := Defaults(params);
            var result := engine.Outcome(CallFor(req.mode, page, ResolveFlags(req.categories, req.formats, req.device)));
            result.None? ==>
              && r == Failure(EngineFailure(ENGINE_FAILURE_MESSAGE))
              && storage.writes == old(storage.writes)
              && response.attached == old(response.attached)
    ensures var req := Defaults(params);
            var result := engine.Outcome(CallFor(req.mode, page, ResolveFlags(req.categories, req.formats, req.device)));
            var k := FirstRefused(storage.refuses, req.outputDirPath, req.formats);
            result.Some? ==>
              storage.writes == old(storage.writes) +
                ExpectedSaves(storage, engine.generateReport, result.value.lhr, req.outputDirPath, req.formats,
                              old(|storage.writes|), k)
    ensures var req := Defaults(params);
            var result := engine.Outcome(CallFor(req.mode, page, ResolveFlags(req.categories, req.formats, req.device)));
            var k := FirstRefused(storage.refuses, req.outputDirPath, req.formats);
            result.Some? && k < |req.formats| ==>
              && r == Failure(ArtifactWriteFailure(WriteError(req.formats[k], DestinationFor(req.outputDirPath, req.formats[k]))))
              && response.attached == old(response.attached)
    ensures var req := Defaults(params);
            var result := engine.Outcome(CallFor(req.mode, page, ResolveFlags(req.categories, req.formats, req.device)));
            var k := FirstRefused(storage.refuses, req.outputDirPath, req.formats);
            result.Some? && k == |req.formats| ==>
              && r == Success(Output(Summarize(result.value.lhr, req.mode, req.device),
                                     ExpectedPaths(storage, req.outputDirPath, req.formats, old(|storage.writes|), k)))
              && response.attached == old(response.attached) + [r.value]
  {
    var req := Defaults(params);
    var flags := BuildFlags(req.categories, req.formats, req.device);
    var result := RunAudit(engine, page, req.mode, flags);
    if result.None? {
      return Failure(EngineFailure(ENGINE_FAILURE_MESSAGE));
    }
    var lhr := result.value.lhr;
    var reportPaths := Materialize(engine, storage, lhr, req.formats, req.outputDirPath);
    if reportPaths.Failure? {
      return Failure(ArtifactWriteFailure(reportPaths.error));
    }
    var output := Output(Summarize(lhr, req.mode, req.device), reportPaths.value);
    response.AttachLighthouseResult(output);
    r := Success(output);
  }

  /** The handler run with no parameters, on storage that accepts every write:
      an audit of the desktop navigation of the page's URL over the three
      categories, and, when the engine gives a result, two temporary reports
      (JSON, then HTML) and a summary in navigation mode for the desktop. */
  method AuditWithDefaults(page: Page, engine: Engine, storage: Storage, response: Response)
    returns (r: Result<Output, HandlerError>)
    requires forall d :: !storage.refuses(d)
    modifies engine, storage, response
    ensures engine.calls == old(engine.calls) +
              [NavigationCall(page, page.url, ResolveFlags([Accessibility, Seo, BestPractices], [Json, Html], Desktop))]
    ensures r.Failure? <==> engine.Outcome(engine.calls[|engine.calls| - 1]).None?
    ensures r.Success? ==>
              && |r.value.reports| == 2
              && r.value.reports[0] == storage.tempPath(old(|storage.writes|), "report.json")
              && r.value.reports[1] == storage.tempPath(old(|storage.writes|) + 1, "report.html")
              && r.value.summary.mode == Navigation
              && r.value.summary.device == Desktop
  {
    ghost var base := |storage.writes|;
    r := Handle(Params(None, None, None, None, None), page, engine, storage, response);
    assert FirstRefused(storage.refuses, None, [Json, Html]) == 2;
    assert ReportName(Json) == "report.json" && ReportName(Html) == "report.html";
    PathsTemporary(storage, None, [Json, Html], base, 2, 0);
    PathsTemporary(storage, None, [Json, Html], base, 2, 1);
  }
}
