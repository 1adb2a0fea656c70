/** Writing the report in each requested format (src/tools/lighthouse.ts:125-142):
    into the caller's directory when one is given, otherwise into a temporary
    file of the storage's choosing. */
module Reports {
  import opened Wrappers
  import opened AuditRequest
  import opened LighthouseEngine

  /** Where a report goes: a caller-chosen path, or a temporary file with a
      suggested name. */
  datatype Destination = ToPath(path: string) | Temporary(suggestedName: string)

  datatype StoredWrite = StoredWrite(path: string, data: string)

  /** A save that threw: the format being written and its destination. */
  datatype WriteError = WriteError(format: Format, destination: Destination)

  /** The tool context's file storage. Which writes fail and how temporary
      files are named is fixed per storage object; the object records every
      accepted write, oldest first (two writes to one path are two entries,
      although the second overwrites the first on disk). */
  class Storage {
    const refuses: Destination -> bool
    const tempPath: (nat, string) -> string
    var writes: seq<StoredWrite>

    constructor (refuses: Destination -> bool, tempPath: (nat, string) -> string)
      ensures this.refuses == refuses && this.tempPath == tempPath
      ensures writes == []
    {
      this.refuses := refuses;
      this.tempPath := tempPath;
      writes := [];
    }

    /** The path reported for a save to `d` that is the `index`-th file written. */
    function PathFor(d: Destination, index: nat): string {
      match d
      case ToPath(p) => p
      case Temporary(name) => tempPath(index, name)
    }

    /** Saves `data` at `path` and reports that path; `None` is a failed write,
        which stores nothing. */
    method SaveFile(data: string, path: string) returns (filename: Option<string>)
      modifies this
      ensures refuses(ToPath(path)) ==> filename.None? && writes == old(writes)
      ensures !refuses(ToPath(path)) ==>
                filename == Some(PathFor(ToPath(path), old(|writes|))) &&
                writes == old(writes) + [StoredWrite(filename.value, data)]
    {
      if refuses(ToPath(path)) {
        filename := None;
      } else {
        filename := Some(path);
        writes := writes + [StoredWrite(path, data)];
      }
    }

    /** Saves `data` in a new temporary file named after `suggestedName` and
        reports its path; `None` is a failed write, which stores nothing. */
    method SaveTemporaryFile(data: string, suggestedName: string) returns (filepath: Option<string>)
      modifies this
      ensures refuses(Temporary(suggestedName)) ==> filepath.None? && writes == old(writes)
      ensures !refuses(Temporary(suggestedName)) ==>
                filepath == Some(PathFor(Temporary(suggestedName), old(|writes|))) &&
                writes == old(writes) + [StoredWrite(filepath.value, data)]
    {
      if refuses(Temporary(suggestedName)) {
        filepath := None;
      } else {
        var p := tempPath(|writes|, suggestedName);
        filepath := Some(p);
        writes := writes + [StoredWrite(p, data)];
      }
    }
  }

  /** The file name of a report: `report.<format>`. */
  function ReportName(f: Format): string {
    "report." + FormatName(f)
  }

  /** JavaScript truthiness of the optional directory: absent and empty are false. */
  predicate Truthy(dir: Option<string>) {
    dir.Some? && dir.value != ""
  }

  /** A directory joined with a file name: the result starts with the
      directory and ends with the name. */
  function Join(dir: string, name: string): (p: string)
    ensures |p| > |dir| + |name|
    ensures p[..|dir|] == dir
    ensures p[|p| - |name|..] == name
  {
    dir + "/" + name
  }

  /** Where the report of format `f` goes. */
  function DestinationFor(dir: Option<string>, f: Format): (d: Destination)
    ensures dir.Some? && |dir.value| > 0 ==> d == ToPath(Join(dir.value, "report." + FormatName(f)))
    ensures dir.None? || |dir.value| == 0 ==> d == Temporary("report." + FormatName(f))
  {
    if Truthy(dir) then ToPath(Join(dir.value, ReportName(f))) else Temporary(ReportName(f))
  }

  /** An empty directory string is falsy, so it behaves as an omitted one. */
  lemma EmptyDirectoryIsOmitted(f: Format)
    ensures DestinationFor(Some(""), f) == DestinationFor(None, f) == Temporary(ReportName(f))
  {
  }

  /** The position of the first format whose save fails, or `|formats|` when
      every save succeeds. */
  function FirstRefused(refuses: Destination -> bool, dir: Option<string>, formats: seq<Format>): (k: nat)
    ensures k <= |formats|
    ensures forall j :: 0 <= j < k ==> !refuses(DestinationFor(dir, formats[j]))
    ensures k < |formats| ==> refuses(DestinationFor(dir, formats[k]))
  {
    if formats == [] then 0
    else if refuses(DestinationFor(dir, formats[0])) then 0
    else 1 + FirstRefused(refuses, dir, formats[1..])
  }

  /** The saves of the first `n` formats are all accepted. */
  predicate Accepted(refuses: Destination -> bool, dir: Option<string>, formats: seq<Format>, n: nat)
    requires n <= |formats|
  {
    forall j :: 0 <= j < n ==> !refuses(DestinationFor(dir, formats[j]))
  }

  /** One more accepted save extends the accepted prefix. */
  lemma AcceptedStep(refuses: Destination -> bool, dir: Option<string>, formats: seq<Format>, i: nat)
    requires i < |formats| && Accepted(refuses, dir, formats, i)
    requires !refuses(DestinationFor(dir, formats[i]))
    ensures Accepted(refuses, dir, formats, i + 1)
  {
  }

  /** After `i` accepted saves, the loop stops at `i` when the formats run out
      or the next save is refused. */
  lemma FirstRefusedAt(refuses: Destination -> bool, dir: Option<string>, formats: seq<Format>, i: nat)
    requires i <= |formats| && Accepted(refuses, dir, formats, i)
    requires i < |formats| ==> refuses(DestinationFor(dir, formats[i]))
    ensures FirstRefused(refuses, dir, formats) == i
  {
  }

  /** The path reported for the save of `formats[j]` when the first save is
      the `base`-th file the storage writes. */
  function PlannedPath(storage: Storage, dir: Option<string>, formats: seq<Format>, base: nat, j: nat): string
    requires j < |formats|
  {
    storage.PathFor(DestinationFor(dir, formats[j]), base + j)
  }

  /** The paths reported by the first `n` saves. */
  function ExpectedPaths(storage: Storage, dir: Option<string>, formats: seq<Format>, base: nat, n: nat): (r: seq<string>)
    requires n <= |formats|
    ensures |r| == n
  {
    if n == 0 then []
    else ExpectedPaths(storage, dir, formats, base, n - 1) + [PlannedPath(storage, dir, formats, base, n - 1)]
  }

  /** The writes recorded by the first `n` saves. */
  function ExpectedSaves(storage: Storage, render: (Lhr, Format) -> string, lhr: Lhr,
                         dir: Option<string>, formats: seq<Format>, base: nat, n: nat): (r: seq<StoredWrite>)
    requires n <= |formats|
    ensures |r| == n
  {
    if n == 0 then []
    else ExpectedSaves(storage, render, lhr, dir, formats, base, n - 1) +
         [StoredWrite(PlannedPath(storage, dir, formats, base, n - 1), render(lhr, formats[n - 1]))]
  }

  /** The i-th of the first `n` paths is the i-th planned path. */
  lemma {:induction false} ExpectedPathsAt(storage: Storage, dir: Option<string>, formats: seq<Format>,
                                           base: nat, n: nat, i: nat)
    requires i < n <= |formats|
    ensures ExpectedPaths(storage, dir, formats, base, n)[i] == PlannedPath(storage, dir, formats, base, i)
  {
    if i < n - 1 {
      ExpectedPathsAt(storage, dir, formats, base, n - 1, i);
    }
  }

  /** One pass of the format loop: the engine renders the i-th format's
      report, which goes to `<dir>/report.<format>` through `SaveFile` when the
      directory is truthy, and to a temporary file suggested as
      `report.<format>` otherwise. */
  method SaveReport(engine: Engine, storage: Storage, lhr: Lhr, dir: Option<string>, formats: seq<Format>, i: nat)
    returns (path: Option<string>)
    requires i < |formats|
    modifies storage
    ensures storage.refuses(DestinationFor(dir, formats[i])) ==>
              path.None? && storage.writes == old(storage.writes)
    ensures !storage.refuses(DestinationFor(dir, formats[i])) ==>
              && path == Some(storage.PathFor(DestinationFor(dir, formats[i]), old(|storage.writes|)))
              && storage.writes == old(storage.writes) + [StoredWrite(path.value, engine.generateReport(lhr, formats[i]))]
  {
    var format := formats[i];
    var report := engine.generateReport(lhr, format);
    if Truthy(dir) {
      var reportPath := Join(dir.value, ReportName(format));
      path := storage.SaveFile(report, reportPath);
    } else {
      path := storage.SaveTemporaryFile(report, ReportName(format));
    }
  }

  /** The format loop. On success exactly one path per format, in order, the
      i-th from saving the i-th format's report; the storage records exactly
      those writes. At the first failed save the loop stops with that format
      and destination, keeping the writes already made. */
  method Materialize(engine: Engine, storage: Storage, lhr: Lhr, formats: seq<Format>, dir: Option<string>)
    returns (r: Result<seq<string>, WriteError>)
    modifies storage
    ensures var k := FirstRefused(storage.refuses, dir, formats);
            storage.writes == old(storage.writes) +
              ExpectedSaves(storage, engine.generateReport, lhr, dir, formats, old(|storage.writes|), k)
    ensures var k := FirstRefused(storage.refuses, dir, formats);
            k == |formats| ==> r == Success(ExpectedPaths(storage, dir, formats, old(|storage.writes|), k))
    ensures var k := FirstRefused(storage.refuses, dir, formats);
            k < |formats| ==> r == Failure(WriteError(formats[k], DestinationFor(dir, formats[k])))
  {
    ghost var before := storage.writes;
    ghost var base := |before|;
    ghost var render := engine.generateReport;
    var reportPaths: seq<string> := [];
    var i := 0;
    while i < |formats|
      invariant i <= |formats| && Accepted(storage.refuses, dir, formats, i)
      invariant reportPaths == ExpectedPaths(storage, dir, formats, base, i)
      invariant storage.writes == before + ExpectedSaves(storage, render, lhr, dir, formats, base, i)
    {
      ghost var planned := PlannedPath(storage, dir, formats, base, i);
      assert ExpectedPaths(storage, dir, formats, base, i + 1) == reportPaths + [planned];
      assert ExpectedSaves(storage, render, lhr, dir, formats, base, i + 1)
          == ExpectedSaves(storage, render, lhr, dir, formats, base, i) + [StoredWrite(planned, render(lhr, formats[i]))];
      var saved := SaveReport(engine, storage, lhr, dir, formats, i);
      if saved.None? {
        FirstRefusedAt(storage.refuses, dir, formats, i);
        return Failure(WriteError(formats[i], DestinationFor(dir, formats[i])));
      }
      assert saved.value == planned;
      AcceptedStep(storage.refuses, dir, formats, i);
      reportPaths := reportPaths + [saved.value];
      i := i + 1;
    }
    FirstRefusedAt(storage.refuses, dir, formats, i);
    return Success(reportPaths);
  }

  /** With a present, non-empty directory the i-th report goes to
      `dir/report.<format>`: its path starts with the directory and ends with
      the report name. */
  lemma PathsUnderDirectory(storage: Storage, dir: Option<string>, formats: seq<Format>, base: nat, n: nat, i: nat)
    requires Truthy(dir) && i < n <= |formats|
    ensures ExpectedPaths(storage, dir, formats, base, n)[i] == Join(dir.value, ReportName(formats[i]))
    ensures var p := ExpectedPaths(storage, dir, formats, base, n)[i];
            p[..|dir.value|] == dir.value && p[|p| - |ReportName(formats[i])|..] == ReportName(formats[i])
  {
    ExpectedPathsAt(storage, dir, formats, base, n, i);
  }

  /** With an absent or empty directory the i-th report is the temporary file
      suggested as `report.<format>` at the i-th write. */
  lemma PathsTemporary(storage: Storage, dir: Option<string>, formats: seq<Format>, base: nat, n: nat, i: nat)
    requires !Truthy(dir) && i < n <= |formats|
    ensures ExpectedPaths(storage, dir, formats, base, n)[i] == storage.tempPath(base + i, ReportName(formats[i]))
  {
    ExpectedPathsAt(storage, dir, formats, base, n, i);
  }
}
