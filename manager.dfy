/**
 The dry-run template manager: the object the generator calls once per
 candidate output file. It never writes content; it records what would have
 happened in a path-keyed status table and, once asked to, the template data
 per target. Every state-changing method is specified by DryRun.Step.
 */
module DryRunManager {
  import opened DryRun

  class DryRunTemplateManager<V> {
    const options: Options
    /** The files that exist on disk; a dry run never changes them. */
    const existing: set<string>
    /** File.getAbsolutePath, left uninterpreted. */
    const absolutePath: string -> string

    var statusMap: map<string, DryRunStatus>
    var captured: map<string, map<string, V>>
    var recordTemplateData: bool

    /** The fixed surroundings of this manager. */
    function Env(): Environment {
      Environment(options, existing, absolutePath)
    }

    /** The manager's current mutable state as a value. */
    function Current(): Snapshot<V>
      reads this
    {
      Snapshot(statusMap, captured, recordTemplateData)
    }

    constructor (options: Options, existing: set<string>, absolutePath: string -> string)
      ensures this.options == options && this.existing == existing && this.absolutePath == absolutePath
      ensures statusMap == map[] && captured == map[] && !recordTemplateData
    {
      this.options := options;
      this.existing := existing;
      this.absolutePath := absolutePath;
      statusMap := map[];
      captured := map[];
      recordTemplateData := false;
    }

    /** The full status of the dry run, as a value the caller cannot alter. */
    method GetDryRunStatusMap() returns (m: map<string, DryRunStatus>)
      ensures m == statusMap
    {
      m := statusMap;
    }

    /**
     Simulates rendering `template` with `data` into `target`: captures the data
     under the target's absolute path when capturing is on, then simulates
     writing placeholder bytes there.
     */
    method Write(data: map<string, V>, template: string, target: string) returns (h: TargetHandle)
      modifies this`statusMap, this`captured
      ensures Current() == Step(Env(), old(Current()), Call.WriteTemplate(data, template, target))
      ensures h == TargetHandle(absolutePath(target))
    {
      if recordTemplateData {
        captured := captured[absolutePath(target) := data];
      }
      h := WriteToFile(absolutePath(target), Dummy);
    }

    /** Records what writing `contents` to `filename` would do; `contents` is not kept. */
    method WriteToFile(filename: string, contents: seq<bv8>) returns (h: TargetHandle)
      modifies this`statusMap
      ensures Current() == Step(Env(), old(Current()), Call.WriteToFile(filename, contents))
      ensures h == TargetHandle(filename)
    {
      var status := DecideWrite(filename, filename in existing, options);
      statusMap := statusMap[filename := status];
      h := TargetHandle(filename);
    }

    /** Records that `path` was ignored, with the reason `context`. */
    method Ignore(path: string, context: string)
      modifies this`statusMap
      ensures Current() == Step(Env(), old(Current()), Call.Ignore(path, context))
    {
      statusMap := statusMap[path := DryRunStatus(path, Ignored, context)];
    }

    /** Records that the generator chose to skip `path`, distinguishing skips due to overwrite protection. */
    method Skip(path: string, context: string)
      modifies this`statusMap
      ensures Current() == Step(Env(), old(Current()), Call.Skip(path, context))
    {
      var status := DryRunStatus(path, Skipped, context);
      if options.skipOverwrite && path in existing {
        status := status.(state := SkippedOverwrite);
      }
      statusMap := statusMap[path := status];
    }

    /** Records an error for `path`; the run goes on. */
    method Error(path: string, context: string)
      modifies this`statusMap
      ensures Current() == Step(Env(), old(Current()), Call.ReportError(path, context))
    {
      statusMap := statusMap[path := DryRunStatus(path, State.Error, context)];
    }

    /** Turns on capturing of template data for later writes; returns this manager. */
    method EnableTemplateDataCapturing() returns (self: DryRunTemplateManager<V>)
      modifies this`recordTemplateData
      ensures self == this && recordTemplateData
      ensures Current() == Step(Env(), old(Current()), Call.EnableCapturing)
    {
      recordTemplateData := true;
      self := this;
    }

    /** The template data captured for `generatedFile`, or the empty map when none was. */
    method GetCapturedTemplateData(generatedFile: string) returns (data: map<string, V>)
      ensures generatedFile in captured ==> data == captured[generatedFile]
      ensures generatedFile !in captured ==> data == map[]
    {
      data := if generatedFile in captured then captured[generatedFile] else map[];
    }
  }
}
