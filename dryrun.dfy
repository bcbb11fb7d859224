/**
 The values a generator dry run works with: the status record kept per target
 path, the two template options that steer the write decision, and the
 specification of one manager call (Step) and of a sequence of calls (Run).
 */
module DryRun {

  /** The outcome recorded for one target path (DryRunStatus.State). */
  datatype State = Write | WriteIfNewer | Skipped | SkippedOverwrite | Ignored | Error

  /** One entry of the dry-run status table: the target, its outcome and an explanation. */
  datatype DryRunStatus = DryRunStatus(path: string, state: State, context: string)

  /** The two flags of TemplateManagerOptions that the dry run consults. */
  datatype Options = Options(skipOverwrite: bool, minimalUpdate: bool)

  /** The location a simulated write returns; nothing is ever opened or written there. */
  datatype TargetHandle = TargetHandle(path: string)

  /**
   What the manager is given and never changes: its options, the files that
   exist on disk, and the resolution of a file to its absolute path.
   */
  datatype Environment = Environment(options: Options, existing: set<string>, absolutePath: string -> string)

  /** The mutable part of a manager: status table, captured template data, capture flag. */
  datatype Snapshot<V> = Snapshot(
    statusMap: map<string, DryRunStatus>,
    captured: map<string, map<string, V>>,
    recordTemplateData: bool)

  /** One call into the manager, as the generator makes it. */
  datatype Call<V> =
    | WriteTemplate(data: map<string, V>, template: string, target: string)
    | WriteToFile(filename: string, contents: seq<bv8>)
    | Ignore(path: string, context: string)
    | Skip(path: string, context: string)
    | ReportError(path: string, context: string)
    | EnableCapturing

  /** The explanation recorded when overwrite protection stops a write. */
  const SkipOverwriteContext: string := "File exists and skip overwrite option is enabled."

  /** The context of a status built from a path alone. */
  const NoContext: string := ""

  /** The placeholder payload that a template write passes on ("dummy" in UTF-8). */
  const Dummy: seq<bv8> := [0x64, 0x75, 0x6d, 0x6d, 0x79]

  /**
   The status a simulated write of `path` records. Overwrite protection wins
   over minimal update, and only matters when the file exists; minimal update
   applies whether or not the file exists.
   */
  function DecideWrite(path: string, fileExists: bool, options: Options): (status: DryRunStatus)
    ensures status.path == path
    ensures status.state == SkippedOverwrite <==> fileExists && options.skipOverwrite
    ensures status.state == WriteIfNewer <==> !(fileExists && options.skipOverwrite) && options.minimalUpdate
    ensures status.state == Write <==> !(fileExists && options.skipOverwrite) && !options.minimalUpdate
    ensures status.context == if status.state == SkippedOverwrite then SkipOverwriteContext else NoContext
  {
    if fileExists then
      if options.skipOverwrite then DryRunStatus(path, SkippedOverwrite, SkipOverwriteContext)
      else if options.minimalUpdate then DryRunStatus(path, WriteIfNewer, NoContext)
      else DryRunStatus(path, Write, NoContext)
    else if options.minimalUpdate then DryRunStatus(path, WriteIfNewer, NoContext)
    else DryRunStatus(path, Write, NoContext)
  }

  /** The key of the status table that a call replaces. */
  function Target<V>(env: Environment, call: Call<V>): string
    requires !call.EnableCapturing?
  {
    match call
    case WriteTemplate(_, _, target) => env.absolutePath(target)
    case WriteToFile(filename, _) => filename
    case Ignore(path, _) => path
    case Skip(path, _) => path
    case ReportError(path, _) => path
  }

  /** The status record a call stores under its target. */
  function Recorded<V>(env: Environment, call: Call<V>): DryRunStatus
    requires !call.EnableCapturing?
  {
    match call
    case WriteTemplate(_, _, _) =>
      var file := env.absolutePath(call.target);
      DecideWrite(file, file in env.existing, env.options)
    case WriteToFile(filename, _) => DecideWrite(filename, filename in env.existing, env.options)
    case Ignore(path, context) => DryRunStatus(path, Ignored, context)
    case Skip(path, context) =>
      DryRunStatus(path, if env.options.skipOverwrite && path in env.existing then SkippedOverwrite else Skipped, context)
    case ReportError(path, context) => DryRunStatus(path, Error, context)
  }

  /** Whether a call replaces the status entry of `p`. */
  predicate Touches<V>(env: Environment, call: Call<V>, p: string) {
    !call.EnableCapturing? && Target(env, call) == p
  }

  /** Whether a call is a template write whose data would be captured under `p`. */
  predicate WritesTemplateTo<V>(env: Environment, call: Call<V>, p: string) {
    call.WriteTemplate? && env.absolutePath(call.target) == p
  }

  /** The state after one call. */
  function Step<V>(env: Environment, s: Snapshot<V>, call: Call<V>): Snapshot<V> {
    if call.EnableCapturing? then
      s.(recordTemplateData := true)
    else
      var captured :=
        if call.WriteTemplate? && s.recordTemplateData then s.captured[Target(env, call) := call.data]
        else s.captured;
      Snapshot(s.statusMap[Target(env, call) := Recorded(env, call)], captured, s.recordTemplateData)
  }

  /** The state after a sequence of calls on one manager, in order. */
  function Run<V>(env: Environment, s: Snapshot<V>, calls: seq<Call<V>>): Snapshot<V>
    decreases |calls|
  {
    if calls == [] then s else Run(env, Step(env, s, calls[0]), calls[1..])
  }
}
