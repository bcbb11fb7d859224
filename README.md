# Dry-run template manager

A model of openapi-generator's `DryRunTemplateManager`. The generator calls this object once for each candidate output file. It never writes content. For each call it decides what a real write would do. The possible outcomes are write, write only if newer, skip, skip because of overwrite protection, ignore, or error. It files that outcome in a status table keyed by path. When asked to, it also keeps the template input data of each target.

Files:

- `dryrun.dfy`, module `DryRun`, holds the values.
  - `State` models `DryRunStatus.State`. `DryRunStatus` is the record `(path, state, context)`.
  - `Options` models the two flags of `TemplateManagerOptions` that the manager reads.
  - `TargetHandle` is the location a simulated write returns.
  - `DecideWrite` is the write decision of `writeToFile`, lifted into a function.
  - `Step` says what one call does to the manager's state. `Run` does the same for a sequence of calls on one manager.
- `manager.dfy`, module `DryRunManager`, holds the class `DryRunTemplateManager`.
  - The class has the Java fields: `statusMap` (`dryRunStatusMap`), `captured` (`capturedTemplateData`) and `recordTemplateData`.
  - It also has three constants fixed at construction: the options, the set of files that exist on disk, and `absolutePath`, which stands for `File.getAbsolutePath`.
  - Each state-changing method updates the fields in place, as the Java code does. Its `ensures` says its new state is `Step` applied to its old state.
- `lemmas.dfy`, module `DryRunLemmas`, says what each call does and what a whole run guarantees:
  - the capture flag never turns off once set;
  - the last call for a path decides its entry;
  - every entry is filed under its own path;
  - template data is captured only by writes made while capturing is on, and never after the fact.

Modelling choices:

- Existence on disk is membership in a set of strings.
- `Path.toString()` and `Paths.get` are the identity on strings.
- A `File` argument is its path string.
- `getAbsolutePath` is an arbitrary total function, given when the manager is built.
- `DryRunStatus.java` is not part of this model. The context of a status built from a path alone is an assumed value (`NoContext`, see `DryRun.DecideWrite` under "## Left out").

## Model

| member | source | states |
|---|---|---|
| `DryRun.DecideWrite` | modules/openapi-generator/src/main/java/org/openapitools/codegen/DryRunTemplateManager.java:65-81 | The decision table, as if-and-only-if rules. An existing file with skipOverwrite gives SkippedOverwrite. Otherwise minimalUpdate gives WriteIfNewer, whether or not the file exists. Otherwise the result is Write. The context is the fixed overwrite message exactly for SkippedOverwrite, and empty otherwise. The record's path is the given path. |
| `DryRunManager.DryRunTemplateManager.constructor` | modules/openapi-generator/src/main/java/org/openapitools/codegen/DryRunTemplateManager.java:19-32 | The options are fixed. The status table and the captured table start empty. Capturing starts off. |
| `DryRunManager.DryRunTemplateManager.GetDryRunStatusMap` | modules/openapi-generator/src/main/java/org/openapitools/codegen/DryRunTemplateManager.java:39-41 | Returns the status table itself, as a value the caller cannot change. |
| `DryRunManager.DryRunTemplateManager.Write` | modules/openapi-generator/src/main/java/org/openapitools/codegen/DryRunTemplateManager.java:52-57 | The new state is `Step` of a template write. The method changes only the two tables. It returns the handle of the target's absolute path. |
| `DryRunManager.DryRunTemplateManager.WriteToFile` | modules/openapi-generator/src/main/java/org/openapitools/codegen/DryRunTemplateManager.java:60-85 | The new state is `Step` of writeToFile. Only the status table may change. It returns the handle of `filename`. |
| `DryRunManager.DryRunTemplateManager.Ignore` | modules/openapi-generator/src/main/java/org/openapitools/codegen/DryRunTemplateManager.java:88-95 | The new state is `Step` of ignore. Only the status table may change. |
| `DryRunManager.DryRunTemplateManager.Skip` | modules/openapi-generator/src/main/java/org/openapitools/codegen/DryRunTemplateManager.java:98-104 | The new state is `Step` of skip. Only the status table may change. |
| `DryRunManager.DryRunTemplateManager.Error` | modules/openapi-generator/src/main/java/org/openapitools/codegen/DryRunTemplateManager.java:107-109 | The new state is `Step` of error. Only the status table may change. |
| `DryRunManager.DryRunTemplateManager.EnableTemplateDataCapturing` | modules/openapi-generator/src/main/java/org/openapitools/codegen/DryRunTemplateManager.java:115-118 | Capturing is on afterwards. Only the flag may change. It returns the same manager, builder style. |
| `DryRunManager.DryRunTemplateManager.GetCapturedTemplateData` | modules/openapi-generator/src/main/java/org/openapitools/codegen/DryRunTemplateManager.java:129-131 | Returns the stored data when the path is a key, and the empty map otherwise. It changes nothing. |
| `DryRunLemmas.WriteToFileEffect` | modules/openapi-generator/src/main/java/org/openapitools/codegen/DryRunTemplateManager.java:60-84 | writeToFile upserts exactly the key `filename`, and the entry's path is `filename`. The state follows the decision table. A SkippedOverwrite entry carries the overwrite message. Every other entry, the captured table and the flag are unchanged. The result is the same for any contents. |
| `DryRunLemmas.WriteTemplateEffect` | modules/openapi-generator/src/main/java/org/openapitools/codegen/DryRunTemplateManager.java:52-57 | The status table ends as it would after writeToFile of the absolute target path. When capturing is on, the data is stored under that path. When it is off, the captured table is unchanged. |
| `DryRunLemmas.SkipEffect` | modules/openapi-generator/src/main/java/org/openapitools/codegen/DryRunTemplateManager.java:98-104 | skip records the given context under `path`. The state is SkippedOverwrite exactly when skipOverwrite is on and the file exists, and Skipped otherwise. Nothing else changes. |
| `DryRunLemmas.IgnoreEffect` | modules/openapi-generator/src/main/java/org/openapitools/codegen/DryRunTemplateManager.java:88-95 | ignore records `(path, Ignored, context)` under `path` and touches no other key. The result is the same for every environment: options and existence play no part. |
| `DryRunLemmas.ErrorEffect` | modules/openapi-generator/src/main/java/org/openapitools/codegen/DryRunTemplateManager.java:107-109 | error records `(path, Error, context)` under `path` and touches no other key. The result is the same for every environment. |
| `DryRunLemmas.EnableCapturingEffect` | modules/openapi-generator/src/main/java/org/openapitools/codegen/DryRunTemplateManager.java:115-118 | Enabling sets the flag and leaves both tables alone. Enabling twice is the same as enabling once. |
| `DryRunLemmas.WriteToFileTwice` | modules/openapi-generator/src/main/java/org/openapitools/codegen/DryRunTemplateManager.java:82 | A second writeToFile of the same path leaves the state as the first one left it. The table grows by one entry only if the path was new. |
| `DryRunLemmas.RecordedPath` | modules/openapi-generator/src/main/java/org/openapitools/codegen/DryRunTemplateManager.java:60-109 | The record each call stores names the key it is stored under. |
| `DryRunLemmas.RunCapturingFlag` | modules/openapi-generator/src/main/java/org/openapitools/codegen/DryRunTemplateManager.java:115-118 | After any run, capturing is on exactly when it was on before or some call enabled it. No call ever turns it off. |
| `DryRunLemmas.RunStatusKeys` | modules/openapi-generator/src/main/java/org/openapitools/codegen/DryRunTemplateManager.java:82-108 | A path has an entry after a run exactly when it had one before or some call of the run targeted it. Entries are never removed. |
| `DryRunLemmas.RunKeepsWellKeyed` | modules/openapi-generator/src/main/java/org/openapitools/codegen/DryRunTemplateManager.java:60-109 | A run keeps every entry filed under the key equal to its own path. |
| `DryRunLemmas.RunUntouchedEntry` | modules/openapi-generator/src/main/java/org/openapitools/codegen/DryRunTemplateManager.java:82-108 | Calls that target other paths leave the entry of `p`, or its absence, as it was. |
| `DryRunLemmas.LastCallWins` | modules/openapi-generator/src/main/java/org/openapitools/codegen/DryRunTemplateManager.java:82-108 | After a run, the entry of `p` is the record of the last call that targeted `p`, and its path is `p`. |
| `DryRunLemmas.RunUntouchedCapture` | modules/openapi-generator/src/main/java/org/openapitools/codegen/DryRunTemplateManager.java:53-55 | Calls that write no template to `p` leave its captured data, or its absence, as it was. |
| `DryRunLemmas.NeverWrittenNeverCaptured` | modules/openapi-generator/src/main/java/org/openapitools/codegen/DryRunTemplateManager.java:120-131 | On a fresh manager, a path that no template write targets never gets captured data, so the lookup gives the empty map. |
| `DryRunLemmas.LastCapturedWins` | modules/openapi-generator/src/main/java/org/openapitools/codegen/DryRunTemplateManager.java:53-55 | The captured data of a path is the data passed by the last template write to it, provided capturing was on when that write was made. |
| `DryRunLemmas.NoRetroactiveCapture` | modules/openapi-generator/src/main/java/org/openapitools/codegen/DryRunTemplateManager.java:111-118 | A template write made while capturing is off leaves the captured table as if the write had never happened, whatever the run does later. |
| `DryRunLemmas.NoCaptureWhileDisabled` | modules/openapi-generator/src/main/java/org/openapitools/codegen/DryRunTemplateManager.java:53-55 | While capturing is off and no call enables it, a run leaves the captured table unchanged. |

## Left out

- Real filesystem semantics are not modelled: `File.exists()`, `Paths.get` normalisation and `getAbsolutePath`. Existence is a fixed set of paths and absolute-path resolution is an uninterpreted function. So files that appear or vanish on disk during a run are not modelled.
- `Paths.get` normalisation is modelled as the identity. Line 82 files the entry under the raw `filename`, while the record holds the normalised `Paths.get(filename)`; so in Java "out//a.txt" is filed under "out//a.txt" with record path "out/a.txt". `DryRunLemmas.WellKeyed`, `DryRunLemmas.RecordedPath`, `DryRunLemmas.RunKeepsWellKeyed` and the path clause of `DryRunLemmas.LastCallWins` hold only under this identity.
- `writeToFile` and `write` declare `IOException` but never raise it. `File.exists()` returns false when existence cannot be determined, so an unreadable target is decided as absent. The `existing` set stands for what `File.exists()` reports.
- `DryRunManager.DryRunTemplateManager.WriteToFile` and `DryRunManager.DryRunTemplateManager.Write` take every string as a valid path. In Java, `Paths.get(filename)` (line 61) throws `InvalidPathException` for a string that is not a path, for example one containing NUL. No status entry is then recorded. In `write` the data has already been captured (line 54) before line 56 throws, so the captured table changes and the status table does not. That exception is not modelled.
- The returned `File` is modelled as a `TargetHandle` holding the path, because nothing else about the file object is used.
- The byte payload plays no part in the outcome. It is a parameter, and the template write passes the bytes of "dummy". The model shows that the outcome does not depend on it.
- `DryRunManager.DryRunTemplateManager.GetDryRunStatusMap` returns a snapshot value. `Collections.unmodifiableMap` (line 40) returns a live read-only view, not the immutable copy its comment at line 37 promises. A Java caller holding that view sees every later call; a caller of the model does not.
- `TemplateProcessor` and `TemplateManagerOptions` are external types. They are reduced to the class's method set and the two boolean flags.
- `DryRunStatus` beyond `(path, state, context)` is not part of this model. The stored data map is kept as a value. Java stores a reference, so later changes to that map by the caller would show through. That aliasing is not modelled.
- Thread safety is not modelled. The Java class uses unsynchronised hash maps and is not concurrent.
- The context passed to `skip`, `ignore` and `error` may be null in Java. Here it is a string.
- `DryRun.DecideWrite`: its clause that Write and WriteIfNewer carry the empty context `NoContext` is an assumed value. Java builds those records with the one-argument `DryRunStatus(path)` and `setState`, in `DryRunStatus.java`, which is not part of this model.
