/**
 What one call does to the manager's state, and what a whole dry run (a
 sequence of calls on one manager) guarantees: the capture flag latches, the
 last call for a path decides its entry, and template data is captured only
 by writes made while capturing is on.
 */
module DryRunLemmas {
  import opened DryRun

  /** Every status entry is filed under its own path. */
  ghost predicate WellKeyed(statusMap: map<string, DryRunStatus>) {
    forall k | k in statusMap :: statusMap[k].path == k
  }

  // ---------------------------------------------------------------------------
  // One call

  /**
   writeToFile replaces exactly the entry of `filename`, with the decision
   table's outcome; nothing else changes, and the contents play no part.
   */
  lemma WriteToFileEffect<V>(env: Environment, s: Snapshot<V>, filename: string, contents: seq<bv8>)
    ensures var t := Step(env, s, WriteToFile(filename, contents));
      var fileExists, o := filename in env.existing, env.options;
      && t.statusMap.Keys == s.statusMap.Keys + {filename}
      && t.statusMap[filename].path == filename
      && (t.statusMap[filename].state == SkippedOverwrite <==> fileExists && o.skipOverwrite)
      && (t.statusMap[filename].state == WriteIfNewer <==> !(fileExists && o.skipOverwrite) && o.minimalUpdate)
      && (t.statusMap[filename].state == Write <==> !(fileExists && o.skipOverwrite) && !o.minimalUpdate)
      && (t.statusMap[filename].state == SkippedOverwrite ==> t.statusMap[filename].context == SkipOverwriteContext)
      && (forall k | k in s.statusMap && k != filename :: t.statusMap[k] == s.statusMap[k])
      && t.captured == s.captured
      && t.recordTemplateData == s.recordTemplateData
      && (forall other: seq<bv8> :: Step(env, s, WriteToFile(filename, other)) == t)
  {
  }

  /**
   A template write records the same status as writeToFile on the target's
   absolute path, and stores the data under that path exactly when capturing is on.
   */
  lemma WriteTemplateEffect<V>(env: Environment, s: Snapshot<V>, data: map<string, V>, template: string, target: string)
    ensures var t := Step(env, s, WriteTemplate(data, template, target));
      var file := env.absolutePath(target);
      && t.statusMap == Step(env, s, WriteToFile(file, Dummy)).statusMap
      && (s.recordTemplateData ==> file in t.captured && t.captured == s.captured[file := data])
      && (!s.recordTemplateData ==> t.captured == s.captured)
      && t.recordTemplateData == s.recordTemplateData
  {
  }

  /**
   skip records Skipped with the given context, raised to SkippedOverwrite only
   when overwrite protection is on and the file exists; nothing else changes.
   */
  lemma SkipEffect<V>(env: Environment, s: Snapshot<V>, path: string, context: string)
    ensures var t := Step(env, s, Skip(path, context));
      && t.statusMap.Keys == s.statusMap.Keys + {path}
      && t.statusMap[path].path == path
      && t.statusMap[path].context == context
      && (t.statusMap[path].state == SkippedOverwrite <==> env.options.skipOverwrite && path in env.existing)
      && (t.statusMap[path].state == Skipped <==> !(env.options.skipOverwrite && path in env.existing))
      && (forall k | k in s.statusMap && k != path :: t.statusMap[k] == s.statusMap[k])
      && t.captured == s.captured
      && t.recordTemplateData == s.recordTemplateData
  {
  }

  /** ignore records Ignored with the given context, whatever the options and the disk say. */
  lemma IgnoreEffect<V>(env: Environment, s: Snapshot<V>, path: string, context: string)
    ensures var t := Step(env, s, Ignore(path, context));
      && t.statusMap.Keys == s.statusMap.Keys + {path}
      && t.statusMap[path] == DryRunStatus(path, Ignored, context)
      && (forall k | k in s.statusMap && k != path :: t.statusMap[k] == s.statusMap[k])
      && t.captured == s.captured
      && t.recordTemplateData == s.recordTemplateData
      && (forall env': Environment :: Step(env', s, Ignore(path, context)) == t)
  {
  }

  /** error records Error with the given context, whatever the options and the disk say. */
  lemma ErrorEffect<V>(env: Environment, s: Snapshot<V>, path: string, context: string)
    ensures var t := Step(env, s, ReportError(path, context));
      && t.statusMap.Keys == s.statusMap.Keys + {path}
      && t.statusMap[path] == DryRunStatus(path, Error, context)
      && (forall k | k in s.statusMap && k != path :: t.statusMap[k] == s.statusMap[k])
      && t.captured == s.captured
      && t.recordTemplateData == s.recordTemplateData
      && (forall env': Environment :: Step(env', s, ReportError(path, context)) == t)
  {
  }

  /** Enabling capture sets only the flag, and enabling it twice is enabling it once. */
  lemma EnableCapturingEffect<V>(env: Environment, s: Snapshot<V>)
    ensures var t := Step(env, s, EnableCapturing);
      && t.recordTemplateData
      && t.statusMap == s.statusMap
      && t.captured == s.captured
      && Step(env, t, EnableCapturing) == t
  {
  }

  /**
   A second writeToFile of the same path changes nothing more: the ledger
   keeps one entry per path.
   */
  lemma WriteToFileTwice<V>(env: Environment, s: Snapshot<V>, filename: string, first: seq<bv8>, second: seq<bv8>)
    ensures var t := Step(env, s, WriteToFile(filename, first));
      && Step(env, t, WriteToFile(filename, second)) == t
      && |t.statusMap| == if filename in s.statusMap then |s.statusMap| else |s.statusMap| + 1
  {
  }

  /** The record a call stores names the path it is stored under. */
  lemma RecordedPath<V>(env: Environment, call: Call<V>, p: string)
    requires Touches(env, call, p)
    ensures Recorded(env, call).path == p
  {
  }

  // ---------------------------------------------------------------------------
  // A dry run: a sequence of calls on one manager

  /** Running two sequences of calls one after the other is running their concatenation. */
  lemma {:induction false} RunAppend<V>(env: Environment, s: Snapshot<V>, a: seq<Call<V>>, b: seq<Call<V>>)
    ensures Run(env, s, a + b) == Run(env, Run(env, s, a), b)
    decreases |a|
  {
    if a == [] {
      assert a + b == b;
    } else {
      assert (a + b)[0] == a[0];
      assert (a + b)[1..] == a[1..] + b;
      RunAppend(env, Step(env, s, a[0]), a[1..], b);
    }
  }

  /**
   The capture flag is on after a run exactly when it was on before or some call
   of the run enabled it; in particular no call ever turns it off.
   */
  lemma {:induction false} RunCapturingFlag<V>(env: Environment, s: Snapshot<V>, calls: seq<Call<V>>)
    ensures Run(env, s, calls).recordTemplateData
        <==> s.recordTemplateData || exists i | 0 <= i < |calls| :: calls[i].EnableCapturing?
    decreases |calls|
  {
    if calls != [] {
      var rest := calls[1..];
      RunCapturingFlag(env, Step(env, s, calls[0]), rest);
      if exists i | 0 <= i < |rest| :: rest[i].EnableCapturing? {
        var i :| 0 <= i < |rest| && rest[i].EnableCapturing?;
        assert calls[i + 1].EnableCapturing?;
      }
      if exists i | 0 <= i < |calls| :: calls[i].EnableCapturing? {
        var i :| 0 <= i < |calls| && calls[i].EnableCapturing?;
        if i > 0 {
          assert rest[i - 1].EnableCapturing?;
        }
      }
    }
  }

  /** A path has an entry after a run exactly when it had one before or some call of the run touched it. */
  lemma {:induction false} RunStatusKeys<V>(env: Environment, s: Snapshot<V>, calls: seq<Call<V>>, p: string)
    ensures p in Run(env, s, calls).statusMap
        <==> p in s.statusMap || exists i | 0 <= i < |calls| :: Touches(env, calls[i], p)
    decreases |calls|
  {
    if calls != [] {
      var rest := calls[1..];
      RunStatusKeys(env, Step(env, s, calls[0]), rest, p);
      if exists i | 0 <= i < |rest| :: Touches(env, rest[i], p) {
        var i :| 0 <= i < |rest| && Touches(env, rest[i], p);
        assert Touches(env, calls[i + 1], p);
      }
      if exists i | 0 <= i < |calls| :: Touches(env, calls[i], p) {
        var i :| 0 <= i < |calls| && Touches(env, calls[i], p);
        if i > 0 {
          assert Touches(env, rest[i - 1], p);
        }
      }
    }
  }

  /** A run keeps every entry filed under its own path. */
  lemma {:induction false} RunKeepsWellKeyed<V>(env: Environment, s: Snapshot<V>, calls: seq<Call<V>>)
    requires WellKeyed(s.statusMap)
    ensures WellKeyed(Run(env, s, calls).statusMap)
    decreases |calls|
  {
    if calls != [] {
      var t := Step(env, s, calls[0]);
      if !calls[0].EnableCapturing? {
        RecordedPath(env, calls[0], Target(env, calls[0]));
      }
      assert WellKeyed(t.statusMap);
      RunKeepsWellKeyed(env, t, calls[1..]);
    }
  }

  /** Calls that do not touch `p` leave its entry, or its absence, as it was. */
  lemma {:induction false} RunUntouchedEntry<V>(env: Environment, s: Snapshot<V>, calls: seq<Call<V>>, p: string)
    requires forall i | 0 <= i < |calls| :: !Touches(env, calls[i], p)
    ensures p in Run(env, s, calls).statusMap <==> p in s.statusMap
    ensures p in s.statusMap ==> Run(env, s, calls).statusMap[p] == s.statusMap[p]
    decreases |calls|
  {
    if calls != [] {
      assert !Touches(env, calls[0], p);
      var rest := calls[1..];
      assert forall i | 0 <= i < |rest| :: rest[i] == calls[i + 1];
      RunUntouchedEntry(env, Step(env, s, calls[0]), rest, p);
    }
  }

  /** Last call wins: the entry of `p` after a run is the record of the last call that touched `p`. */
  lemma LastCallWins<V>(env: Environment, s: Snapshot<V>, pre: seq<Call<V>>, c: Call<V>, post: seq<Call<V>>, p: string)
    requires Touches(env, c, p)
    requires forall i | 0 <= i < |post| :: !Touches(env, post[i], p)
    ensures p in Run(env, s, pre + [c] + post).statusMap
    ensures Run(env, s, pre + [c] + post).statusMap[p] == Recorded(env, c)
    ensures Run(env, s, pre + [c] + post).statusMap[p].path == p
  {
    RunAppend(env, s, pre + [c], post);
    RunAppend(env, s, pre, [c]);
    var mid := Run(env, s, pre + [c]);
    assert mid == Step(env, Run(env, s, pre), c);
    RunUntouchedEntry(env, mid, post, p);
    RecordedPath(env, c, p);
  }

  /** Calls that write no template to `p` leave its captured data, or its absence, as it was. */
  lemma {:induction false} RunUntouchedCapture<V>(env: Environment, s: Snapshot<V>, calls: seq<Call<V>>, p: string)
    requires forall i | 0 <= i < |calls| :: !WritesTemplateTo(env, calls[i], p)
    ensures p in Run(env, s, calls).captured <==> p in s.captured
    ensures p in s.captured ==> Run(env, s, calls).captured[p] == s.captured[p]
    decreases |calls|
  {
    if calls != [] {
      assert !WritesTemplateTo(env, calls[0], p);
      var rest := calls[1..];
      assert forall i | 0 <= i < |rest| :: rest[i] == calls[i + 1];
      RunUntouchedCapture(env, Step(env, s, calls[0]), rest, p);
    }
  }

  /** A manager starts with nothing captured, so a path no template write targets never has captured data. */
  lemma NeverWrittenNeverCaptured<V>(env: Environment, calls: seq<Call<V>>, p: string)
    requires forall i | 0 <= i < |calls| :: !WritesTemplateTo(env, calls[i], p)
    ensures p !in Run(env, Snapshot(map[], map[], false), calls).captured
  {
    RunUntouchedCapture(env, Snapshot(map[], map[], false), calls, p);
  }

  /**
   The captured data of a path is what the last template write to it passed,
   when capturing was on at the time of that write.
   */
  lemma LastCapturedWins<V>(env: Environment, s: Snapshot<V>, pre: seq<Call<V>>,
                            data: map<string, V>, template: string, target: string, post: seq<Call<V>>)
    requires Run(env, s, pre).recordTemplateData
    requires forall i | 0 <= i < |post| :: !WritesTemplateTo(env, post[i], env.absolutePath(target))
    ensures var t := Run(env, s, pre + [WriteTemplate(data, template, target)] + post);
      env.absolutePath(target) in t.captured && t.captured[env.absolutePath(target)] == data
  {
    var c := WriteTemplate(data, template, target);
    RunAppend(env, s, pre + [c], post);
    RunAppend(env, s, pre, [c]);
    var mid := Run(env, s, pre + [c]);
    assert mid == Step(env, Run(env, s, pre), c);
    RunUntouchedCapture(env, mid, post, env.absolutePath(target));
  }

  /** What a run captures depends only on the captured table and the flag it starts from. */
  lemma {:induction false} RunCaptureDependsOnCaptureState<V>(env: Environment, s1: Snapshot<V>, s2: Snapshot<V>, calls: seq<Call<V>>)
    requires s1.captured == s2.captured && s1.recordTemplateData == s2.recordTemplateData
    ensures Run(env, s1, calls).captured == Run(env, s2, calls).captured
    ensures Run(env, s1, calls).recordTemplateData == Run(env, s2, calls).recordTemplateData
    decreases |calls|
  {
    if calls != [] {
      RunCaptureDependsOnCaptureState(env, Step(env, s1, calls[0]), Step(env, s2, calls[0]), calls[1..]);
    }
  }

  /**
   No retroactive capture: a template write made while capturing is off leaves
   no trace in the captured table, whatever the run does afterwards.
   */
  lemma NoRetroactiveCapture<V>(env: Environment, s: Snapshot<V>, pre: seq<Call<V>>, c: Call<V>, post: seq<Call<V>>)
    requires c.WriteTemplate?
    requires !Run(env, s, pre).recordTemplateData
    ensures Run(env, s, pre + [c] + post).captured == Run(env, s, pre + post).captured
  {
    RunAppend(env, s, pre + [c], post);
    RunAppend(env, s, pre, [c]);
    RunAppend(env, s, pre, post);
    var before := Run(env, s, pre);
    var mid := Run(env, s, pre + [c]);
    assert mid == Step(env, before, c);
    RunCaptureDependsOnCaptureState(env, mid, before, post);
  }

  /** Until capturing is enabled, a run captures nothing. */
  lemma {:induction false} NoCaptureWhileDisabled<V>(env: Environment, s: Snapshot<V>, calls: seq<Call<V>>)
    requires !s.recordTemplateData
    requires forall i | 0 <= i < |calls| :: !calls[i].EnableCapturing?
    ensures Run(env, s, calls).captured == s.captured
    decreases |calls|
  {
    if calls != [] {
      var rest := calls[1..];
      assert forall i | 0 <= i < |rest| :: rest[i] == calls[i + 1];
      NoCaptureWhileDisabled(env, Step(env, s, calls[0]), rest);
    }
  }
}
