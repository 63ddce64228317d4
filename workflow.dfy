/**
 * run() in src/main.js: locate the tool, then the sign, notarize and staple stages in order,
 * threading the artifact path (`signedPath`) and whether notarization already stapled
 * (`stapled`) between them. Each `exec.exec` is recorded as an invocation; whether the
 * i-th invocation exits successfully is the oracle `exitOk(i)`. Any thrown error ends the run
 * with no later invocation and no reported output.
 */
module Orchestrator {
  import opened Results
  import opened ToolLocator
  import opened Arguments

  /** One `exec.exec(rcodesign, args)`. */
  datatype Invocation = Invocation(program: string, args: seq<string>)

  /** Why a run failed: an error thrown by the action itself (unsupported platform, missing
      API key), or the rejection of the invocation with the given index in the trace. */
  datatype Error = Thrown(message: string) | ProcessFailed(index: nat)

  /** `core.setOutput('output_path', ...)` on success, `core.setFailed(...)` otherwise. */
  datatype Outcome = Done(outputPath: string) | Failed(error: Error)

  const MissingApiKeyMessage := "App Store Connect API Key not defined; cannot notarize"

  // ---------------------------------------------------------------- reference semantics

  /** The artifact the stages after signing work on, and the reported output: the output
      path when signing wrote one, the input path otherwise. */
  function ArtifactPath(o: Options): string {
    if o.sign && o.outputPath != "" then o.outputPath else o.inputPath
  }

  /** The pre-flight check of the notarize stage fails. */
  predicate MissingApiKey(o: Options) {
    o.notarize && o.apiKeyJsonFile == ""
  }

  /** The invocations a run makes when every one of them succeeds: sign if asked for;
      notary-submit if asked for and the API key file is set; a standalone staple only when
      stapling is asked for without notarization (notarizing with staple staples inline). */
  function Plan(o: Options, exe: string): seq<Invocation> {
    (if o.sign then [Invocation(exe, SignArgs(o))] else [])
    + (if o.notarize && !MissingApiKey(o) then [Invocation(exe, NotarizeArgs(o, ArtifactPath(o)))] else [])
    + (if o.staple && !o.notarize then [Invocation(exe, StapleArgs(o, ArtifactPath(o)))] else [])
  }

  /** How a run ends once every planned invocation has succeeded. */
  function Ending(o: Options): Outcome {
    if MissingApiKey(o) then Failed(Thrown(MissingApiKeyMessage)) else Done(ArtifactPath(o))
  }

  /** Runs the plan from invocation `done` on, stopping at the first one that fails. */
  function Execute(plan: seq<Invocation>, exitOk: nat -> bool, done: nat, ending: Outcome)
    : (seq<Invocation>, Outcome)
    requires done <= |plan|
    decreases |plan| - done
  {
    if done == |plan| then (plan, ending)
    else if !exitOk(done) then (plan[..done + 1], Failed(ProcessFailed(done)))
    else Execute(plan, exitOk, done + 1, ending)
  }

  /** The trace and outcome of run() on the given platform, with the tool extracted under
      `destDir` and the oracle deciding each invocation's exit. */
  function Workflow(platform: string, arch: string, destDir: string, o: Options, exitOk: nat -> bool)
    : (seq<Invocation>, Outcome)
  {
    match Locate(o.rcodesignVersion, platform, arch, destDir)
    case Err(m) => ([], Failed(Thrown(m)))
    case Ok(tool) => Execute(Plan(o, tool.exe), exitOk, 0, Ending(o))
  }

  /** The stage name of each invocation (its first argument). */
  function Stages(trace: seq<Invocation>): seq<string> {
    seq(|trace|, i requires 0 <= i < |trace| => if trace[i].args == [] then "" else trace[i].args[0])
  }

  // ---------------------------------------------------------------- the run itself

  /** Once the tool is located, the run is the execution of the plan for its executable. */
  lemma WorkflowOnceLocated(platform: string, arch: string, destDir: string, o: Options,
                            exitOk: nat -> bool, tool: Tool)
    requires Locate(o.rcodesignVersion, platform, arch, destDir) == Ok(tool)
    ensures Workflow(platform, arch, destDir, o, exitOk) == Execute(Plan(o, tool.exe), exitOk, 0, Ending(o))
  {
  }

  /** `exec.exec(rcodesign, args)` as the next invocation of `plan`: it is recorded, and the
      oracle decides whether it succeeds; on failure the run ends as the plan's execution
      ends, otherwise the execution continues with the next planned invocation. */
  method Exec(trace: seq<Invocation>, exe: string, args: seq<string>, exitOk: nat -> bool,
              ghost plan: seq<Invocation>, ghost ending: Outcome)
    returns (next: seq<Invocation>, ok: bool)
    requires |trace| < |plan| && trace == plan[..|trace|]
    requires plan[|trace|] == Invocation(exe, args)
    ensures next == trace + [Invocation(exe, args)] && next == plan[..|next|]
    ensures ok == exitOk(|trace|)
    ensures !ok ==> Execute(plan, exitOk, |trace|, ending) == (next, Failed(ProcessFailed(|trace|)))
    ensures ok ==> Execute(plan, exitOk, |trace|, ending) == Execute(plan, exitOk, |next|, ending)
  {
    next := trace + [Invocation(exe, args)];
    assert next == plan[..|next|];
    ok := exitOk(|trace|);
  }

  /** run(), with the mutable `signedPath` and `stapled` of the source. */
  method Run(platform: string, arch: string, destDir: string, o: Options, exitOk: nat -> bool)
    returns (trace: seq<Invocation>, outcome: Outcome)
    ensures (trace, outcome) == Workflow(platform, arch, destDir, o, exitOk)
  {
    var located := GetRcodesign(o.rcodesignVersion, platform, arch, destDir);
    if located.Err? {
      return [], Failed(Thrown(located.message));
    }
    var rcodesign := located.value.exe;
    ghost var plan := Plan(o, rcodesign);
    ghost var ending := Ending(o);
    ghost var expected := Execute(plan, exitOk, 0, ending);
    WorkflowOnceLocated(platform, arch, destDir, o, exitOk, located.value);
    trace := [];
    var ok: bool;

    var signedPath := o.inputPath;
    if o.sign {
      var args := BuildSignArgs(o);
      if o.outputPath != "" {
        signedPath := o.outputPath;
      }
      trace, ok := Exec(trace, rcodesign, args, exitOk, plan, ending);
      if !ok {
        return trace, Failed(ProcessFailed(|trace| - 1));
      }
    }
    assert signedPath == ArtifactPath(o);
    assert expected == Execute(plan, exitOk, |trace|, ending);

    var stapled := false;
    if o.notarize {
      if o.apiKeyJsonFile == "" {
        assert trace == plan;
        return trace, Failed(Thrown(MissingApiKeyMessage));
      }
      var args := BuildNotarizeArgs(o, signedPath);
      trace, ok := Exec(trace, rcodesign, args, exitOk, plan, ending);
      if !ok {
        return trace, Failed(ProcessFailed(|trace| - 1));
      }
      if o.staple {
        stapled := true;
      }
    }
    assert expected == Execute(plan, exitOk, |trace|, ending);

    if o.staple && !stapled {
      var args := BuildStapleArgs(o, signedPath);
      trace, ok := Exec(trace, rcodesign, args, exitOk, plan, ending);
      if !ok {
        return trace, Failed(ProcessFailed(|trace| - 1));
      }
    }
    assert trace == plan;

    return trace, Done(signedPath);
  }

  // ---------------------------------------------------------------- properties of a run

  /** Executing a plan records a prefix of it and stops at the first failing invocation:
      every recorded invocation but the last succeeded; the run ends as planned exactly when
      every remaining invocation succeeds, and otherwise with the failure of the last
      recorded one. */
  lemma {:induction false} ExecuteStopsAtFirstFailure(plan: seq<Invocation>, exitOk: nat -> bool,
                                                      done: nat, ending: Outcome)
    requires done <= |plan|
    requires !(ending.Failed? && ending.error.ProcessFailed?)
    decreases |plan| - done
    ensures var (trace, outcome) := Execute(plan, exitOk, done, ending);
      && done <= |trace| <= |plan| && trace == plan[..|trace|]
      && (forall j :: done <= j < |trace| - 1 ==> exitOk(j))
      && (outcome == ending <==> forall j :: done <= j < |plan| ==> exitOk(j))
      && (outcome == ending ==> trace == plan)
      && (outcome != ending ==>
            done < |trace| && !exitOk(|trace| - 1) && outcome == Failed(ProcessFailed(|trace| - 1)))
  {
    if done < |plan| && exitOk(done) {
      ExecuteStopsAtFirstFailure(plan, exitOk, done + 1, ending);
    }
  }

  /** On a platform without a release archive the run fails with the locator's message
      before any invocation. (In the source the error is also thrown before the download is
      started; the download is not part of this model.) */
  lemma UnsupportedPlatformFails(platform: string, arch: string, destDir: string, o: Options,
                                 exitOk: nat -> bool)
    requires !Supported(platform, arch)
    ensures var (trace, outcome) := Workflow(platform, arch, destDir, o, exitOk);
      && trace == []
      && outcome == Failed(Thrown(Locate(o.rcodesignVersion, platform, arch, destDir).message))
  {
    LocateSucceedsIff(o.rcodesignVersion, platform, arch, destDir);
  }

  /** Notarizing without an API key file fails with the configuration error, after at most
      the sign invocation: no notary-submit and no staple invocation is ever made. */
  lemma MissingApiKeyStopsBeforeNotarizing(platform: string, arch: string, destDir: string,
                                          o: Options, exitOk: nat -> bool)
    requires Supported(platform, arch)
    requires o.notarize && o.apiKeyJsonFile == ""
    ensures var (trace, outcome) := Workflow(platform, arch, destDir, o, exitOk);
      && Stages(trace) == (if o.sign then ["sign"] else [])
      && outcome == (if o.sign && !exitOk(0) then Failed(ProcessFailed(0))
                     else Failed(Thrown(MissingApiKeyMessage)))
  {
    LocateSucceedsIff(o.rcodesignVersion, platform, arch, destDir);
    var tool := Locate(o.rcodesignVersion, platform, arch, destDir).value;
    var plan := Plan(o, tool.exe);
    ExecuteStopsAtFirstFailure(plan, exitOk, 0, Ending(o));
    StageArgsEnds(o, ArtifactPath(o));
    if o.sign {
      assert !exitOk(0) ==> Execute(plan, exitOk, 0, Ending(o)).0 == plan;
    }
  }

  /** The stages of the plan: sign, notary-submit and staple in this order, each when enabled,
      except that notary-submit needs the API key file and the standalone staple is dropped
      when notarization staples inline. */
  lemma PlanStages(o: Options, exe: string)
    ensures Stages(Plan(o, exe)) == (if o.sign then ["sign"] else [])
                                    + (if o.notarize && !MissingApiKey(o) then ["notary-submit"] else [])
                                    + (if o.staple && !o.notarize then ["staple"] else [])
  {
    StageArgsEnds(o, ArtifactPath(o));
  }

  /** Every planned invocation runs the given tool; notary-submit and staple end with the
      artifact path; notary-submit carries `--staple` before it when stapling was asked for and
      `--wait` otherwise, and is planned only with an API key file; a standalone staple is
      planned only without notarization. */
  lemma PlannedInvocations(o: Options, exe: string)
    ensures forall inv :: inv in Plan(o, exe) ==>
        && inv.program == exe
        && |inv.args| >= 2
        && (inv.args[0] == "notary-submit" ==>
              && inv.args[|inv.args| - 1] == ArtifactPath(o)
              && inv.args[|inv.args| - 2] == (if o.staple then "--staple" else "--wait")
              && o.apiKeyJsonFile != "")
        && (inv.args[0] == "staple" ==>
              && inv.args[|inv.args| - 1] == ArtifactPath(o)
              && o.staple && !o.notarize)
  {
    var sign := Invocation(exe, SignArgs(o));
    var notarize := Invocation(exe, NotarizeArgs(o, ArtifactPath(o)));
    var staple := Invocation(exe, StapleArgs(o, ArtifactPath(o)));
    forall inv | inv in Plan(o, exe)
      ensures inv == sign || (inv == notarize && o.notarize && !MissingApiKey(o))
              || (inv == staple && o.staple && !o.notarize)
    {
    }
    StageArgsEnds(o, ArtifactPath(o));
  }

  /** When every invocation succeeds, the stages run are exactly the planned ones and the
      reported output is the artifact path. */
  lemma StagesOfSuccessfulRun(platform: string, arch: string, destDir: string, o: Options,
                              exitOk: nat -> bool)
    requires Supported(platform, arch)
    requires !MissingApiKey(o)
    requires forall j :: exitOk(j)
    ensures var (trace, outcome) := Workflow(platform, arch, destDir, o, exitOk);
      && Stages(trace) == (if o.sign then ["sign"] else [])
                          + (if o.notarize then ["notary-submit"] else [])
                          + (if o.staple && !o.notarize then ["staple"] else [])
      && outcome == Done(ArtifactPath(o))
  {
    LocateSucceedsIff(o.rcodesignVersion, platform, arch, destDir);
    var tool := Locate(o.rcodesignVersion, platform, arch, destDir).value;
    ExecuteStopsAtFirstFailure(Plan(o, tool.exe), exitOk, 0, Ending(o));
    PlanStages(o, tool.exe);
  }

  /** What holds of every invocation of every run: it runs the located tool and it is one
      of the planned invocations, with the properties they have. */
  lemma InvocationsOfAnyRun(platform: string, arch: string, destDir: string, o: Options,
                            exitOk: nat -> bool)
    requires Supported(platform, arch)
    ensures var (trace, outcome) := Workflow(platform, arch, destDir, o, exitOk);
      forall inv :: inv in trace ==>
        && inv in Plan(o, Locate(o.rcodesignVersion, platform, arch, destDir).value.exe)
        && inv.program == Locate(o.rcodesignVersion, platform, arch, destDir).value.exe
        && |inv.args| >= 2
        && (inv.args[0] == "notary-submit" ==>
              && inv.args[|inv.args| - 1] == ArtifactPath(o)
              && inv.args[|inv.args| - 2] == (if o.staple then "--staple" else "--wait")
              && o.apiKeyJsonFile != "")
        && (inv.args[0] == "staple" ==>
              && inv.args[|inv.args| - 1] == ArtifactPath(o)
              && o.staple && !o.notarize)
  {
    LocateSucceedsIff(o.rcodesignVersion, platform, arch, destDir);
    var tool := Locate(o.rcodesignVersion, platform, arch, destDir).value;
    var plan := Plan(o, tool.exe);
    ExecuteStopsAtFirstFailure(plan, exitOk, 0, Ending(o));
    PlannedInvocations(o, tool.exe);
    var trace := Execute(plan, exitOk, 0, Ending(o)).0;
    forall inv | inv in trace
      ensures inv in plan
    {
      var k :| 0 <= k < |trace| && trace[k] == inv;
      assert plan[k] == inv;
    }
  }

  /** The output path is reported only on a supported platform, after the whole plan ran with
      every invocation succeeding; it is the output path if signing wrote one and the input
      path otherwise. */
  lemma ReportedOutput(platform: string, arch: string, destDir: string, o: Options,
                       exitOk: nat -> bool)
    ensures var (trace, outcome) := Workflow(platform, arch, destDir, o, exitOk);
      outcome.Done? ==>
        && Supported(platform, arch)
        && trace == Plan(o, Locate(o.rcodesignVersion, platform, arch, destDir).value.exe)
        && outcome.outputPath == (if o.sign && o.outputPath != "" then o.outputPath else o.inputPath)
        && !MissingApiKey(o)
        && (forall j :: 0 <= j < |trace| ==> exitOk(j))
  {
    LocateSucceedsIff(o.rcodesignVersion, platform, arch, destDir);
    match Locate(o.rcodesignVersion, platform, arch, destDir)
    case Err(_) =>
    case Ok(tool) =>
      ExecuteStopsAtFirstFailure(Plan(o, tool.exe), exitOk, 0, Ending(o));
  }

  /** A failing invocation aborts the run: it is the last one recorded, all before it
      succeeded, and nothing is reported. */
  lemma FailureAborts(platform: string, arch: string, destDir: string, o: Options,
                      exitOk: nat -> bool)
    ensures var (trace, outcome) := Workflow(platform, arch, destDir, o, exitOk);
      outcome.Failed? && outcome.error.ProcessFailed? ==>
        && |trace| == outcome.error.index + 1
        && !exitOk(outcome.error.index)
        && (forall j :: 0 <= j < outcome.error.index ==> exitOk(j))
  {
    match Locate(o.rcodesignVersion, platform, arch, destDir)
    case Err(_) =>
    case Ok(tool) =>
      ExecuteStopsAtFirstFailure(Plan(o, tool.exe), exitOk, 0, Ending(o));
  }
}
