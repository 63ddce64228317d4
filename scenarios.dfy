/** End-to-end runs with literal options and their expected traces, on macOS with any
    tool version and extraction directory. */
module Scenarios {
  import opened Results
  import opened ToolLocator
  import opened Arguments
  import opened Orchestrator

  /** Only the input path and the tool version set; every other option unset, every stage off. */
  function Unset(inputPath: string, version: string): Options {
    Options(inputPath, "", false, false, false, [], "", [], "", "", [], [], "", "", "", "", "",
            [], version)
  }

  predicate AlwaysOk(i: nat) { true }

  /** A run whose plan is a single invocation makes that invocation and ends as planned. */
  lemma Completes(o: Options, platform: string, arch: string, destDir: string, plan: seq<Invocation>)
    requires Supported(platform, arch)
    requires Plan(o, Locate(o.rcodesignVersion, platform, arch, destDir).value.exe) == plan
    requires |plan| == 1
    ensures Workflow(platform, arch, destDir, o, AlwaysOk) == (plan, Ending(o))
  {
    LocateSucceedsIff(o.rcodesignVersion, platform, arch, destDir);
    assert Execute(plan, AlwaysOk, 1, Ending(o)) == (plan, Ending(o));
  }

  /** Signing to an explicit output: one invocation, `sign input.bin out.bin`, and the output
      is reported. */
  lemma SignToOutput(version: string, arch: string, destDir: string)
    ensures var o := Unset("input.bin", version).(sign := true, outputPath := "out.bin");
      Workflow("darwin", arch, destDir, o, AlwaysOk)
      == ([Invocation(Locate(version, "darwin", arch, destDir).value.exe, ["sign", "input.bin", "out.bin"])],
          Done("out.bin"))
  {
    var o := Unset("input.bin", version).(sign := true, outputPath := "out.bin");
    assert SignPairs(o) == [];
    assert SignArgs(o) == ["sign", "input.bin", "out.bin"];
    Completes(o, "darwin", arch, destDir, [Invocation(Locate(version, "darwin", arch, destDir).value.exe, SignArgs(o))]);
  }

  /** Notarizing with staple and no signing: one invocation, which staples inline. */
  lemma NotarizeAndStaple(version: string, arch: string, destDir: string)
    ensures var o := Unset("a.bin", version).(notarize := true, staple := true, apiKeyJsonFile := "key.json");
      Workflow("darwin", arch, destDir, o, AlwaysOk)
      == ([Invocation(Locate(version, "darwin", arch, destDir).value.exe,
                      ["notary-submit", "--api-key-file", "key.json", "--staple", "a.bin"])],
          Done("a.bin"))
  {
    var o := Unset("a.bin", version).(notarize := true, staple := true, apiKeyJsonFile := "key.json");
    assert NotarizePairs(o) == [Pair("--api-key-file", "key.json")];
    assert Flatten(NotarizePairs(o)) == ["--api-key-file", "key.json"] + Flatten([]);
    assert NotarizeArgs(o, "a.bin") == ["notary-submit", "--api-key-file", "key.json", "--staple", "a.bin"];
    assert ArtifactPath(o) == "a.bin";
    Completes(o, "darwin", arch, destDir,
              [Invocation(Locate(version, "darwin", arch, destDir).value.exe, NotarizeArgs(o, "a.bin"))]);
  }

  /** Stapling alone: one invocation, `staple a.bin`. */
  lemma StapleOnly(version: string, arch: string, destDir: string)
    ensures var o := Unset("a.bin", version).(staple := true);
      Workflow("darwin", arch, destDir, o, AlwaysOk)
      == ([Invocation(Locate(version, "darwin", arch, destDir).value.exe, ["staple", "a.bin"])],
          Done("a.bin"))
  {
    var o := Unset("a.bin", version).(staple := true);
    assert StapleArgs(o, "a.bin") == ["staple", "a.bin"];
    Completes(o, "darwin", arch, destDir,
              [Invocation(Locate(version, "darwin", arch, destDir).value.exe, StapleArgs(o, "a.bin"))]);
  }
}
