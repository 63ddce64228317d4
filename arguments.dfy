/**
 * The argument lists run() hands to rcodesign for its three stages (src/main.js), as
 * specification functions, and the builder methods that grow each list with pushes in loops
 * as the source does. An unset string option is "", as in the source's truthiness tests.
 */
module Arguments {

  /** The action's inputs, already parsed and typed. */
  datatype Options = Options(
    inputPath: string,
    outputPath: string,
    sign: bool,
    notarize: bool,
    staple: bool,
    configFiles: seq<string>,
    profile: string,
    pemFiles: seq<string>,
    p12File: string,
    p12Password: string,
    certificateDerFiles: seq<string>,
    remoteSignPublicKey: seq<string>,
    remoteSignPublicKeyPemFile: string,
    remoteSignSharedSecret: string,
    apiKeyJsonFile: string,
    apiIssuer: string,
    apiKey: string,
    signArgs: seq<string>,
    rcodesignVersion: string)

  /** One `--flag value` pair, pushed onto an argument list as two elements. */
  datatype Pair = Pair(flag: string, value: string)

  /** One pair per value of a list option, in input order. */
  function Repeated(flag: string, values: seq<string>): seq<Pair> {
    seq(|values|, i requires 0 <= i < |values| => Pair(flag, values[i]))
  }

  /** A scalar option gives a pair only when it is set. */
  function Optional(flag: string, value: string): seq<Pair> {
    if value == "" then [] else [Pair(flag, value)]
  }

  /** The values a scalar option can be read back as: none when unset, itself otherwise. */
  function Present(value: string): seq<string> {
    if value == "" then [] else [value]
  }

  /** The pairs laid out as they are pushed: flag, value, flag, value, ... */
  function Flatten(ps: seq<Pair>): (r: seq<string>)
    ensures |r| == 2 * |ps|
  {
    if ps == [] then [] else [ps[0].flag, ps[0].value] + Flatten(ps[1..])
  }

  /** Reads an argument list back two elements at a time (a trailing odd element is dropped). */
  function Pairing(s: seq<string>): seq<Pair> {
    if |s| < 2 then [] else [Pair(s[0], s[1])] + Pairing(s[2..])
  }

  /** The values given with `flag`, in order. */
  function ValuesOf(ps: seq<Pair>, flag: string): seq<string> {
    if ps == [] then []
    else (if ps[0].flag == flag then [ps[0].value] else []) + ValuesOf(ps[1..], flag)
  }

  /** JavaScript's `lines.join('')`: the lines concatenated with no separator. */
  function Join(lines: seq<string>): string {
    if lines == [] then "" else lines[0] + Join(lines[1..])
  }

  // ---------------------------------------------------------------- the three argument lists

  /** The flag/value pairs of the sign stage, in the source's fixed order. */
  function SignPairs(o: Options): seq<Pair> {
    Repeated("--config-file", o.configFiles)
    + Optional("--profile", o.profile)
    + Repeated("--pem-file", o.pemFiles)
    + Optional("--p12-file", o.p12File)
    + Optional("--p12-password", o.p12Password)
    + Repeated("--certificate-der-file", o.certificateDerFiles)
    + RemoteKeyPair(o)
    + Optional("--remote-public-key-pem-file", o.remoteSignPublicKeyPemFile)
    + Optional("--remote-shared-secret", o.remoteSignSharedSecret)
  }

  /** The positional arguments that close the sign stage: the input, then the output if set. */
  function SignPositional(o: Options): seq<string> {
    [o.inputPath] + Present(o.outputPath)
  }

  function SignArgs(o: Options): seq<string> {
    ["sign"] + Flatten(SignPairs(o)) + o.signArgs + SignPositional(o)
  }

  function NotarizePairs(o: Options): seq<Pair> {
    Repeated("--config-file", o.configFiles)
    + Optional("--api-key-file", o.apiKeyJsonFile)
    + Optional("--api-issuer", o.apiIssuer)
    + Optional("--api-key", o.apiKey)
  }

  /** The one bare flag of notary-submit: staple inline, or wait for the verdict. */
  function NotarizeMode(o: Options): string {
    if o.staple then "--staple" else "--wait"
  }

  function NotarizeArgs(o: Options, signedPath: string): seq<string> {
    ["notary-submit"] + Flatten(NotarizePairs(o)) + [NotarizeMode(o), signedPath]
  }

  function StapleArgs(o: Options, signedPath: string): seq<string> {
    ["staple"] + Flatten(Repeated("--config-file", o.configFiles)) + [signedPath]
  }

  // ---------------------------------------------------------------- lemmas about the pieces

  lemma {:induction false} FlattenAppend(a: seq<Pair>, b: seq<Pair>)
    ensures Flatten(a + b) == Flatten(a) + Flatten(b)
  {
    if a == [] {
      assert a + b == b;
    } else {
      assert (a + b)[1..] == a[1..] + b;
      FlattenAppend(a[1..], b);
    }
  }

  /** Reading a flattened list back in pairs gives the pairs that were pushed. */
  lemma {:induction false} PairingFlatten(ps: seq<Pair>)
    ensures Pairing(Flatten(ps)) == ps
  {
    if ps != [] {
      var s := Flatten(ps);
      assert s[2..] == Flatten(ps[1..]);
      PairingFlatten(ps[1..]);
    }
  }

  lemma {:induction false} ValuesOfAppend(a: seq<Pair>, b: seq<Pair>, f: string)
    ensures ValuesOf(a + b, f) == ValuesOf(a, f) + ValuesOf(b, f)
  {
    if a == [] {
      assert a + b == b;
    } else {
      assert (a + b)[1..] == a[1..] + b;
      ValuesOfAppend(a[1..], b, f);
    }
  }

  /** A repeated list option is read back as the list itself under its own flag, and
      contributes nothing under any other flag. */
  lemma {:induction false} ValuesOfRepeated(g: string, vs: seq<string>, f: string)
    ensures ValuesOf(Repeated(g, vs), f) == if f == g then vs else []
  {
    if vs != [] {
      assert Repeated(g, vs)[1..] == Repeated(g, vs[1..]);
      ValuesOfRepeated(g, vs[1..], f);
    }
  }

  /** A scalar option is read back under its own flag when set, and nowhere else. */
  lemma ValuesOfOptional(g: string, v: string, f: string)
    ensures ValuesOf(Optional(g, v), f) == if f == g then Present(v) else []
  {
    if v != "" {
      assert Optional(g, v)[1..] == [];
    }
  }

  lemma {:induction false} JoinAppend(a: seq<string>, b: seq<string>)
    ensures Join(a + b) == Join(a) + Join(b)
  {
    if a == [] {
      assert a + b == b;
    } else {
      assert (a + b)[1..] == a[1..] + b;
      JoinAppend(a[1..], b);
    }
  }

  /** The total number of characters of the lines. */
  function TotalLength(lines: seq<string>): nat {
    if lines == [] then 0 else |lines[0]| + TotalLength(lines[1..])
  }

  /** `join('')` inserts nothing between the lines: the joined key is exactly as long as the
      lines together, and each line sits in it right after the lines before it. */
  lemma {:induction false} JoinKeepsLines(lines: seq<string>, i: nat)
    requires i < |lines|
    ensures var start := TotalLength(lines[..i]);
      start + |lines[i]| <= |Join(lines)| && Join(lines)[start..start + |lines[i]|] == lines[i]
  {
    JoinLength(lines);
    assert lines == lines[..i] + [lines[i]] + lines[i + 1..];
    JoinAppend(lines[..i] + [lines[i]], lines[i + 1..]);
    JoinAppend(lines[..i], [lines[i]]);
    assert [lines[i]][1..] == [];
    JoinLength(lines[..i]);
  }

  lemma {:induction false} JoinLength(lines: seq<string>)
    ensures |Join(lines)| == TotalLength(lines)
  {
    if lines != [] {
      JoinLength(lines[1..]);
    }
  }

  /** A string that is no flag and no value of any pair does not occur in the flattened list. */
  lemma NotInFlatten(ps: seq<Pair>, x: string)
    requires forall p :: p in ps ==> p.flag != x && p.value != x
    ensures x !in Flatten(ps)
  {
  }

  // ---------------------------------------------------------------- properties of the stages

  /** Each list option of the sign stage of length N is read back from the pairs as exactly
      its N values in input order. */
  lemma SignListOptionsRecovered(o: Options)
    ensures ValuesOf(SignPairs(o), "--config-file") == o.configFiles
    ensures ValuesOf(SignPairs(o), "--pem-file") == o.pemFiles
    ensures ValuesOf(SignPairs(o), "--certificate-der-file") == o.certificateDerFiles
  {
    assert ValuesOf(SignPairs(o), "--config-file") == o.configFiles by {
      SignValues(o, "--config-file");
    }
    assert ValuesOf(SignPairs(o), "--pem-file") == o.pemFiles by {
      SignValues(o, "--pem-file");
    }
    assert ValuesOf(SignPairs(o), "--certificate-der-file") == o.certificateDerFiles by {
      SignValues(o, "--certificate-der-file");
    }
  }

  /** Each scalar option of the sign stage is read back once when set and not at all when unset. */
  lemma SignScalarOptionsRecovered(o: Options)
    ensures ValuesOf(SignPairs(o), "--profile") == Present(o.profile)
    ensures ValuesOf(SignPairs(o), "--p12-file") == Present(o.p12File)
    ensures ValuesOf(SignPairs(o), "--p12-password") == Present(o.p12Password)
    ensures ValuesOf(SignPairs(o), "--remote-public-key-pem-file") == Present(o.remoteSignPublicKeyPemFile)
    ensures ValuesOf(SignPairs(o), "--remote-shared-secret") == Present(o.remoteSignSharedSecret)
  {
    assert ValuesOf(SignPairs(o), "--profile") == Present(o.profile) by {
      SignValues(o, "--profile");
    }
    assert ValuesOf(SignPairs(o), "--p12-file") == Present(o.p12File) by {
      SignValues(o, "--p12-file");
    }
    assert ValuesOf(SignPairs(o), "--p12-password") == Present(o.p12Password) by {
      SignValues(o, "--p12-password");
    }
    assert ValuesOf(SignPairs(o), "--remote-public-key-pem-file") == Present(o.remoteSignPublicKeyPemFile) by {
      SignValues(o, "--remote-public-key-pem-file");
    }
    assert ValuesOf(SignPairs(o), "--remote-shared-secret") == Present(o.remoteSignSharedSecret) by {
      SignValues(o, "--remote-shared-secret");
    }
  }

  /** `--remote-public-key` is given at most once: exactly when there is at least one key
      line, and then with all the lines joined with no separator. */
  lemma RemotePublicKeyOnce(o: Options)
    ensures ValuesOf(SignPairs(o), "--remote-public-key")
            == if |o.remoteSignPublicKey| > 0 then [Join(o.remoteSignPublicKey)] else []
  {
    SignValues(o, "--remote-public-key");
  }

  /** The pair of the remote public key, present when there is at least one line. */
  function RemoteKeyPair(o: Options): seq<Pair> {
    if |o.remoteSignPublicKey| > 0 then [Pair("--remote-public-key", Join(o.remoteSignPublicKey))] else []
  }

  /** What the sign pairs hold under one flag, segment by segment. */
  lemma SignValues(o: Options, f: string)
    ensures ValuesOf(SignPairs(o), f)
         == (if f == "--config-file" then o.configFiles else [])
          + (if f == "--profile" then Present(o.profile) else [])
          + (if f == "--pem-file" then o.pemFiles else [])
          + (if f == "--p12-file" then Present(o.p12File) else [])
          + (if f == "--p12-password" then Present(o.p12Password) else [])
          + (if f == "--certificate-der-file" then o.certificateDerFiles else [])
          + (if f == "--remote-public-key" && |o.remoteSignPublicKey| > 0
             then [Join(o.remoteSignPublicKey)] else [])
          + (if f == "--remote-public-key-pem-file" then Present(o.remoteSignPublicKeyPemFile) else [])
          + (if f == "--remote-shared-secret" then Present(o.remoteSignSharedSecret) else [])
  {
    SignSegments(o, f);
    ValuesOfRepeated("--config-file", o.configFiles, f);
    ValuesOfOptional("--profile", o.profile, f);
    ValuesOfRepeated("--pem-file", o.pemFiles, f);
    ValuesOfOptional("--p12-file", o.p12File, f);
    ValuesOfOptional("--p12-password", o.p12Password, f);
    ValuesOfRepeated("--certificate-der-file", o.certificateDerFiles, f);
    if |o.remoteSignPublicKey| > 0 {
      assert RemoteKeyPair(o)[1..] == [];
    }
    ValuesOfOptional("--remote-public-key-pem-file", o.remoteSignPublicKeyPemFile, f);
    ValuesOfOptional("--remote-shared-secret", o.remoteSignSharedSecret, f);
  }

  /** Reading back distributes over the nine segments of the sign pairs. */
  lemma SignSegments(o: Options, f: string)
    ensures ValuesOf(SignPairs(o), f)
         == ValuesOf(Repeated("--config-file", o.configFiles), f)
          + ValuesOf(Optional("--profile", o.profile), f)
          + ValuesOf(Repeated("--pem-file", o.pemFiles), f)
          + ValuesOf(Optional("--p12-file", o.p12File), f)
          + ValuesOf(Optional("--p12-password", o.p12Password), f)
          + ValuesOf(Repeated("--certificate-der-file", o.certificateDerFiles), f)
          + ValuesOf(RemoteKeyPair(o), f)
          + ValuesOf(Optional("--remote-public-key-pem-file", o.remoteSignPublicKeyPemFile), f)
          + ValuesOf(Optional("--remote-shared-secret", o.remoteSignSharedSecret), f)
  {
    var s1 := Repeated("--config-file", o.configFiles);
    var s2 := Optional("--profile", o.profile);
    var s3 := Repeated("--pem-file", o.pemFiles);
    var s4 := Optional("--p12-file", o.p12File);
    var s5 := Optional("--p12-password", o.p12Password);
    var s6 := Repeated("--certificate-der-file", o.certificateDerFiles);
    var s7 := RemoteKeyPair(o);
    var s8 := Optional("--remote-public-key-pem-file", o.remoteSignPublicKeyPemFile);
    var s9 := Optional("--remote-shared-secret", o.remoteSignSharedSecret);
    ValuesOfAppend(s1, s2, f);
    ValuesOfAppend(s1 + s2, s3, f);
    ValuesOfAppend(s1 + s2 + s3, s4, f);
    ValuesOfAppend(s1 + s2 + s3 + s4, s5, f);
    ValuesOfAppend(s1 + s2 + s3 + s4 + s5, s6, f);
    ValuesOfAppend(s1 + s2 + s3 + s4 + s5 + s6, s7, f);
    ValuesOfAppend(s1 + s2 + s3 + s4 + s5 + s6 + s7, s8, f);
    ValuesOfAppend(s1 + s2 + s3 + s4 + s5 + s6 + s7 + s8, s9, f);
  }

  /** The sign list is `sign`, then the flag/value pairs (read back in pairs they are exactly
      the sign pairs), then the extra arguments verbatim, then the input path and, only when
      an output path is set, the output path, which is then the last element. */
  lemma SignArgsLayout(o: Options)
    ensures var args := SignArgs(o);
      var n := 2 * |SignPairs(o)|;
      var m := |o.signArgs|;
      && |args| == 2 + n + m + (if o.outputPath == "" then 0 else 1)
      && args[0] == "sign"
      && Pairing(args[1..1 + n]) == SignPairs(o)
      && args[1 + n..1 + n + m] == o.signArgs
      && args[1 + n + m] == o.inputPath
      && args[|args| - 1] == (if o.outputPath == "" then o.inputPath else o.outputPath)
  {
    var args := SignArgs(o);
    var n := 2 * |SignPairs(o)|;
    assert args[1..1 + n] == Flatten(SignPairs(o));
    PairingFlatten(SignPairs(o));
  }

  /** The first and last elements of each stage's list: its stage name first, and for
      notary-submit and staple the artifact path last, preceded in notary-submit by the mode
      flag. */
  lemma StageArgsEnds(o: Options, signedPath: string)
    ensures |SignArgs(o)| >= 2 && SignArgs(o)[0] == "sign"
    ensures var args := NotarizeArgs(o, signedPath);
      |args| >= 3 && args[0] == "notary-submit" && args[|args| - 1] == signedPath
      && args[|args| - 2] == (if o.staple then "--staple" else "--wait")
    ensures var args := StapleArgs(o, signedPath);
      |args| >= 2 && args[0] == "staple" && args[|args| - 1] == signedPath
  {
  }

  /** The notary-submit list is `notary-submit`, the pairs of the config files and the API
      credentials, then exactly one bare mode flag, `--staple` when stapling was asked for
      and `--wait` otherwise, and last the artifact path. */
  lemma NotarizeArgsLayout(o: Options, signedPath: string)
    ensures var args := NotarizeArgs(o, signedPath);
      var n := 2 * |NotarizePairs(o)|;
      && |args| == n + 3
      && args[0] == "notary-submit"
      && Pairing(args[1..1 + n]) == NotarizePairs(o)
      && args[1 + n] == (if o.staple then "--staple" else "--wait")
      && args[|args| - 1] == signedPath
  {
    var args := NotarizeArgs(o, signedPath);
    var n := 2 * |NotarizePairs(o)|;
    assert args[1..1 + n] == Flatten(NotarizePairs(o));
    PairingFlatten(NotarizePairs(o));
  }

  /** The options of notary-submit are read back from its pairs: the config files in order,
      each credential once when set (so the API key file whenever it is set), and no pair uses
      either mode flag. */
  lemma NotarizeOptionsRecovered(o: Options)
    ensures ValuesOf(NotarizePairs(o), "--config-file") == o.configFiles
    ensures ValuesOf(NotarizePairs(o), "--api-key-file") == Present(o.apiKeyJsonFile)
    ensures ValuesOf(NotarizePairs(o), "--api-issuer") == Present(o.apiIssuer)
    ensures ValuesOf(NotarizePairs(o), "--api-key") == Present(o.apiKey)
    ensures forall p :: p in NotarizePairs(o) ==> p.flag != "--staple" && p.flag != "--wait"
  {
    assert ValuesOf(NotarizePairs(o), "--config-file") == o.configFiles by {
      NotarizeValues(o, "--config-file");
    }
    assert ValuesOf(NotarizePairs(o), "--api-key-file") == Present(o.apiKeyJsonFile) by {
      NotarizeValues(o, "--api-key-file");
    }
    assert ValuesOf(NotarizePairs(o), "--api-issuer") == Present(o.apiIssuer) by {
      NotarizeValues(o, "--api-issuer");
    }
    assert ValuesOf(NotarizePairs(o), "--api-key") == Present(o.apiKey) by {
      NotarizeValues(o, "--api-key");
    }
    forall p | p in NotarizePairs(o)
      ensures p.flag != "--staple" && p.flag != "--wait"
    {
      NotarizeValues(o, "--staple");
      NotarizeValues(o, "--wait");
      FlagHasValue(NotarizePairs(o), p);
    }
  }

  /** A pair's value is among the values read back under its flag. */
  lemma {:induction false} FlagHasValue(ps: seq<Pair>, p: Pair)
    requires p in ps
    ensures p.value in ValuesOf(ps, p.flag)
  {
    if ps[0] != p {
      FlagHasValue(ps[1..], p);
    }
  }

  /** What the notary-submit pairs hold under one flag, segment by segment. */
  lemma NotarizeValues(o: Options, f: string)
    ensures ValuesOf(NotarizePairs(o), f)
         == (if f == "--config-file" then o.configFiles else [])
          + (if f == "--api-key-file" then Present(o.apiKeyJsonFile) else [])
          + (if f == "--api-issuer" then Present(o.apiIssuer) else [])
          + (if f == "--api-key" then Present(o.apiKey) else [])
  {
    var s1 := Repeated("--config-file", o.configFiles);
    var s2 := Optional("--api-key-file", o.apiKeyJsonFile);
    var s3 := Optional("--api-issuer", o.apiIssuer);
    var s4 := Optional("--api-key", o.apiKey);
    ValuesOfRepeated("--config-file", o.configFiles, f);
    ValuesOfOptional("--api-key-file", o.apiKeyJsonFile, f);
    ValuesOfOptional("--api-issuer", o.apiIssuer, f);
    ValuesOfOptional("--api-key", o.apiKey, f);
    ValuesOfAppend(s1, s2, f);
    ValuesOfAppend(s1 + s2, s3, f);
    ValuesOfAppend(s1 + s2 + s3, s4, f);
  }

  /** When no value handed to notary-submit is itself spelled `--staple` or `--wait`, the list
      holds exactly one of the two: `--staple` once iff stapling was asked for, else `--wait` once. */
  lemma NotarizeStapleXorWait(o: Options, signedPath: string)
    requires forall v :: v in o.configFiles ==> v != "--staple" && v != "--wait"
    requires o.apiKeyJsonFile != "--staple" && o.apiKeyJsonFile != "--wait"
    requires o.apiIssuer != "--staple" && o.apiIssuer != "--wait"
    requires o.apiKey != "--staple" && o.apiKey != "--wait"
    requires signedPath != "--staple" && signedPath != "--wait"
    ensures multiset(NotarizeArgs(o, signedPath))["--staple"] == if o.staple then 1 else 0
    ensures multiset(NotarizeArgs(o, signedPath))["--wait"] == if o.staple then 0 else 1
  {
    NoModeFlagInPairs(o);
    var flat := Flatten(NotarizePairs(o));
    assert multiset(flat)["--staple"] == 0 && multiset(flat)["--wait"] == 0;
    assert NotarizeArgs(o, signedPath) == ["notary-submit"] + flat + [NotarizeMode(o), signedPath];
  }

  /** Under the same condition, neither mode flag occurs among the notary-submit pairs. */
  lemma NoModeFlagInPairs(o: Options)
    requires forall v :: v in o.configFiles ==> v != "--staple" && v != "--wait"
    requires o.apiKeyJsonFile != "--staple" && o.apiKeyJsonFile != "--wait"
    requires o.apiIssuer != "--staple" && o.apiIssuer != "--wait"
    requires o.apiKey != "--staple" && o.apiKey != "--wait"
    ensures "--staple" !in Flatten(NotarizePairs(o)) && "--wait" !in Flatten(NotarizePairs(o))
  {
    var ps := NotarizePairs(o);
    NotarizeOptionsRecovered(o);
    forall p | p in ps
      ensures p.flag != "--staple" && p.flag != "--wait"
      ensures p.value != "--staple" && p.value != "--wait"
    {
      FlagHasValue(ps, p);
      NotarizeValues(o, p.flag);
    }
    NotInFlatten(ps, "--staple");
    NotInFlatten(ps, "--wait");
  }

  /** The staple list is `staple`, one `--config-file` pair per config file in order, and
      the artifact path last. */
  lemma StapleArgsLayout(o: Options, signedPath: string)
    ensures var args := StapleArgs(o, signedPath);
      var n := 2 * |o.configFiles|;
      && |args| == n + 2
      && args[0] == "staple"
      && Pairing(args[1..1 + n]) == Repeated("--config-file", o.configFiles)
      && ValuesOf(Pairing(args[1..1 + n]), "--config-file") == o.configFiles
      && args[|args| - 1] == signedPath
  {
    var args := StapleArgs(o, signedPath);
    var ps := Repeated("--config-file", o.configFiles);
    var n := 2 * |o.configFiles|;
    assert args[1..1 + n] == Flatten(ps);
    PairingFlatten(ps);
    ValuesOfRepeated("--config-file", o.configFiles, "--config-file");
  }

  // ---------------------------------------------------------------- the builders

  /** `for (const v of values) args.push(flag, v)`, on a list that so far holds `head`
      followed by the flattened `pairs`. */
  method PushRepeated(args: seq<string>, flag: string, values: seq<string>,
                      ghost head: seq<string>, ghost pairs: seq<Pair>)
    returns (r: seq<string>)
    requires args == head + Flatten(pairs)
    ensures r == head + Flatten(pairs + Repeated(flag, values))
  {
    r := args;
    assert pairs + Repeated(flag, values[..0]) == pairs;
    for i := 0 to |values|
      invariant r == head + Flatten(pairs + Repeated(flag, values[..i]))
    {
      assert pairs + Repeated(flag, values[..i + 1])
          == (pairs + Repeated(flag, values[..i])) + [Pair(flag, values[i])];
      FlattenAppend(pairs + Repeated(flag, values[..i]), [Pair(flag, values[i])]);
      r := r + [flag, values[i]];
    }
    assert values[..|values|] == values;
  }

  /** `if (value) args.push(flag, value)`, likewise. */
  method PushOptional(args: seq<string>, flag: string, value: string,
                      ghost head: seq<string>, ghost pairs: seq<Pair>)
    returns (r: seq<string>)
    requires args == head + Flatten(pairs)
    ensures r == head + Flatten(pairs + Optional(flag, value))
  {
    FlattenAppend(pairs, Optional(flag, value));
    r := args;
    if value != "" {
      assert Flatten(Optional(flag, value)) == [flag, value] + Flatten([]);
      r := r + [flag, value];
    }
  }

  /** The first part of the sign stage's list: "sign" and the flag/value pairs, pushed in
      the source's order; `pairs` holds what has been pushed after "sign" so far. */
  method BuildSignFlags(o: Options) returns (args: seq<string>)
    ensures args == ["sign"] + Flatten(SignPairs(o))
  {
    ghost var pairs: seq<Pair> := [];
    assert Flatten(pairs) == [];
    args := ["sign"];

    args := PushRepeated(args, "--config-file", o.configFiles, ["sign"], pairs);
    assert pairs + Repeated("--config-file", o.configFiles) == Repeated("--config-file", o.configFiles);
    pairs := Repeated("--config-file", o.configFiles);
    args := PushOptional(args, "--profile", o.profile, ["sign"], pairs);
    pairs := pairs + Optional("--profile", o.profile);
    args := PushRepeated(args, "--pem-file", o.pemFiles, ["sign"], pairs);
    pairs := pairs + Repeated("--pem-file", o.pemFiles);
    args := PushOptional(args, "--p12-file", o.p12File, ["sign"], pairs);
    pairs := pairs + Optional("--p12-file", o.p12File);
    args := PushOptional(args, "--p12-password", o.p12Password, ["sign"], pairs);
    pairs := pairs + Optional("--p12-password", o.p12Password);
    args := PushRepeated(args, "--certificate-der-file", o.certificateDerFiles, ["sign"], pairs);
    pairs := pairs + Repeated("--certificate-der-file", o.certificateDerFiles);

    if |o.remoteSignPublicKey| > 0 {
      assert Flatten(RemoteKeyPair(o)) == ["--remote-public-key", Join(o.remoteSignPublicKey)] + Flatten([]);
      args := args + ["--remote-public-key", Join(o.remoteSignPublicKey)];
    }
    FlattenAppend(pairs, RemoteKeyPair(o));
    pairs := pairs + RemoteKeyPair(o);

    args := PushOptional(args, "--remote-public-key-pem-file", o.remoteSignPublicKeyPemFile, ["sign"], pairs);
    pairs := pairs + Optional("--remote-public-key-pem-file", o.remoteSignPublicKeyPemFile);
    args := PushOptional(args, "--remote-shared-secret", o.remoteSignSharedSecret, ["sign"], pairs);
    pairs := pairs + Optional("--remote-shared-secret", o.remoteSignSharedSecret);
    assert pairs == SignPairs(o);
  }

  /** The sign stage's list: the flags, then `sign_args` one by one, then the positional paths. */
  method BuildSignArgs(o: Options) returns (args: seq<string>)
    ensures args == SignArgs(o)
  {
    args := BuildSignFlags(o);
    ghost var flags := args;
    for i := 0 to |o.signArgs|
      invariant args == flags + o.signArgs[..i]
    {
      args := args + [o.signArgs[i]];
    }
    assert o.signArgs[..|o.signArgs|] == o.signArgs;

    args := args + [o.inputPath];
    if o.outputPath != "" {
      args := args + [o.outputPath];
    }
  }

  /** The notary-submit stage's list for the artifact at `signedPath`. */
  method BuildNotarizeArgs(o: Options, signedPath: string) returns (args: seq<string>)
    ensures args == NotarizeArgs(o, signedPath)
  {
    ghost var pairs: seq<Pair> := [];
    assert Flatten(pairs) == [];
    args := ["notary-submit"];

    args := PushRepeated(args, "--config-file", o.configFiles, ["notary-submit"], pairs);
    pairs := pairs + Repeated("--config-file", o.configFiles);
    args := PushOptional(args, "--api-key-file", o.apiKeyJsonFile, ["notary-submit"], pairs);
    pairs := pairs + Optional("--api-key-file", o.apiKeyJsonFile);
    args := PushOptional(args, "--api-issuer", o.apiIssuer, ["notary-submit"], pairs);
    pairs := pairs + Optional("--api-issuer", o.apiIssuer);
    args := PushOptional(args, "--api-key", o.apiKey, ["notary-submit"], pairs);
    pairs := pairs + Optional("--api-key", o.apiKey);
    assert pairs == NotarizePairs(o);

    if o.staple {
      args := args + ["--staple"];
    } else {
      args := args + ["--wait"];
    }
    args := args + [signedPath];
  }

  /** The staple stage's list for the artifact at `signedPath`. */
  method BuildStapleArgs(o: Options, signedPath: string) returns (args: seq<string>)
    ensures args == StapleArgs(o, signedPath)
  {
    args := ["staple"];
    args := PushRepeated(args, "--config-file", o.configFiles, ["staple"], []);
    assert [] + Repeated("--config-file", o.configFiles) == Repeated("--config-file", o.configFiles);
    args := args + [signedPath];
  }
}
