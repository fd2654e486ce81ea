/** The command-line `lambda` command (dist/src/commands/LambdaCommand.js).
    Its argument reads `<command>:<directory>[:<argument>]`. `deploy`
    archives and deploys `RWS-<directory>` through the older Lambda service
    and runs the function's life-cycle hooks around the archiving and the
    deployment. `deploy:modules` pushes only the shared modules archive to
    the file system. `delete` removes the function. */
module LambdaCommand {
  import opened Common
  import opened Cloud
  import opened Packaging
  import LambdaService
  import Legacy = LegacyLambdaService

  // ---------------------------------------------------------------------------
  // getLambdaParameters
  // ---------------------------------------------------------------------------

  /** The parsed command line: `--lambdaString`, the positional argument
      and `--subnetId`. */
  datatype CmdParams = CmdParams(lambdaString: Option<string>, positional: Option<string>, subnetId: Option<string>)

  datatype LambdaParams = LambdaParams(cmd: string, dirName: Option<string>, vpcId: Arg, arg: Option<string>)

  /** What calling `split` on `undefined` throws. */
  const SplitError := Error(TypeErrorCode, "Cannot read properties of undefined (reading 'split')")

  /** `params.lambdaString || params._default`. */
  function LambdaString(p: CmdParams): Option<string> {
    if Truthy(p.lambdaString) then p.lambdaString else p.positional
  }

  /** `getLambdaParameters(params)`. The VPC is `--subnetId` when given and
      otherwise what the default-VPC lookup answers (`defaultVpc`). The
      string splits on `:` into the command, the directory (absent with no
      colon) and an optional argument (only with at least two colons; more
      pieces are dropped). */
  function GetLambdaParameters(p: CmdParams, defaultVpc: Arg): (r: Result<LambdaParams>)
    ensures r.Err? <==> LambdaString(p).None?
    ensures r.Err? ==> r.error == SplitError
    ensures r.Ok? ==> r.value.vpcId == if Truthy(p.subnetId) then Text(p.subnetId.value) else defaultVpc
    ensures r.Ok? ==>
              && ':' !in r.value.cmd
              && (r.value.dirName.Some? ==> ':' !in r.value.dirName.value)
              && (r.value.arg.Some? ==> ':' !in r.value.arg.value && r.value.dirName.Some?)
  {
    var vpcId := if Truthy(p.subnetId) then Text(p.subnetId.value) else defaultVpc;
    match LambdaString(p)
    case None => Err(SplitError)
    case Some(s) =>
      var parts := Split(s, ':');
      Ok(LambdaParams(parts[0],
                      if |parts| > 1 then Some(parts[1]) else None,
                      vpcId,
                      if |parts| > 2 then Some(parts[2]) else None))
  }

  /** The command string the parsed pieces stand for. */
  function Unparse(r: LambdaParams): string {
    match (r.dirName, r.arg)
    case (None, _) => r.cmd
    case (Some(dir), None) => r.cmd + ":" + dir
    case (Some(dir), Some(arg)) => r.cmd + ":" + dir + ":" + arg
  }

  /** Parsing a command string with at most two colons loses nothing. */
  lemma ParseThenUnparse(p: CmdParams, defaultVpc: Arg)
    requires LambdaString(p).Some? && |Split(LambdaString(p).value, ':')| <= 3
    ensures GetLambdaParameters(p, defaultVpc).Ok?
    ensures Unparse(GetLambdaParameters(p, defaultVpc).value) == LambdaString(p).value
  {
    var s := LambdaString(p).value;
    var parts := Split(s, ':');
    JoinSplit(s, ':');
    var r := GetLambdaParameters(p, defaultVpc).value;
    if |parts| == 1 {
      assert Join(parts, ':') == parts[0];
    } else if |parts| == 2 {
      assert Join(parts, ':') == parts[0] + [':'] + Join(parts[1..], ':');
      assert Join(parts[1..], ':') == parts[1];
    } else {
      assert Join(parts, ':') == parts[0] + [':'] + Join(parts[1..], ':');
      assert Join(parts[1..], ':') == parts[1] + [':'] + Join(parts[2..], ':');
      assert Join(parts[2..], ':') == parts[2];
    }
  }

  /** Any command, directory and argument without colons come back out of
      the parse as they went in. */
  lemma UnparseThenParse(r: LambdaParams, subnetId: Option<string>, defaultVpc: Arg)
    requires Unparse(r) != ""
    requires ':' !in r.cmd && (r.dirName.Some? ==> ':' !in r.dirName.value) && (r.arg.Some? ==> ':' !in r.arg.value)
    requires r.arg.Some? ==> r.dirName.Some?
    requires r.vpcId == if Truthy(subnetId) then Text(subnetId.value) else defaultVpc
    ensures GetLambdaParameters(CmdParams(Some(Unparse(r)), None, subnetId), defaultVpc) == Ok(r)
  {
    var parts := match (r.dirName, r.arg)
      case (None, _) => [r.cmd]
      case (Some(dir), None) => [r.cmd, dir]
      case (Some(dir), Some(arg)) => [r.cmd, dir, arg];
    assert forall i :: 0 <= i < |parts| ==> ':' !in parts[i];
    SplitJoin(parts, ':');
    if |parts| == 2 {
      assert Join(parts[1..], ':') == parts[1];
    } else if |parts| == 3 {
      assert Join(parts[2..], ':') == parts[2];
      assert Join(parts[1..], ':') == parts[1] + [':'] + parts[2];
    }
    assert Join(parts, ':') == Unparse(r);
  }

  // ---------------------------------------------------------------------------
  // Life-cycle hooks
  // ---------------------------------------------------------------------------

  datatype Event = PreArchive | PostArchive | PreDeploy | PostDeploy

  /** `lambdasCfg`: the only configured hook is the `artillery` function's
      `preArchive`. */
  predicate HasHook(dirName: Option<string>, e: Event) {
    dirName == Some("artillery") && e == PreArchive
  }

  function ArtillerySource(env: Env): string { env.cwd + "/artillery-config.yml" }
  function ArtilleryTarget(env: Env): string { env.moduleDir + "/lambda-functions/artillery/artillery-config.yml" }

  /** The hook throws a bare string, so the error has no code. */
  const MissingArtilleryConfig := Error("", "Create \"artillery-config.yml\" in your project root directory.")

  /** `fs.copyFileSync(source, target)` for a source that exists. */
  function CopyFile(w: World, source: string, target: string): (w': World)
    ensures w'.calls == w.calls + [FileCopied(source, target)]
    ensures w'.files == w.files + {target}
  {
    Record(w, FileCopied(source, target)).(files := w.files + {target})
  }

  /** The artillery `preArchive` hook: remove a stale config from the
      function directory, then copy the project's config in, or throw when
      the project has none. */
  function ArtilleryPreArchive(env: Env, w: World): (o: Outcome<()>)
    ensures o.result.Ok? <==> ArtillerySource(env) in w.files - {ArtilleryTarget(env)}
    ensures o.result.Ok? ==> ArtilleryTarget(env) in o.world.files
    ensures o.result.Err? ==> o.result.error == MissingArtilleryConfig && ArtilleryTarget(env) !in o.world.files
    ensures o.world.calls == w.calls
              + (if ArtilleryTarget(env) in w.files then [FileRemoved(ArtilleryTarget(env))] else [])
              + (if o.result.Ok? then [FileCopied(ArtillerySource(env), ArtilleryTarget(env))] else [])
    ensures o.world.(files := w.files, calls := w.calls) == w
  {
    var w1 := RemoveIfPresent(w, ArtilleryTarget(env));
    if ArtillerySource(env) !in w1.files then Outcome(w1, Err(MissingArtilleryConfig))
    else Outcome(CopyFile(w1, ArtillerySource(env), ArtilleryTarget(env)), Ok(()))
  }

  /** `executeLambdaLifeCycle(event, dirName, params)`: run the hook if
      one is configured, otherwise do nothing. */
  function RunHook(env: Env, w: World, e: Event, dirName: Option<string>): (o: Outcome<()>)
    ensures !HasHook(dirName, e) ==> o == Outcome(w, Ok(()))
    ensures HasHook(dirName, e) ==> o == ArtilleryPreArchive(env, w)
  {
    if HasHook(dirName, e) then ArtilleryPreArchive(env, w) else Outcome(w, Ok(()))
  }

  /** Only a missing artillery config can make a hook fail. */
  lemma HookFailsOnlyForArtillery(env: Env, w: World, e: Event, dirName: Option<string>)
    ensures RunHook(env, w, e, dirName).result.Err? <==>
              dirName == Some("artillery") && e == PreArchive && ArtillerySource(env) !in w.files - {ArtilleryTarget(env)}
  {
  }

  /** `executeLambdaLifeCycle` for each event in turn, as `deploy` awaits
      them one after the other: an event whose hook throws stops the
      sequence. Answers the outcome and the events that were run. */
  function RunHooks(env: Env, w: World, es: seq<Event>, dirName: Option<string>): (r: (Outcome<()>, seq<Event>))
    ensures r.1 <= es
    ensures r.0.result.Ok? ==> r.1 == es
    ensures r.0.result.Err? ==> |r.1| > 0 && HasHook(dirName, r.1[|r.1| - 1])
    ensures w.calls <= r.0.world.calls
    ensures (forall i :: 0 <= i < |es| ==> !HasHook(dirName, es[i])) ==> r == (Outcome(w, Ok(())), es)
    decreases |es|
  {
    if |es| == 0 then (Outcome(w, Ok(())), [])
    else
      var h := RunHook(env, w, es[0], dirName);
      if h.result.Err? then (h, [es[0]])
      else
        var rest := RunHooks(env, h.world, es[1..], dirName);
        (rest.0, [es[0]] + rest.1)
  }

  // ---------------------------------------------------------------------------
  // deploy
  // ---------------------------------------------------------------------------

  /** `${executionDir}/node_modules/.rws`. */
  function ModuleCfgDir(env: Env): string { env.cwd + "/node_modules/.rws" }

  /** `${moduleDir}/lambda-functions/${lambdaDirName}`. */
  function LambdaDir(env: Env, dirName: Option<string>): string {
    env.moduleDir + "/lambda-functions/" + Show(dirName)
  }

  /** The deployed function's name: `'RWS-' + lambdaDirName`. */
  function DeployedName(dirName: Option<string>): string { "RWS-" + Show(dirName) }

  /** The `preArchive` hook, then the older service's archiving; a hook
      failure stops before any archive is made. */
  function Prepare(env: Env, w: World, dirName: Option<string>): (o: Outcome<PackagePaths>)
    ensures var h := RunHook(env, w, PreArchive, dirName);
            && (h.result.Err? ==> o == Outcome(h.world, Err(h.result.error)))
            && (h.result.Ok? ==> o.world.calls == h.world.calls + Legacy.ArchiveCalls(env.cwd, h.world.files, LambdaDir(env, dirName), ModuleCfgDir(env)))
    ensures w.calls <= o.world.calls
  {
    var h := RunHook(env, w, PreArchive, dirName);
    if h.result.Err? then Outcome(h.world, Err(h.result.error))
    else Legacy.ArchiveLambda(h.world, env.cwd, LambdaDir(env, dirName), ModuleCfgDir(env))
  }

  /** A directory name without slashes names the app archive. */
  lemma PreparePaths(env: Env, w: World, dirName: Option<string>)
    requires Show(dirName) != "" && '/' !in Show(dirName)
    ensures Prepare(env, w, dirName).result.Ok? ==>
              Prepare(env, w, dirName).result.value == DeterminePackagePaths(dirName, ModuleCfgDir(env))
  {
    LastSegmentAfterSlash(env.moduleDir + "/lambda-functions", Show(dirName));
    assert LambdaDir(env, dirName) == env.moduleDir + "/lambda-functions" + "/" + Show(dirName);
    assert AppArchiveName(Some(Show(dirName))) == AppArchiveName(dirName);
  }

  /** The stages of a deployment, in the order the command runs them. */
  datatype Stage = Hook(event: Event) | Archive | DeployFunction(name: string, ok: bool)

  function HookStages(es: seq<Event>): (r: seq<Stage>)
    ensures |r| == |es| && forall i :: 0 <= i < |es| ==> r[i] == Hook(es[i])
  {
    seq(|es|, i requires 0 <= i < |es| => Hook(es[i]))
  }

  /** The stages after the archiving when the deploy step ended `ok`: the
      `postArchive` and `preDeploy` hooks, the deployment, and the
      `postDeploy` hook only after a successful deployment. */
  function AfterArchive(name: string, ok: bool): seq<Stage> {
    [Hook(PostArchive), Hook(PreDeploy), DeployFunction(name, ok)]
    + (if ok then [Hook(PostDeploy)] else [])
  }

  /** Every stage of a deployment whose deploy step ended `ok`. */
  function Plan(name: string, ok: bool): seq<Stage> {
    [Hook(PreArchive), Archive] + AfterArchive(name, ok)
  }

  /** The modules path `deploy:modules` uses. */
  function ModulesPath(env: Env): string {
    JoinPath(ModuleCfgDir(env), "lambda/" + Legacy.ModulesKey)
  }

  /** `deploy:modules` as written: look up the file system with the VPC,
      then call the older `deployModules` with the arguments shifted by one:
      the file system id lands in the function-name slot, the VPC in the
      file-system slot and `true` in the subnet slot. */
  method DeployModulesCommand(env: Env, w: World, vpcId: Arg) returns (o: Outcome<()>, d: seq<Call>)
    ensures o.world.calls == w.calls + d
    ensures d <= [EfsEnsured(EfsName, [vpcId])] + Legacy.ModulesTrace(env, w, vpcId, Flag(true))
    ensures o.result.Ok? ==> d == [EfsEnsured(EfsName, [vpcId])] + Legacy.ModulesTrace(env, w, vpcId, Flag(true))
    ensures o.world.functions == w.functions
  {
    var e := GetOrCreateEfs(env, w, [vpcId]);
    if e.result.Err? {
      return Outcome(e.world, Err(e.result.error)), [EfsEnsured(EfsName, [vpcId])];
    }
    var m, dm := Legacy.DeployModules(env, e.world, ModulesPath(env), Text(e.result.value.0), vpcId, Flag(true));
    LambdaService.Chain(w.calls, [EfsEnsured(EfsName, [vpcId])], dm);
    LambdaService.PrefixPrepend([EfsEnsured(EfsName, [vpcId])], dm, Legacy.ModulesTrace(env, w, vpcId, Flag(true)));
    o, d := m, [EfsEnsured(EfsName, [vpcId])] + dm;
  }

  lemma Suffix(a: seq<Call>, c: seq<Call>)
    ensures a <= a + c && (a + c)[|a|..] == c
  {
  }

  /** The `try` block of `deploy`: the older deployment, then the
      `postDeploy` hook after a success. Errors of either are caught and
      logged, so the step always succeeds; `ok` tells whether the deployment
      went through, which is when every call of the reference trace was made
      and the function became active. */
  method DeployCaught(env: Env, w: World, dir: Option<string>, paths: PackagePaths, vpcId: Arg)
    returns (o: Outcome<()>, d: seq<Call>, ok: bool, stages: seq<Stage>)
    ensures o.world.calls == w.calls + d && o.result == Ok(())
    ensures var name := DeployedName(dir);
            && d <= Legacy.Trace(env, w, name, vpcId, false)
            && (ok <==> d == Legacy.Trace(env, w, name, vpcId, false) && LambdaService.BecomesActive(env, w, name))
            && (ok ==> name in o.world.functions && o.world.functions[name].code == CodeLocation(env.bucket, LambdaService.CodeKey(name)))
            && SameExcept(w.functions, o.world.functions, {name})
    ensures stages == [DeployFunction(DeployedName(dir), ok)] + (if ok then [Hook(PostDeploy)] else [])
  {
    var name := DeployedName(dir);
    var dl;
    dl, d := Legacy.DeployLambda(env, w, name, paths, vpcId, false);
    ok := dl.result.Ok?;
    o, stages := Outcome(dl.world, Ok(())), [DeployFunction(name, ok)];
    if ok {
      var h := RunHook(env, dl.world, PostDeploy, dir);
      o, stages := Outcome(h.world, Ok(())), stages + [Hook(PostDeploy)];
    }
  }

  /** `deploy:<directory>` for any other directory: the `preArchive` hook and
      the archiving, the `postArchive` and `preDeploy` hooks, whose errors
      propagate, then the deployment and the `postDeploy` hook, whose errors
      are caught and logged, so the command succeeds once that step is
      reached. */
  method DeployFunctionCommand(env: Env, w: World, dir: Option<string>, vpcId: Arg)
    returns (o: Outcome<()>, d: seq<Call>, stages: seq<Stage>)
    ensures o.world.calls == w.calls + d
    ensures var pr := Prepare(env, w, dir);
            var name := DeployedName(dir);
            && (stages <= Plan(name, true) || stages == Plan(name, false))
            && (pr.result.Err? ==> o == Outcome(pr.world, Err(pr.result.error)) && stages <= [Hook(PreArchive), Archive])
            && (pr.result.Ok? ==>
                  && o.result.Ok? && |stages| >= 5
                  && pr.world.calls <= o.world.calls
                  && o.world.calls[|pr.world.calls|..] <= Legacy.Trace(env, pr.world, name, vpcId, false)
                  && (stages == Plan(name, true) <==>
                        o.world.calls[|pr.world.calls|..] == Legacy.Trace(env, pr.world, name, vpcId, false)
                        && LambdaService.BecomesActive(env, pr.world, name))
                  && (stages == Plan(name, true) ==>
                        name in o.world.functions && o.world.functions[name].code == CodeLocation(env.bucket, LambdaService.CodeKey(name))))
  {
    var pr := Prepare(env, w, dir);
    var dp := pr.world.calls[|w.calls|..];
    assert pr.world.calls == w.calls + dp;
    if pr.result.Err? {
      stages := if RunHook(env, w, PreArchive, dir).result.Err? then [Hook(PreArchive)] else [Hook(PreArchive), Archive];
      return Outcome(pr.world, Err(pr.result.error)), dp, stages;
    }
    var dd, rest;
    o, dd, rest := ArchivedThenDeploy(env, pr.world, dir, pr.result.value, vpcId);
    stages := [Hook(PreArchive), Archive] + rest;
    LambdaService.Chain(w.calls, dp, dd);
    Suffix(pr.world.calls, dd);
    d := dp + dd;
  }

  /** The part of `deploy:<directory>` after the archiving: the
      `postArchive` and `preDeploy` hooks, whose errors propagate, then the
      caught deployment. No configured hook runs for these events, so the
      step succeeds. */
  method ArchivedThenDeploy(env: Env, w: World, dir: Option<string>, paths: PackagePaths, vpcId: Arg)
    returns (o: Outcome<()>, d: seq<Call>, stages: seq<Stage>)
    ensures o.world.calls == w.calls + d && o.result.Ok?
    ensures var name := DeployedName(dir);
            && (stages == AfterArchive(name, true) || stages == AfterArchive(name, false))
            && d <= Legacy.Trace(env, w, name, vpcId, false)
            && (stages == AfterArchive(name, true) <==>
                  d == Legacy.Trace(env, w, name, vpcId, false) && LambdaService.BecomesActive(env, w, name))
            && (stages == AfterArchive(name, true) ==>
                  name in o.world.functions && o.world.functions[name].code == CodeLocation(env.bucket, LambdaService.CodeKey(name)))
  {
    var hs := RunHooks(env, w, [PostArchive, PreDeploy], dir);
    stages := HookStages(hs.1);
    if hs.0.result.Err? {
      // Not reached: neither event has a configured hook.
      return hs.0, d, stages;
    }
    var ok, rest;
    o, d, ok, rest := DeployCaught(env, hs.0.world, dir, paths, vpcId);
    stages := stages + rest;
    assert stages == AfterArchive(DeployedName(dir), ok);
  }

  /** `deploy(params)`: the modules branch or a function deployment. */
  method Deploy(env: Env, w: World, p: CmdParams, defaultVpc: Arg)
    returns (o: Outcome<()>, d: seq<Call>, stages: seq<Stage>)
    ensures o.world.calls == w.calls + d
    ensures GetLambdaParameters(p, defaultVpc).Err? ==> o == Outcome(w, Err(SplitError)) && d == [] && stages == []
    ensures var r := GetLambdaParameters(p, defaultVpc);
            r.Ok? && r.value.dirName == Some("modules") ==>
              && stages == []
              && d <= [EfsEnsured(EfsName, [r.value.vpcId])] + Legacy.ModulesTrace(env, w, r.value.vpcId, Flag(true))
              && (o.result.Ok? ==> d == [EfsEnsured(EfsName, [r.value.vpcId])] + Legacy.ModulesTrace(env, w, r.value.vpcId, Flag(true)))
    ensures var r := GetLambdaParameters(p, defaultVpc);
            r.Ok? && r.value.dirName != Some("modules") ==>
              var pr := Prepare(env, w, r.value.dirName);
              var name := DeployedName(r.value.dirName);
              && (o.result.Ok? <==> pr.result.Ok?)
              && (stages <= Plan(name, true) || stages == Plan(name, false))
              && (pr.result.Ok? ==>
                    && pr.world.calls <= o.world.calls
                    && (stages == Plan(name, true) <==>
                       o.world.calls[|pr.world.calls|..] == Legacy.Trace(env, pr.world, name, r.value.vpcId, false)
                       && LambdaService.BecomesActive(env, pr.world, name)))
  {
    var r := GetLambdaParameters(p, defaultVpc);
    if r.Err? {
      return Outcome(w, Err(r.error)), [], [];
    }
    if r.value.dirName == Some("modules") {
      o, d := DeployModulesCommand(env, w, r.value.vpcId);
      stages := [];
    } else {
      o, d, stages := DeployFunctionCommand(env, w, r.value.dirName, r.value.vpcId);
    }
  }

  // ---------------------------------------------------------------------------
  // delete
  // ---------------------------------------------------------------------------

  /** What calling the missing `deleteLambda` throws. */
  const DeleteMissing := Error(TypeErrorCode, "LambdaService_1.default.deleteLambda is not a function")

  /** `delete(params)` as written: the older service it calls has no
      `deleteLambda`, so every delete throws a `TypeError` and nothing is
      removed. */
  function Delete(w: World, p: CmdParams, defaultVpc: Arg): (o: Outcome<()>)
    ensures o.world == w
    ensures o.result.Err?
    ensures o.result.error == if LambdaString(p).None? then SplitError else DeleteMissing
  {
    match GetLambdaParameters(p, defaultVpc)
    case Err(e) => Outcome(w, Err(e))
    case Ok(_) => Outcome(w, Err(DeleteMissing))
  }

  /** `delete(params)` as evidently intended: delete `RWS-<directory>` with
      the current service's `deleteLambda`. */
  function DeleteIntended(env: Env, w: World, p: CmdParams, defaultVpc: Arg): (o: Outcome<()>)
    ensures LambdaString(p).None? ==> o == Outcome(w, Err(SplitError))
    ensures var r := GetLambdaParameters(p, defaultVpc);
            r.Ok? ==>
              var name := DeployedName(r.value.dirName);
              && o.world.calls == w.calls + [Deleted(name)]
              && (o.result.Ok? <==> DeleteFunction !in env.failing && name in w.functions)
              && (o.result.Ok? ==> name !in o.world.functions)
              && SameExcept(w.functions, o.world.functions, {name})
  {
    match GetLambdaParameters(p, defaultVpc)
    case Err(e) => Outcome(w, Err(e))
    case Ok(r) => LambdaService.DeleteLambda(env, w, DeployedName(r.dirName))
  }

  /** The deletion a user asks for never happens as written, while the
      intended command removes the function. */
  lemma DeleteNeverDeletes(env: Env, w: World, dir: string, defaultVpc: Arg)
    requires "RWS-" + dir in w.functions && DeleteFunction !in env.failing
    requires ':' !in dir
    ensures var p := CmdParams(Some("delete:" + dir), None, None);
            && Delete(w, p, defaultVpc) == Outcome(w, Err(DeleteMissing))
            && "RWS-" + dir in Delete(w, p, defaultVpc).world.functions
            && DeleteIntended(env, w, p, defaultVpc).result.Ok?
            && "RWS-" + dir !in DeleteIntended(env, w, p, defaultVpc).world.functions
  {
    var r := LambdaParams("delete", Some(dir), defaultVpc, None);
    assert Unparse(r) == "delete:" + dir;
    UnparseThenParse(r, None, defaultVpc);
  }

  // ---------------------------------------------------------------------------
  // deploy:modules as intended
  // ---------------------------------------------------------------------------

  /** The modules step under the signature the command was written against,
      `deployModules(layerPath, efsId, subnetId, force)`: with `force` the
      cached key is ignored and the archive uploaded again. */
  function IntendedModulesTrace(env: Env, w: World, efsId: Arg, subnetId: Arg, force: bool): seq<Call> {
    if force then
      [Uploaded(env.bucket, Legacy.ModulesKey), VarSet(LambdaService.CacheKey, Legacy.ModulesKey),
       LegacyEfsUploaded(efsId, Legacy.ModulesKey, env.bucket, subnetId)]
    else Legacy.ModulesTrace(env, w, efsId, subnetId)
  }

  method DeployModulesIntended(env: Env, w: World, layerPath: string, efsId: Arg, subnetId: Arg, force: bool)
    returns (o: Outcome<()>, d: seq<Call>)
    ensures o.world.calls == w.calls + d
    ensures d <= IntendedModulesTrace(env, w, efsId, subnetId, force)
    ensures o.result.Ok? ==> d == IntendedModulesTrace(env, w, efsId, subnetId, force)
    ensures force && o.result.Ok? ==> o.world.vars == w.vars[LambdaService.CacheKey := Legacy.ModulesKey]
    ensures force && layerPath !in w.files ==> o == Outcome(w, Err(Missing(layerPath))) && d == []
    ensures o.world.(vars := w.vars, calls := w.calls) == w
  {
    if !force {
      o, d := Legacy.DeployModules(env, w, layerPath, Text(""), efsId, subnetId);
      return;
    }
    if layerPath !in w.files {
      return Outcome(w, Err(Missing(layerPath))), [];
    }
    var u := UploadObject(env, w, Legacy.ModulesKey);
    if u.result.Err? {
      return Outcome(u.world, Err(u.result.error)), [Uploaded(env.bucket, Legacy.ModulesKey)];
    }
    var w2 := SetVar(u.world, LambdaService.CacheKey, u.result.value);
    o := Legacy.UploadToEfs(env, w2, efsId, u.result.value, env.bucket, subnetId);
    d := [Uploaded(env.bucket, Legacy.ModulesKey), VarSet(LambdaService.CacheKey, Legacy.ModulesKey),
          LegacyEfsUploaded(efsId, Legacy.ModulesKey, env.bucket, subnetId)];
  }

  /** `deploy:modules` as evidently intended: the file system's own id and
      the VPC's subnet reach the hand-over, and the archive is always
      uploaded afresh. */
  method DeployModulesCommandIntended(env: Env, w: World, p: CmdParams, defaultVpc: Arg)
    returns (o: Outcome<()>, d: seq<Call>)
    requires GetLambdaParameters(p, defaultVpc).Ok? && GetLambdaParameters(p, defaultVpc).value.dirName == Some("modules")
    ensures o.world.calls == w.calls + d
    ensures var vpcId := GetLambdaParameters(p, defaultVpc).value.vpcId;
            o.result.Ok? ==>
              d == [EfsEnsured(EfsName, [vpcId]), Uploaded(env.bucket, Legacy.ModulesKey),
                    VarSet(LambdaService.CacheKey, Legacy.ModulesKey),
                    LegacyEfsUploaded(Text(w.efs.id), Legacy.ModulesKey, env.bucket, vpcId)]
  {
    var vpcId := GetLambdaParameters(p, defaultVpc).value.vpcId;
    var e := GetOrCreateEfs(env, w, [vpcId]);
    if e.result.Err? {
      return Outcome(e.world, Err(e.result.error)), [EfsEnsured(EfsName, [vpcId])];
    }
    var m, dm := DeployModulesIntended(env, e.world, ModulesPath(env), Text(e.result.value.0), vpcId, true);
    LambdaService.Chain(w.calls, [EfsEnsured(EfsName, [vpcId])], dm);
    o, d := m, [EfsEnsured(EfsName, [vpcId])] + dm;
  }

  /** As written, the hand-over of `deploy:modules` names the VPC as the
      file system and `true` as the subnet. */
  lemma ModulesArgumentsShifted(env: Env, w: World, vpcId: string)
    ensures var t := Legacy.ModulesTrace(env, w, Text(vpcId), Flag(true));
            && t[|t| - 1].LegacyEfsUploaded?
            && t[|t| - 1].efsId == Text(vpcId)
            && t[|t| - 1].subnetId == Flag(true)
            && (vpcId != w.efs.id ==> t[|t| - 1].efsId != Text(w.efs.id))
  {
  }

  // ---------------------------------------------------------------------------
  // execute
  // ---------------------------------------------------------------------------

  /** `execute(params)`: dispatch on the command; an unsupported command is
      reported and nothing happens. Answers the deployment's stages too. */
  method Execute(env: Env, w: World, p: CmdParams, defaultVpc: Arg) returns (o: Outcome<()>, d: seq<Call>, stages: seq<Stage>)
    ensures o.world.calls == w.calls + d
    ensures GetLambdaParameters(p, defaultVpc).Err? ==> o == Outcome(w, Err(SplitError)) && d == [] && stages == []
    ensures var r := GetLambdaParameters(p, defaultVpc);
            r.Ok? && r.value.cmd == "delete" ==> o == Outcome(w, Err(DeleteMissing)) && d == [] && stages == []
    ensures var r := GetLambdaParameters(p, defaultVpc);
            r.Ok? && r.value.cmd != "deploy" && r.value.cmd != "delete" ==> o == Outcome(w, Ok(())) && d == [] && stages == []
    ensures var r := GetLambdaParameters(p, defaultVpc);
            r.Ok? && r.value.cmd == "deploy" && r.value.dirName == Some("modules") ==>
              && stages == []
              && d <= [EfsEnsured(EfsName, [r.value.vpcId])] + Legacy.ModulesTrace(env, w, r.value.vpcId, Flag(true))
              && (o.result.Ok? ==> d == [EfsEnsured(EfsName, [r.value.vpcId])] + Legacy.ModulesTrace(env, w, r.value.vpcId, Flag(true)))
    ensures var r := GetLambdaParameters(p, defaultVpc);
            r.Ok? && r.value.cmd == "deploy" && r.value.dirName != Some("modules") ==>
              var pr := Prepare(env, w, r.value.dirName);
              var name := DeployedName(r.value.dirName);
              && (o.result.Ok? <==> pr.result.Ok?)
              && (stages <= Plan(name, true) || stages == Plan(name, false))
              && (pr.result.Ok? ==>
                    && pr.world.calls <= o.world.calls
                    && (stages == Plan(name, true) <==>
                       o.world.calls[|pr.world.calls|..] == Legacy.Trace(env, pr.world, name, r.value.vpcId, false)
                       && LambdaService.BecomesActive(env, pr.world, name)))
  {
    var r := GetLambdaParameters(p, defaultVpc);
    if r.Err? {
      return Outcome(w, Err(r.error)), [], [];
    }
    if r.value.cmd == "deploy" {
      o, d, stages := Deploy(env, w, p, defaultVpc);
    } else if r.value.cmd == "delete" {
      o, d, stages := Delete(w, p, defaultVpc), [], [];
    } else {
      o, d, stages := Outcome(w, Ok(())), [], [];
    }
  }
}
