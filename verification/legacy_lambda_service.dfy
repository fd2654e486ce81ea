/** The older build of the Lambda service (dist/src/services/LambdaService.js),
    the one the command-line `lambda` command calls. It differs from the
    current service: the modules archive is built next to the app archive,
    the modules step runs on every deployment that uses the file system,
    functions are created with handler `index.js` and no memory or timeout
    settings, there is a single unlabelled wait and no handler correction,
    and the modules upload goes through the older four-argument
    `uploadToEFS` of its own AWS service. */
module LegacyLambdaService {
  import opened Common
  import opened Cloud
  import opened Packaging
  import LambdaService
  import AwsNetwork

  const Handler := "index.js"
  /** The object key the shared modules archive is uploaded under. */
  const ModulesKey := "RWS-modules.zip"
  const NodeModulesIgnore: seq<string> := [".rws/**", ".prisma/**"]

  // ---------------------------------------------------------------------------
  // archiveLambda
  // ---------------------------------------------------------------------------

  /** Where the project's dependencies are archived from. */
  function NodeModules(cwd: string): string { cwd + "/node_modules" }

  /** The calls the older `archiveLambda` makes: create the archive directory
      when missing, archive the project's `node_modules` only when no
      modules archive exists yet, remove a stale app archive, and archive
      the function directory. */
  function ArchiveCalls(cwd: string, files: set<string>, lambdaDirPath: string, moduleCfgDir: string): (d: seq<Call>)
  {
    var p := DeterminePackagePaths(LastSegment(lambdaDirPath), moduleCfgDir);
    var dir := ArchiveDir(moduleCfgDir);
    (if dir in files then [] else [DirMade(dir)])
    + (if p.modules in files then [] else [ArchiveCreated(p.modules, NodeModules(cwd), NodeModulesIgnore)])
    + (if p.app in files then [FileRemoved(p.app)] else [])
    + [ArchiveCreated(p.app, lambdaDirPath, [])]
  }

  /** The older archiving ends with the app archive, builds the modules
      archive exactly when it is missing, and touches only local files. */
  lemma ArchiveCallsShape(cwd: string, files: set<string>, lambdaDirPath: string, moduleCfgDir: string)
    ensures var p := DeterminePackagePaths(LastSegment(lambdaDirPath), moduleCfgDir);
            var d := ArchiveCalls(cwd, files, lambdaDirPath, moduleCfgDir);
            && |d| >= 1 && d[|d| - 1] == ArchiveCreated(p.app, lambdaDirPath, [])
            && CountArchives(d) == (if p.modules in files then 1 else 2)
            && (ArchiveCreated(p.modules, NodeModules(cwd), NodeModulesIgnore) in d <==> p.modules !in files)
            && (p.app in files ==> FileRemoved(p.app) in d)
            && forall i :: 0 <= i < |d| ==> LocalFileCall(d[i])
  {
    var p := DeterminePackagePaths(LastSegment(lambdaDirPath), moduleCfgDir);
    var dir := ArchiveDir(moduleCfgDir);
    var made: seq<Call> := if dir in files then [] else [DirMade(dir)];
    var mods: seq<Call> := if p.modules in files then [] else [ArchiveCreated(p.modules, NodeModules(cwd), NodeModulesIgnore)];
    var removed: seq<Call> := if p.app in files then [FileRemoved(p.app)] else [];
    var last := ArchiveCreated(p.app, lambdaDirPath, []);
    AppArchiveIsNotModulesArchive(LastSegment(lambdaDirPath), moduleCfgDir);
    ArchiveShape(made, mods, removed, last);
    assert ArchiveCalls(cwd, files, lambdaDirPath, moduleCfgDir) == made + mods + removed + [last];
  }

  lemma ArchiveShape(made: seq<Call>, mods: seq<Call>, removed: seq<Call>, last: Call)
    requires |made| <= 1 && |mods| <= 1 && |removed| <= 1 && last.ArchiveCreated?
    requires forall i :: 0 <= i < |made| ==> made[i].DirMade?
    requires forall i :: 0 <= i < |mods| ==> mods[i].ArchiveCreated?
    requires forall i :: 0 <= i < |removed| ==> removed[i].FileRemoved?
    ensures CountArchives(made + mods + removed + [last]) == 1 + |mods|
    ensures forall i :: 0 <= i < |made + mods + removed + [last]| ==> LocalFileCall((made + mods + removed + [last])[i])
    ensures forall c :: c in made + mods + removed + [last] && c.ArchiveCreated? ==> c in mods || c == last
  {
    CountArchivesAppend(made, mods);
    CountArchivesAppend(made + mods, removed);
    CountArchivesAppend(made + mods + removed, [last]);
    assert CountArchives([last]) == 1;
    if |made| == 1 { assert CountArchives(made) == CountArchives(made[1..]); }
    if |mods| == 1 { assert CountArchives(mods) == 1 + CountArchives(mods[1..]); }
    if |removed| == 1 { assert CountArchives(removed) == CountArchives(removed[1..]); }
  }

  /** The modules half of the older `archiveLambda`: archive the project's
      `node_modules` only when no modules archive exists yet. */
  function EnsureModulesArchive(w: World, modules: string, cwd: string): (o: Outcome<string>)
    ensures o.world.calls == w.calls + (if modules in w.files then [] else [ArchiveCreated(modules, NodeModules(cwd), NodeModulesIgnore)])
    ensures o.result.Ok? ==> modules in o.world.files
    ensures forall f :: f != modules ==> (f in o.world.files <==> f in w.files)
    ensures o.world.(files := w.files, calls := w.calls) == w
  {
    if modules in w.files then Outcome(w, Ok(modules))
    else CreateArchive(w, modules, NodeModules(cwd), NodeModulesIgnore)
  }

  /** The older `archiveLambda(lambdaDirPath, moduleCfgDir)`: both archives
      are produced (the modules one only if missing) and both paths are
      returned; a failure of either archive is thrown. */
  function ArchiveLambda(w: World, cwd: string, lambdaDirPath: string, moduleCfgDir: string): (o: Outcome<PackagePaths>)
    ensures o.world.calls == w.calls + ArchiveCalls(cwd, w.files, lambdaDirPath, moduleCfgDir)
    ensures var p := DeterminePackagePaths(LastSegment(lambdaDirPath), moduleCfgDir);
            o.result.Ok? ==> o.result.value == p && p.app in o.world.files && p.modules in o.world.files
    ensures o.world.(files := w.files, calls := w.calls) == w
  {
    var p := DeterminePackagePaths(LastSegment(lambdaDirPath), moduleCfgDir);
    var dir := ArchiveDir(moduleCfgDir);
    assert dir != p.app && dir != p.modules by {
      assert |p.app| > |dir| && |p.modules| > |dir|;
    }
    AppArchiveIsNotModulesArchive(LastSegment(lambdaDirPath), moduleCfgDir);
    var w1 := MakeDirIfMissing(w, dir);
    var m := EnsureModulesArchive(w1, p.modules, cwd);
    var w2 := RemoveIfPresent(m.world, p.app);
    var a := CreateArchive(w2, p.app, lambdaDirPath, []);
    var made: seq<Call> := if dir in w.files then [] else [DirMade(dir)];
    var mods: seq<Call> := if p.modules in w.files then [] else [ArchiveCreated(p.modules, NodeModules(cwd), NodeModulesIgnore)];
    var removed: seq<Call> := if p.app in w.files then [FileRemoved(p.app)] else [];
    assert w1.calls == w.calls + made;
    assert m.world.calls == w.calls + made + mods;
    assert w2.calls == w.calls + made + mods + removed;
    Regroup(w.calls, made, mods, removed, [ArchiveCreated(p.app, lambdaDirPath, [])]);
    Outcome(a.world, if m.result.Err? then Err(m.result.error) else if a.result.Err? then Err(a.result.error) else Ok(p))
  }

  lemma Regroup(log: seq<Call>, a: seq<Call>, b: seq<Call>, c: seq<Call>, e: seq<Call>)
    ensures log + a + b + c + e == log + (a + b + c + e)
  {
  }

  // ---------------------------------------------------------------------------
  // deployModules
  // ---------------------------------------------------------------------------

  /** The older AWS service's `uploadToEFS(efsId, key, bucket, subnetId)`,
      an opaque collaborator here. */
  function UploadToEfs(env: Env, w: World, efsId: Arg, key: string, bucket: string, subnetId: Arg): (o: Outcome<()>)
    ensures o.world == Record(w, LegacyEfsUploaded(efsId, key, bucket, subnetId))
    ensures o.result.Ok? <==> LegacyEfsUpload !in env.failing
  {
    var w1 := Record(w, LegacyEfsUploaded(efsId, key, bucket, subnetId));
    if LegacyEfsUpload in env.failing then Outcome(w1, Err(env.failing[LegacyEfsUpload])) else Outcome(w1, Ok(()))
  }

  /** The calls of the modules step when nothing fails: with a cached key,
      only the hand-over to the file system; otherwise upload the modules
      archive, cache its key, and hand that over. */
  function ModulesTrace(env: Env, w: World, efsId: Arg, subnetId: Arg): seq<Call> {
    match SavedVar(w, LambdaService.CacheKey)
    case Some(key) => [LegacyEfsUploaded(efsId, key, env.bucket, subnetId)]
    case None => [Uploaded(env.bucket, ModulesKey), VarSet(LambdaService.CacheKey, ModulesKey),
                  LegacyEfsUploaded(efsId, ModulesKey, env.bucket, subnetId)]
  }

  /** The older `deployModules(layerPath, functionName, efsId, subnetId)`:
      the cached key is used whenever one is stored (there is no `force`);
      otherwise the archive at `layerPath` is read, uploaded as
      `RWS-modules.zip`, and its key cached. `functionName` is only logged. */
  method DeployModules(env: Env, w: World, layerPath: string, functionName: Arg, efsId: Arg, subnetId: Arg)
    returns (o: Outcome<()>, d: seq<Call>)
    ensures o.world.calls == w.calls + d
    ensures d <= ModulesTrace(env, w, efsId, subnetId)
    ensures o.result.Ok? ==> d == ModulesTrace(env, w, efsId, subnetId)
    ensures o.result.Ok? <==>
              (SavedVar(w, LambdaService.CacheKey).Some? || (layerPath in w.files && Upload !in env.failing))
              && LegacyEfsUpload !in env.failing
    ensures SavedVar(w, LambdaService.CacheKey).None? && layerPath !in w.files ==>
              o == Outcome(w, Err(Missing(layerPath))) && d == []
    ensures o.world.vars ==
              if SavedVar(w, LambdaService.CacheKey).None? && layerPath in w.files && Upload !in env.failing
              then w.vars[LambdaService.CacheKey := ModulesKey] else w.vars
    ensures o.world.(vars := w.vars, calls := w.calls) == w
  {
    var saved := SavedVar(w, LambdaService.CacheKey);
    if saved.Some? {
      o := UploadToEfs(env, w, efsId, saved.value, env.bucket, subnetId);
      d := [LegacyEfsUploaded(efsId, saved.value, env.bucket, subnetId)];
      return;
    }
    if layerPath !in w.files {
      return Outcome(w, Err(Missing(layerPath))), [];
    }
    var u := UploadObject(env, w, ModulesKey);
    if u.result.Err? {
      return Outcome(u.world, Err(u.result.error)), [Uploaded(env.bucket, ModulesKey)];
    }
    var w2 := SetVar(u.world, LambdaService.CacheKey, u.result.value);
    o := UploadToEfs(env, w2, efsId, u.result.value, env.bucket, subnetId);
    d := [Uploaded(env.bucket, ModulesKey), VarSet(LambdaService.CacheKey, ModulesKey),
          LegacyEfsUploaded(efsId, ModulesKey, env.bucket, subnetId)];
  }

  // ---------------------------------------------------------------------------
  // deployLambda
  // ---------------------------------------------------------------------------

  /** The older `createFunction` request: handler `index.js`, the subnet as
      given, the shared mount, and no memory or timeout settings. */
  function CreateRequestFor(env: Env, fn: string, code: CodeLocation, arn: string, subnetId: Arg): CreateRequest {
    CreateRequest(fn, LambdaService.Runtime, env.role, Handler, code, [subnetId], AwsNetwork.ListSecurityGroups(env),
                  [Mount(arn, LambdaService.MountPath)], None, None)
  }

  /** The code part of the older `deployLambda` when nothing fails: upload,
      probe, update or create, one wait without a label. */
  function CodeTrace(env: Env, functions: map<string, FunctionRecord>, fn: string, arn: string, subnetId: Arg): seq<Call> {
    var code := CodeLocation(env.bucket, LambdaService.CodeKey(fn));
    [Uploaded(env.bucket, LambdaService.CodeKey(fn)), Probed(fn)]
    + [if LambdaService.Probe(env, functions, fn) then CodeUpdated(fn, code) else Created(CreateRequestFor(env, fn, code, arn, subnetId))]
    + [AwaitStarted(fn, None)]
  }

  /** The whole older deployment when nothing fails. The file system lookup
      gets only the subnet, and the modules step runs whenever `noEFS` is
      not set, whether or not the file system existed. */
  function Trace(env: Env, w: World, fn: string, subnetId: Arg, noEFS: bool): seq<Call> {
    [BucketChecked(env.bucket), EfsEnsured(EfsName, [subnetId])]
    + (if noEFS then [] else ModulesTrace(env, w, Text(w.efs.id), subnetId))
    + CodeTrace(env, w.functions, fn, w.efs.accessPointArn, subnetId)
  }

  /** The create-or-update step after the probe. */
  method Apply(env: Env, w: World, fn: string, arn: string, subnetId: Arg, found: bool)
    returns (o: Outcome<()>, mid: Call)
    ensures o.world.calls == w.calls + [mid]
    ensures var code := CodeLocation(env.bucket, LambdaService.CodeKey(fn));
            mid == if found then CodeUpdated(fn, code) else Created(CreateRequestFor(env, fn, code, arn, subnetId))
    ensures o.result.Ok? ==>
              fn in o.world.functions &&
              o.world.functions[fn] == FunctionRecord(if fn in w.functions then w.functions[fn].handler else Handler,
                                                      CodeLocation(env.bucket, LambdaService.CodeKey(fn)))
    ensures SameExcept(w.functions, o.world.functions, {fn})
    ensures o.world.(functions := w.functions, calls := w.calls) == w
  {
    var code := CodeLocation(env.bucket, LambdaService.CodeKey(fn));
    if found {
      mid := CodeUpdated(fn, code);
      o := LambdaService.SdkUpdateFunctionCode(env, w, fn, code);
    } else {
      mid := Created(CreateRequestFor(env, fn, code, arn, subnetId));
      o := LambdaService.SdkCreateFunction(env, w, CreateRequestFor(env, fn, code, arn, subnetId));
    }
  }

  /** The code part: upload `<fn>.zip`, probe, then update or create, and
      wait once. */
  method DeployCode(env: Env, w: World, fn: string, arn: string, subnetId: Arg) returns (o: Outcome<()>, d: seq<Call>)
    ensures o.world.calls == w.calls + d
    ensures d <= CodeTrace(env, w.functions, fn, arn, subnetId)
    ensures o.result.Ok? ==> d == CodeTrace(env, w.functions, fn, arn, subnetId)
    ensures o.result.Ok? ==>
              fn in o.world.functions &&
              o.world.functions[fn] == FunctionRecord(if fn in w.functions then w.functions[fn].handler else Handler,
                                                      CodeLocation(env.bucket, LambdaService.CodeKey(fn)))
    ensures d == CodeTrace(env, w.functions, fn, arn, subnetId) ==> (o.result.Ok? <==> LambdaService.BecomesActive(env, w, fn))
    ensures SameExcept(w.functions, o.world.functions, {fn})
    ensures o.world.(functions := w.functions, polls := w.polls, calls := w.calls) == w
  {
    var u := UploadObject(env, w, LambdaService.CodeKey(fn));
    if u.result.Err? {
      return Outcome(u.world, Err(u.result.error)), [Uploaded(env.bucket, LambdaService.CodeKey(fn))];
    }
    var p := LambdaService.FunctionExists(env, u.world, fn);
    var s, mid := Apply(env, p.world, fn, arn, subnetId, p.result.value);
    var head := [Uploaded(env.bucket, LambdaService.CodeKey(fn)), Probed(fn), mid];
    assert s.world.calls == w.calls + head;
    if s.result.Err? {
      return Outcome(s.world, Err(s.result.error)), head;
    }
    o := LambdaService.Await(env, s.world, fn, None);
    d := head + [AwaitStarted(fn, None)];
    LambdaService.Chain(w.calls, head, [AwaitStarted(fn, None)]);
  }

  /** The steps before the code: check the bucket, look up or create the
      file system with only the subnet, and run the modules step unless
      `noEFS`. Returns the file system's access point. */
  method Provision(env: Env, w: World, fn: string, layerPath: string, subnetId: Arg, noEFS: bool)
    returns (o: Outcome<string>, d: seq<Call>)
    ensures o.world.calls == w.calls + d
    ensures var t := [BucketChecked(env.bucket), EfsEnsured(EfsName, [subnetId])]
                     + (if noEFS then [] else ModulesTrace(env, w, Text(w.efs.id), subnetId));
            d <= t && (o.result.Ok? ==> d == t)
    ensures o.result.Ok? ==> o.result.value == w.efs.accessPointArn
    ensures o.world.functions == w.functions && o.world.polls == w.polls
  {
    var pre := [BucketChecked(env.bucket), EfsEnsured(EfsName, [subnetId])];
    var w1 := Record(w, BucketChecked(env.bucket));
    if CheckBucket in env.failing {
      return Outcome(w1, Err(env.failing[CheckBucket])), [BucketChecked(env.bucket)];
    }
    var e := GetOrCreateEfs(env, w1, [subnetId]);
    LambdaService.Chain(w.calls, [BucketChecked(env.bucket)], [EfsEnsured(EfsName, [subnetId])]);
    if e.result.Err? {
      return Outcome(e.world, Err(e.result.error)), pre;
    }
    if noEFS {
      return Outcome(e.world, Ok(e.result.value.1)), pre;
    }
    var m, dm := DeployModules(env, e.world, layerPath, Text(fn), Text(e.result.value.0), subnetId);
    LambdaService.Chain(w.calls, pre, dm);
    LambdaService.PrefixPrepend(pre, dm, ModulesTrace(env, w, Text(w.efs.id), subnetId));
    o := Outcome(m.world, if m.result.Ok? then Ok(e.result.value.1) else Err(m.result.error));
    d := pre + dm;
  }

  /** The older `deployLambda(fn, [zipPath, layerPath], subnetId, noEFS)`:
      read the app archive, check the bucket, look up or create the file
      system, run the modules step unless `noEFS`, then deploy the code.
      Any error is rethrown. */
  method DeployLambda(env: Env, w: World, fn: string, appPaths: PackagePaths, subnetId: Arg, noEFS: bool)
    returns (o: Outcome<()>, d: seq<Call>)
    ensures o.world.calls == w.calls + d
    ensures appPaths.app !in w.files ==> o == Outcome(w, Err(Missing(appPaths.app))) && d == []
    ensures d <= Trace(env, w, fn, subnetId, noEFS)
    ensures o.result.Ok? ==> d == Trace(env, w, fn, subnetId, noEFS)
    ensures o.result.Ok? ==>
              fn in o.world.functions &&
              o.world.functions[fn] == FunctionRecord(if fn in w.functions then w.functions[fn].handler else Handler,
                                                      CodeLocation(env.bucket, LambdaService.CodeKey(fn)))
    ensures d == Trace(env, w, fn, subnetId, noEFS) ==> (o.result.Ok? <==> LambdaService.BecomesActive(env, w, fn))
    ensures SameExcept(w.functions, o.world.functions, {fn})
  {
    if appPaths.app !in w.files {
      return Outcome(w, Err(Missing(appPaths.app))), [];
    }
    var pre := [BucketChecked(env.bucket), EfsEnsured(EfsName, [subnetId])]
               + (if noEFS then [] else ModulesTrace(env, w, Text(w.efs.id), subnetId));
    var code := CodeTrace(env, w.functions, fn, w.efs.accessPointArn, subnetId);
    assert Trace(env, w, fn, subnetId, noEFS) == pre + code;
    var v, dv := Provision(env, w, fn, appPaths.modules, subnetId, noEFS);
    if v.result.Err? {
      LambdaService.PrefixPrepend([], dv, pre);
      assert pre <= pre + code;
      return Outcome(v.world, Err(v.result.error)), dv;
    }
    var c, dc := DeployCode(env, v.world, fn, v.result.value, subnetId);
    LambdaService.Chain(w.calls, dv, dc);
    LambdaService.PrefixPrepend(dv, dc, code);
    o, d := c, dv + dc;
  }

  // ---------------------------------------------------------------------------
  // Properties of the older deployment
  // ---------------------------------------------------------------------------

  /** The older deployment issues exactly one create-or-update, waits once,
      never corrects the handler, and creates with handler `index.js`
      without memory or timeout settings. */
  lemma CodeTraceCounts(env: Env, functions: map<string, FunctionRecord>, fn: string, arn: string, subnetId: Arg)
    ensures var t := CodeTrace(env, functions, fn, arn, subnetId);
            && CountCreates(t, fn) + CountCodeUpdates(t, fn) == 1
            && (CountCreates(t, fn) == 1 <==> !LambdaService.Probe(env, functions, fn))
            && CountHandlerUpdates(t, fn) == 0
            && CountWaits(t, fn) == 1
    ensures var t := CodeTrace(env, functions, fn, arn, subnetId);
            forall i :: 0 <= i < |t| && t[i].Created? ==>
              && t[i].req.handler == "index.js" && t[i].req.memorySize.None? && t[i].req.timeoutSeconds.None?
              && t[i].req.mounts == [Mount(arn, "/mnt/efs")] && t[i].req.subnetIds == [subnetId]
  {
    var code := CodeLocation(env.bucket, LambdaService.CodeKey(fn));
    var t := CodeTrace(env, functions, fn, arn, subnetId);
    var mid := t[2];
    LambdaService.CountsOfPair(Uploaded(env.bucket, LambdaService.CodeKey(fn)), Probed(fn), fn);
    LambdaService.CountsOfPair(mid, AwaitStarted(fn, None), fn);
    assert t == [Uploaded(env.bucket, LambdaService.CodeKey(fn)), Probed(fn)] + [mid, AwaitStarted(fn, None)];
    CountsAppend([Uploaded(env.bucket, LambdaService.CodeKey(fn)), Probed(fn)], [mid, AwaitStarted(fn, None)], fn);
  }

  /** Without a cached key, every older deployment that uses the file
      system uploads the modules archive again, even when the file system
      already existed. */
  lemma ModulesUploadedEveryTime(env: Env, w: World, fn: string, subnetId: Arg)
    requires SavedVar(w, LambdaService.CacheKey).None?
    ensures Uploaded(env.bucket, ModulesKey) in Trace(env, w, fn, subnetId, false)
    ensures Uploaded(env.bucket, ModulesKey) in Trace(env, w.(efs := w.efs.(created := true)), fn, subnetId, false)
  {
    var t := Trace(env, w, fn, subnetId, false);
    assert t[2] == Uploaded(env.bucket, ModulesKey);
    var t' := Trace(env, w.(efs := w.efs.(created := true)), fn, subnetId, false);
    assert t'[2] == Uploaded(env.bucket, ModulesKey);
  }
}
