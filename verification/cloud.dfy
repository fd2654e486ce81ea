/** The world the deployment code acts on, with every AWS SDK client, the
    local file system and the process-wide variable store replaced by an
    abstract value. Remote calls are recorded, in order, in an append-only
    call log; which SDK operations fail in a run is a static input. */
module Cloud {
  import opened Common

  // ---------------------------------------------------------------------------
  // Remote resources
  // ---------------------------------------------------------------------------

  /** Provisioning states a Lambda function reports in `Configuration.State`. */
  datatype LambdaState = Pending | Active | Inactive | Failed

  datatype CodeLocation = CodeLocation(bucket: string, key: string)

  /** What `getFunction` reports about a deployed function that the code reads. */
  datatype FunctionRecord = FunctionRecord(handler: string, code: CodeLocation)

  datatype Mount = Mount(accessPointArn: string, localMountPath: string)

  /** The fields of a `createFunction` request. */
  datatype CreateRequest = CreateRequest(
    name: string,
    runtime: string,
    role: string,
    handler: string,
    code: CodeLocation,
    subnetIds: seq<Arg>,
    securityGroupIds: seq<string>,
    mounts: seq<Mount>,
    memorySize: Option<nat>,
    timeoutSeconds: Option<nat>)

  /** The payload the EFS loader function is invoked with. */
  datatype LoaderPayload = LoaderPayload(functionName: string, efsId: string, modulesS3Key: string, s3Bucket: string)

  /** The shared file system `RWS_EFS`: whether it exists yet, and the
      identifiers it has (or will be given when it is created). */
  datatype Efs = Efs(created: bool, id: string, accessPointArn: string)

  datatype Vpc = Vpc(id: string, isDefault: bool)
  datatype Subnet = Subnet(id: string, vpcId: string)

  /** A security group as `describeSecurityGroups` lists it. */
  datatype SecurityGroup = SecurityGroup(groupId: string, groupName: string)
  datatype Association = Association(subnetId: Option<string>)
  datatype Route = Route(destination: string, gatewayId: Option<string>)
  datatype RouteTable = RouteTable(id: string, vpcId: string, associations: Option<seq<Association>>, routes: Option<seq<Route>>)
  datatype VpcEndpoint = VpcEndpoint(id: string, nameTag: string, vpcId: string, serviceName: string, endpointType: string, routeTableIds: seq<string>)

  /** One answer of `getFunction` while a function is being waited on:
      the reported state and reason, or an SDK error; each answer takes
      `latency` milliseconds to arrive. */
  datatype Observation =
    | Seen(state: LambdaState, reason: string, latency: nat)
    | ProbeError(error: Error, latency: nat)

  // ---------------------------------------------------------------------------
  // Static inputs of a run
  // ---------------------------------------------------------------------------

  /** SDK and collaborator operations that can be made to fail. */
  datatype Op =
    | CheckBucket | EnsureEfs | Upload | GetFunction | CreateFunction | UpdateFunctionCode
    | UpdateFunctionConfiguration | DeleteFunction | Invoke | LegacyEfsUpload
    | DescribeVpcs | DescribeSubnets | DescribeSecurityGroups | DescribeVpcEndpoints
    | CreateVpcEndpoint | DescribeRouteTables | CreateRoute

  /** What does not change during a run: failing operations, configuration
      values, working directories, and the read-only network inventory. */
  datatype Env = Env(
    failing: map<Op, Error>,
    bucket: string,          // get('aws_lambda_bucket')
    role: string,            // get('aws_lambda_role')
    region: string,          // the AWS service's region
    cwd: string,             // process.cwd()
    moduleDir: string,       // the package directory computed from module.id
    vpcs: seq<Vpc>,
    subnets: seq<Subnet>,
    securityGroups: seq<SecurityGroup>)

  // ---------------------------------------------------------------------------
  // The call log
  // ---------------------------------------------------------------------------

  datatype Call =
    | BucketChecked(bucket: string)
    | EfsEnsured(efsName: string, args: seq<Arg>)
    | Uploaded(bucket: string, key: string)
    | Probed(name: string)
    | Created(req: CreateRequest)
    | CodeUpdated(name: string, code: CodeLocation)
    | HandlerUpdated(name: string, handler: string)
    | Deleted(name: string)
    | Invoked(name: string, payload: LoaderPayload)
    | LegacyEfsUploaded(efsId: Arg, key: string, bucket: string, subnetId: Arg)
    | AwaitStarted(name: string, waitFor: Option<string>)
    | EndpointCreated(vpcId: string, serviceName: string, routeTableId: string)
    | RouteCreated(routeTableId: string, destination: string, endpointId: string)
    | VarSet(key: string, value: string)
    | FileRemoved(path: string)
    | ArchiveCreated(output: string, source: string, ignore: seq<string>)
    | FileCopied(source: string, target: string)
    | DirMade(path: string)
  {
    /** The Lambda function a life-cycle call is about (probe, create,
        update, handler change, delete, start of a wait). Polls and
        invocations are left out. */
    function LifecycleTarget(): Option<string> {
      match this
      case Probed(n) => Some(n)
      case Created(req) => Some(req.name)
      case CodeUpdated(n, _) => Some(n)
      case HandlerUpdated(n, _) => Some(n)
      case Deleted(n) => Some(n)
      case AwaitStarted(n, _) => Some(n)
      case _ => None
    }
  }

  /** The mutable part: remote resources, local files, the process-wide
      variable store, the answers `getFunction` will give while waiting,
      and everything done so far. */
  datatype World = World(
    functions: map<string, FunctionRecord>,
    efs: Efs,
    endpoints: seq<VpcEndpoint>,
    routeTables: seq<RouteTable>,
    nextEndpointId: Option<string>,  // the id `createVpcEndpoint` answers with; None: no endpoint in the response
    vars: map<string, string>,
    files: set<string>,
    polls: seq<Observation>,
    calls: seq<Call>)

  function Record(w: World, c: Call): (w': World)
    ensures w'.calls == w.calls + [c]
  {
    w.(calls := w.calls + [c])
  }

  /** A step's new world and what it returned or threw. */
  datatype Outcome<+T> = Outcome(world: World, result: Result<T>)

  /** The part of the log a step added. */
  function Delta(w: World, w': World): seq<Call>
    requires w.calls <= w'.calls
  {
    w'.calls[|w.calls|..]
  }

  // ---------------------------------------------------------------------------
  // The life-cycle projection of a log
  // ---------------------------------------------------------------------------

  /** The life-cycle calls of `log` that concern function `name`, in order. */
  function Project(log: seq<Call>, name: string): (r: seq<Call>)
    ensures |r| <= |log|
  {
    if |log| == 0 then []
    else (if log[0].LifecycleTarget() == Some(name) then [log[0]] else []) + Project(log[1..], name)
  }

  lemma {:induction false} ProjectAppend(a: seq<Call>, b: seq<Call>, name: string)
    ensures Project(a + b, name) == Project(a, name) + Project(b, name)
    decreases |a|
  {
    if |a| == 0 {
      assert a + b == b;
    } else {
      var r := if a[0].LifecycleTarget() == Some(name) then [a[0]] else [];
      assert (a + b)[0] == a[0] && (a + b)[1..] == a[1..] + b;
      assert Project(a + b, name) == r + Project(a[1..] + b, name);
      ProjectAppend(a[1..], b, name);
      assert Project(a, name) == r + Project(a[1..], name);
    }
  }

  /** Every life-cycle call in `log` concerns a function in `names`. */
  predicate TouchesOnly(log: seq<Call>, names: set<string>) {
    |log| == 0 || ((log[0].LifecycleTarget().None? || log[0].LifecycleTarget().value in names) && TouchesOnly(log[1..], names))
  }

  lemma {:induction false} ProjectOfUntouched(log: seq<Call>, names: set<string>, name: string)
    requires TouchesOnly(log, names)
    requires name !in names
    ensures Project(log, name) == []
    decreases |log|
  {
    if |log| > 0 {
      assert log[0].LifecycleTarget() != Some(name);
      ProjectOfUntouched(log[1..], names, name);
    }
  }

  /** How many calls of `log` satisfy one life-cycle shape for `name`. */
  function CountCreates(log: seq<Call>, name: string): nat {
    if |log| == 0 then 0
    else (if log[0].Created? && log[0].req.name == name then 1 else 0) + CountCreates(log[1..], name)
  }

  function CountCodeUpdates(log: seq<Call>, name: string): nat {
    if |log| == 0 then 0
    else (if log[0].CodeUpdated? && log[0].name == name then 1 else 0) + CountCodeUpdates(log[1..], name)
  }

  function CountHandlerUpdates(log: seq<Call>, name: string): nat {
    if |log| == 0 then 0
    else (if log[0].HandlerUpdated? && log[0].name == name then 1 else 0) + CountHandlerUpdates(log[1..], name)
  }

  function CountWaits(log: seq<Call>, name: string): nat {
    if |log| == 0 then 0
    else (if log[0].AwaitStarted? && log[0].name == name then 1 else 0) + CountWaits(log[1..], name)
  }

  /** Counting the life-cycle calls about `name` can be done on the projection. */
  lemma {:induction false} CountsOfProject(log: seq<Call>, name: string)
    ensures CountCreates(Project(log, name), name) == CountCreates(log, name)
    ensures CountCodeUpdates(Project(log, name), name) == CountCodeUpdates(log, name)
    ensures CountHandlerUpdates(Project(log, name), name) == CountHandlerUpdates(log, name)
    ensures CountWaits(Project(log, name), name) == CountWaits(log, name)
    decreases |log|
  {
    if |log| > 0 {
      CountsOfProject(log[1..], name);
      var rest := Project(log[1..], name);
      if log[0].LifecycleTarget() == Some(name) {
        assert Project(log, name) == [log[0]] + rest;
        assert ([log[0]] + rest)[0] == log[0];
        assert ([log[0]] + rest)[1..] == rest;
      } else {
        assert Project(log, name) == [] + rest;
        assert [] + rest == rest;
      }
    }
  }

  lemma {:induction false} CountsAppend(a: seq<Call>, b: seq<Call>, name: string)
    ensures CountCreates(a + b, name) == CountCreates(a, name) + CountCreates(b, name)
    ensures CountCodeUpdates(a + b, name) == CountCodeUpdates(a, name) + CountCodeUpdates(b, name)
    ensures CountHandlerUpdates(a + b, name) == CountHandlerUpdates(a, name) + CountHandlerUpdates(b, name)
    ensures CountWaits(a + b, name) == CountWaits(a, name) + CountWaits(b, name)
    decreases |a|
  {
    if |a| == 0 {
      assert a + b == b;
    } else {
      assert (a + b)[1..] == a[1..] + b;
      CountsAppend(a[1..], b, name);
    }
  }

  /** Some call of `log` invokes a Lambda function. */
  predicate Invokes(log: seq<Call>) {
    |log| > 0 && (log[0].Invoked? || Invokes(log[1..]))
  }

  /** Every object `log` uploads has one of the given keys. */
  predicate UploadsOnly(log: seq<Call>, keys: set<string>) {
    |log| == 0 || ((log[0].Uploaded? ==> log[0].key in keys) && UploadsOnly(log[1..], keys))
  }

  /** The two function maps agree on every name outside `names`. */
  predicate SameExcept(f: map<string, FunctionRecord>, g: map<string, FunctionRecord>, names: set<string>) {
    && (forall n :: n in f && n !in names ==> n in g && g[n] == f[n])
    && (forall n :: n in g && n !in names ==> n in f)
  }

  // ---------------------------------------------------------------------------
  // Collaborator oracles shared by both versions of the service
  // ---------------------------------------------------------------------------

  function NotFound(what: string): Error {
    Error(NotFoundCode, "Function not found: " + what)
  }

  /** `getFunction({FunctionName: name})`: the failing operation's error if
      it fails in this run, otherwise the record or a not-found error. */
  function GetFunctionAnswer(env: Env, w: World, name: string): (r: Result<FunctionRecord>)
    ensures r.Ok? <==> GetFunction !in env.failing && name in w.functions
    ensures r.Ok? ==> r.value == w.functions[name]
  {
    if GetFunction in env.failing then Err(env.failing[GetFunction])
    else if name in w.functions then Ok(w.functions[name])
    else Err(NotFound(name))
  }

  /** `S3Service.upload`: the returned object key is the key asked for. */
  function UploadObject(env: Env, w: World, key: string): (o: Outcome<string>)
    ensures o.world == Record(w, Uploaded(env.bucket, key))
    ensures o.result.Ok? <==> Upload !in env.failing
    ensures o.result.Ok? ==> o.result.value == key
  {
    var w1 := Record(w, Uploaded(env.bucket, key));
    if Upload in env.failing then Outcome(w1, Err(env.failing[Upload])) else Outcome(w1, Ok(key))
  }

  /** `EFSService.getOrCreateEFS('RWS_EFS', ...)`: the identifiers of the one
      shared file system and whether it existed before the call. */
  function GetOrCreateEfs(env: Env, w: World, args: seq<Arg>): (o: Outcome<(string, string, bool)>)
    ensures o.world.calls == w.calls + [EfsEnsured(EfsName, args)]
    ensures o.result.Ok? <==> EnsureEfs !in env.failing
    ensures o.result.Ok? ==> o.result.value == (w.efs.id, w.efs.accessPointArn, w.efs.created) && o.world.efs.created
    ensures o.world.efs.id == w.efs.id && o.world.efs.accessPointArn == w.efs.accessPointArn
    ensures o.world.(efs := w.efs, calls := w.calls) == w
  {
    var w1 := Record(w, EfsEnsured(EfsName, args));
    if EnsureEfs in env.failing then Outcome(w1, Err(env.failing[EnsureEfs]))
    else Outcome(w1.(efs := w.efs.(created := true)), Ok((w.efs.id, w.efs.accessPointArn, w.efs.created)))
  }

  const EfsName := "RWS_EFS"

  /** The process-wide variable store's reading of `key`, with JavaScript
      truthiness: an empty stored string counts as nothing saved. */
  function SavedVar(w: World, key: string): (r: Option<string>)
    ensures r.Some? <==> key in w.vars && w.vars[key] != ""
    ensures r.Some? ==> r.value == w.vars[key]
  {
    if key in w.vars && w.vars[key] != "" then Some(w.vars[key]) else None
  }

  function SetVar(w: World, key: string, value: string): (w': World)
    ensures w'.vars == w.vars[key := value]
    ensures w'.calls == w.calls + [VarSet(key, value)]
  {
    Record(w, VarSet(key, value)).(vars := w.vars[key := value])
  }

  /** `ZipService.createArchive(output, source, {ignore})`: fails when the
      source directory does not exist, otherwise writes the archive. */
  function CreateArchive(w: World, output: string, source: string, ignore: seq<string>): (o: Outcome<string>)
    ensures o.world.calls == w.calls + [ArchiveCreated(output, source, ignore)]
    ensures o.result.Ok? <==> source in w.files
    ensures o.result.Ok? ==> o.result.value == output && o.world.files == w.files + {output}
    ensures o.result.Err? ==> o.world.files == w.files
  {
    var w1 := Record(w, ArchiveCreated(output, source, ignore));
    if source in w.files then Outcome(w1.(files := w.files + {output}), Ok(output))
    else Outcome(w1, Err(Error("ArchiveSourceMissing", "archive source does not exist: " + source)))
  }

  /** The error `fs.readFileSync(path)` throws for a file that is not there. */
  function Missing(path: string): Error {
    Error("ENOENT", "ENOENT: no such file or directory, open '" + path + "'")
  }

  /** `fs.unlinkSync(path)` guarded by `fs.existsSync(path)`. */
  function RemoveIfPresent(w: World, path: string): (w': World)
    ensures path !in w'.files && w'.files == w.files - {path}
    ensures path in w.files ==> w'.calls == w.calls + [FileRemoved(path)]
    ensures path !in w.files ==> w' == w
  {
    if path in w.files then Record(w, FileRemoved(path)).(files := w.files - {path}) else w
  }

  /** `fs.mkdirSync(dir)` guarded by `fs.existsSync(dir)`. */
  function MakeDirIfMissing(w: World, dir: string): (w': World)
    ensures w'.files == w.files + {dir}
    ensures dir in w.files ==> w' == w
    ensures dir !in w.files ==> w'.calls == w.calls + [DirMade(dir)]
  {
    if dir in w.files then w else Record(w, DirMade(dir)).(files := w.files + {dir})
  }
}
