/** The current Lambda service (src/services/LambdaService.ts) with the two
    helpers of the AWS service it calls into, `uploadToEFS` and
    `processEFSLoader` (dist/src/src/services/AWSService.js). Deploying a
    function may deploy its modules, which deploys the EFS loader function
    with this same code: the four operations form one recursive group. */
module LambdaService {
  import opened Common
  import opened Cloud
  import opened StateWaiter
  import opened Packaging
  import AwsNetwork

  const Handler := "index.handler"
  const Runtime := "nodejs18.x"
  const Minute: nat := 60
  const MemorySize: nat := 2048
  const TimeoutSeconds: nat := 15 * Minute
  const MountPath := "/mnt/efs"
  const CacheKey := "_rws_efs_modules_uploaded"
  const LoaderName := "RWS-efs-loader"

  /** The object key a function's code is uploaded under. */
  function CodeKey(fn: string): string { fn + ".zip" }

  /** The object key of a function's `package.json`. */
  function ModulesKey(fn: string): string { "RWS-" + fn + "-modules.json" }

  /** The `RWS-` prefix: `invokeLambda` puts it in front of the name it is
      given, and `uploadToEFS` in front of the function the loader serves. */
  function Prefixed(fn: string): string { "RWS-" + fn }

  // ---------------------------------------------------------------------------
  // SDK oracles
  // ---------------------------------------------------------------------------

  function SdkCreateFunction(env: Env, w: World, req: CreateRequest): (o: Outcome<()>)
    ensures o.world.calls == w.calls + [Created(req)]
    ensures o.result.Ok? <==> CreateFunction !in env.failing && req.name !in w.functions
    ensures o.world.functions == if o.result.Ok? then w.functions[req.name := FunctionRecord(req.handler, req.code)] else w.functions
    ensures o.world.(functions := w.functions, calls := w.calls) == w
  {
    var w1 := Record(w, Created(req));
    if CreateFunction in env.failing then Outcome(w1, Err(env.failing[CreateFunction]))
    else if req.name in w.functions then Outcome(w1, Err(Error("ResourceConflictException", "Function already exist: " + req.name)))
    else Outcome(w1.(functions := w.functions[req.name := FunctionRecord(req.handler, req.code)]), Ok(()))
  }

  function SdkUpdateFunctionCode(env: Env, w: World, fn: string, code: CodeLocation): (o: Outcome<()>)
    ensures o.world.calls == w.calls + [CodeUpdated(fn, code)]
    ensures o.result.Ok? <==> UpdateFunctionCode !in env.failing && fn in w.functions
    ensures o.world.functions == if o.result.Ok? then w.functions[fn := w.functions[fn].(code := code)] else w.functions
    ensures o.world.(functions := w.functions, calls := w.calls) == w
  {
    var w1 := Record(w, CodeUpdated(fn, code));
    if UpdateFunctionCode in env.failing then Outcome(w1, Err(env.failing[UpdateFunctionCode]))
    else if fn !in w.functions then Outcome(w1, Err(NotFound(fn)))
    else Outcome(w1.(functions := w.functions[fn := w.functions[fn].(code := code)]), Ok(()))
  }

  function SdkUpdateHandler(env: Env, w: World, fn: string, handler: string): (o: Outcome<()>)
    ensures o.world.calls == w.calls + [HandlerUpdated(fn, handler)]
    ensures o.result.Ok? <==> UpdateFunctionConfiguration !in env.failing && fn in w.functions
    ensures o.world.functions == if o.result.Ok? then w.functions[fn := w.functions[fn].(handler := handler)] else w.functions
    ensures o.world.(functions := w.functions, calls := w.calls) == w
  {
    var w1 := Record(w, HandlerUpdated(fn, handler));
    if UpdateFunctionConfiguration in env.failing then Outcome(w1, Err(env.failing[UpdateFunctionConfiguration]))
    else if fn !in w.functions then Outcome(w1, Err(NotFound(fn)))
    else Outcome(w1.(functions := w.functions[fn := w.functions[fn].(handler := handler)]), Ok(()))
  }

  /** `new Error(e)` keeps only the string form of the SDK error. */
  function Rewrapped(e: Error): Error {
    Error("", e.code + ": " + e.message)
  }

  /** `invokeLambda(name, payload)`: an asynchronous invocation of
      `RWS-<name>`; a failure is rethrown wrapped. */
  function SdkInvoke(env: Env, w: World, name: string, payload: LoaderPayload): (o: Outcome<()>)
    ensures o.world == Record(w, Invoked(Prefixed(name), payload))
    ensures o.result.Ok? <==> Invoke !in env.failing && Prefixed(name) in w.functions
  {
    var w1 := Record(w, Invoked(Prefixed(name), payload));
    if Invoke in env.failing then Outcome(w1, Err(Rewrapped(env.failing[Invoke])))
    else if Prefixed(name) !in w.functions then Outcome(w1, Err(Rewrapped(NotFound(Prefixed(name)))))
    else Outcome(w1, Ok(()))
  }

  // ---------------------------------------------------------------------------
  // functionExists, waitForLambda, deleteLambda
  // ---------------------------------------------------------------------------

  /** What the existence probe concludes about `fn`. */
  function Probe(env: Env, functions: map<string, FunctionRecord>, fn: string): bool {
    if GetFunction in env.failing then env.failing[GetFunction].code != NotFoundCode else fn in functions
  }

  /** `functionExists(fn)`: false exactly when the probe fails with
      `ResourceNotFoundException`; success and every other error mean true. */
  function FunctionExists(env: Env, w: World, fn: string): (o: Outcome<bool>)
    ensures o.world == Record(w, Probed(fn)) && o.result.Ok?
    ensures !o.result.value <==> GetFunctionAnswer(env, w, fn).Err? && GetFunctionAnswer(env, w, fn).error.code == NotFoundCode
    ensures o.result.value == Probe(env, w.functions, fn)
  {
    var w1 := Record(w, Probed(fn));
    match GetFunctionAnswer(env, w, fn)
    case Ok(_) => Outcome(w1, Ok(true))
    case Err(e) => Outcome(w1, Ok(e.code != NotFoundCode))
  }

  /** The function's state polls reach `Active` within the default timeout. */
  predicate BecomesActive(env: Env, w: World, fn: string) {
    GetFunction !in env.failing && Poll(fn, w.polls, DefaultTimeoutMs, DefaultIntervalMs, 0).end.Ready?
  }

  /** `waitForLambda(fn, waitFor)` with the default timeout and interval. The
      wait consumes the answers it polls; a probe that fails in this run ends
      it at once with the probe's error. */
  method Await(env: Env, w: World, fn: string, waitFor: Option<string>) returns (o: Outcome<()>)
    ensures o.world.calls == w.calls + [AwaitStarted(fn, waitFor)]
    ensures o.result.Ok? <==> BecomesActive(env, w, fn)
    ensures GetFunction !in env.failing ==> o.world.polls == w.polls[Poll(fn, w.polls, DefaultTimeoutMs, DefaultIntervalMs, 0).polls..]
    ensures GetFunction in env.failing ==> o.result == Err(env.failing[GetFunction])
    ensures o.world.(polls := w.polls, calls := w.calls) == w
  {
    var w1 := Record(w, AwaitStarted(fn, waitFor));
    if GetFunction in env.failing {
      return Outcome(w1, Err(env.failing[GetFunction]));
    }
    var end, polls, elapsed := WaitForLambda(fn, w.polls, DefaultTimeoutMs, DefaultIntervalMs);
    o := Outcome(w1.(polls := w.polls[polls..]), if end.Ready? then Ok(()) else Err(WaitError(end)));
  }

  /** The error a wait that did not end ready throws. */
  function WaitError(end: WaitEnd): Error {
    match end
    case StateFailed(m) => Error("", m)
    case TimedOut(m) => Error("", m)
    case Errored(e) => e
    case _ => Error("", "no answer")
  }

  /** `deleteLambda(fn)`: one `deleteFunction` call; its error propagates. */
  function DeleteLambda(env: Env, w: World, fn: string): (o: Outcome<()>)
    ensures o.world.calls == w.calls + [Deleted(fn)]
    ensures o.result.Ok? <==> DeleteFunction !in env.failing && fn in w.functions
    ensures o.world.functions == if o.result.Ok? then w.functions - {fn} else w.functions
    ensures o.world.(functions := w.functions, calls := w.calls) == w
  {
    var w1 := Record(w, Deleted(fn));
    if DeleteFunction in env.failing then Outcome(w1, Err(env.failing[DeleteFunction]))
    else if fn !in w.functions then Outcome(w1, Err(NotFound(fn)))
    else Outcome(w1.(functions := w.functions - {fn}), Ok(()))
  }

  /** After a successful delete, a later existence probe answers false. */
  lemma DeletedIsAbsent(env: Env, w: World, fn: string)
    requires DeleteLambda(env, w, fn).result.Ok?
    requires GetFunction !in env.failing
    ensures !FunctionExists(env, DeleteLambda(env, w, fn).world, fn).result.value
  {
  }

  // ---------------------------------------------------------------------------
  // deployLambda: the code part
  // ---------------------------------------------------------------------------

  /** The `createFunction` request for a function that does not exist yet. */
  function CreateRequestFor(env: Env, fn: string, code: CodeLocation, arn: string, subnetId: Option<string>): CreateRequest {
    CreateRequest(fn, Runtime, env.role, Handler, code, [OptArg(subnetId)], AwsNetwork.ListSecurityGroups(env),
                  [Mount(arn, MountPath)], Some(MemorySize), Some(TimeoutSeconds))
  }

  /** The handler correction after a code update: only a deployed handler
      other than `index.handler` is changed, and the change is waited on. */
  function HandlerFix(functions: map<string, FunctionRecord>, fn: string): seq<Call> {
    if fn in functions && functions[fn].handler != Handler
    then [HandlerUpdated(fn, Handler), AwaitStarted(fn, Some("handler update"))]
    else []
  }

  /** The reference trace of the code part of `deployLambda` when nothing
      fails: upload the archive, probe, then either update the code, wait,
      re-read and fix the handler, or create the function and wait. The wait
      labels are the source's ('creation' after an update, 'update' after a
      creation). */
  function CodeTrace(env: Env, functions: map<string, FunctionRecord>, fn: string, arn: string, subnetId: Option<string>): seq<Call> {
    var code := CodeLocation(env.bucket, CodeKey(fn));
    [Uploaded(env.bucket, CodeKey(fn)), Probed(fn)]
    + (if Probe(env, functions, fn)
       then [CodeUpdated(fn, code), AwaitStarted(fn, Some("creation")), Probed(fn)] + HandlerFix(functions, fn)
       else [Created(CreateRequestFor(env, fn, code, arn, subnetId)), AwaitStarted(fn, Some("update"))])
  }

  /** A call that stays within the given functions and object keys and
      invokes nothing. */
  predicate CleanCall(c: Call, names: set<string>, keys: set<string>) {
    && (c.LifecycleTarget().None? || c.LifecycleTarget().value in names)
    && (c.Uploaded? ==> c.key in keys)
    && !c.Invoked?
  }

  predicate Clean(d: seq<Call>, names: set<string>, keys: set<string>) {
    TouchesOnly(d, names) && UploadsOnly(d, keys) && !Invokes(d)
  }

  lemma {:induction false} CleanFromCalls(d: seq<Call>, names: set<string>, keys: set<string>)
    requires forall i :: 0 <= i < |d| ==> CleanCall(d[i], names, keys)
    ensures Clean(d, names, keys)
    decreases |d|
  {
    if |d| > 0 {
      CleanFromCalls(d[1..], names, keys);
    }
  }

  /** Local file work touches no function, uploads nothing and invokes nothing. */
  lemma {:induction false} LocalClean(d: seq<Call>, names: set<string>, keys: set<string>)
    requires forall i :: 0 <= i < |d| ==> LocalFileCall(d[i])
    ensures Clean(d, names, keys)
    decreases |d|
  {
    if |d| > 0 {
      assert LocalFileCall(d[0]);
      LocalClean(d[1..], names, keys);
    }
  }

  /** The three log predicates distribute over concatenation. */
  lemma {:induction false} Compose(a: seq<Call>, b: seq<Call>, names: set<string>, keys: set<string>)
    ensures TouchesOnly(a + b, names) <==> TouchesOnly(a, names) && TouchesOnly(b, names)
    ensures UploadsOnly(a + b, keys) <==> UploadsOnly(a, keys) && UploadsOnly(b, keys)
    ensures Invokes(a + b) <==> Invokes(a) || Invokes(b)
    decreases |a|
  {
    if |a| == 0 {
      assert a + b == b;
    } else {
      assert (a + b)[1..] == a[1..] + b;
      Compose(a[1..], b, names, keys);
    }
  }

  /** Allowing more functions and keys keeps a log within bounds. */
  lemma {:induction false} Widen(d: seq<Call>, names: set<string>, keys: set<string>, names': set<string>, keys': set<string>)
    requires TouchesOnly(d, names) && UploadsOnly(d, keys)
    requires names <= names' && keys <= keys'
    ensures TouchesOnly(d, names') && UploadsOnly(d, keys')
    decreases |d|
  {
    if |d| > 0 {
      Widen(d[1..], names, keys, names', keys');
    }
  }

  /** A prefix of a clean log is clean. */
  lemma {:induction false} CleanPrefix(d: seq<Call>, t: seq<Call>, names: set<string>, keys: set<string>)
    requires d <= t && Clean(t, names, keys)
    ensures Clean(d, names, keys)
    decreases |d|
  {
    if |d| > 0 {
      assert d[1..] <= t[1..];
      CleanPrefix(d[1..], t[1..], names, keys);
    }
  }

  /** Appending two pieces of log one after the other appends their concatenation. */
  lemma Chain(log: seq<Call>, a: seq<Call>, b: seq<Call>)
    ensures log + a + b == log + (a + b)
  {
  }

  lemma PairThen(a: Call, b: Call, t: seq<Call>)
    ensures [a, b] + t == [a] + ([b] + t)
  {
    assert [a, b] == [a] + [b];
  }

  lemma DropHead(a: Call, t: seq<Call>)
    ensures ([a] + t)[1..] == t
  {
  }

  lemma PrefixPrepend(p: seq<Call>, d: seq<Call>, t: seq<Call>)
    requires d <= t
    ensures p + d <= p + t
  {
    assert (p + t)[..|p + d|] == p + d;
  }

  /** The code trace stays with `fn`, uploads only its archive and invokes
      nothing. */
  lemma CodeTraceClean(env: Env, functions: map<string, FunctionRecord>, fn: string, arn: string, subnetId: Option<string>)
    ensures Clean(CodeTrace(env, functions, fn, arn, subnetId), {fn}, {CodeKey(fn)})
  {
    var t := CodeTrace(env, functions, fn, arn, subnetId);
    forall i | 0 <= i < |t| ensures CleanCall(t[i], {fn}, {CodeKey(fn)}) {
    }
    CleanFromCalls(t, {fn}, {CodeKey(fn)});
  }

  /** The code trace reads the function map only at `fn`. */
  lemma CodeTraceLocal(env: Env, f: map<string, FunctionRecord>, g: map<string, FunctionRecord>, fn: string, arn: string, subnetId: Option<string>)
    requires fn in f <==> fn in g
    requires fn in f ==> f[fn] == g[fn]
    ensures CodeTrace(env, f, fn, arn, subnetId) == CodeTrace(env, g, fn, arn, subnetId)
  {
  }

  /** `deployLambda` makes exactly one create-or-update of `fn`: a creation
      exactly when the probe says the function is absent, a handler change
      exactly when an existing function has another handler, and one wait per
      create, update and handler change. */
  lemma CodeTraceCounts(env: Env, functions: map<string, FunctionRecord>, fn: string, arn: string, subnetId: Option<string>)
    ensures var t := CodeTrace(env, functions, fn, arn, subnetId);
            && CountCreates(t, fn) + CountCodeUpdates(t, fn) == 1
            && (CountCreates(t, fn) == 1 <==> !Probe(env, functions, fn))
            && (CountHandlerUpdates(t, fn) == 1 <==> Probe(env, functions, fn) && fn in functions && functions[fn].handler != Handler)
            && CountHandlerUpdates(t, fn) <= 1
            && CountWaits(t, fn) == 1 + CountHandlerUpdates(t, fn)
  {
    var code := CodeLocation(env.bucket, CodeKey(fn));
    var req := CreateRequestFor(env, fn, code, arn, subnetId);
    var head := [Uploaded(env.bucket, CodeKey(fn)), Probed(fn)];
    var h := HandlerFix(functions, fn);
    var upd := [CodeUpdated(fn, code), AwaitStarted(fn, Some("creation")), Probed(fn)];
    var cre := [Created(req), AwaitStarted(fn, Some("update"))];
    CountsOfPair(Uploaded(env.bucket, CodeKey(fn)), Probed(fn), fn);
    if Probe(env, functions, fn) {
      assert CodeTrace(env, functions, fn, arn, subnetId) == head + (upd + h);
      UpdateCounts(functions, fn, code);
      CountsAppend(head, upd + h, fn);
    } else {
      assert CodeTrace(env, functions, fn, arn, subnetId) == head + cre;
      CountsOfPair(Created(req), AwaitStarted(fn, Some("update")), fn);
      CountsAppend(head, cre, fn);
    }
  }

  /** The counts of the update branch. */
  lemma UpdateCounts(functions: map<string, FunctionRecord>, fn: string, code: CodeLocation)
    ensures var t := [CodeUpdated(fn, code), AwaitStarted(fn, Some("creation")), Probed(fn)] + HandlerFix(functions, fn);
            var fix := if fn in functions && functions[fn].handler != Handler then 1 else 0;
            && CountCreates(t, fn) == 0 && CountCodeUpdates(t, fn) == 1
            && CountHandlerUpdates(t, fn) == fix && CountWaits(t, fn) == 1 + fix
  {
    var upd := [CodeUpdated(fn, code), AwaitStarted(fn, Some("creation")), Probed(fn)];
    var h := HandlerFix(functions, fn);
    CountsOfPair(CodeUpdated(fn, code), AwaitStarted(fn, Some("creation")), fn);
    CountsOfPair(AwaitStarted(fn, Some("creation")), Probed(fn), fn);
    assert upd == [CodeUpdated(fn, code)] + [AwaitStarted(fn, Some("creation")), Probed(fn)];
    CountsAppend([CodeUpdated(fn, code)], [AwaitStarted(fn, Some("creation")), Probed(fn)], fn);
    if h != [] {
      CountsOfPair(HandlerUpdated(fn, Handler), AwaitStarted(fn, Some("handler update")), fn);
    }
    CountsAppend(upd, h, fn);
  }

  /** Every creation asks for the fixed runtime, handler, memory, timeout,
      mount and subnet of `deployLambda`. */
  lemma CodeTraceRequests(env: Env, functions: map<string, FunctionRecord>, fn: string, arn: string, subnetId: Option<string>)
    ensures var t := CodeTrace(env, functions, fn, arn, subnetId);
            forall i :: 0 <= i < |t| && t[i].Created? ==>
              var r := t[i].req;
              && r.name == fn && r.runtime == "nodejs18.x" && r.handler == "index.handler" && r.role == env.role
              && r.code == CodeLocation(env.bucket, CodeKey(fn))
              && r.memorySize == Some(2048) && r.timeoutSeconds == Some(900)
              && r.mounts == [Mount(arn, "/mnt/efs")] && r.subnetIds == [OptArg(subnetId)]
    ensures var t := CodeTrace(env, functions, fn, arn, subnetId);
            forall i :: 0 <= i < |t| && t[i].Created? ==>
              && (DescribeSecurityGroups !in env.failing ==>
                    forall g :: g in env.securityGroups ==> g.groupId in t[i].req.securityGroupIds)
              && (DescribeSecurityGroups in env.failing ==> t[i].req.securityGroupIds == [])
  {
    var t := CodeTrace(env, functions, fn, arn, subnetId);
    var ids := AwsNetwork.ListSecurityGroups(env);
    forall i, g | 0 <= i < |t| && t[i].Created? && DescribeSecurityGroups !in env.failing && g in env.securityGroups
      ensures g.groupId in t[i].req.securityGroupIds
    {
      var k :| 0 <= k < |env.securityGroups| && env.securityGroups[k] == g;
      assert ids[k] == g.groupId;
    }
  }

  /** The four life-cycle counts of a one- and a two-call log. */
  lemma CountsOfPair(a: Call, b: Call, name: string)
    ensures CountCreates([a], name) == (if a.Created? && a.req.name == name then 1 else 0)
    ensures CountCodeUpdates([a], name) == (if a.CodeUpdated? && a.name == name then 1 else 0)
    ensures CountHandlerUpdates([a], name) == (if a.HandlerUpdated? && a.name == name then 1 else 0)
    ensures CountWaits([a], name) == (if a.AwaitStarted? && a.name == name then 1 else 0)
    ensures CountCreates([a, b], name) == CountCreates([a], name) + CountCreates([b], name)
    ensures CountCodeUpdates([a, b], name) == CountCodeUpdates([a], name) + CountCodeUpdates([b], name)
    ensures CountHandlerUpdates([a, b], name) == CountHandlerUpdates([a], name) + CountHandlerUpdates([b], name)
    ensures CountWaits([a, b], name) == CountWaits([a], name) + CountWaits([b], name)
  {
    assert [a][1..] == [];
    assert [b][1..] == [];
    assert [a, b][1..] == [b];
  }

  /** Re-read the deployed function and correct its handler. */
  method Reconcile(env: Env, w: World, fn: string) returns (o: Outcome<()>, d: seq<Call>)
    ensures o.world.calls == w.calls + d
    ensures d <= [Probed(fn)] + HandlerFix(w.functions, fn)
    ensures o.result.Ok? ==> d == [Probed(fn)] + HandlerFix(w.functions, fn)
    ensures o.result.Ok? ==> fn in w.functions && fn in o.world.functions && o.world.functions[fn] == w.functions[fn].(handler := Handler)
    ensures SameExcept(w.functions, o.world.functions, {fn})
    ensures o.world.(functions := w.functions, polls := w.polls, calls := w.calls) == w
  {
    var info := GetFunctionAnswer(env, w, fn);
    var w1 := Record(w, Probed(fn));
    if info.Err? {
      return Outcome(w1, Err(info.error)), [Probed(fn)];
    }
    if info.value.handler == Handler {
      return Outcome(w1, Ok(())), [Probed(fn)];
    }
    var u := SdkUpdateHandler(env, w1, fn, Handler);
    if u.result.Err? {
      return Outcome(u.world, Err(u.result.error)), [Probed(fn), HandlerUpdated(fn, Handler)];
    }
    o := Await(env, u.world, fn, Some("handler update"));
    d := [Probed(fn), HandlerUpdated(fn, Handler), AwaitStarted(fn, Some("handler update"))];
  }

  /** The update branch: new code, a wait, then the handler correction. */
  method UpdateExisting(env: Env, w: World, fn: string, code: CodeLocation) returns (o: Outcome<()>, d: seq<Call>)
    ensures o.world.calls == w.calls + d
    ensures d <= [CodeUpdated(fn, code), AwaitStarted(fn, Some("creation")), Probed(fn)] + HandlerFix(w.functions, fn)
    ensures o.result.Ok? ==> d == [CodeUpdated(fn, code), AwaitStarted(fn, Some("creation")), Probed(fn)] + HandlerFix(w.functions, fn)
    ensures o.result.Ok? ==> fn in w.functions && fn in o.world.functions && o.world.functions[fn] == FunctionRecord(Handler, code)
    ensures SameExcept(w.functions, o.world.functions, {fn})
    ensures o.world.(functions := w.functions, polls := w.polls, calls := w.calls) == w
  {
    var u := SdkUpdateFunctionCode(env, w, fn, code);
    if u.result.Err? {
      return Outcome(u.world, Err(u.result.error)), [CodeUpdated(fn, code)];
    }
    var a := Await(env, u.world, fn, Some("creation"));
    var head := [CodeUpdated(fn, code), AwaitStarted(fn, Some("creation"))];
    if a.result.Err? {
      return a, head;
    }
    var r, dr := Reconcile(env, a.world, fn);
    assert HandlerFix(a.world.functions, fn) == HandlerFix(w.functions, fn);
    PrefixPrepend(head, dr, [Probed(fn)] + HandlerFix(w.functions, fn));
    Chain(w.calls, [CodeUpdated(fn, code)], [AwaitStarted(fn, Some("creation"))]);
    Chain(w.calls, head, dr);
    o, d := r, head + dr;
  }

  /** The create branch: create the function, then wait. */
  method CreateNew(env: Env, w: World, req: CreateRequest) returns (o: Outcome<()>, d: seq<Call>)
    ensures o.world.calls == w.calls + d
    ensures d <= [Created(req), AwaitStarted(req.name, Some("update"))]
    ensures o.result.Ok? ==> d == [Created(req), AwaitStarted(req.name, Some("update"))]
    ensures o.result.Ok? ==> req.name !in w.functions && o.world.functions == w.functions[req.name := FunctionRecord(req.handler, req.code)]
    ensures SameExcept(w.functions, o.world.functions, {req.name})
    ensures o.world.(functions := w.functions, polls := w.polls, calls := w.calls) == w
  {
    var c := SdkCreateFunction(env, w, req);
    if c.result.Err? {
      return c, [Created(req)];
    }
    o := Await(env, c.world, req.name, Some("update"));
    d := [Created(req), AwaitStarted(req.name, Some("update"))];
  }

  /** The code part of `deployLambda`, after the modules: upload the
      archive as `<fn>.zip`, probe, then update or create. */
  method DeployCode(env: Env, w: World, fn: string, arn: string, subnetId: Option<string>) returns (o: Outcome<()>, d: seq<Call>)
    ensures o.world.calls == w.calls + d
    ensures d <= CodeTrace(env, w.functions, fn, arn, subnetId)
    ensures o.result.Ok? ==> d == CodeTrace(env, w.functions, fn, arn, subnetId)
    ensures o.result.Ok? ==> fn in o.world.functions && o.world.functions[fn] == FunctionRecord(Handler, CodeLocation(env.bucket, CodeKey(fn)))
    ensures Clean(d, {fn}, {CodeKey(fn)})
    ensures SameExcept(w.functions, o.world.functions, {fn})
    ensures o.world.(functions := w.functions, polls := w.polls, calls := w.calls) == w
  {
    var code := CodeLocation(env.bucket, CodeKey(fn));
    var t := CodeTrace(env, w.functions, fn, arn, subnetId);
    CodeTraceClean(env, w.functions, fn, arn, subnetId);
    var u := UploadObject(env, w, CodeKey(fn));
    if u.result.Err? {
      o, d := Outcome(u.world, Err(u.result.error)), [Uploaded(env.bucket, CodeKey(fn))];
      CleanPrefix(d, t, {fn}, {CodeKey(fn)});
      return;
    }
    var p := FunctionExists(env, u.world, fn);
    var head := [Uploaded(env.bucket, CodeKey(fn)), Probed(fn)];
    Chain(w.calls, [Uploaded(env.bucket, CodeKey(fn))], [Probed(fn)]);
    var r, dr;
    if p.result.value {
      r, dr := UpdateExisting(env, p.world, fn, code);
      PrefixPrepend(head, dr, [CodeUpdated(fn, code), AwaitStarted(fn, Some("creation")), Probed(fn)] + HandlerFix(w.functions, fn));
    } else {
      r, dr := CreateNew(env, p.world, CreateRequestFor(env, fn, code, arn, subnetId));
      PrefixPrepend(head, dr, [Created(CreateRequestFor(env, fn, code, arn, subnetId)), AwaitStarted(fn, Some("update"))]);
    }
    Chain(w.calls, head, dr);
    o, d := r, head + dr;
    CleanPrefix(d, t, {fn}, {CodeKey(fn)});
  }

  // ---------------------------------------------------------------------------
  // deployLambda, deployModules, uploadToEFS, processEFSLoader
  // ---------------------------------------------------------------------------

  /** The bucket check and the file system lookup that open `deployLambda`. */
  function Setup(env: Env, vpcId: string, subnetId: Option<string>): seq<Call> {
    [BucketChecked(env.bucket), EfsEnsured(EfsName, [Text(vpcId), OptArg(subnetId)])]
  }

  /** The functions a deployment of `fn` may create or change: with the
      modules step, also the loader. */
  function Reach(fn: string, noEFS: bool): set<string> {
    if noEFS then {fn} else {fn, LoaderName}
  }

  /** The object keys a deployment of `fn` may upload. */
  function UploadKeys(fn: string, noEFS: bool): set<string> {
    if noEFS then {CodeKey(fn)} else {CodeKey(fn), CodeKey(LoaderName), ModulesKey(fn)}
  }

  /** The cached modules key, unless the caller forces a new upload. */
  function SavedKey(w: World, force: bool): Option<string> {
    if force then None else SavedVar(w, CacheKey)
  }

  /** Where `deployModules` reads a function's package file. */
  function PackageJsonPath(env: Env, fn: string): string {
    env.moduleDir + "/lambda-functions/" + fn + "/package.json"
  }

  /** Where `processEFSLoader` takes the loader's code and puts its archive. */
  function LoaderSource(env: Env): string { env.moduleDir + "/lambda-functions/efs-loader" }
  function LoaderCfgDir(env: Env): string { env.cwd + "/node_modules/.rws" }

  /** The loader as `processEFSLoader` deploys it. */
  function LoaderRecord(env: Env): FunctionRecord {
    FunctionRecord(Handler, CodeLocation(env.bucket, CodeKey(LoaderName)))
  }

  /** The functions once the loader is known to exist: unchanged when the
      probe finds it, otherwise with the freshly deployed loader. */
  function AfterLoader(env: Env, functions: map<string, FunctionRecord>): map<string, FunctionRecord> {
    if Probe(env, functions, LoaderName) then functions else functions[LoaderName := LoaderRecord(env)]
  }

  /** The calls of `deployLambda` when nothing fails: the opening checks,
      the modules step when the file system is new and `noEFS` is not set,
      then the code step against the functions the modules step leaves. */
  function DeployTrace(env: Env, w: World, fn: string, vpcId: string, subnetId: Option<string>, noEFS: bool): seq<Call>
  {
    Setup(env, vpcId, subnetId) + OnEfsTrace(env, w, fn, w.efs.id, w.efs.accessPointArn, w.efs.created, vpcId, subnetId, noEFS)
  }

  /** The part of `DeployTrace` after the file system lookup. */
  function OnEfsTrace(env: Env, w: World, fn: string, efsId: string, arn: string, existed: bool,
                      vpcId: string, subnetId: Option<string>, noEFS: bool): seq<Call>
  {
    if noEFS || existed then CodeTrace(env, w.functions, fn, arn, subnetId)
    else ModulesTrace(env, w, fn, efsId, vpcId, subnetId, false) + CodeTrace(env, AfterLoader(env, w.functions), fn, arn, subnetId)
  }

  /** The calls of `deployModules` when nothing fails: without a usable
      cached key, upload the package file and cache its key; then hand the
      key to the loader. */
  function ModulesTrace(env: Env, w: World, fn: string, efsId: string, vpcId: string, subnetId: Option<string>, force: bool): seq<Call>
  {
    var saved := SavedKey(w, force);
    (if saved.Some? then [] else [Uploaded(env.bucket, ModulesKey(fn)), VarSet(CacheKey, ModulesKey(fn))])
    + UploadTrace(env, w, fn, efsId, saved.GetOr(ModulesKey(fn)), env.bucket, vpcId, subnetId)
  }

  /** The calls of `uploadToEFS` when nothing fails: the loader's calls,
      then the invocation (of `RWS-RWS-efs-loader`, as written). */
  function UploadTrace(env: Env, w: World, base: string, efsId: string, key: string, bucket: string,
                       vpcId: string, subnetId: Option<string>): seq<Call>
  {
    LoaderTrace(env, w, vpcId, subnetId) + [Invoked(Prefixed(LoaderName), LoaderPayload(Prefixed(base), efsId, key, bucket))]
  }

  /** The calls of `processEFSLoader` when nothing fails: probe the loader
      and, when it is absent, archive its code and deploy it without the
      modules step. */
  function LoaderTrace(env: Env, w: World, vpcId: string, subnetId: Option<string>): seq<Call>
  {
    [Probed(LoaderName)]
    + (if Probe(env, w.functions, LoaderName) then []
       else ArchiveCalls(w.files, LoaderSource(env), LoaderCfgDir(env))
            + Setup(env, vpcId, subnetId) + CodeTrace(env, w.functions, LoaderName, w.efs.accessPointArn, subnetId))
  }

  /** The loader's calls depend only on the functions, the local files and
      the file system's access point. */
  lemma LoaderTraceFrame(env: Env, w: World, w': World, vpcId: string, subnetId: Option<string>)
    requires w'.functions == w.functions && w'.files == w.files && w'.efs.accessPointArn == w.efs.accessPointArn
    ensures LoaderTrace(env, w', vpcId, subnetId) == LoaderTrace(env, w, vpcId, subnetId)
  {
  }

  /** The calls after the file system lookup depend only on the functions,
      the local files, the variable store and the access point. */
  lemma OnEfsTraceFrame(env: Env, w: World, w': World, fn: string, efsId: string, arn: string, existed: bool,
                        vpcId: string, subnetId: Option<string>, noEFS: bool)
    requires w'.functions == w.functions && w'.files == w.files && w'.vars == w.vars && w'.efs.accessPointArn == w.efs.accessPointArn
    ensures OnEfsTrace(env, w', fn, efsId, arn, existed, vpcId, subnetId, noEFS) == OnEfsTrace(env, w, fn, efsId, arn, existed, vpcId, subnetId, noEFS)
  {
    LoaderTraceFrame(env, w, w', vpcId, subnetId);
  }

  /** A prefix of a log is a prefix of any extension of it. */
  lemma PrefixExtend(d: seq<Call>, t: seq<Call>, x: seq<Call>)
    requires d <= t
    ensures d <= t + x
  {
    assert (t + x)[..|d|] == t[..|d|];
  }

  /** A map that agrees with `f` outside `n` and holds `rec` at `n` is `f`
      with `n` set to `rec`. */
  lemma SameExceptOne(f: map<string, FunctionRecord>, g: map<string, FunctionRecord>, n: string, rec: FunctionRecord)
    requires SameExcept(f, g, {n}) && n in g && g[n] == rec
    ensures g == f[n := rec]
  {
    assert g.Keys == f[n := rec].Keys;
  }

  lemma SetupClean(env: Env, vpcId: string, subnetId: Option<string>)
    ensures Clean(Setup(env, vpcId, subnetId), {}, {})
  {
    var s := Setup(env, vpcId, subnetId);
    assert CleanCall(s[0], {}, {}) && CleanCall(s[1], {}, {});
    CleanFromCalls(s, {}, {});
  }

  lemma CleanAppend(a: seq<Call>, b: seq<Call>, names: set<string>, keys: set<string>)
    requires Clean(a, names, keys) && Clean(b, names, keys)
    ensures Clean(a + b, names, keys)
  {
    Compose(a, b, names, keys);
  }

  /** What a log never does, none of its prefixes does. */
  lemma {:induction false} BoundsOfPrefix(d: seq<Call>, t: seq<Call>, names: set<string>, keys: set<string>)
    requires d <= t && TouchesOnly(t, names) && UploadsOnly(t, keys)
    ensures TouchesOnly(d, names) && UploadsOnly(d, keys)
    ensures Invokes(d) ==> Invokes(t)
    decreases |d|
  {
    if |d| > 0 {
      assert d[1..] <= t[1..];
      BoundsOfPrefix(d[1..], t[1..], names, keys);
    }
  }

  /** An invocation anywhere in a log makes the log invoke. */
  lemma {:induction false} InvokesAt(d: seq<Call>, i: nat)
    requires i < |d| && d[i].Invoked?
    ensures Invokes(d)
    decreases i
  {
    if i > 0 {
      InvokesAt(d[1..], i - 1);
    }
  }

  /** Agreement outside a set of names composes. */
  lemma SameExceptTrans(f: map<string, FunctionRecord>, g: map<string, FunctionRecord>, h: map<string, FunctionRecord>,
                        a: set<string>, b: set<string>, c: set<string>)
    requires SameExcept(f, g, a) && SameExcept(g, h, b)
    requires a <= c && b <= c
    ensures SameExcept(f, h, c)
  {
  }

  // ---------------------------------------------------------------------------
  // What the reference traces touch
  // ---------------------------------------------------------------------------

  /** `processEFSLoader` stays with the loader, uploads only the loader's
      code and invokes nothing. */
  lemma LoaderTraceClean(env: Env, w: World, vpcId: string, subnetId: Option<string>)
    ensures Clean(LoaderTrace(env, w, vpcId, subnetId), {LoaderName}, {CodeKey(LoaderName)})
  {
    var n, k := {LoaderName}, {CodeKey(LoaderName)};
    var probe := [Probed(LoaderName)];
    assert CleanCall(probe[0], n, k);
    CleanFromCalls(probe, n, k);
    if Probe(env, w.functions, LoaderName) {
      assert LoaderTrace(env, w, vpcId, subnetId) == probe + [];
    } else {
      var da := ArchiveCalls(w.files, LoaderSource(env), LoaderCfgDir(env));
      var st := Setup(env, vpcId, subnetId);
      var c := CodeTrace(env, w.functions, LoaderName, w.efs.accessPointArn, subnetId);
      LocalClean(da, n, k);
      SetupClean(env, vpcId, subnetId);
      Widen(st, {}, {}, n, k);
      CodeTraceClean(env, w.functions, LoaderName, w.efs.accessPointArn, subnetId);
      CleanAppend(da, st, n, k);
      CleanAppend(da + st, c, n, k);
      CleanAppend(probe, da + st + c, n, k);
    }
  }

  /** `uploadToEFS` touches only the loader, uploads only the loader's code,
      and invokes. */
  lemma UploadTraceBounds(env: Env, w: World, base: string, efsId: string, key: string, bucket: string,
                          vpcId: string, subnetId: Option<string>)
    ensures var t := UploadTrace(env, w, base, efsId, key, bucket, vpcId, subnetId);
            TouchesOnly(t, {LoaderName}) && UploadsOnly(t, {CodeKey(LoaderName)}) && Invokes(t)
  {
    var lt := LoaderTrace(env, w, vpcId, subnetId);
    var last := [Invoked(Prefixed(LoaderName), LoaderPayload(Prefixed(base), efsId, key, bucket))];
    LoaderTraceClean(env, w, vpcId, subnetId);
    assert TouchesOnly(last, {LoaderName}) && UploadsOnly(last, {CodeKey(LoaderName)});
    Compose(lt, last, {LoaderName}, {CodeKey(LoaderName)});
    InvokesAt(lt + last, |lt|);
  }

  /** `deployModules` touches only the loader, uploads only the loader's
      code and the function's package file, and invokes. */
  lemma ModulesTraceBounds(env: Env, w: World, fn: string, efsId: string, vpcId: string, subnetId: Option<string>, force: bool)
    ensures var t := ModulesTrace(env, w, fn, efsId, vpcId, subnetId, force);
            TouchesOnly(t, {LoaderName}) && UploadsOnly(t, {CodeKey(LoaderName), ModulesKey(fn)}) && Invokes(t)
  {
    var n, k := {LoaderName}, {CodeKey(LoaderName), ModulesKey(fn)};
    var saved := SavedKey(w, force);
    var ut := UploadTrace(env, w, fn, efsId, saved.GetOr(ModulesKey(fn)), env.bucket, vpcId, subnetId);
    var head: seq<Call> := if saved.Some? then [] else [Uploaded(env.bucket, ModulesKey(fn)), VarSet(CacheKey, ModulesKey(fn))];
    UploadTraceBounds(env, w, fn, efsId, saved.GetOr(ModulesKey(fn)), env.bucket, vpcId, subnetId);
    Widen(ut, n, {CodeKey(LoaderName)}, n, k);
    CacheStepClean(env.bucket, fn, saved.None?);
    Compose(head, ut, n, k);
  }

  /** The package upload and the cache write of `deployModules` touch no
      function, upload only the package file and invoke nothing. */
  lemma CacheStepClean(bucket: string, fn: string, upload: bool)
    ensures var head: seq<Call> := if upload then [Uploaded(bucket, ModulesKey(fn)), VarSet(CacheKey, ModulesKey(fn))] else [];
            Clean(head, {LoaderName}, {CodeKey(LoaderName), ModulesKey(fn)})
  {
    var n, k := {LoaderName}, {CodeKey(LoaderName), ModulesKey(fn)};
    var head: seq<Call> := if upload then [Uploaded(bucket, ModulesKey(fn)), VarSet(CacheKey, ModulesKey(fn))] else [];
    if upload {
      assert CleanCall(head[0], n, k) && CleanCall(head[1], n, k);
    }
    CleanFromCalls(head, n, k);
  }

  /** A deployment touches only `fn` and, with the modules step, the loader;
      it uploads only their code and the package file; it invokes exactly
      when the modules step runs; and the life-cycle calls about `fn` are
      those of its code step. */
  lemma DeployTraceBounds(env: Env, w: World, fn: string, vpcId: string, subnetId: Option<string>, noEFS: bool)
    ensures var t := DeployTrace(env, w, fn, vpcId, subnetId, noEFS);
            && TouchesOnly(t, Reach(fn, noEFS)) && UploadsOnly(t, UploadKeys(fn, noEFS))
            && (Invokes(t) <==> !noEFS && !w.efs.created)
            && (noEFS || fn != LoaderName ==>
                  Project(t, fn) == Project(CodeTrace(env, w.functions, fn, w.efs.accessPointArn, subnetId), fn))
  {
    var r, k := Reach(fn, noEFS), UploadKeys(fn, noEFS);
    var arn := w.efs.accessPointArn;
    var st := Setup(env, vpcId, subnetId);
    SetupClean(env, vpcId, subnetId);
    Widen(st, {}, {}, r, k);
    ProjectOfUntouched(st, {}, fn);
    if noEFS || w.efs.created {
      var c := CodeTrace(env, w.functions, fn, arn, subnetId);
      CodeTraceClean(env, w.functions, fn, arn, subnetId);
      Widen(c, {fn}, {CodeKey(fn)}, r, k);
      Compose(st, c, r, k);
      ProjectAppend(st, c, fn);
    } else {
      var m := ModulesTrace(env, w, fn, w.efs.id, vpcId, subnetId, false);
      var c := CodeTrace(env, AfterLoader(env, w.functions), fn, arn, subnetId);
      ModulesTraceBounds(env, w, fn, w.efs.id, vpcId, subnetId, false);
      Widen(m, {LoaderName}, {CodeKey(LoaderName), ModulesKey(fn)}, r, k);
      CodeTraceClean(env, AfterLoader(env, w.functions), fn, arn, subnetId);
      Widen(c, {fn}, {CodeKey(fn)}, r, k);
      Compose(m, c, r, k);
      Compose(st, m + c, r, k);
      assert DeployTrace(env, w, fn, vpcId, subnetId, noEFS) == st + (m + c);
      if fn != LoaderName {
        ProjectAppend(st, m + c, fn);
        ProjectAppend(m, c, fn);
        ProjectOfUntouched(m, {LoaderName}, fn);
        CodeTraceLocal(env, AfterLoader(env, w.functions), w.functions, fn, arn, subnetId);
      }
    }
  }

  /** Every run of `deployLambda`, complete or cut short by an error, stays
      within those bounds, and one without the modules step invokes
      nothing. */
  lemma DeployStaysInBounds(env: Env, w: World, fn: string, vpcId: string, subnetId: Option<string>, noEFS: bool, d: seq<Call>)
    requires d <= DeployTrace(env, w, fn, vpcId, subnetId, noEFS)
    ensures TouchesOnly(d, Reach(fn, noEFS)) && UploadsOnly(d, UploadKeys(fn, noEFS))
    ensures Invokes(d) ==> !noEFS && !w.efs.created
  {
    DeployTraceBounds(env, w, fn, vpcId, subnetId, noEFS);
    BoundsOfPrefix(d, DeployTrace(env, w, fn, vpcId, subnetId, noEFS), Reach(fn, noEFS), UploadKeys(fn, noEFS));
  }

  /** With a cached key, a later modules step without `force` uploads no
      package file and hands the cached key to the loader; without one, the
      package file is uploaded first. */
  lemma CachedModulesNotUploaded(env: Env, w: World, fn: string, efsId: string, vpcId: string, subnetId: Option<string>, key: string)
    requires SavedVar(w, CacheKey) == Some(key)
    ensures var t := ModulesTrace(env, w, fn, efsId, vpcId, subnetId, false);
            && UploadsOnly(t, {CodeKey(LoaderName)})
            && t[|t| - 1] == Invoked(Prefixed(LoaderName), LoaderPayload(Prefixed(fn), efsId, key, env.bucket))
    ensures var t := ModulesTrace(env, w.(vars := w.vars - {CacheKey}), fn, efsId, vpcId, subnetId, false);
            t[0] == Uploaded(env.bucket, ModulesKey(fn))
  {
    UploadTraceBounds(env, w, fn, efsId, key, env.bucket, vpcId, subnetId);
    assert ModulesTrace(env, w, fn, efsId, vpcId, subnetId, false) == UploadTrace(env, w, fn, efsId, key, env.bucket, vpcId, subnetId);
  }

  // ---------------------------------------------------------------------------
  // The deployment methods
  // ---------------------------------------------------------------------------

  /** `deployLambda(fn, zipPath, vpcId, subnetId, noEFS)`: read the archive,
      check the bucket, look up or create the shared file system, then
      deploy the modules and the code. Any error is rethrown. */
  method DeployLambda(env: Env, w: World, fn: string, zipPath: string, vpcId: string, subnetId: Option<string>, noEFS: bool)
    returns (o: Outcome<()>, d: seq<Call>)
    ensures o.world.calls == w.calls + d
    ensures zipPath !in w.files ==> o == Outcome(w, Err(Missing(zipPath))) && d == []
    ensures d <= DeployTrace(env, w, fn, vpcId, subnetId, noEFS)
    ensures o.result.Ok? ==> d == DeployTrace(env, w, fn, vpcId, subnetId, noEFS)
    ensures o.result.Ok? ==> fn in o.world.functions && o.world.functions[fn] == FunctionRecord(Handler, CodeLocation(env.bucket, CodeKey(fn)))
    ensures SameExcept(w.functions, o.world.functions, Reach(fn, noEFS))
    ensures noEFS ==> o.world.vars == w.vars
    ensures o.world.efs.id == w.efs.id && o.world.efs.accessPointArn == w.efs.accessPointArn
    decreases if noEFS then 0 else 1, 7
  {
    if zipPath !in w.files {
      return Outcome(w, Err(Missing(zipPath))), [];
    }
    var w1 := Record(w, BucketChecked(env.bucket));
    var efs := [EfsEnsured(EfsName, [Text(vpcId), OptArg(subnetId)])];
    var rest := OnEfsTrace(env, w, fn, w.efs.id, w.efs.accessPointArn, w.efs.created, vpcId, subnetId, noEFS);
    PairThen(BucketChecked(env.bucket), efs[0], rest);
    if CheckBucket in env.failing {
      o, d := Outcome(w1, Err(env.failing[CheckBucket])), [BucketChecked(env.bucket)];
      PrefixExtend(d, d, efs + rest);
      return;
    }
    var dh;
    o, dh := EnsureEfsThenDeploy(env, w1, fn, vpcId, subnetId, noEFS);
    OnEfsTraceFrame(env, w, w1, fn, w.efs.id, w.efs.accessPointArn, w.efs.created, vpcId, subnetId, noEFS);
    Chain(w.calls, [BucketChecked(env.bucket)], dh);
    PrefixPrepend([BucketChecked(env.bucket)], dh, efs + rest);
    d := [BucketChecked(env.bucket)] + dh;
  }

  /** The part of `deployLambda` from the file system lookup on. */
  method EnsureEfsThenDeploy(env: Env, w: World, fn: string, vpcId: string, subnetId: Option<string>, noEFS: bool)
    returns (o: Outcome<()>, d: seq<Call>)
    ensures o.world.calls == w.calls + d
    ensures d <= DeployTrace(env, w, fn, vpcId, subnetId, noEFS)[1..]
    ensures o.result.Ok? ==> d == DeployTrace(env, w, fn, vpcId, subnetId, noEFS)[1..]
    ensures o.result.Ok? ==> fn in o.world.functions && o.world.functions[fn] == FunctionRecord(Handler, CodeLocation(env.bucket, CodeKey(fn)))
    ensures SameExcept(w.functions, o.world.functions, Reach(fn, noEFS))
    ensures noEFS ==> o.world.vars == w.vars
    ensures o.world.efs.id == w.efs.id && o.world.efs.accessPointArn == w.efs.accessPointArn
    decreases if noEFS then 0 else 1, 6
  {
    var pre := [EfsEnsured(EfsName, [Text(vpcId), OptArg(subnetId)])];
    var rest := OnEfsTrace(env, w, fn, w.efs.id, w.efs.accessPointArn, w.efs.created, vpcId, subnetId, noEFS);
    PairThen(BucketChecked(env.bucket), pre[0], rest);
    DropHead(BucketChecked(env.bucket), pre + rest);
    var e := GetOrCreateEfs(env, w, [Text(vpcId), OptArg(subnetId)]);
    if e.result.Err? {
      o, d := Outcome(e.world, Err(e.result.error)), pre;
      PrefixExtend(d, pre, rest);
      return;
    }
    var r, dd := DeployOnEfs(env, e.world, fn, e.result.value.0, e.result.value.1, e.result.value.2, vpcId, subnetId, noEFS);
    OnEfsTraceFrame(env, w, e.world, fn, e.result.value.0, e.result.value.1, e.result.value.2, vpcId, subnetId, noEFS);
    Chain(w.calls, pre, dd);
    PrefixPrepend(pre, dd, rest);
    o, d := r, pre + dd;
  }

  /** The part of `deployLambda` after the file system lookup: the modules
      step when the file system was just created and `noEFS` is not set,
      then the code step. The code step is reached only once the modules
      step has invoked the loader without error. */
  method DeployOnEfs(env: Env, w: World, fn: string, efsId: string, arn: string, existed: bool,
                     vpcId: string, subnetId: Option<string>, noEFS: bool)
    returns (o: Outcome<()>, d: seq<Call>)
    ensures o.world.calls == w.calls + d
    ensures d <= OnEfsTrace(env, w, fn, efsId, arn, existed, vpcId, subnetId, noEFS)
    ensures o.result.Ok? ==> d == OnEfsTrace(env, w, fn, efsId, arn, existed, vpcId, subnetId, noEFS)
    ensures !noEFS && !existed && |d| > |ModulesTrace(env, w, fn, efsId, vpcId, subnetId, false)| ==>
              Invoke !in env.failing && Prefixed(LoaderName) in w.functions
    ensures o.result.Ok? ==> fn in o.world.functions && o.world.functions[fn] == FunctionRecord(Handler, CodeLocation(env.bucket, CodeKey(fn)))
    ensures SameExcept(w.functions, o.world.functions, Reach(fn, noEFS))
    ensures noEFS ==> o.world.vars == w.vars
    ensures o.world.efs.id == w.efs.id && o.world.efs.accessPointArn == w.efs.accessPointArn
    decreases if noEFS then 0 else 1, 5
  {
    var wm := w;
    var dm: seq<Call> := [];
    var touched: set<string> := {};
    if !noEFS && !existed {
      var m, d' := DeployModules(env, w, fn, efsId, vpcId, subnetId, false);
      if m.result.Err? {
        o, d := Outcome(m.world, Err(m.result.error)), d';
        PrefixExtend(d', ModulesTrace(env, w, fn, efsId, vpcId, subnetId, false), CodeTrace(env, AfterLoader(env, w.functions), fn, arn, subnetId));
        return;
      }
      wm, dm, touched := m.world, d', {LoaderName};
    }
    var c, dc := DeployCode(env, wm, fn, arn, subnetId);
    Chain(w.calls, dm, dc);
    PrefixPrepend(dm, dc, CodeTrace(env, wm.functions, fn, arn, subnetId));
    o, d := c, dm + dc;
    SameExceptTrans(w.functions, wm.functions, o.world.functions, touched, {fn}, Reach(fn, noEFS));
  }

  /** `deployModules(fn, efsId, vpcId, subnetId, force)`: with a cached key,
      hand it to the loader; otherwise read the function's package file,
      upload it as `RWS-<fn>-modules.json`, cache the key, then hand that
      to the loader. */
  method DeployModules(env: Env, w: World, fn: string, efsId: string, vpcId: string, subnetId: Option<string>, force: bool)
    returns (o: Outcome<()>, d: seq<Call>)
    ensures o.world.calls == w.calls + d
    ensures d <= ModulesTrace(env, w, fn, efsId, vpcId, subnetId, force)
    ensures o.result.Ok? ==> d == ModulesTrace(env, w, fn, efsId, vpcId, subnetId, force)
    ensures o.result.Ok? ==> o.world.functions == AfterLoader(env, w.functions)
    ensures o.result.Ok? ==> Invoke !in env.failing && Prefixed(LoaderName) in w.functions
    ensures o.result.Ok? ==> SavedVar(o.world, CacheKey) == Some(SavedKey(w, force).GetOr(ModulesKey(fn)))
    ensures SavedKey(w, force).None? && PackageJsonPath(env, fn) !in w.files ==>
              o == Outcome(w, Err(Missing(PackageJsonPath(env, fn)))) && d == []
    ensures SameExcept(w.functions, o.world.functions, {LoaderName})
    ensures o.world.efs.id == w.efs.id && o.world.efs.accessPointArn == w.efs.accessPointArn
    decreases 1, 4
  {
    var saved := SavedKey(w, force);
    if saved.Some? {
      o, d := UploadToEfs(env, w, fn, efsId, saved.value, env.bucket, vpcId, subnetId);
      assert ModulesTrace(env, w, fn, efsId, vpcId, subnetId, force) == UploadTrace(env, w, fn, efsId, saved.value, env.bucket, vpcId, subnetId);
      return;
    }
    o, d := UploadModules(env, w, fn, efsId, vpcId, subnetId);
  }

  /** The branch of `deployModules` without a usable cached key: its calls
      are those of a forced run. */
  method UploadModules(env: Env, w: World, fn: string, efsId: string, vpcId: string, subnetId: Option<string>)
    returns (o: Outcome<()>, d: seq<Call>)
    ensures o.world.calls == w.calls + d
    ensures d <= ModulesTrace(env, w, fn, efsId, vpcId, subnetId, true)
    ensures o.result.Ok? ==> d == ModulesTrace(env, w, fn, efsId, vpcId, subnetId, true)
    ensures o.result.Ok? ==> o.world.functions == AfterLoader(env, w.functions)
    ensures o.result.Ok? ==> Invoke !in env.failing && Prefixed(LoaderName) in w.functions
    ensures o.result.Ok? ==> SavedVar(o.world, CacheKey) == Some(ModulesKey(fn))
    ensures PackageJsonPath(env, fn) !in w.files ==> o == Outcome(w, Err(Missing(PackageJsonPath(env, fn)))) && d == []
    ensures SameExcept(w.functions, o.world.functions, {LoaderName})
    ensures o.world.efs.id == w.efs.id && o.world.efs.accessPointArn == w.efs.accessPointArn
    decreases 1, 3
  {
    var head := [Uploaded(env.bucket, ModulesKey(fn)), VarSet(CacheKey, ModulesKey(fn))];
    var t := UploadTrace(env, w, fn, efsId, ModulesKey(fn), env.bucket, vpcId, subnetId);
    if PackageJsonPath(env, fn) !in w.files {
      return Outcome(w, Err(Missing(PackageJsonPath(env, fn)))), [];
    }
    var u := UploadObject(env, w, ModulesKey(fn));
    if u.result.Err? {
      assert (head + t)[..1] == [Uploaded(env.bucket, ModulesKey(fn))];
      return Outcome(u.world, Err(u.result.error)), [Uploaded(env.bucket, ModulesKey(fn))];
    }
    var r, dr := CacheThenUpload(env, u.world, fn, efsId, vpcId, subnetId);
    LoaderTraceFrame(env, w, u.world, vpcId, subnetId);
    Chain(w.calls, [Uploaded(env.bucket, ModulesKey(fn))], dr);
    PrefixPrepend([Uploaded(env.bucket, ModulesKey(fn))], dr, [VarSet(CacheKey, ModulesKey(fn))] + t);
    PairThen(Uploaded(env.bucket, ModulesKey(fn)), VarSet(CacheKey, ModulesKey(fn)), t);
    o, d := r, [Uploaded(env.bucket, ModulesKey(fn))] + dr;
  }

  /** After the package file upload: cache its key, then hand it to the
      loader. */
  method CacheThenUpload(env: Env, w: World, fn: string, efsId: string, vpcId: string, subnetId: Option<string>)
    returns (o: Outcome<()>, d: seq<Call>)
    ensures o.world.calls == w.calls + d
    ensures d <= [VarSet(CacheKey, ModulesKey(fn))] + UploadTrace(env, w, fn, efsId, ModulesKey(fn), env.bucket, vpcId, subnetId)
    ensures o.result.Ok? ==> d == [VarSet(CacheKey, ModulesKey(fn))] + UploadTrace(env, w, fn, efsId, ModulesKey(fn), env.bucket, vpcId, subnetId)
    ensures o.result.Ok? ==> o.world.functions == AfterLoader(env, w.functions)
    ensures o.result.Ok? ==> Invoke !in env.failing && Prefixed(LoaderName) in w.functions
    ensures o.world.vars == w.vars[CacheKey := ModulesKey(fn)]
    ensures SameExcept(w.functions, o.world.functions, {LoaderName})
    ensures o.world.efs.id == w.efs.id && o.world.efs.accessPointArn == w.efs.accessPointArn
    decreases 1, 2
  {
    var w2 := SetVar(w, CacheKey, ModulesKey(fn));
    LoaderTraceFrame(env, w, w2, vpcId, subnetId);
    var r, dr := UploadToEfs(env, w2, fn, efsId, ModulesKey(fn), env.bucket, vpcId, subnetId);
    Chain(w.calls, [VarSet(CacheKey, ModulesKey(fn))], dr);
    PrefixPrepend([VarSet(CacheKey, ModulesKey(fn))], dr, UploadTrace(env, w, fn, efsId, ModulesKey(fn), env.bucket, vpcId, subnetId));
    o, d := r, [VarSet(CacheKey, ModulesKey(fn))] + dr;
  }

  /** `uploadToEFS(base, efsId, key, bucket, vpcId, subnetId)`: make sure the
      loader exists, then invoke it asynchronously for `RWS-<base>`. The
      loader's name already carries the `RWS-` prefix and `invokeLambda`
      adds another, so the invocation targets `RWS-RWS-efs-loader`. */
  method UploadToEfs(env: Env, w: World, base: string, efsId: string, key: string, bucket: string, vpcId: string, subnetId: Option<string>)
    returns (o: Outcome<()>, d: seq<Call>)
    ensures o.world.calls == w.calls + d
    ensures d <= UploadTrace(env, w, base, efsId, key, bucket, vpcId, subnetId)
    ensures o.result.Ok? ==> d == UploadTrace(env, w, base, efsId, key, bucket, vpcId, subnetId)
    ensures o.result.Ok? ==> o.world.functions == AfterLoader(env, w.functions)
    ensures o.result.Ok? ==> Invoke !in env.failing && Prefixed(LoaderName) in w.functions
    ensures SameExcept(w.functions, o.world.functions, {LoaderName})
    ensures o.world.efs.id == w.efs.id && o.world.efs.accessPointArn == w.efs.accessPointArn && o.world.vars == w.vars
    decreases 1, 1
  {
    var p, dp := ProcessEfsLoader(env, w, vpcId, subnetId);
    var payload := LoaderPayload(Prefixed(base), efsId, key, bucket);
    var last := [Invoked(Prefixed(LoaderName), payload)];
    if p.result.Err? {
      PrefixExtend(dp, LoaderTrace(env, w, vpcId, subnetId), last);
      return Outcome(p.world, Err(p.result.error)), dp;
    }
    assert |Prefixed(LoaderName)| != |LoaderName|;
    o := SdkInvoke(env, p.world, p.result.value, payload);
    d := dp + last;
    Chain(w.calls, dp, last);
  }

  /** `processEFSLoader(vpcId, subnetId)`: when `RWS-efs-loader` does not
      exist, archive its code and deploy it without the modules step;
      answers the loader's name. */
  method ProcessEfsLoader(env: Env, w: World, vpcId: string, subnetId: Option<string>)
    returns (o: Outcome<string>, d: seq<Call>)
    ensures o.world.calls == w.calls + d
    ensures |d| >= 1 && d[0] == Probed(LoaderName)
    ensures d <= LoaderTrace(env, w, vpcId, subnetId)
    ensures o.result.Ok? ==> o.result.value == LoaderName && d == LoaderTrace(env, w, vpcId, subnetId)
    ensures o.result.Ok? ==> o.world.functions == AfterLoader(env, w.functions)
    ensures Probe(env, w.functions, LoaderName) ==> o == Outcome(Record(w, Probed(LoaderName)), Ok(LoaderName)) && d == [Probed(LoaderName)]
    ensures SameExcept(w.functions, o.world.functions, {LoaderName})
    ensures o.world.efs.id == w.efs.id && o.world.efs.accessPointArn == w.efs.accessPointArn && o.world.vars == w.vars
    decreases 1, 0
  {
    var p := FunctionExists(env, w, LoaderName);
    var head := [Probed(LoaderName)];
    if p.result.value {
      assert LoaderTrace(env, w, vpcId, subnetId) == head + [];
      return Outcome(p.world, Ok(LoaderName)), head;
    }
    var a := ArchiveLambda(p.world, LoaderSource(env), LoaderCfgDir(env));
    var da := ArchiveCalls(p.world.files, LoaderSource(env), LoaderCfgDir(env));
    var dt := Setup(env, vpcId, subnetId) + CodeTrace(env, w.functions, LoaderName, w.efs.accessPointArn, subnetId);
    assert LoaderTrace(env, w, vpcId, subnetId) == (head + da) + dt;
    Chain(w.calls, head, da);
    if a.result.Err? {
      PrefixExtend(head + da, head + da, dt);
      return Outcome(a.world, Err(a.result.error)), head + da;
    }
    var r, dr := DeployLambda(env, a.world, LoaderName, a.result.value, vpcId, subnetId, true);
    assert DeployTrace(env, a.world, LoaderName, vpcId, subnetId, true) == dt by {
      assert a.world.functions == w.functions && a.world.efs == w.efs;
    }
    o := Outcome(r.world, if r.result.Err? then Err(r.result.error) else Ok(LoaderName));
    d := head + da + dr;
    Chain(w.calls, head + da, dr);
    PrefixPrepend(head + da, dr, dt);
    if r.result.Ok? {
      SameExceptOne(w.functions, r.world.functions, LoaderName, LoaderRecord(env));
    }
  }

  // ---------------------------------------------------------------------------
  // The loader invocation: as written and as intended
  // ---------------------------------------------------------------------------

  /** `uploadToEFS` hands `invokeLambda` the loader's full name, and
      `invokeLambda` prefixes it again. */
  lemma LoaderInvocationTarget()
    ensures Prefixed(LoaderName) == "RWS-RWS-efs-loader"
    ensures Prefixed(LoaderName) != LoaderName
    ensures Prefixed(LoaderBaseName) == LoaderName
  {
    assert |Prefixed(LoaderName)| != |LoaderName|;
  }

  /** The name `invokeLambda` has to be given to reach the loader. */
  const LoaderBaseName := "efs-loader"

  /** Calls cut short inside the loader's own calls invoke nothing: an
      upload that fails before its invocation has invoked no function. */
  lemma LoaderPrefixInvokesNothing(env: Env, w: World, vpcId: string, subnetId: Option<string>, d: seq<Call>)
    requires d <= LoaderTrace(env, w, vpcId, subnetId)
    ensures !Invokes(d)
  {
    LoaderTraceClean(env, w, vpcId, subnetId);
    CleanPrefix(d, LoaderTrace(env, w, vpcId, subnetId), {LoaderName}, {CodeKey(LoaderName)});
  }

  /** `uploadToEFS` with the invocation aimed at the loader itself: the
      prefix is left to `invokeLambda`. When no operation fails and the
      loader exists, the call probes it once and invokes it; an error can
      only come before the invocation. */
  method UploadToEfsIntended(env: Env, w: World, base: string, efsId: string, key: string, bucket: string, vpcId: string, subnetId: Option<string>)
    returns (o: Outcome<()>, d: seq<Call>)
    ensures o.world.calls == w.calls + d
    ensures |d| >= 1 && d[0] == Probed(LoaderName)
    ensures d <= LoaderTrace(env, w, vpcId, subnetId) + [Invoked(LoaderName, LoaderPayload(Prefixed(base), efsId, key, bucket))]
    ensures o.result.Ok? ==> d == LoaderTrace(env, w, vpcId, subnetId) + [Invoked(LoaderName, LoaderPayload(Prefixed(base), efsId, key, bucket))]
    ensures GetFunction !in env.failing && Invoke !in env.failing && o.result.Err? ==> d <= LoaderTrace(env, w, vpcId, subnetId)
    ensures GetFunction !in env.failing && Invoke !in env.failing && LoaderName in w.functions ==>
              o.result.Ok? && d == [Probed(LoaderName), Invoked(LoaderName, LoaderPayload(Prefixed(base), efsId, key, bucket))]
  {
    var p, dp := ProcessEfsLoader(env, w, vpcId, subnetId);
    var last := [Invoked(LoaderName, LoaderPayload(Prefixed(base), efsId, key, bucket))];
    if p.result.Err? {
      PrefixExtend(dp, LoaderTrace(env, w, vpcId, subnetId), last);
      return Outcome(p.world, Err(p.result.error)), dp;
    }
    var payload := LoaderPayload(Prefixed(base), efsId, key, bucket);
    LoaderInvocationTarget();
    o := SdkInvoke(env, p.world, LoaderBaseName, payload);
    d := dp + [Invoked(LoaderName, payload)];
    Chain(w.calls, dp, [Invoked(LoaderName, payload)]);
  }
}
