# RWS serverless deployment, modelled in Dafny

This project models the part of RWS that deploys serverless functions. RWS is a
Node.js web framework, and this part ships a project's functions to AWS Lambda:

- it packs each function directory into a zip archive;
- it makes sure the bucket and the shared file system `RWS_EFS` exist;
- it pushes the project's node modules onto that file system through a
  loader function, caching the uploaded key in a process-wide variable;
- it creates or updates the function, corrects its handler, and waits until
  Lambda reports it `Active`.

Around that sit a few more pieces:

- the AWS helpers for networking and IAM: default VPC and subnet, security
  groups, the permission simulation, the default route table, and the S3
  gateway endpoint with its route;
- the `lambda` command of the command-line tool, which parses
  `<command>:<directory>[:<argument>]`, runs life-cycle hooks and deploys
  through the older build of the service;
- two small pieces of the server: the socket authorisation middleware with
  its cookie helpers, and the configuration singleton.

Every AWS SDK client, the zip tool, the file system and the variable store
are abstract. A run is a value `Cloud.World` with these parts:

- the deployed functions;
- the file system `RWS_EFS`;
- the endpoints and route tables;
- the local files and variables;
- the `getFunction` answers a wait will see;
- an append-only log of every remote and local call.

What does not change in a run is a `Cloud.Env`: which SDK operations fail,
the configuration values, the directories and the network inventory. Each
operation is a function or method from a world to an `Outcome` (the new
world plus a result or a thrown error). Contracts state which calls are
made, how many, in what order, and what is returned or thrown. They do so
by comparing the added log with a reference trace. The wait is a loop over
the answers on a logical clock in milliseconds, proved equal to a
functional reference `StateWaiter.Poll`.

The modules follow the source files:

- `Common`: JavaScript string helpers.
- `Cloud`: the world and the oracles.
- `StateWaiter`: `waitForLambda`.
- `Packaging`: archive paths.
- `AwsNetwork`: `AWSService.js` networking and IAM.
- `LambdaService`: `src/services/LambdaService.ts` together with
  `uploadToEFS` and `processEFSLoader`, which recurse into `deployLambda`.
- `LegacyLambdaService`: `dist/src/services/LambdaService.js`.
- `LambdaCommand`: `dist/src/commands/LambdaCommand.js`.
- `ServerAuth`: `src/services/ServerService.ts`.
- `AppConfig`: `src/services/AppConfigService.ts`.

The current and the older Lambda service are modelled separately, each
against its own file. The older one differs in several ways:

- it builds the modules archive next to the app archive;
- it runs the modules step on every deployment that uses the file system;
- it creates functions with handler `index.js` and no memory or timeout
  settings;
- it waits once and never corrects the handler.

## Model

| member | source | states |
|---|---|---|
| Common.Split | dist/src/commands/LambdaCommand.js:67 | `split` on one character never yields an empty list and no piece holds the separator |
| Common.JoinSplit | dist/src/commands/LambdaCommand.js:67 | joining the pieces of a split with the separator gives the string back |
| Common.SplitJoin | dist/src/commands/LambdaCommand.js:67 | splitting a join of separator-free pieces gives the pieces back |
| Common.IndexOf | src/services/ServerService.ts:132 | the index found is the first occurrence at or after the start, and none means no occurrence at all |
| Common.ParseNatToString | src/services/LambdaService.ts:257 | reading back the decimal form of a number gives the number |
| Cloud.GetFunctionAnswer | src/services/LambdaService.ts:225 | `getFunction` succeeds exactly when the operation does not fail and the function exists, and then answers its record |
| Cloud.UploadObject | src/services/LambdaService.ts:101-106 | an upload records one object under the given key in the bucket, and on success answers that key (oracle assumption: S3Service is not part of this model) |
| Cloud.GetOrCreateEfs | src/services/LambdaService.ts:85 | the lookup answers the file system's id, access point and whether it existed before, after which it exists; nothing else changes (oracle assumption: EFSService is not part of this model) |
| Cloud.SavedVar | src/services/LambdaService.ts:185 | a cached key is seen exactly when one is stored and it is not empty |
| Cloud.CreateArchive | dist/src/services/LambdaService.js:31-37 | an archive is written exactly when its source exists, and then the output file exists (oracle assumption: ZipService is not part of this model) |
| Cloud.RemoveIfPresent | src/services/LambdaService.ts:45-47 | a stale file is removed when it exists, and nothing is done otherwise (oracle assumption: the `fs` module is not part of this model) |
| Cloud.ProjectAppend | src/services/LambdaService.ts:74-181 | the life-cycle calls about one function in a concatenated log are those of each part in order |
| Cloud.CountsOfProject | src/services/LambdaService.ts:74-181 | the creates, updates, handler changes and waits of a function can be counted on its projection of the log |
| StateWaiter.Poll | src/services/LambdaService.ts:236-258 | a wait consumes at most the answers supplied and never ends before it started |
| StateWaiter.PollOutcome | src/services/LambdaService.ts:236-258 | every answer before the last one consumed was neither `Active` nor `Failed`; the wait is ready exactly on `Active`, fails exactly on `Failed` with the reason in the message or on a probe error, and times out only at the deadline, with a message naming the bound |
| StateWaiter.WaitForLambda | dist/src/services/LambdaService.js:150-167 | the polling loop ends, after the same number of polls and at the same time, exactly as the reference wait does |
| StateWaiter.PollStep | src/services/LambdaService.ts:244-254 | one poll before the deadline returns on `Active`, throws on `Failed` or a probe error, and otherwise sleeps one interval and polls again |
| StateWaiter.PollAtDeadline | src/services/LambdaService.ts:240 | once the deadline is reached no further poll happens and the timeout is thrown |
| StateWaiter.PollCadence | src/services/LambdaService.ts:240-254 | polls are one interval apart at least, and each one starts before the deadline |
| StateWaiter.InstantPendingTimesOut | src/services/LambdaService.ts:240-257 | with instant answers that never settle, the wait times out after exactly the polls that fit before the deadline |
| StateWaiter.FiftyByTenPollsFiveTimes | src/services/LambdaService.ts:240-257 | a function that never becomes ready, waited on for 50 ms at 10 ms intervals, is polled five times and then times out |
| StateWaiter.PendingPendingActive | src/services/LambdaService.ts:240-246 | answers `Pending`, `Pending`, `Active` make the wait return after three polls |
| StateWaiter.FailedFirstStopsAtOnce | src/services/LambdaService.ts:249-251 | a first answer `Failed` ends the wait after one poll with a message that ends in the reported reason |
| StateWaiter.TimeoutMessageNamesBound | src/services/LambdaService.ts:257 | two timeout messages for the same function are equal only when they name the same bound |
| Packaging.LastSegment | dist/src/services/LambdaService.js:22 | the directory name is a non-empty piece without a slash, or nothing |
| Packaging.TrailingSlashIgnored | src/services/LambdaService.ts:34 | a trailing slash does not change the directory name |
| Packaging.LastSegmentAfterSlash | src/services/LambdaService.ts:34 | the name after the last slash is the directory name |
| Packaging.DeterminePackagePaths | src/services/LambdaService.ts:63-67 | the app archive is `lambda-<dir>-app.zip` and the modules archive `RWS-modules.zip`, both in the `lambda` folder of the config directory |
| Packaging.AppArchiveIsNotModulesArchive | src/services/LambdaService.ts:63-67 | no directory name makes the app archive land on the shared modules archive |
| Packaging.AppArchiveDeterminesDirName | dist/src/services/LambdaService.js:42-46 | two directories share an app archive only when their names render alike |
| Packaging.ArchiveCalls | src/services/LambdaService.ts:33-61 | the archiving ends with the one archive of the directory, removes a stale app archive first, and touches only local files |
| Packaging.ArchiveLambda | src/services/LambdaService.ts:33-61 | archiving makes exactly the calls above and on success returns the app archive path, which then exists |
| AwsNetwork.FirstSubnetOf | dist/src/src/services/AWSService.js:88-90 | the subnet picked is the first one of the VPC in response order, and none means the VPC has none |
| AwsNetwork.GetSubnetIdForVpc | dist/src/src/services/AWSService.js:81-95 | the answer is the id of the first subnet of the VPC in response order, no earlier subnet belonging to it, or null when it has none; a failing lookup throws |
| AwsNetwork.FirstDefaultVpc | dist/src/src/services/AWSService.js:69-71 | the VPC picked is the first default one, and none means there is none |
| AwsNetwork.FindDefaultSubnetForVpc | dist/src/src/services/AWSService.js:67-80 | the answer is the first default VPC's first subnet and id; it is undefined exactly when there is no default VPC or a lookup fails |
| AwsNetwork.ListSecurityGroups | dist/src/src/services/AWSService.js:96-107 | one id per security group of the account, the group's own, in response order; an empty list when the call fails |
| AwsNetwork.FirePermissionCheck | dist/src/src/services/AWSService.js:151-176 | the check passes exactly when every decision is `allowed`, the reported actions are exactly the others in order, and a failed simulation does not pass |
| AwsNetwork.CheckForRolePermissions | dist/src/src/services/AWSService.js:144-150 | the role check reports what the permission check reports |
| AwsNetwork.DeniedEmptyIffAllAllowed | dist/src/src/services/AWSService.js:151-176 | no action is reported back exactly when every decision is `allowed` |
| AwsNetwork.DefaultTableIndex | dist/src/src/services/AWSService.js:177-191 | the table picked is the VPC's first one without a subnet association, and none means there is no such table |
| AwsNetwork.GetDefaultRouteTable | dist/src/src/services/AWSService.js:177-191 | the lookup answers the default table, and a failing call throws |
| AwsNetwork.DefaultTableStable | dist/src/src/services/AWSService.js:240-266 | adding a route to the default table keeps it the default |
| AwsNetwork.CreateVpcEndpointIfNotExist | dist/src/src/services/AWSService.js:192-239 | a failing endpoint or route table lookup throws its own error and changes nothing; once both answer, an existing `RWS-S3-GATE` endpoint is returned and nothing is created; otherwise, exactly when the VPC has a default route table, one gateway endpoint for `com.amazonaws.<region>.s3` is requested on that table, and a success records it with the tag and returns its id; no default table throws reading `RouteTableId`, and a create that yields no endpoint throws `Failed to create VPC Endpoint` |
| AwsNetwork.EndpointIdempotent | dist/src/src/services/AWSService.js:192-239 | a second call after a success does nothing and returns the same endpoint |
| AwsNetwork.EnsureRouteToVpcEndpoint | dist/src/src/services/AWSService.js:240-266 | when both lookups answer, the VPC has a default table without a route to the endpoint, and the endpoint is found, exactly one `createRoute` of `0.0.0.0/0` to it on that table is made, after which the table routes to it (unless the create fails, which changes no table); no route is added when one exists, and a failed table lookup or a VPC without a default table changes nothing, every error being swallowed |
| AwsNetwork.RouteIdempotent | dist/src/src/services/AWSService.js:240-266 | a second call adds no route |
| LambdaService.SdkCreateFunction | src/services/LambdaService.ts:145 | creating a function records it with the requested handler and code, and fails when it already exists |
| LambdaService.SdkUpdateFunctionCode | src/services/LambdaService.ts:117-120 | a code update changes only the function's code location, and fails for a missing function |
| LambdaService.SdkUpdateHandler | src/services/LambdaService.ts:159-168 | a handler update changes only the function's handler |
| LambdaService.SdkInvoke | src/services/LambdaService.ts:267-297 | the invocation targets `RWS-` plus the name given, and fails when that function does not exist |
| LambdaService.FunctionExists | src/services/LambdaService.ts:223-234 | the probe answers false exactly when `getFunction` fails with `ResourceNotFoundException`; success and any other error answer true |
| LambdaService.Await | src/services/LambdaService.ts:148 | a wait starts once, succeeds exactly when the function becomes active under the reference wait, and consumes the answers it polled |
| LambdaService.DeleteLambda | src/services/LambdaService.ts:260-265 | one delete call; on success the function is gone, and its error propagates |
| LambdaService.DeletedIsAbsent | src/services/LambdaService.ts:260-265 | after a successful delete the existence probe answers false |
| LambdaService.CodeTraceCounts | src/services/LambdaService.ts:114-173 | exactly one of create or code update, a create exactly when the probe says absent, a handler change exactly for an existing function with another handler, and one wait per create, update and handler change |
| LambdaService.CodeTraceRequests | src/services/LambdaService.ts:122-146 | every create asks for `nodejs18.x`, `index.handler`, 2048 MB, 900 s, the mount `/mnt/efs` on the access point, the given subnet, and every security group of the account (none when the listing fails) |
| LambdaService.Reconcile | src/services/LambdaService.ts:150-173 | the function is re-read and its handler set to `index.handler` only when it differs, followed by a second wait |
| LambdaService.UpdateExisting | src/services/LambdaService.ts:116-120 | an existing function gets the new code, a wait, then the handler correction, and ends with handler `index.handler` and the new code |
| LambdaService.CreateNew | src/services/LambdaService.ts:121-148 | a new function is created and waited on exactly once |
| LambdaService.DeployCode | src/services/LambdaService.ts:95-173 | the code part makes a prefix of its reference trace, all of it on success, stays with the function and its archive key, and leaves other functions alone |
| LambdaService.DeployLambda | src/services/LambdaService.ts:74-181 | an unreadable archive throws before any call; otherwise the calls are a prefix of the reference trace (bucket check, file system lookup, the modules step exactly when the file system is new and `noEFS` is off, then the code step against the functions the modules step leaves), all of it on success, which leaves the function with handler `index.handler` and the uploaded code; no function but it and the loader changes |
| LambdaService.DeployOnEfs | src/services/LambdaService.ts:87-173 | after the lookup, the calls are a prefix of the modules step followed by the code step for a new file system without `noEFS`, and of the code step alone otherwise, all of it on success; the code step is reached only after the loader was invoked without error |
| LambdaService.DeployModules | src/services/LambdaService.ts:183-221 | the calls are a prefix of the reference: with a cached key (and no `force`) only the loader's calls and its invocation with that key; otherwise the package file is read (a missing file throws first), uploaded as `RWS-<fn>-modules.json` and its key cached before the loader is invoked with it; on success the cache holds the key handed over and the loader exists |
| LambdaService.UploadToEfs | dist/src/src/services/AWSService.js:108-128 | the calls are a prefix of the loader's calls followed by one invocation for `RWS-<base>` with the key and bucket, all of it on success, after which the loader exists; as written the invocation targets `RWS-RWS-efs-loader` |
| LambdaService.ProcessEfsLoader | dist/src/src/services/AWSService.js:129-143 | the loader is probed first; an existing one costs only the probe; otherwise it is archived and deployed without the modules step, the calls being a prefix of that trace and all of it on success; its name is answered |
| LambdaService.LoaderInvocationTarget | dist/src/src/services/AWSService.js:118 | the name the loader is invoked under is `RWS-RWS-efs-loader`, not the loader's own name |
| LambdaService.UploadToEfsIntended | dist/src/src/services/AWSService.js:108-128 | with the prefix left to `invokeLambda`, the calls are a prefix of the loader's calls and one invocation of `RWS-efs-loader`, all of it on success; an existing loader is probed once and invoked under its own name, and when probes and invocations do not fail an error leaves only a prefix of the loader's own calls |
| LambdaService.LoaderPrefixInvokesNothing | dist/src/src/services/AWSService.js:108-128 | the calls made before the loader is ready invoke no function, so an upload that fails before its invocation has invoked nothing |
| LambdaService.LoaderTraceClean | dist/src/src/services/AWSService.js:129-143 | ensuring the loader creates or changes no function but the loader, uploads only its archive and invokes nothing |
| LambdaService.UploadTraceBounds | dist/src/src/services/AWSService.js:108-128 | the hand-over to the file system touches only the loader, uploads only its archive, and invokes |
| LambdaService.ModulesTraceBounds | src/services/LambdaService.ts:183-221 | the modules step touches only the loader, uploads only the loader's archive and the package file, and invokes |
| LambdaService.DeployTraceBounds | src/services/LambdaService.ts:74-181 | a deployment touches only the function and, with the modules step, the loader; uploads only their archives and the package file; invokes exactly when the file system is new and `noEFS` is off; and makes the same life-cycle calls about the function as its code step |
| LambdaService.DeployStaysInBounds | src/services/LambdaService.ts:74-181 | any run of `deployLambda`, cut short by an error or not, stays within those bounds, and one that invokes had a new file system and no `noEFS` |
| LambdaService.CachedModulesNotUploaded | src/services/LambdaService.ts:185-196 | with a cached key, a later modules step without `force` uploads no package file and invokes the loader with the cached key; without one, it uploads the package file first |
| LegacyLambdaService.ArchiveCallsShape | dist/src/services/LambdaService.js:21-41 | the older archiving builds the modules archive, ignoring `.rws/**` and `.prisma/**`, exactly when it is missing, removes a stale app archive, always ends with the app archive, and touches only local files |
| LegacyLambdaService.EnsureModulesArchive | dist/src/services/LambdaService.js:29-32 | the modules archive is built only when it is absent, and then exists |
| LegacyLambdaService.ArchiveLambda | dist/src/services/LambdaService.js:21-41 | on success both archives exist and both paths are returned |
| LegacyLambdaService.UploadToEfs | dist/src/services/LambdaService.js:119 | the older hand-over to the file system records the id, key, bucket and subnet it was given (oracle assumption: the older build of AWSService is not part of this model) |
| LegacyLambdaService.DeployModules | dist/src/services/LambdaService.js:113-137 | a stored key is always used, with no upload; otherwise the archive is read (a missing one throws first), uploaded as `RWS-modules.zip`, its key cached and handed over |
| LegacyLambdaService.Apply | dist/src/services/LambdaService.js:77-103 | exactly one of a code update for a found function or a create with the older request |
| LegacyLambdaService.DeployCode | dist/src/services/LambdaService.js:64-104 | upload, probe, update or create, then one unlabelled wait, as a prefix of the reference trace; once every call is made it succeeds exactly when the function becomes active |
| LegacyLambdaService.Provision | dist/src/services/LambdaService.js:52-62 | bucket check, file system lookup with the subnet only, then the modules step whenever `noEFS` is off; the functions and the state answers are untouched |
| LegacyLambdaService.DeployLambda | dist/src/services/LambdaService.js:47-112 | an unreadable archive throws before any call; otherwise a prefix of the older reference trace, all of it on success; once every call is made it succeeds exactly when the function becomes active, leaving it with its handler (or `index.js` when new) and the uploaded code |
| LegacyLambdaService.CodeTraceCounts | dist/src/services/LambdaService.js:77-104 | one create or update, a create exactly when absent, no handler change, one wait, and creates with `index.js`, no memory or timeout, and mount `/mnt/efs` |
| LegacyLambdaService.ModulesUploadedEveryTime | dist/src/services/LambdaService.js:55-61 | without a cached key the modules archive is uploaded whether or not the file system existed |
| LambdaCommand.GetLambdaParameters | dist/src/commands/LambdaCommand.js:64-77 | the string comes from `lambdaString` or the positional argument, and a missing one throws; the VPC is `--subnetId` or the default; command, directory and argument are colon-free pieces, and an argument only comes with a directory |
| LambdaCommand.ParseThenUnparse | dist/src/commands/LambdaCommand.js:67-70 | a string with at most two colons is recovered from its pieces |
| LambdaCommand.UnparseThenParse | dist/src/commands/LambdaCommand.js:67-70 | colon-free command, directory and argument are recovered from the string they form |
| LambdaCommand.ArtilleryPreArchive | dist/src/commands/LambdaCommand.js:21-32 | a stale target config is removed first; the hook succeeds exactly when the project has its config, which is then copied, and otherwise throws the message |
| LambdaCommand.RunHook | dist/src/commands/LambdaCommand.js:38-47 | a hook runs only when one is configured for that directory and event |
| LambdaCommand.HookFailsOnlyForArtillery | dist/src/commands/LambdaCommand.js:19-47 | a hook fails only for artillery's `preArchive` when the project has no config |
| LambdaCommand.RunHooks | dist/src/commands/LambdaCommand.js:93-94 | the hooks run one after another in the given order; one that throws stops the rest and has a configured hook; events without hooks change nothing |
| LambdaCommand.Prepare | dist/src/commands/LambdaCommand.js:91-92 | the `preArchive` hook runs before the archiving, and a failing hook stops before any archive is made |
| LambdaCommand.PreparePaths | dist/src/commands/LambdaCommand.js:92 | a slash-free directory name yields that directory's archive paths |
| LambdaCommand.DeployModulesCommand | dist/src/commands/LambdaCommand.js:80-85 | `deploy:modules` looks up the file system with the VPC, then runs the older modules step once with the VPC in the file-system slot and `true` in the subnet slot, and deploys no function |
| LambdaCommand.DeployCaught | dist/src/commands/LambdaCommand.js:95-102 | errors of the deployment and of `postDeploy` are caught, so the step succeeds; the deployment counts as done exactly when every call of the older reference trace was made and the function became active, and only then does `postDeploy` run; a done deployment leaves `RWS-<dir>` with the uploaded code |
| LambdaCommand.ArchivedThenDeploy | dist/src/commands/LambdaCommand.js:93-102 | after the archiving, `postArchive` and `preDeploy` run, then the caught deployment; the stages end with `postDeploy` exactly when the deployment was done |
| LambdaCommand.DeployFunctionCommand | dist/src/commands/LambdaCommand.js:86-104 | the stages run as preArchive, archive, postArchive, preDeploy, deploy `RWS-<dir>`, then postDeploy only after a successful deploy; hook and archive errors propagate, deploy errors do not; all stages run exactly when every call of the older reference trace was made after the archiving and the function became active, and then `RWS-<dir>` holds the uploaded code |
| LambdaCommand.Deploy | dist/src/commands/LambdaCommand.js:78-104 | `modules` takes the modules branch with no stages, following its trace; any other directory succeeds exactly when its preparation does, and runs every stage exactly when its deployment was done |
| LambdaCommand.Delete | dist/src/commands/LambdaCommand.js:105-109 | as written every delete throws and nothing is removed |
| LambdaCommand.DeleteIntended | dist/src/commands/LambdaCommand.js:105-109 | the intended delete removes exactly `RWS-<dir>` with one call |
| LambdaCommand.DeleteNeverDeletes | dist/src/services/LambdaService.d.ts:11 | for a deployed `RWS-<dir>`, the delete as written leaves it deployed while the intended one removes it |
| LambdaCommand.DeployModulesIntended | dist/src/services/LambdaService.d.ts:8 | the modules step under the declared signature: `force` skips the cache and uploads afresh |
| LambdaCommand.DeployModulesCommandIntended | dist/src/commands/LambdaCommand.js:80-85 | the intended `deploy:modules` hands the file system's own id and the VPC to the upload |
| LambdaCommand.ModulesArgumentsShifted | dist/src/commands/LambdaCommand.js:83 | as written the hand-over names the VPC as the file system and `true` as the subnet |
| LambdaCommand.Execute | dist/src/commands/LambdaCommand.js:49-63 | a missing command string throws; `delete` throws as written; any other command but `deploy` does nothing; `deploy` behaves as the deploy command: the modules trace for `modules`, otherwise success exactly when preparation succeeds and every stage exactly when the deployment was done |
| ServerAuth.JwtToken | src/services/ServerService.ts:131-137 | a header without `Bearer` is stored verbatim; with it, whatever is stored is a single space-free word |
| ServerAuth.SecondWordStored | src/services/ServerService.ts:131-137 | wherever `Bearer` occurs, the stored token is the second space-separated word of the header, whatever follows it |
| ServerAuth.NoSecondWordStoresNothing | src/services/ServerService.ts:131-137 | a header with `Bearer` and no space stores `undefined` |
| ServerAuth.BearerStripped | src/services/ServerService.ts:131-137 | `Bearer <token>` stores the token |
| ServerAuth.Middleware | src/services/ServerService.ts:89-125 | no header answers 400; a token is stored only when none is; authorisation runs exactly while no user is cached and is handed the stored token; without a user the socket is disconnected with 403; with one the request goes on; other sockets are untouched |
| ServerAuth.PassedStaysPassed | src/services/ServerService.ts:107-124 | a socket that passed passes again without a second authorisation and without cache changes |
| ServerAuth.PassIffGranted | src/services/ServerService.ts:107-124 | a socket is let through exactly when a user was granted, now or before |
| ServerAuth.TokenKept | src/services/ServerService.ts:103-105 | a stored token is never replaced |
| ServerAuth.RejectedRecheckedWithFirstToken | src/services/ServerService.ts:103-110 | a socket turned away after its first header gave a token is asked about again on a later attempt, with that first token, whatever the later header |
| ServerAuth.Init | src/services/ServerService.ts:139-142 | the server is built only when none exists, and the stored one is returned |
| ServerAuth.InitOnce | src/services/ServerService.ts:161 | a second `init` returns the first one's instance |
| ServerAuth.GetCookies | src/services/ServerService.ts:196-208 | one entry per `;` piece, keyed by the text before its first `=`; a missing header throws |
| ServerAuth.GetCookieAsWritten | src/services/ServerService.ts:209-219 | as written, a cookie name that is neither an index nor `length` finds nothing |
| ServerAuth.FirstNamed | src/services/ServerService.ts:209-219 | the entry found is the first with that name, and none means no entry has it |
| ServerAuth.FindCookie | src/services/ServerService.ts:209-219 | the intended lookup throws only without a header and never answers an empty value |
| ServerAuth.FindCookieRoundTrip | src/services/ServerService.ts:196-219 | a header built from plain pairs reads back the first value set for each name |
| ServerAuth.NamedCookieNotFound | src/services/ServerService.ts:212-216 | for the header `a=1`, the lookup as written finds nothing for `a` while the intended one finds `1` |
| AppConfig.Get | src/services/AppConfigService.ts:35-38 | exactly the stored value, or nothing for a missing key |
| AppConfig.DefaultShape | src/services/AppConfigService.ts:4-24 | the defaults hold every key: the lists are empty, the routes map is empty, and every other key, every `aws_*` one included, is null |
| AppConfig.GetConfigSingleton | src/services/AppConfigService.ts:48-60 | a given config replaces the instance; without one the stored instance is kept, or the defaults are stored; the instance returned is the stored one |
| AppConfig.LastConfigWins | src/services/AppConfigService.ts:53-54 | after any sequence of calls the instance holds the last config given |
| AppConfig.KeepAfter | src/services/AppConfigService.ts:55-59 | calls without a config keep the stored instance |
| AppConfig.DefaultsWithoutConfig | src/services/AppConfigService.ts:55-56 | without any config every call sees the defaults |

## Left out

- AWS SDK clients, S3Service, EFSService and ZipService are oracles over `Cloud.World`. Which operations fail is a static `Env.failing` map, so an operation fails every time in a run or never.
- Real time and sleeping are a logical clock. Each answer has a latency and each sleep adds `intervalMs`. When the supplied answers run out before the deadline, the wait ends with `NoAnswer`, which the source never does: it would keep polling.
- Logging, colours, `log(e.stack)`, and the `Promise.all` concurrency of the older archiving are left out. The older archiving is modelled as sequential, modules archive first.
- The file contents read by `fs.readFileSync` are left out. Only presence is modelled, and a missing file throws `ENOENT` before any remote call.
- `findDefaultVPC` is not part of this model. `getLambdaParameters` takes its answer as a parameter.
- `UtilsService.isInterface` is assumed true for the configured hook.
- `invokeLambda` is only modelled as the `RWS-` prefix and a failing or missing target. `retrieveCloudWatchLogs` is a single network call with nothing to decide.
- `AppConfigService.reloadConfig` loads code with a dynamic `require`.
- The pid file written by `ServerService.init`, and the socket.io, express, CORS and `__PING__` wiring, are left out.
- `AuthService.authorize` is an oracle given as a parameter (`AuthAnswer`).
- `_initApis` and the client getters of `AWSService.js` are plumbing.
- In src/services/LambdaService.ts, `setRegion` and `this.region` only feed log lines and are left out.
- AwsNetwork.CreateVpcEndpointIfNotExist: the model assumes the region is already set and takes it as `Env.region`. In dist/src/src/services/AWSService.js:194 the service name reads `this.region` before `getEC2()` runs `_initApis`, so a first call on a fresh service would ask for `com.amazonaws.undefined.s3`. The model does not show that.
- `module.id` and `__dirname` path computation is left out: `Env.cwd` and `Env.moduleDir` are inputs.
- ServerAuth.GetCookieAsWritten: indexing the array with a name that is another member of `Array.prototype` (`map`, `push`, …) would yield a function, which is truthy. Only indices and `length` are modelled.
- LambdaService.DeployLambda: on an error the contract states that the calls made are a prefix of the reference trace, not which error is thrown.
- LegacyLambdaService.DeployLambda: as for the current service, the error itself is not named in the contract.
- LegacyLambdaService.DeployModules: the older build reads the bucket and the cached key through `getAppConfig` and `ProcessService` of the `rws-js-server` package (dist/src/services/LambdaService.js:14, 115-116). The model reads them from `Env.bucket` and the variable store, as the current service does. That package is not part of this model.
- LambdaService.SdkUpdateHandler: the source passes a callback to `updateFunctionConfiguration` and also calls `.promise()` on the request (src/services/LambdaService.ts:159-168). With the AWS SDK v2 that can send the update twice. The model sends it once.
- Packaging.JoinPath: only trailing slashes are normalised. The way `path.join` resolves `.`, `..` and repeated slashes is not modelled.
- AwsNetwork.ListSecurityGroups: every group is assumed to have a `GroupId`. A group without one would add `undefined` to the list.
- LambdaCommand.ArchivedThenDeploy: no `postArchive` or `preDeploy` hook is configured, so the path where one of them throws is never taken and its log is not stated.
- AwsNetwork.CreateVpcEndpointIfNotExist: a successful `createVpcEndpoint` is assumed not to change route tables. AWS adds the prefix-list route itself, and that is not modelled.
- The wait labels of the current `deployLambda` are modelled as written. They are `creation` after an update and `update` after a creation, which looks swapped, but it only affects a log line.

## Findings

| source | as written | input that shows it | evidently intended | confidence | as-written member | corrected member |
|---|---|---|---|---|---|---|
| dist/src/commands/LambdaCommand.js:107 | `delete` calls `deleteLambda` on the older service, which does not define it (it is declared at dist/src/services/LambdaService.d.ts:11), so every delete throws a `TypeError` | `lambda delete:foo` with `RWS-foo` deployed: the function stays deployed | delete `RWS-<dir>` with one `deleteFunction` call | not executed | LambdaCommand.Delete, LambdaCommand.DeleteNeverDeletes | LambdaCommand.DeleteIntended |
| dist/src/commands/LambdaCommand.js:83 | `deployModules(modulesPath, efsId, vpcId, true)` against the older `deployModules(layerPath, functionName, efsId, subnetId)`: the file system id lands in the name slot, the VPC in the file-system slot and `true` in the subnet slot | `lambda deploy:modules` with a VPC id other than the file system id: the hand-over names the VPC as the file system | the declared `deployModules(layerPath, efsId, subnetId, force)`: the file system id and subnet reach the hand-over, and `force` uploads afresh | not executed | LambdaCommand.DeployModulesCommand, LambdaCommand.ModulesArgumentsShifted | LambdaCommand.DeployModulesCommandIntended |
| dist/src/src/services/AWSService.js:118 | `uploadToEFS` passes the loader's full name `RWS-efs-loader` to `invokeLambda`, which prefixes `RWS-` again | any modules upload: the invocation targets `RWS-RWS-efs-loader`, which was never deployed | invoke the loader `RWS-efs-loader` | not executed | LambdaService.UploadToEfs, LambdaService.LoaderInvocationTarget | LambdaService.UploadToEfsIntended |
| src/services/ServerService.ts:212-216 | `getCookie` indexes the ARRAY of one-entry objects that `getCookies` returns with the cookie's name | header `a=1`, key `a`: null | the value of the first cookie with that name | not executed | ServerAuth.GetCookieAsWritten, ServerAuth.NamedCookieNotFound | ServerAuth.FindCookie, ServerAuth.FindCookieRoundTrip |
