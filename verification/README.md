# Static asset deployment, modelled in Dafny

This project models `deployStatic` from `src/static/index.js`. That function publishes a project's `@static` folder to the S3 bucket of the project's CloudFormation stack. It runs in this order:

1. It picks the status reporter.
2. It checks the dry-run guard.
3. It derives the stack name.
4. It runs three waterfall stages: parse settings, resolve the bucket, publish.
5. Its `done` callback turns a `cancel` error into success.

Everything the function calls but does not define is a parameter, collected in a `Collaborators` value:

- `toLogicalID`, used as an uninterpreted `string -> string`;
- `fingerprintConfig`;
- the `existsSync` check on the folder, as a `string -> bool` oracle;
- the `getResources` stack lookup, which returns the resource list or an error;
- `publish`, which returns an optional error.

A run yields a `Completion` and a trace. The completion is what the caller's callback receives, or `Crashed` when an exception escapes. The trace lists the collaborator calls in order, with their arguments: status messages, folder check, lookup and publish.

The model is a single module, `StaticDeploy`, in `static_deploy.dfy`. It has two layers:

- **Pure specification.** The stage functions `ParseSettings`, `ResolveBucket` and `PublishStage` are chained by `Pipeline` the way the waterfall chains them. `Done` is the final error mapping. `Deploy` is the whole function, and its postconditions state every case.
- **Imperative form.** `DeployStatic` and `RunWaterfall` reassign their local variables (`update`, `stackname`, `prune`, `prefix`, `bucket`) step by step, as the source's closures do. Each is proved to produce exactly what the pure layer specifies.

JavaScript truthiness is written out:

- An option the caller leaves undefined is `None`.
- A string is truthy when it is present and not empty.
- A boolean option is truthy when it is `Some(true)`.
- Parameter defaults (`isDryRun = false`, `isFullDeploy = true`, `prune = false`) apply only when the option is `None`.

Three points where the code's behaviour is easy to misread, and which the model follows exactly:

- **Missing bucket resource.** When the stack has no `StaticBucket` resource, `resources.find(find)` returns `undefined`, and the code reads `PhysicalResourceId` from it inside the lookup's callback. The resulting exception escapes, and the caller's callback never runs. The model returns `Crashed`.
- **Promise mode.** The doc comment (src/static/index.js:15) promises a Promise when no callback is supplied, but the code never builds one, so the model has no such mode.
- **Effective prune.** `prune || inv.static.prune` yields the project's own value when `prune` is false, including `undefined`. The model keeps that value as it is: `EffectivePrune` returns an `Option<bool>` whose truthiness is the OR of the two.

## Model

| member | source | states |
|---|---|---|
| `StaticDeploy.EffectivePrune` | src/static/index.js:60 | The resolved prune flag is truthy exactly when the explicit flag or the project's default is. When the explicit flag is false, the project's value is passed on as it is. |
| `StaticDeploy.EffectivePrefix` | src/static/index.js:69 | A non-empty explicit prefix wins; otherwise the project's prefix is used as it is. The result is truthy exactly when either input is. |
| `StaticDeploy.DeriveStackName` | src/static/index.js:46-47 | The derived stack name is the app's logical ID, then `Production` or `Staging`, then the deployment name's logical ID when a non-empty name is given and nothing otherwise. |
| `StaticDeploy.ResolveStackName` | src/static/index.js:45-48 | A non-empty supplied stack name is used unchanged; otherwise the name is derived. |
| `StaticDeploy.StackNameSeparatesEnvironments` | src/static/index.js:46 | For one app, a production stack name never equals a staging one, whatever the deployment names and whatever `toLogicalID` does. |
| `StaticDeploy.StackNameSeparatesDeployments` | src/static/index.js:46-47 | For one app and environment, two non-empty deployment names give the same stack name exactly when their logical IDs are equal. |
| `StaticDeploy.NamedDeploymentMatchesUnnamed` | src/static/index.js:46-47 | A non-empty deployment name gives the same stack name as no name exactly when its logical ID is empty. |
| `StaticDeploy.FindStaticBucket` | src/static/index.js:81-82 | `find` picks the first resource of type `AWS::S3::Bucket` with logical ID `StaticBucket`: the returned position holds a match and no earlier entry matches. No position means no entry matches. |
| `StaticDeploy.EffectiveReporter` | src/static/index.js:33 | A reporter the caller supplied is kept; without one, a reporter named `Deploy` is used. |
| `StaticDeploy.ResolvedSettings` | src/static/index.js:57-69 | The settings passed on keep the project's folder and the fingerprint and ignore list `fingerprintConfig` gives for the project's manifest. Their prune and prefix are the values of `EffectivePrune` and `EffectivePrefix` on the explicit and the project settings, so they are truthy exactly when either input is. |
| `StaticDeploy.ParseSettings` | src/static/index.js:52-73 | Without `@static` the stage stops with `cancel` and calls nothing. Otherwise it checks the folder once. A missing folder stops the stage with `@static folder not found`; an existing one passes the resolved settings on. |
| `StaticDeploy.ResolveBucket` | src/static/index.js:76-88 | A non-empty supplied bucket passes through with no lookup. Otherwise the stage looks up exactly once with the given request and reports a lookup error unchanged. It throws when no resource matches. When one does, it passes on the physical ID of the first match. It reports an error only when the lookup failed. |
| `StaticDeploy.S3ConfigFor` | src/static/index.js:91-92 | The S3 configuration has the caller's region, and it has credentials exactly when the caller gave some, in which case they are the caller's. |
| `StaticDeploy.JobFor` | src/static/index.js:95-107 | `publish` receives the bucket, the reporter, and the fingerprint, ignore list, folder, prefix and prune of the resolved settings. A full deploy is requested unless the caller explicitly passed `false`. The region is the caller's, and the S3 configuration is for that same region and carries the caller's credentials. |
| `StaticDeploy.PublishStage` | src/static/index.js:90-108 | The stage calls `publish` exactly once with the job. It succeeds exactly when `publish` reports no error, otherwise it reports `publish`'s error, and it never throws. |
| `StaticDeploy.Done` | src/static/index.js:110-114 | The caller gets success exactly when the waterfall finished or stopped with an error whose message is exactly `cancel`. Any other error reaches the caller unchanged. A throw never reaches the callback. |
| `StaticDeploy.Pipeline` | src/static/index.js:50-109 | The waterfall runs a stage only when the one before passed a value on. The first stage's calls come first. A first stage that stops ends the run with its error and its calls. After it, a second stage that stops or throws ends the run likewise. Only when both passed values on does `publish` run, with those values, and its result is the run's. Only the bucket stage can throw. |
| `StaticDeploy.PipelineCalls` | src/static/index.js:76-107 | Within the waterfall, the given stack is looked up once, exactly when the first stage passed and no non-empty bucket was supplied, and never otherwise. `publish` runs once, exactly when both earlier stages passed values on, with the job built from those values. |
| `StaticDeploy.Deploy` | src/static/index.js:17-116 | Case by case: a dry run reports its notice, runs no stage and succeeds. Without `@static` the caller gets success after the status message only. A missing folder yields the folder error with no lookup and no publish. A supplied bucket means no lookup and one publish, whose result, after the `cancel` mapping, is the caller's. Without a bucket, the resolved stack name (the supplied one, or else the derived one) is looked up exactly once. A lookup error then ends the run, and a stack without the static bucket crashes. Otherwise one publish goes to the first static bucket found. |
| `StaticDeploy.DeployStatic` | src/static/index.js:17-49 | The imperative function yields exactly the completion and trace `Deploy` specifies. It defaults the reporter in place, takes the dry-run guard, derives the stack name in place and passes the waterfall's result through `done`. |
| `StaticDeploy.RunWaterfall` | src/static/index.js:50-109 | The three stage closures, run in order while reassigning the shared `prune`, `prefix` and `Bucket`, yield exactly the stage outcome and calls of `Pipeline`. |
| `StaticDeploy.CollaboratorCalls` | src/static/index.js:77-107 | For every input the stack is looked up at most once. That happens exactly when a real run passes the first stage without a bucket, and uses `{credentials, region, stackname}`. `publish` runs at most once, exactly when every earlier stage passed a value on, and receives the resolved settings and bucket. |
| `StaticDeploy.SuppliedBucketMatchesLookup` | src/static/index.js:77-87 | Supplying the bucket the lookup would have found changes only the lookup itself: the trace is the looked-up run's trace with its lookup call removed, so no lookup happens and the same job is published, and the caller gets the same result. |
| `StaticDeploy.SuppliedBucketTrace` | src/static/index.js:76-88 | A run given the bucket the lookup would have found makes the same calls as the run that looks it up, in the same order, except for that lookup. |

## Left out

- The S3 client construction (`new aws.S3(config)`) is left out because it is a foreign SDK call. Only the configuration it is built from is modelled: the region, plus the credentials when some were given.
- Credentials handling beyond passing them on is left out; they are an opaque record.
- The folder check uses `join(process.cwd(), folder)`, but the working directory and path joining are not modelled. The `folderExists` oracle takes the folder as written in the project's settings.
- The internals of `getResources`, `publish`, `fingerprintConfig` and `toLogicalID` are parameters and are left out. No property depends on how `toLogicalID` changes case.
- `updater` and `update.status` are left out beyond recording the reporter and the message in the trace. A reporter is known only by its name.
- The Promise-returning mode named in the doc comment is left out, because the code does not implement it.
- The asynchronous callback mechanics of `run-waterfall` are left out; the stages run as a strict sequence.
- Truthiness of values of unexpected types is not modelled. For example, a string-valued `production` or a non-boolean `prune` are outside the model, because `production` is a `bool` and the flags are `Option<bool>`.
- An exception from a collaborator other than the missing-bucket dereference is not modelled; collaborators return their result or an error.
- The parsed project manifest is a stand-in map, because it is only handed to `fingerprintConfig`.
