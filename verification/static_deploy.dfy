/**
 * A model of `deployStatic` (src/static/index.js): publishing a project's
 * `@static` folder to the S3 bucket of its CloudFormation stack.
 *
 * Everything the function cannot see is a parameter: `toLogicalID`,
 * `fingerprintConfig`, the `existsSync` check on the folder, the
 * `getResources` stack lookup and `publish` are the fields of a
 * `Collaborators` value. Each run yields a completion (what the caller's
 * callback receives, or a crash) and a trace of the collaborator calls made,
 * with their arguments, in order.
 *
 * The pure stage functions (ParseSettings, ResolveBucket, PublishStage) are
 * chained by `Pipeline` as the waterfall chains them, and `Done` is the final
 * error mapping; `Deploy` is the resulting specification. `DeployStatic` is the
 * imperative form, reassigning its locals step by step as the source does,
 * and is proved to produce exactly what `Deploy` specifies.
 */
module StaticDeploy {

  datatype Option<T> = None | Some(value: T)

  /** A JavaScript `Error`; the pipeline only ever looks at its message. */
  datatype Error = Error(message: string)

  datatype Result<T> = Ok(value: T) | Err(error: Error)

  const CancelMessage := "cancel"
  const FolderNotFoundMessage := "@static folder not found"
  const DryRunNotice := "Static dry run not yet available, skipping static deploy..."
  const DeployingNotice := "Deploying static assets..."
  /** The name the default status reporter is created with (`updater('Deploy')`). */
  const DefaultReporterName := "Deploy"
  const BucketResourceType := "AWS::S3::Bucket"
  const BucketLogicalId := "StaticBucket"

  // ---------------------------------------------------------------------
  // Data model
  // ---------------------------------------------------------------------

  datatype Credentials = Credentials(accessKeyId: string, secretAccessKey: string, sessionToken: Option<string>)

  /** A status reporter (`update`), known by the name it was created with. */
  datatype Reporter = Reporter(name: string)

  /** The `fingerprint` setting: off, on, or left to an external tool. */
  datatype Fingerprint = FingerprintOff | FingerprintOn | FingerprintExternal

  datatype FingerprintSettings = FingerprintSettings(fingerprint: Fingerprint, ignore: seq<string>)

  /** The parsed project manifest (`inv._project.arc`): pragma name to its entries. */
  type Arc = map<string, seq<string>>

  /** The project's `@static` settings (`inv.static`). */
  datatype StaticSettings = StaticSettings(folder: string, prune: Option<bool>, prefix: Option<string>)

  /** The part of the project inventory (`inventory.inv`) the pipeline reads. */
  datatype Inventory = Inventory(app: string, staticSettings: Option<StaticSettings>, arc: Arc)

  /** The caller's `params`; `None` is an option the caller left undefined. */
  datatype Params = Params(
    bucket: Option<string>,
    credentials: Option<Credentials>,
    isDryRun: Option<bool>,
    isFullDeploy: Option<bool>,
    name: Option<string>,
    production: bool,
    region: string,
    stackname: Option<string>,
    update: Option<Reporter>,
    verbose: Option<bool>,
    prefix: Option<string>,
    prune: Option<bool>)

  /** One entry of a stack's resource list. */
  datatype Resource = Resource(resourceType: string, logicalId: string, physicalId: string)

  /** The argument of the `getResources` stack lookup. */
  datatype LookupRequest = LookupRequest(credentials: Option<Credentials>, region: string, stackname: string)

  /** The configuration the S3 client is constructed from. */
  datatype S3Config = S3Config(region: string, credentials: Option<Credentials>)

  /** What the first stage passes on, together with the prune and prefix it settles. */
  datatype Parsed = Parsed(fingerprint: Fingerprint, ignore: seq<string>, folder: string,
                           prune: Option<bool>, prefix: Option<string>)

  /** The argument of `publish`. */
  datatype PublishJob = PublishJob(
    bucket: string,
    fingerprint: Fingerprint,
    folder: string,
    ignore: seq<string>,
    isFullDeploy: bool,
    prefix: Option<string>,
    prune: Option<bool>,
    region: string,
    s3: S3Config,
    update: Reporter,
    verbose: Option<bool>)

  /** The outside world as the pipeline sees it. */
  datatype Collaborators = Collaborators(
    toLogicalID: string -> string,
    fingerprintConfig: Arc -> FingerprintSettings,
    folderExists: string -> bool,
    getResources: LookupRequest -> Result<seq<Resource>>,
    publish: PublishJob -> Option<Error>)

  /** A collaborator call, with its argument. */
  datatype Call =
    | Status(reporter: Reporter, message: string)
    | CheckFolder(folder: string)
    | GetResources(request: LookupRequest)
    | Publish(job: PublishJob)

  /**
   * How an invocation ends: the caller's callback runs once, with or without
   * an error, or an exception escapes from inside the lookup's callback and
   * the caller's callback never runs.
   */
  datatype Completion = Completed(err: Option<Error>) | Crashed

  datatype Outcome = Outcome(completion: Completion, trace: seq<Call>)

  /** How a waterfall stage ends: it passes a value on, reports an error, or throws. */
  datatype Step<T> = Next(value: T) | Stop(err: Error) | Throw

  datatype StageOutcome<T> = StageOutcome(step: Step<T>, calls: seq<Call>)

  // ---------------------------------------------------------------------
  // JavaScript truthiness and parameter defaults
  // ---------------------------------------------------------------------

  /** A string option is truthy when it is present and not empty. */
  predicate TruthyString(s: Option<string>) {
    s.Some? && s.value != ""
  }

  predicate TruthyBool(b: Option<bool>) {
    b == Some(true)
  }

  /** `isDryRun = false`, tested for truthiness. */
  predicate DryRun(p: Params) {
    TruthyBool(p.isDryRun)
  }

  /** `isFullDeploy = true`: the default applies only when the option is undefined. */
  function FullDeploy(p: Params): bool {
    if p.isFullDeploy.Some? then p.isFullDeploy.value else true
  }

  /** `prune = false`: the default applies only when the option is undefined. */
  function ExplicitPrune(p: Params): bool {
    if p.prune.Some? then p.prune.value else false
  }

  /** `if (!update) update = updater('Deploy')`: a given reporter is kept, a missing one is created. */
  function EffectiveReporter(p: Params): (r: Reporter)
    ensures p.update.Some? ==> r == p.update.value
    ensures p.update.None? ==> r.name == DefaultReporterName
  {
    if p.update.Some? then p.update.value else Reporter(DefaultReporterName)
  }

  /** `prune || inv.static.prune`: an explicit `true` wins, otherwise the project's value, as it is. */
  function EffectivePrune(explicit: bool, projectDefault: Option<bool>): (r: Option<bool>)
    ensures TruthyBool(r) <==> explicit || TruthyBool(projectDefault)
    ensures !explicit ==> r == projectDefault
  {
    if explicit then Some(true) else projectDefault
  }

  /** `prefix || inv.static.prefix`: a non-empty explicit prefix wins, otherwise the project's, as it is. */
  function EffectivePrefix(explicit: Option<string>, projectDefault: Option<string>): (r: Option<string>)
    ensures TruthyString(r) <==> TruthyString(explicit) || TruthyString(projectDefault)
    ensures TruthyString(explicit) ==> r == explicit
    ensures !TruthyString(explicit) ==> r == projectDefault
  {
    if TruthyString(explicit) then explicit else projectDefault
  }

  // ---------------------------------------------------------------------
  // Stack name
  // ---------------------------------------------------------------------

  function EnvironmentWord(production: bool): string {
    if production then "Production" else "Staging"
  }

  /**
   * The derived stack name: the app's logical ID, the environment, and the
   * deployment name's logical ID when a name is given.
   */
  function DeriveStackName(toLogicalID: string -> string, app: string, production: bool, name: Option<string>): (r: string)
    ensures var n := |toLogicalID(app)| + |EnvironmentWord(production)|;
      n <= |r| &&
      r[..|toLogicalID(app)|] == toLogicalID(app) &&
      r[|toLogicalID(app)|..n] == EnvironmentWord(production) &&
      r[n..] == (if TruthyString(name) then toLogicalID(name.value) else "")
  {
    var base := toLogicalID(app) + EnvironmentWord(production);
    if TruthyString(name) then base + toLogicalID(name.value) else base
  }

  /** A non-empty supplied stack name is used unchanged; otherwise one is derived. */
  function ResolveStackName(toLogicalID: string -> string, p: Params, app: string): (r: string)
    ensures TruthyString(p.stackname) ==> r == p.stackname.value
    ensures !TruthyString(p.stackname) ==> r == DeriveStackName(toLogicalID, app, p.production, p.name)
  {
    if TruthyString(p.stackname) then p.stackname.value
    else DeriveStackName(toLogicalID, app, p.production, p.name)
  }

  /** The stacks of production and staging never share a derived name, whatever the deployment names. */
  lemma StackNameSeparatesEnvironments(toLogicalID: string -> string, app: string, name1: Option<string>, name2: Option<string>)
    ensures DeriveStackName(toLogicalID, app, true, name1) != DeriveStackName(toLogicalID, app, false, name2)
  {
    var k := |toLogicalID(app)|;
    var prod := DeriveStackName(toLogicalID, app, true, name1);
    var stag := DeriveStackName(toLogicalID, app, false, name2);
    assert prod[k] == prod[k..k + 10][0] == 'P';
    assert stag[k] == stag[k..k + 7][0] == 'S';
  }

  /**
   * A named deployment collides with the unnamed one exactly when its name's
   * logical ID is empty.
   */
  lemma NamedDeploymentMatchesUnnamed(toLogicalID: string -> string, app: string, production: bool, name: string)
    requires name != ""
    ensures DeriveStackName(toLogicalID, app, production, Some(name)) == DeriveStackName(toLogicalID, app, production, None)
      <==> toLogicalID(name) == ""
  {
    var base := toLogicalID(app) + EnvironmentWord(production);
    if toLogicalID(name) == "" {
      assert base + toLogicalID(name) == base;
    } else {
      assert |base + toLogicalID(name)| > |base|;
    }
  }

  /**
   * For one app and environment, two named deployments share a stack name
   * exactly when their names have the same logical ID.
   */
  lemma StackNameSeparatesDeployments(toLogicalID: string -> string, app: string, production: bool, name1: string, name2: string)
    requires name1 != "" && name2 != ""
    ensures DeriveStackName(toLogicalID, app, production, Some(name1)) == DeriveStackName(toLogicalID, app, production, Some(name2))
      <==> toLogicalID(name1) == toLogicalID(name2)
  {
  }

  // ---------------------------------------------------------------------
  // The bucket resource
  // ---------------------------------------------------------------------

  /** The `find` predicate: the template's static bucket. */
  predicate IsStaticBucket(r: Resource) {
    r.resourceType == BucketResourceType && r.logicalId == BucketLogicalId
  }

  /** `resources.find(...)`, as the position of the first static bucket in the list, if any. */
  function FindStaticBucket(resources: seq<Resource>): (r: Option<nat>)
    ensures r.Some? ==> r.value < |resources| && IsStaticBucket(resources[r.value])
    ensures r.Some? ==> forall j :: 0 <= j < r.value ==> !IsStaticBucket(resources[j])
    ensures r.None? ==> forall j :: 0 <= j < |resources| ==> !IsStaticBucket(resources[j])
  {
    if resources == [] then None
    else if IsStaticBucket(resources[0]) then Some(0)
    else match FindStaticBucket(resources[1..])
      case None => None
      case Some(k) => Some(k + 1)
  }

  // ---------------------------------------------------------------------
  // The waterfall stages
  // ---------------------------------------------------------------------

  /** The settings the first stage resolves from a project that has `@static`. */
  function ResolvedSettings(env: Collaborators, inventory: Inventory, p: Params): (r: Parsed)
    requires inventory.staticSettings.Some?
    ensures r.folder == inventory.staticSettings.value.folder
    ensures r.fingerprint == env.fingerprintConfig(inventory.arc).fingerprint
    ensures r.ignore == env.fingerprintConfig(inventory.arc).ignore
    ensures r.prune == EffectivePrune(ExplicitPrune(p), inventory.staticSettings.value.prune)
    ensures r.prefix == EffectivePrefix(p.prefix, inventory.staticSettings.value.prefix)
    ensures TruthyBool(r.prune) <==> ExplicitPrune(p) || TruthyBool(inventory.staticSettings.value.prune)
    ensures TruthyString(r.prefix) <==> TruthyString(p.prefix) || TruthyString(inventory.staticSettings.value.prefix)
  {
    var st := inventory.staticSettings.value;
    var fp := env.fingerprintConfig(inventory.arc);
    Parsed(fp.fingerprint, fp.ignore, st.folder,
           EffectivePrune(ExplicitPrune(p), st.prune), EffectivePrefix(p.prefix, st.prefix))
  }

  /**
   * Stage 1, parse settings: cancel when the project has no `@static`, fail
   * when its folder does not exist, and otherwise pass the settings on.
   */
  function ParseSettings(env: Collaborators, inventory: Inventory, p: Params): (r: StageOutcome<Parsed>)
    ensures inventory.staticSettings.None? ==> r == StageOutcome(Stop(Error(CancelMessage)), [])
    ensures inventory.staticSettings.Some? ==>
      var folder := inventory.staticSettings.value.folder;
      r.calls == [CheckFolder(folder)] &&
      (env.folderExists(folder) ==> r.step == Next(ResolvedSettings(env, inventory, p))) &&
      (!env.folderExists(folder) ==> r.step == Stop(Error(FolderNotFoundMessage)))
  {
    if inventory.staticSettings.None? then StageOutcome(Stop(Error(CancelMessage)), [])
    else
      var folder := inventory.staticSettings.value.folder;
      if !env.folderExists(folder) then StageOutcome(Stop(Error(FolderNotFoundMessage)), [CheckFolder(folder)])
      else StageOutcome(Next(ResolvedSettings(env, inventory, p)), [CheckFolder(folder)])
  }

  /**
   * Stage 2, the bucket: a non-empty supplied bucket passes through untouched;
   * otherwise the stack is looked up once, a lookup error is reported, and
   * the bucket is the physical ID of the first static-bucket resource. With
   * no such resource the stage throws.
   */
  function ResolveBucket(env: Collaborators, supplied: Option<string>, request: LookupRequest): (r: StageOutcome<string>)
    ensures TruthyString(supplied) ==> r == StageOutcome(Next(supplied.value), [])
    ensures !TruthyString(supplied) ==> r.calls == [GetResources(request)]
    ensures !TruthyString(supplied) && env.getResources(request).Err? ==>
      r.step == Stop(env.getResources(request).error)
    ensures !TruthyString(supplied) && env.getResources(request).Ok? ==>
      var resources := env.getResources(request).value;
      (r.step.Throw? <==> forall j :: 0 <= j < |resources| ==> !IsStaticBucket(resources[j])) &&
      (r.step.Next? ==> exists i :: (0 <= i < |resources| && IsStaticBucket(resources[i]) &&
         r.step.value == resources[i].physicalId &&
         forall j :: 0 <= j < i ==> !IsStaticBucket(resources[j])))
    ensures r.step.Stop? ==> !TruthyString(supplied) && env.getResources(request).Err?
  {
    if TruthyString(supplied) then StageOutcome(Next(supplied.value), [])
    else match env.getResources(request)
      case Err(e) => StageOutcome(Stop(e), [GetResources(request)])
      case Ok(resources) =>
        match FindStaticBucket(resources)
        case None => StageOutcome(Throw, [GetResources(request)])
        case Some(i) => StageOutcome(Next(resources[i].physicalId), [GetResources(request)])
  }

  /** `{ region }`, with the credentials attached only when some were given. */
  function S3ConfigFor(p: Params): (r: S3Config)
    ensures r.region == p.region
    ensures r.credentials.Some? <==> p.credentials.Some?
    ensures p.credentials.Some? ==> r.credentials == p.credentials
  {
    var config := S3Config(p.region, None);
    if p.credentials.Some? then config.(credentials := p.credentials) else config
  }

  /**
   * What `publish` receives once every setting and the bucket are known: the
   * bucket, the resolved settings, the caller's flags (full deploy unless it
   * is explicitly false) and an S3 configuration for the same region.
   */
  function JobFor(p: Params, update: Reporter, settings: Parsed, bucket: string): (r: PublishJob)
    ensures r.bucket == bucket && r.update == update
    ensures r.fingerprint == settings.fingerprint && r.ignore == settings.ignore && r.folder == settings.folder
    ensures r.prefix == settings.prefix && r.prune == settings.prune
    ensures r.isFullDeploy <==> p.isFullDeploy != Some(false)
    ensures r.region == p.region && r.s3.region == r.region
    ensures r.s3.credentials == p.credentials
    ensures r.verbose == p.verbose
  {
    PublishJob(bucket, settings.fingerprint, settings.folder, settings.ignore, FullDeploy(p),
               settings.prefix, settings.prune, p.region, S3ConfigFor(p), update, p.verbose)
  }

  /** Stage 3: publish once; its callback result is the stage's result. */
  function PublishStage(env: Collaborators, job: PublishJob): (r: StageOutcome<()>)
    ensures r.calls == [Publish(job)]
    ensures r.step.Next? <==> env.publish(job).None?
    ensures r.step.Stop? ==> env.publish(job) == Some(r.step.err)
    ensures !r.step.Throw?
  {
    match env.publish(job)
    case None => StageOutcome(Next(()), [Publish(job)])
    case Some(e) => StageOutcome(Stop(e), [Publish(job)])
  }

  /**
   * The final `done` callback: an error whose message is exactly `cancel`
   * means success, any other error reaches the caller unchanged.
   */
  function Done(step: Step<()>): (c: Completion)
    ensures c == Crashed <==> step.Throw?
    ensures c == Completed(None) <==> step.Next? || (step.Stop? && step.err.message == CancelMessage)
    ensures c.Completed? && c.err.Some? <==> step.Stop? && step.err.message != CancelMessage
    ensures c.Completed? && c.err.Some? ==> c.err.value == step.err
  {
    match step
    case Next(_) => Completed(None)
    case Stop(e) => if e.message == CancelMessage then Completed(None) else Completed(Some(e))
    case Throw => Crashed
  }

  // ---------------------------------------------------------------------
  // The whole function
  // ---------------------------------------------------------------------

  function StackNameFor(env: Collaborators, inventory: Inventory, p: Params): string {
    ResolveStackName(env.toLogicalID, p, inventory.app)
  }

  function RequestFor(env: Collaborators, inventory: Inventory, p: Params): LookupRequest {
    LookupRequest(p.credentials, p.region, StackNameFor(env, inventory, p))
  }

  /** The job published with the given bucket, for a project that has `@static`. */
  function JobWithBucket(env: Collaborators, inventory: Inventory, p: Params, bucket: string): PublishJob
    requires inventory.staticSettings.Some?
  {
    JobFor(p, EffectiveReporter(p), ResolvedSettings(env, inventory, p), bucket)
  }

  /**
   * The three stages chained by the waterfall, looking up the given stack:
   * a stage runs only when the one before it passed a value on, and the
   * first error or throw ends the run.
   */
  function Pipeline(env: Collaborators, inventory: Inventory, p: Params, update: Reporter, stackname: string): (r: StageOutcome<()>)
    // The first stage's calls always come first.
    ensures var s1 := ParseSettings(env, inventory, p);
      |s1.calls| <= |r.calls| && r.calls[..|s1.calls|] == s1.calls
    // A first stage that does not pass a value on ends the run with its own result.
    ensures var s1 := ParseSettings(env, inventory, p);
      !s1.step.Next? ==>
        r.calls == s1.calls && !r.step.Next? && r.step.Stop? == s1.step.Stop? &&
        (r.step.Stop? ==> r.step.err == s1.step.err)
    // After it, a second stage that does not pass a value on ends the run with its own result.
    ensures var s1 := ParseSettings(env, inventory, p);
      var s2 := ResolveBucket(env, p.bucket, LookupRequest(p.credentials, p.region, stackname));
      s1.step.Next? && !s2.step.Next? ==>
        r.calls == s1.calls + s2.calls && !r.step.Next? && r.step.Stop? == s2.step.Stop? &&
        (r.step.Stop? ==> r.step.err == s2.step.err)
    // Only when both passed a value on does `publish` run, with both values, and its result is the run's.
    ensures var s1 := ParseSettings(env, inventory, p);
      var s2 := ResolveBucket(env, p.bucket, LookupRequest(p.credentials, p.region, stackname));
      s1.step.Next? && s2.step.Next? ==>
        var s3 := PublishStage(env, JobFor(p, update, s1.step.value, s2.step.value));
        r == StageOutcome(s3.step, s1.calls + s2.calls + s3.calls)
    // Only the bucket stage can throw.
    ensures r.step.Throw? ==>
      ParseSettings(env, inventory, p).step.Next? &&
      ResolveBucket(env, p.bucket, LookupRequest(p.credentials, p.region, stackname)).step.Throw?
  {
    var s1 := ParseSettings(env, inventory, p);
    match s1.step
    case Stop(e) => StageOutcome(Stop(e), s1.calls)
    case Throw => StageOutcome(Throw, s1.calls)
    case Next(settings) =>
      var s2 := ResolveBucket(env, p.bucket, LookupRequest(p.credentials, p.region, stackname));
      match s2.step
      case Stop(e) => StageOutcome(Stop(e), s1.calls + s2.calls)
      case Throw => StageOutcome(Throw, s1.calls + s2.calls)
      case Next(bucket) =>
        var s3 := PublishStage(env, JobFor(p, update, settings, bucket));
        StageOutcome(s3.step, s1.calls + (s2.calls + s3.calls))
  }

  /**
   * `deployStatic`: what the caller is told and which collaborators are
   * called, case by case.
   */
  function Deploy(env: Collaborators, inventory: Inventory, p: Params): (o: Outcome)
    // A dry run reports that it is skipped and succeeds, running no stage.
    ensures DryRun(p) ==>
      o == Outcome(Completed(None), [Status(EffectiveReporter(p), DryRunNotice)])
    // Otherwise the first call is always the status message.
    ensures !DryRun(p) ==>
      |o.trace| >= 1 && o.trace[0] == Status(EffectiveReporter(p), DeployingNotice)
    // Without `@static`: cancel, which the caller sees as success.
    ensures !DryRun(p) && inventory.staticSettings.None? ==>
      o == Outcome(Completed(None), [Status(EffectiveReporter(p), DeployingNotice)])
    // A missing folder: the folder error, no lookup, no publish.
    ensures !DryRun(p) && inventory.staticSettings.Some? &&
            !env.folderExists(inventory.staticSettings.value.folder) ==>
      o == Outcome(Completed(Some(Error(FolderNotFoundMessage))),
                   [Status(EffectiveReporter(p), DeployingNotice), CheckFolder(inventory.staticSettings.value.folder)])
    // A supplied bucket: no lookup, one publish with that bucket, whose result is the caller's.
    ensures !DryRun(p) && inventory.staticSettings.Some? &&
            env.folderExists(inventory.staticSettings.value.folder) && TruthyString(p.bucket) ==>
      var job := JobWithBucket(env, inventory, p, p.bucket.value);
      o == Outcome(Done(PublishStage(env, job).step),
                   [Status(EffectiveReporter(p), DeployingNotice), CheckFolder(inventory.staticSettings.value.folder), Publish(job)])
    // No bucket: exactly one lookup of the derived stack, then ...
    ensures !DryRun(p) && inventory.staticSettings.Some? &&
            env.folderExists(inventory.staticSettings.value.folder) && !TruthyString(p.bucket) ==>
      var prefix := [Status(EffectiveReporter(p), DeployingNotice), CheckFolder(inventory.staticSettings.value.folder),
                     GetResources(RequestFor(env, inventory, p))];
      match env.getResources(RequestFor(env, inventory, p))
      // ... a lookup error goes to the caller (unless its message is `cancel`), with no publish;
      case Err(e) => o == Outcome(Done(Stop(e)), prefix)
      case Ok(resources) =>
        match FindStaticBucket(resources)
        // ... a stack without the static bucket crashes, with no publish;
        case None => o == Outcome(Crashed, prefix)
        // ... otherwise one publish to the first static bucket found.
        case Some(i) =>
          var job := JobWithBucket(env, inventory, p, resources[i].physicalId);
          o == Outcome(Done(PublishStage(env, job).step), [prefix[0], prefix[1], prefix[2], Publish(job)])
  {
    if DryRun(p) then Outcome(Completed(None), [Status(EffectiveReporter(p), DryRunNotice)])
    else
      var run := Pipeline(env, inventory, p, EffectiveReporter(p), StackNameFor(env, inventory, p));
      Outcome(Done(run.step), [Status(EffectiveReporter(p), DeployingNotice)] + run.calls)
  }

  /**
   * `deployStatic` as the source runs it: the reporter defaulted, the dry-run
   * guard, the stack name derived in place, then the waterfall and `done`.
   */
  method DeployStatic(env: Collaborators, inventory: Inventory, p: Params) returns (completion: Completion, trace: seq<Call>)
    ensures Outcome(completion, trace) == Deploy(env, inventory, p)
  {
    var stackname := p.stackname;
    var update := p.update;
    if update.None? {
      update := Some(Reporter(DefaultReporterName));
    }

    if DryRun(p) {
      trace := [Status(update.value, DryRunNotice)];
      completion := Completed(None);
      return;
    }
    trace := [Status(update.value, DeployingNotice)];
    var inv := inventory;
    var appname := inv.app;
    if !TruthyString(stackname) {
      stackname := Some(env.toLogicalID(appname) + (if p.production then "Production" else "Staging"));
      if TruthyString(p.name) {
        stackname := Some(stackname.value + env.toLogicalID(p.name.value));
      }
    }
    assert stackname.value == StackNameFor(env, inventory, p);

    var step, calls := RunWaterfall(env, inventory, p, update.value, stackname.value);
    trace := trace + calls;
    // `Done` also maps a throw, which in the source bypasses `done`, to `Crashed`.
    completion := Done(step);
  }

  /**
   * The three waterfall stages as the source writes them: closures that
   * reassign the shared `prune`, `prefix` and `Bucket` as they go, and read
   * the reporter and stack name settled before the waterfall starts.
   */
  method RunWaterfall(env: Collaborators, inventory: Inventory, p: Params, update: Reporter, stackname: string)
    returns (step: Step<()>, calls: seq<Call>)
    ensures StageOutcome(step, calls) == Pipeline(env, inventory, p, update, stackname)
  {
    var bucket := p.bucket;
    var prefix := p.prefix;
    var prune := Some(ExplicitPrune(p));
    var inv := inventory;

    // Parse settings
    if inv.staticSettings.None? {
      return Stop(Error(CancelMessage)), [];
    }
    var fp := env.fingerprintConfig(inv.arc);
    prune := if TruthyBool(prune) then prune else inv.staticSettings.value.prune;
    var folder := inv.staticSettings.value.folder;
    calls := [CheckFolder(folder)];
    if !env.folderExists(folder) {
      return Stop(Error(FolderNotFoundMessage)), calls;
    }
    prefix := if TruthyString(prefix) then prefix else inv.staticSettings.value.prefix;
    ghost var settings := ResolvedSettings(env, inventory, p);
    assert ParseSettings(env, inventory, p) == StageOutcome(Next(settings), calls);

    // Get the bucket's physical ID if not supplied
    ghost var lookups: seq<Call> := [];
    if !TruthyString(bucket) {
      var request := LookupRequest(p.credentials, p.region, stackname);
      lookups := [GetResources(request)];
      calls := calls + [GetResources(request)];
      match env.getResources(request)
      case Err(e) =>
        return Stop(e), calls;
      case Ok(resources) =>
        var found := FindStaticBucket(resources);
        if found.None? {
          return Throw, calls;
        }
        bucket := Some(resources[found.value].physicalId);
    }

    // Publish
    var config := S3Config(p.region, None);
    if p.credentials.Some? {
      config := config.(credentials := p.credentials);
    }
    var job := PublishJob(bucket.value, fp.fingerprint, folder, fp.ignore, FullDeploy(p),
                          prefix, prune, p.region, config, update, p.verbose);
    assert job == JobFor(p, update, settings, bucket.value);
    assert ResolveBucket(env, p.bucket, LookupRequest(p.credentials, p.region, stackname))
      == StageOutcome(Next(bucket.value), lookups);
    calls := calls + [Publish(job)];
    var err := env.publish(job);
    step := if err.None? then Next(()) else Stop(err.value);
    assert PublishStage(env, job) == StageOutcome(step, [Publish(job)]);
    assert calls == [CheckFolder(folder)] + (lookups + [Publish(job)]);
  }

  // ---------------------------------------------------------------------
  // Which collaborators run, across all inputs
  // ---------------------------------------------------------------------

  /** The stack lookups a trace makes, in order. */
  function Lookups(trace: seq<Call>): seq<LookupRequest> {
    if trace == [] then []
    else (if trace[0].GetResources? then [trace[0].request] else []) + Lookups(trace[1..])
  }

  /** The publish jobs a trace dispatches, in order. */
  function Publishes(trace: seq<Call>): seq<PublishJob> {
    if trace == [] then []
    else (if trace[0].Publish? then [trace[0].job] else []) + Publishes(trace[1..])
  }

  /** The lookups of two traces run one after the other. */
  lemma {:induction false} LookupsAppend(a: seq<Call>, b: seq<Call>)
    ensures Lookups(a + b) == Lookups(a) + Lookups(b)
  {
    if a == [] {
      assert a + b == b;
    } else {
      assert (a + b)[0] == a[0];
      assert (a + b)[1..] == a[1..] + b;
      LookupsAppend(a[1..], b);
    }
  }

  /** The publishes of two traces run one after the other. */
  lemma {:induction false} PublishesAppend(a: seq<Call>, b: seq<Call>)
    ensures Publishes(a + b) == Publishes(a) + Publishes(b)
  {
    if a == [] {
      assert a + b == b;
    } else {
      assert (a + b)[0] == a[0];
      assert (a + b)[1..] == a[1..] + b;
      PublishesAppend(a[1..], b);
    }
  }

  /** The first stage succeeds: the project has `@static` and its folder exists. */
  predicate SettingsResolve(env: Collaborators, inventory: Inventory) {
    inventory.staticSettings.Some? && env.folderExists(inventory.staticSettings.value.folder)
  }

  /**
   * Which collaborators the waterfall calls: the given stack is looked up
   * once when the first stage passes and no bucket is supplied, and
   * `publish` runs once, with both stages' values, when both passed one on.
   */
  lemma PipelineCalls(env: Collaborators, inventory: Inventory, p: Params, update: Reporter, stackname: string)
    ensures var r := Pipeline(env, inventory, p, update, stackname);
      var s1 := ParseSettings(env, inventory, p);
      var request := LookupRequest(p.credentials, p.region, stackname);
      var s2 := ResolveBucket(env, p.bucket, request);
      Lookups(r.calls) == (if s1.step.Next? && !TruthyString(p.bucket) then [request] else []) &&
      Publishes(r.calls) == (if s1.step.Next? && s2.step.Next? then [JobFor(p, update, s1.step.value, s2.step.value)] else [])
  {
    var r := Pipeline(env, inventory, p, update, stackname);
    var s1 := ParseSettings(env, inventory, p);
    var s2 := ResolveBucket(env, p.bucket, LookupRequest(p.credentials, p.region, stackname));
    if s1.step.Next? {
      LookupsAppend(s1.calls, s2.calls);
      PublishesAppend(s1.calls, s2.calls);
      if s2.step.Next? {
        var s3 := PublishStage(env, JobFor(p, update, s1.step.value, s2.step.value));
        LookupsAppend(s1.calls + s2.calls, s3.calls);
        PublishesAppend(s1.calls + s2.calls, s3.calls);
      }
    }
  }

  /**
   * Which collaborators run, for every input: the stack is looked up at most
   * once, exactly when a real run gets past the first stage without a
   * bucket, and then with the credentials, the region and the resolved stack
   * name; `publish` runs at most once, exactly when every earlier stage
   * passed on a value, and then with the resolved settings and bucket.
   */
  lemma CollaboratorCalls(env: Collaborators, inventory: Inventory, p: Params)
    ensures var o := Deploy(env, inventory, p);
      var bucket := ResolveBucket(env, p.bucket, RequestFor(env, inventory, p)).step;
      var stages := !DryRun(p) && SettingsResolve(env, inventory);
      Lookups(o.trace) == (if stages && !TruthyString(p.bucket) then [RequestFor(env, inventory, p)] else []) &&
      Publishes(o.trace) == (if stages && bucket.Next? then [JobWithBucket(env, inventory, p, bucket.value)] else [])
  {
    if !DryRun(p) {
      var s := Status(EffectiveReporter(p), DeployingNotice);
      var run := Pipeline(env, inventory, p, EffectiveReporter(p), StackNameFor(env, inventory, p));
      assert Deploy(env, inventory, p).trace == [s] + run.calls;
      LookupsAppend([s], run.calls);
      PublishesAppend([s], run.calls);
      PipelineCalls(env, inventory, p, EffectiveReporter(p), StackNameFor(env, inventory, p));
    }
  }

  /** A trace with its lookup, the third call when there is one, removed. */
  function WithoutLookup(trace: seq<Call>): seq<Call> {
    if |trace| >= 3 && trace[2].GetResources? then trace[..2] + trace[3..] else trace
  }

  /** The trace of a run given the bucket the lookup would find is the looked-up run's without its lookup. */
  lemma SuppliedBucketTrace(env: Collaborators, inventory: Inventory, p: Params, resources: seq<Resource>, i: nat)
    requires !TruthyString(p.bucket)
    requires env.getResources(RequestFor(env, inventory, p)) == Ok(resources)
    requires FindStaticBucket(resources) == Some(i)
    requires resources[i].physicalId != ""
    ensures Deploy(env, inventory, p.(bucket := Some(resources[i].physicalId))).trace
      == WithoutLookup(Deploy(env, inventory, p).trace)
  {
    var q := p.(bucket := Some(resources[i].physicalId));
    var b := resources[i].physicalId;
    assert RequestFor(env, inventory, q) == RequestFor(env, inventory, p);
    if !DryRun(p) && SettingsResolve(env, inventory) {
      var job := JobWithBucket(env, inventory, p, b);
      assert JobWithBucket(env, inventory, q, b) == job;
      var s := Status(EffectiveReporter(p), DeployingNotice);
      var c := CheckFolder(inventory.staticSettings.value.folder);
      var looked := [s, c, GetResources(RequestFor(env, inventory, p)), Publish(job)];
      assert Deploy(env, inventory, p).trace == looked;
      assert Deploy(env, inventory, q).trace == [s, c, Publish(job)] == looked[..2] + looked[3..];
    }
  }

  /**
   * Supplying the bucket the lookup would find changes nothing but the
   * lookup itself: the same job is published and the caller is told the same.
   */
  lemma SuppliedBucketMatchesLookup(env: Collaborators, inventory: Inventory, p: Params, resources: seq<Resource>, i: nat)
    requires !TruthyString(p.bucket)
    requires env.getResources(RequestFor(env, inventory, p)) == Ok(resources)
    requires FindStaticBucket(resources) == Some(i)
    requires resources[i].physicalId != ""
    ensures var looked := Deploy(env, inventory, p);
      var given := Deploy(env, inventory, p.(bucket := Some(resources[i].physicalId)));
      given.completion == looked.completion &&
      Publishes(given.trace) == Publishes(looked.trace) &&
      Lookups(given.trace) == [] &&
      given.trace == WithoutLookup(looked.trace)
  {
    var q := p.(bucket := Some(resources[i].physicalId));
    var b := resources[i].physicalId;
    assert RequestFor(env, inventory, q) == RequestFor(env, inventory, p);
    if inventory.staticSettings.Some? {
      assert JobWithBucket(env, inventory, q, b) == JobWithBucket(env, inventory, p, b);
    }
    CollaboratorCalls(env, inventory, p);
    CollaboratorCalls(env, inventory, q);
    SuppliedBucketTrace(env, inventory, p, resources, i);
  }
}
