/** The recipe execution engine (pkg/recipes/engine/engine.go).

    The engine is a stateless orchestrator over collaborators it cannot see: a
    configuration loader, a recipe loader, a secrets loader and a map of drivers. They
    are modelled as the functions they compute; every pure step of the engine also
    returns the trace of collaborator calls it made, so that which collaborator is
    called, and with what arguments, can be stated and proved. The only state the
    engine touches is the metrics sink, one event per Execute and per Delete. */
module RecipeEngine {
  import opened Wrappers
  import opened Recipes
  import opened Values
  import opened Strings

  /** recipedriver.BaseOptions: what every driver operation receives. */
  datatype BaseOptions = BaseOptions(
    configuration: Configuration,
    recipe: ResourceMetadata,
    definition: EnvironmentDefinition,
    secrets: Secrets)

  datatype ExecuteOptions = ExecuteOptions(base: BaseOptions, prevState: seq<string>)

  datatype DeleteOptions = DeleteOptions(base: BaseOptions, outputResources: seq<OutputResource>)

  /** A recipe parameter schema, as returned by a driver's GetRecipeMetadata. */
  type RecipeParameters = map<string, Value>

  /** A driver. `findSecretIDs` is present exactly when the driver implements the
      DriverWithSecrets capability. Drivers return Go's (value, error) pairs. */
  datatype Driver = Driver(
    execute: ExecuteOptions -> (Option<RecipeOutput>, Option<Error>),
    delete: DeleteOptions -> Option<Error>,
    getRecipeMetadata: BaseOptions -> (Option<RecipeParameters>, Option<Error>),
    findSecretIDs: Option<(Configuration, EnvironmentDefinition) -> Result<Option<SecretKeys>, Error>>)

  /** engine.Options: the collaborators the engine is built with. */
  datatype Options = Options(
    loadConfiguration: ResourceMetadata -> Result<Configuration, Error>,
    loadRecipe: ResourceMetadata -> Result<EnvironmentDefinition, Error>,
    loadSecrets: SecretKeys -> Result<Secrets, Error>,
    drivers: map<string, Driver>)

  /** One call into a collaborator; drivers are named by their key in `Options.drivers`. */
  datatype Call =
    | LoadConfiguration(recipe: ResourceMetadata)
    | LoadRecipe(recipe: ResourceMetadata)
    | FindSecretIDs(driver: string, configuration: Configuration, definition: EnvironmentDefinition)
    | LoadSecrets(keys: SecretKeys)
    | DriverExecute(driver: string, executeOptions: ExecuteOptions)
    | DriverDelete(driver: string, deleteOptions: DeleteOptions)
    | DriverGetRecipeMetadata(driver: string, baseOptions: BaseOptions)
  {
    function Kind(): CallKind {
      match this
      case LoadConfiguration(_) => ConfigurationLoad
      case LoadRecipe(_) => RecipeLoad
      case FindSecretIDs(_, _, _) => SecretDiscovery
      case LoadSecrets(_) => SecretLoad
      case _ => DriverOperation
    }
  }

  datatype CallKind = ConfigurationLoad | RecipeLoad | SecretDiscovery | SecretLoad | DriverOperation

  /** How many calls of the given kind a trace holds. */
  function CountOf(calls: seq<Call>, kind: CallKind): nat {
    if calls == [] then 0
    else (if calls[0].Kind() == kind then 1 else 0) + CountOf(calls[1..], kind)
  }

  lemma {:induction false} CountOfAppend(a: seq<Call>, b: seq<Call>)
    ensures forall kind :: CountOf(a + b, kind) == CountOf(a, kind) + CountOf(b, kind)
  {
    if a == [] {
      assert a + b == b;
    } else {
      assert (a + b)[1..] == a[1..] + b;
      CountOfAppend(a[1..], b);
    }
  }

  lemma CountOfSingle(c: Call)
    ensures forall kind :: CountOf([c], kind) == if c.Kind() == kind then 1 else 0
  {
    assert [c][1..] == [];
  }

  lemma CountOfPair(c: Call, d: Call)
    ensures forall kind :: CountOf([c, d], kind) == (if c.Kind() == kind then 1 else 0) + (if d.Kind() == kind then 1 else 0)
  {
    assert [c, d][1..] == [d];
    CountOfSingle(d);
  }

  /** A step's result together with the calls it made. */
  datatype Step<T> = Step(result: Result<T, Error>, calls: seq<Call>)

  /** An engine-built RecipeError of the setup category with the given code. */
  predicate IsSetupError(err: Error, code: string) {
    err.RecipeError? && err.details.code == code && err.category == RecipeSetupError
  }

  /** getDriver: load the recipe definition and look its driver up by the `Driver` key. */
  function GetDriver(options: Options, recipe: ResourceMetadata): (r: Step<EnvironmentDefinition>)
    ensures r.calls == [LoadRecipe(recipe)] && CountOf(r.calls, DriverOperation) == 0
    ensures var loaded := options.loadRecipe(recipe);
      && (r.result.Success? <==> loaded.Success? && loaded.value.driver in options.drivers)
      && (r.result.Success? ==> r.result.value == loaded.value)
      && (loaded.Failure? ==> r.result == Failure(loaded.error))
      && (loaded.Success? && loaded.value.driver !in options.drivers ==>
            && IsSetupError(r.result.error, RECIPE_DRIVER_NOT_FOUND_FAILURE)
            && r.result.error.details.message == "could not find driver `" + loaded.value.driver + "`")
  {
    var loaded := options.loadRecipe(recipe);
    CountOfSingle(LoadRecipe(recipe));
    if loaded.Failure? then
      Step(Failure(loaded.error), [LoadRecipe(recipe)])
    else if loaded.value.driver !in options.drivers then
      var message := "could not find driver `" + loaded.value.driver + "`";
      Step(Failure(NewRecipeError(RECIPE_DRIVER_NOT_FOUND_FAILURE, message, RecipeSetupError, None)), [LoadRecipe(recipe)])
    else
      Step(Success(loaded.value), [LoadRecipe(recipe)])
  }

  /** The message of a LoadSecretsFailed error. */
  function LoadSecretsMessage(templatePath: string, cause: Error): string {
    "failed to fetch secrets for Terraform recipe " + templatePath + " deployment: " + cause.Text()
  }

  lemma LoadSecretsMessageNamesCause(templatePath: string, cause: Error)
    ensures Contains(LoadSecretsMessage(templatePath, cause), templatePath)
    ensures Contains(LoadSecretsMessage(templatePath, cause), cause.Text())
  {
    var prefix := "failed to fetch secrets for Terraform recipe ";
    var m := LoadSecretsMessage(templatePath, cause);
    assert StartsWith(m[|prefix|..], templatePath);
    var before := prefix + templatePath + " deployment: ";
    assert StartsWith(m[|before|..], cause.Text());
  }

  /** getRecipeConfigSecrets: only a driver with the secrets capability is asked for
      secret IDs, and the secrets loader is called only when it returned a (possibly
      empty) map. */
  function GetRecipeConfigSecrets(options: Options, driver: string, configuration: Configuration,
                                  definition: EnvironmentDefinition): (r: Step<Secrets>)
    requires driver in options.drivers
    ensures CountOf(r.calls, DriverOperation) == 0
    ensures options.drivers[driver].findSecretIDs.None? ==> r == Step(Success(None), [])
    ensures options.drivers[driver].findSecretIDs.Some? ==>
      var found := options.drivers[driver].findSecretIDs.value(configuration, definition);
      && |r.calls| >= 1 && r.calls[0] == FindSecretIDs(driver, configuration, definition)
      && (found.Failure? ==> r == Step(Failure(found.error), [FindSecretIDs(driver, configuration, definition)]))
      && (found.Success? && found.value.None? ==>
            r == Step(Success(None), [FindSecretIDs(driver, configuration, definition)]))
      && (found.Success? && found.value.Some? ==>
            var loaded := options.loadSecrets(found.value.value);
            && r.calls == [FindSecretIDs(driver, configuration, definition), LoadSecrets(found.value.value)]
            && (loaded.Success? ==> r.result == Success(loaded.value))
            && (loaded.Failure? ==>
                  && r.result.Failure? && IsSetupError(r.result.error, LOAD_SECRETS_FAILED)
                  && Contains(r.result.error.details.message, definition.templatePath)
                  && Contains(r.result.error.details.message, loaded.error.Text())))
  {
    match options.drivers[driver].findSecretIDs
    case None => Step(Success(None), [])
    case Some(findSecretIDs) =>
      var found := findSecretIDs(configuration, definition);
      var discover := FindSecretIDs(driver, configuration, definition);
      CountOfSingle(discover);
      if found.Failure? then
        Step(Failure(found.error), [discover])
      else if found.value.None? then
        Step(Success(None), [discover])
      else
        var loaded := options.loadSecrets(found.value.value);
        var calls := [discover, LoadSecrets(found.value.value)];
        CountOfPair(discover, LoadSecrets(found.value.value));
        if loaded.Failure? then
          LoadSecretsMessageNamesCause(definition.templatePath, loaded.error);
          var message := LoadSecretsMessage(definition.templatePath, loaded.error);
          Step(Failure(NewRecipeError(LOAD_SECRETS_FAILED, message, RecipeSetupError, GetErrorDetails(loaded.error))), calls)
        else
          Step(Success(loaded.value), calls)
  }

  /** The configuration-load failure as Execute reports it. */
  function ConfigurationError(cause: Error): (r: Error)
    ensures IsSetupError(r, RECIPE_CONFIGURATION_FAILURE) && r.details.message == cause.Text()
    ensures GetErrorDetails(cause).Some? ==> r.details.details == [GetErrorDetails(cause).value]
  {
    NewRecipeError(RECIPE_CONFIGURATION_FAILURE, cause.Text(), RecipeSetupError, GetErrorDetails(cause))
  }

  /** Everything that must hold before a driver operation runs: the configuration loaded
      and is not simulated, the definition loaded and names a known driver, and the
      secrets were resolved. Shared by Execute and Delete. */
  ghost predicate ReachesDriver(options: Options, recipe: ResourceMetadata) {
    var cfg := options.loadConfiguration(recipe);
    var def := options.loadRecipe(recipe);
    && cfg.Success? && !cfg.value.simulated
    && def.Success? && def.value.driver in options.drivers
    && GetRecipeConfigSecrets(options, def.value.driver, cfg.value, def.value).result.Success?
  }

  /** The base options the driver receives once ReachesDriver holds. */
  ghost function DriverBase(options: Options, recipe: ResourceMetadata): BaseOptions
    requires ReachesDriver(options, recipe)
  {
    var cfg := options.loadConfiguration(recipe).value;
    var def := options.loadRecipe(recipe).value;
    BaseOptions(cfg, recipe, def, GetRecipeConfigSecrets(options, def.driver, cfg, def).result.value)
  }

  /** Once the configuration has loaded, a failure of getDriver or of
      getRecipeConfigSecrets is what the core returns, unchanged. */
  predicate SetupErrorPassedOn(options: Options, recipe: ResourceMetadata, err: Option<Error>)
    requires options.loadConfiguration(recipe).Success?
  {
    var cfg := options.loadConfiguration(recipe).value;
    var found := GetDriver(options, recipe);
    && (found.result.Failure? ==> err == Some(found.result.error))
    && (found.result.Success? ==>
          var secrets := GetRecipeConfigSecrets(options, found.result.value.driver, cfg, found.result.value);
          secrets.result.Failure? ==> err == Some(secrets.result.error))
  }

  datatype ExecuteCoreResult = ExecuteCoreResult(
    output: Option<RecipeOutput>,
    definition: Option<EnvironmentDefinition>,
    err: Option<Error>,
    calls: seq<Call>)

  /** executeCore */
  function ExecuteCore(options: Options, recipe: ResourceMetadata, prevState: seq<string>): (r: ExecuteCoreResult)
    ensures |r.calls| >= 1 && r.calls[0] == LoadConfiguration(recipe)
    ensures options.loadConfiguration(recipe).Failure? ==>
      r == ExecuteCoreResult(None, None, Some(ConfigurationError(options.loadConfiguration(recipe).error)),
                             [LoadConfiguration(recipe)])
    ensures options.loadConfiguration(recipe).Success? && options.loadConfiguration(recipe).value.simulated ==>
      r == ExecuteCoreResult(None, None, None, [LoadConfiguration(recipe)])
    ensures r.err.Some? ==> r.output.None?
    ensures options.loadConfiguration(recipe).Success? && !options.loadConfiguration(recipe).value.simulated ==>
      SetupErrorPassedOn(options, recipe, r.err)
    ensures ReachesSecrets(options, recipe) ==>
      var cfg := options.loadConfiguration(recipe).value;
      var def := options.loadRecipe(recipe).value;
      var secrets := GetRecipeConfigSecrets(options, def.driver, cfg, def);
      && |r.calls| >= 2 + |secrets.calls|
      && r.calls[..2 + |secrets.calls|] == [LoadConfiguration(recipe), LoadRecipe(recipe)] + secrets.calls
    ensures r.definition.Some? <==> ReachesDriver(options, recipe)
    ensures !ReachesDriver(options, recipe) ==> r.output.None? && CountOf(r.calls, DriverOperation) == 0
    ensures ReachesDriver(options, recipe) ==>
      var base := DriverBase(options, recipe);
      var driven := options.drivers[base.definition.driver].execute(ExecuteOptions(base, prevState));
      && r.definition == Some(base.definition)
      && r.calls[|r.calls| - 1] == DriverExecute(base.definition.driver, ExecuteOptions(base, prevState))
      && CountOf(r.calls, DriverOperation) == 1
      && r.err == driven.1
      && r.output == (if driven.1.Some? then None else driven.0)
  {
    var cfg := options.loadConfiguration(recipe);
    var start := [LoadConfiguration(recipe)];
    CountOfSingle(LoadConfiguration(recipe));
    if cfg.Failure? then
      ExecuteCoreResult(None, None, Some(ConfigurationError(cfg.error)), start)
    else if cfg.value.simulated then
      ExecuteCoreResult(None, None, None, start)
    else
      var found := GetDriver(options, recipe);
      if found.result.Failure? then
        CountOfAppend(start, found.calls);
        ExecuteCoreResult(None, None, Some(found.result.error), start + found.calls)
      else
        var definition := found.result.value;
        var secrets := GetRecipeConfigSecrets(options, definition.driver, cfg.value, definition);
        var setup := start + found.calls + secrets.calls;
        CountOfAppend(start, found.calls);
        CountOfAppend(start + found.calls, secrets.calls);
        if secrets.result.Failure? then
          ExecuteCoreResult(None, None, Some(secrets.result.error), setup)
        else
          var executeOptions := ExecuteOptions(BaseOptions(cfg.value, recipe, definition, secrets.result.value), prevState);
          var call := DriverExecute(definition.driver, executeOptions);
          CountOfAppend(setup, [call]);
          CountOfSingle(call);
          var driven := options.drivers[definition.driver].execute(executeOptions);
          if driven.1.Some? then
            ExecuteCoreResult(None, Some(definition), driven.1, setup + [call])
          else
            ExecuteCoreResult(driven.0, Some(definition), None, setup + [call])
  }

  datatype DeleteCoreResult = DeleteCoreResult(
    definition: Option<EnvironmentDefinition>,
    err: Option<Error>,
    calls: seq<Call>)

  /** deleteCore: the same chain as executeCore, except that a configuration-load
      failure is returned as it came. */
  function DeleteCore(options: Options, recipe: ResourceMetadata, outputResources: seq<OutputResource>): (r: DeleteCoreResult)
    ensures |r.calls| >= 1 && r.calls[0] == LoadConfiguration(recipe)
    ensures options.loadConfiguration(recipe).Failure? ==>
      r == DeleteCoreResult(None, Some(options.loadConfiguration(recipe).error), [LoadConfiguration(recipe)])
    ensures options.loadConfiguration(recipe).Success? && options.loadConfiguration(recipe).value.simulated ==>
      r == DeleteCoreResult(None, None, [LoadConfiguration(recipe)])
    ensures options.loadConfiguration(recipe).Success? && !options.loadConfiguration(recipe).value.simulated ==>
      SetupErrorPassedOn(options, recipe, r.err)
    ensures ReachesSecrets(options, recipe) ==>
      var cfg := options.loadConfiguration(recipe).value;
      var def := options.loadRecipe(recipe).value;
      var secrets := GetRecipeConfigSecrets(options, def.driver, cfg, def);
      && |r.calls| >= 2 + |secrets.calls|
      && r.calls[..2 + |secrets.calls|] == [LoadConfiguration(recipe), LoadRecipe(recipe)] + secrets.calls
    ensures r.definition.Some? <==> ReachesDriver(options, recipe)
    ensures !ReachesDriver(options, recipe) ==> CountOf(r.calls, DriverOperation) == 0
    ensures ReachesDriver(options, recipe) ==>
      var base := DriverBase(options, recipe);
      var deleteOptions := DeleteOptions(base, outputResources);
      && r.definition == Some(base.definition)
      && r.calls[|r.calls| - 1] == DriverDelete(base.definition.driver, deleteOptions)
      && CountOf(r.calls, DriverOperation) == 1
      && r.err == options.drivers[base.definition.driver].delete(deleteOptions)
  {
    var cfg := options.loadConfiguration(recipe);
    var start := [LoadConfiguration(recipe)];
    CountOfSingle(LoadConfiguration(recipe));
    if cfg.Failure? then
      DeleteCoreResult(None, Some(cfg.error), start)
    else if cfg.value.simulated then
      DeleteCoreResult(None, None, start)
    else
      var found := GetDriver(options, recipe);
      if found.result.Failure? then
        CountOfAppend(start, found.calls);
        DeleteCoreResult(None, Some(found.result.error), start + found.calls)
      else
        var definition := found.result.value;
        var secrets := GetRecipeConfigSecrets(options, definition.driver, cfg.value, definition);
        var setup := start + found.calls + secrets.calls;
        CountOfAppend(start, found.calls);
        CountOfAppend(start + found.calls, secrets.calls);
        if secrets.result.Failure? then
          DeleteCoreResult(None, Some(secrets.result.error), setup)
        else
          var deleteOptions := DeleteOptions(BaseOptions(cfg.value, recipe, definition, secrets.result.value), outputResources);
          var call := DriverDelete(definition.driver, deleteOptions);
          CountOfAppend(setup, [call]);
          CountOfSingle(call);
          var err := options.drivers[definition.driver].delete(deleteOptions);
          DeleteCoreResult(Some(definition), err, setup + [call])
  }

  /** Setup got as far as secret resolution: the configuration loaded and is not
      simulated, and the definition names a known driver. */
  ghost predicate ReachesSecrets(options: Options, recipe: ResourceMetadata) {
    var cfg := options.loadConfiguration(recipe);
    var def := options.loadRecipe(recipe);
    cfg.Success? && !cfg.value.simulated && def.Success? && def.value.driver in options.drivers
  }

  /** The driver that setup selected has the secrets capability. */
  ghost predicate DiscoversSecrets(options: Options, recipe: ResourceMetadata)
    requires ReachesSecrets(options, recipe)
  {
    options.drivers[options.loadRecipe(recipe).value.driver].findSecretIDs.Some?
  }

  /** ...and its FindSecretIDs returned a non-nil map, possibly an empty one. */
  ghost predicate LoadsSecrets(options: Options, recipe: ResourceMetadata) {
    && ReachesSecrets(options, recipe)
    && DiscoversSecrets(options, recipe)
    && var def := options.loadRecipe(recipe).value;
       var found := options.drivers[def.driver].findSecretIDs.value(options.loadConfiguration(recipe).value, def);
       found.Success? && found.value.Some?
  }

  /** Which collaborators Execute's core calls, and how often: the configuration is
      always loaded once; the definition only in a non-simulated environment; the driver
      is asked for secret IDs only when it has the capability; the secrets loader is
      called at most once, and only when FindSecretIDs returned a map. */
  lemma ExecuteCoreCallCounts(options: Options, recipe: ResourceMetadata, prevState: seq<string>)
    ensures var calls := ExecuteCore(options, recipe, prevState).calls;
      var cfg := options.loadConfiguration(recipe);
      && CountOf(calls, ConfigurationLoad) == 1
      && CountOf(calls, RecipeLoad) == (if cfg.Success? && !cfg.value.simulated then 1 else 0)
      && CountOf(calls, SecretDiscovery) == (if ReachesSecrets(options, recipe) && DiscoversSecrets(options, recipe) then 1 else 0)
      && CountOf(calls, SecretLoad) == (if LoadsSecrets(options, recipe) then 1 else 0)
  {
    var cfg := options.loadConfiguration(recipe);
    var start := [LoadConfiguration(recipe)];
    CountOfSingle(LoadConfiguration(recipe));
    if cfg.Success? && !cfg.value.simulated {
      var found := GetDriver(options, recipe);
      CountOfAppend(start, found.calls);
      CountOfSingle(LoadRecipe(recipe));
      if found.result.Success? {
        var definition := found.result.value;
        var secrets := GetRecipeConfigSecrets(options, definition.driver, cfg.value, definition);
        var setup := start + found.calls + secrets.calls;
        SecretCallCounts(options, definition.driver, cfg.value, definition);
        CountOfAppend(start + found.calls, secrets.calls);
        if secrets.result.Success? {
          var executeOptions := ExecuteOptions(BaseOptions(cfg.value, recipe, definition, secrets.result.value), prevState);
          CountOfAppend(setup, [DriverExecute(definition.driver, executeOptions)]);
          CountOfSingle(DriverExecute(definition.driver, executeOptions));
        }
      }
    }
  }

  /** The same accounting for Delete's core. */
  lemma DeleteCoreCallCounts(options: Options, recipe: ResourceMetadata, outputResources: seq<OutputResource>)
    ensures var calls := DeleteCore(options, recipe, outputResources).calls;
      var cfg := options.loadConfiguration(recipe);
      && CountOf(calls, ConfigurationLoad) == 1
      && CountOf(calls, RecipeLoad) == (if cfg.Success? && !cfg.value.simulated then 1 else 0)
      && CountOf(calls, SecretDiscovery) == (if ReachesSecrets(options, recipe) && DiscoversSecrets(options, recipe) then 1 else 0)
      && CountOf(calls, SecretLoad) == (if LoadsSecrets(options, recipe) then 1 else 0)
  {
    var cfg := options.loadConfiguration(recipe);
    var start := [LoadConfiguration(recipe)];
    CountOfSingle(LoadConfiguration(recipe));
    if cfg.Success? && !cfg.value.simulated {
      var found := GetDriver(options, recipe);
      CountOfAppend(start, found.calls);
      CountOfSingle(LoadRecipe(recipe));
      if found.result.Success? {
        var definition := found.result.value;
        var secrets := GetRecipeConfigSecrets(options, definition.driver, cfg.value, definition);
        var setup := start + found.calls + secrets.calls;
        SecretCallCounts(options, definition.driver, cfg.value, definition);
        CountOfAppend(start + found.calls, secrets.calls);
        if secrets.result.Success? {
          var deleteOptions := DeleteOptions(BaseOptions(cfg.value, recipe, definition, secrets.result.value), outputResources);
          CountOfAppend(setup, [DriverDelete(definition.driver, deleteOptions)]);
          CountOfSingle(DriverDelete(definition.driver, deleteOptions));
        }
      }
    }
  }

  /** Counts of getRecipeConfigSecrets' calls by kind. */
  lemma SecretCallCounts(options: Options, driver: string, configuration: Configuration, definition: EnvironmentDefinition)
    requires driver in options.drivers
    ensures var r := GetRecipeConfigSecrets(options, driver, configuration, definition);
      var find := options.drivers[driver].findSecretIDs;
      && CountOf(r.calls, ConfigurationLoad) == 0
      && CountOf(r.calls, RecipeLoad) == 0
      && CountOf(r.calls, SecretDiscovery) == (if find.Some? then 1 else 0)
      && CountOf(r.calls, SecretLoad) ==
           (if find.Some? && find.value(configuration, definition).Success? && find.value(configuration, definition).value.Some? then 1 else 0)
  {
    var find := options.drivers[driver].findSecretIDs;
    if find.Some? {
      var discover := FindSecretIDs(driver, configuration, definition);
      CountOfSingle(discover);
      var found := find.value(configuration, definition);
      if found.Success? && found.value.Some? {
        CountOfPair(discover, LoadSecrets(found.value.value));
      }
    }
  }

  /** A driver without the secrets capability is never asked for secret IDs, the secrets
      loader is never called, and the driver receives nil secrets. */
  lemma NoSecretsWithoutCapability(options: Options, recipe: ResourceMetadata, prevState: seq<string>)
    requires ReachesSecrets(options, recipe) && !DiscoversSecrets(options, recipe)
    ensures ReachesDriver(options, recipe) && DriverBase(options, recipe).secrets == None
    ensures var calls := ExecuteCore(options, recipe, prevState).calls;
      CountOf(calls, SecretDiscovery) == 0 && CountOf(calls, SecretLoad) == 0
  {
    ExecuteCoreCallCounts(options, recipe, prevState);
  }

  datatype MetadataCoreResult = MetadataCoreResult(
    data: Option<RecipeParameters>,
    err: Option<Error>,
    calls: seq<Call>)

  /** engine.GetRecipeMetadataOptions: the caller names the definition to introspect. */
  datatype GetRecipeMetadataRequest = GetRecipeMetadataRequest(recipe: ResourceMetadata, definition: EnvironmentDefinition)

  /** GetRecipeMetadata reaches its driver: the configuration loaded (simulated or not),
      the caller's definition names a known driver, and the secrets were resolved. */
  ghost predicate MetadataReachesDriver(options: Options, request: GetRecipeMetadataRequest) {
    var cfg := options.loadConfiguration(request.recipe);
    && cfg.Success?
    && request.definition.driver in options.drivers
    && GetRecipeConfigSecrets(options, request.definition.driver, cfg.value, request.definition).result.Success?
  }

  /** getRecipeMetadataCore: no simulated check, no LoadRecipe (the caller supplied the
      definition), a plain error for an unknown driver, and the driver's answer verbatim. */
  function GetRecipeMetadataCore(options: Options, request: GetRecipeMetadataRequest): (r: MetadataCoreResult)
    ensures |r.calls| >= 1 && r.calls[0] == LoadConfiguration(request.recipe)
    ensures CountOf(r.calls, RecipeLoad) == 0
    ensures options.loadConfiguration(request.recipe).Failure? ==>
      r == MetadataCoreResult(None, Some(options.loadConfiguration(request.recipe).error), [LoadConfiguration(request.recipe)])
    ensures options.loadConfiguration(request.recipe).Success? && request.definition.driver !in options.drivers ==>
      r == MetadataCoreResult(None, Some(Opaque("could not find driver " + request.definition.driver, None)),
                              [LoadConfiguration(request.recipe)])
    ensures CountOf(r.calls, DriverOperation) == (if MetadataReachesDriver(options, request) then 1 else 0)
    ensures !MetadataReachesDriver(options, request) ==> r.data.None? && r.err.Some?
    ensures options.loadConfiguration(request.recipe).Success? && request.definition.driver in options.drivers ==>
      var cfg := options.loadConfiguration(request.recipe).value;
      var secrets := GetRecipeConfigSecrets(options, request.definition.driver, cfg, request.definition);
      && |r.calls| >= 1 + |secrets.calls|
      && r.calls[1..1 + |secrets.calls|] == secrets.calls
      && (secrets.result.Failure? ==>
            && r.err == Some(secrets.result.error) && r.data.None?
            && r.calls == [LoadConfiguration(request.recipe)] + secrets.calls)
    ensures MetadataReachesDriver(options, request) ==>
      var cfg := options.loadConfiguration(request.recipe).value;
      var secrets := GetRecipeConfigSecrets(options, request.definition.driver, cfg, request.definition).result.value;
      var base := BaseOptions(cfg, EMPTY_RESOURCE_METADATA, request.definition, secrets);
      && r.calls[|r.calls| - 1] == DriverGetRecipeMetadata(request.definition.driver, base)
      && (r.data, r.err) == options.drivers[request.definition.driver].getRecipeMetadata(base)
  {
    var cfg := options.loadConfiguration(request.recipe);
    var start := [LoadConfiguration(request.recipe)];
    CountOfSingle(LoadConfiguration(request.recipe));
    var name := request.definition.driver;
    if cfg.Failure? then
      MetadataCoreResult(None, Some(cfg.error), start)
    else if name !in options.drivers then
      MetadataCoreResult(None, Some(Opaque("could not find driver " + name, None)), start)
    else
      var secrets := GetRecipeConfigSecrets(options, name, cfg.value, request.definition);
      SecretCallCounts(options, name, cfg.value, request.definition);
      CountOfAppend(start, secrets.calls);
      if secrets.result.Failure? then
        MetadataCoreResult(None, Some(secrets.result.error), start + secrets.calls)
      else
        var base := BaseOptions(cfg.value, EMPTY_RESOURCE_METADATA, request.definition, secrets.result.value);
        var call := DriverGetRecipeMetadata(name, base);
        CountOfSingle(call);
        CountOfAppend(start + secrets.calls, [call]);
        var answer := options.drivers[name].getRecipeMetadata(base);
        MetadataCoreResult(answer.0, answer.1, start + secrets.calls + [call])
  }

  /** GetRecipeMetadata: the core's answer, with the data dropped whenever there is an error. */
  function GetRecipeMetadata(options: Options, request: GetRecipeMetadataRequest): (r: (Option<RecipeParameters>, Option<Error>))
    ensures r.1 == GetRecipeMetadataCore(options, request).err
    ensures r.1.Some? ==> r.0.None?
    ensures r.1.None? ==> r.0 == GetRecipeMetadataCore(options, request).data
  {
    var core := GetRecipeMetadataCore(options, request);
    if core.err.Some? then (None, core.err) else (core.data, None)
  }

  /** The simulated flag plays no part in GetRecipeMetadata: in a simulated environment
      whose driver lookup and secret resolution succeed, the driver is still asked. */
  lemma MetadataIgnoresSimulated(options: Options, request: GetRecipeMetadataRequest)
    requires options.loadConfiguration(request.recipe).Success?
    requires options.loadConfiguration(request.recipe).value.simulated
    requires MetadataReachesDriver(options, request)
    ensures CountOf(GetRecipeMetadataCore(options, request).calls, DriverOperation) == 1
  {
  }

  /** The value of the metrics attribute `result`. */
  datatype OperationResult = SuccessfulOperationState | FailedOperationState | ErrorCode(code: string)

  datatype RecipeOperation = ExecuteOperation | DeleteOperation

  /** One RecordRecipeOperationDuration call (the timestamps are not modelled). */
  datatype RecipeOperationEvent = RecipeOperationEvent(
    operation: RecipeOperation,
    recipeName: string,
    definition: Option<EnvironmentDefinition>,
    result: OperationResult)

  /** The outcome a call with error `err` is recorded with: success without an error,
      the error's details code when it carries details, the generic failure otherwise. */
  ghost function Outcome(err: Option<Error>): OperationResult {
    if err.None? then SuccessfulOperationState
    else if GetErrorDetails(err.value).Some? then ErrorCode(GetErrorDetails(err.value).value.code)
    else FailedOperationState
  }

  /** Execute's metrics outcome for a configuration-load failure is its code. */
  lemma ExecuteConfigurationFailureOutcome(options: Options, recipe: ResourceMetadata, prevState: seq<string>)
    requires options.loadConfiguration(recipe).Failure?
    ensures var r := ExecuteCore(options, recipe, prevState);
      Outcome(r.err) == ErrorCode(RECIPE_CONFIGURATION_FAILURE) && r.definition.None?
  {
  }

  /** Delete reports the configuration-load failure unwrapped, so its metrics outcome is
      whatever that error carries: its own details code, or the generic failure. */
  lemma DeleteConfigurationFailureOutcome(options: Options, recipe: ResourceMetadata, outputResources: seq<OutputResource>)
    requires options.loadConfiguration(recipe).Failure?
    ensures var r := DeleteCore(options, recipe, outputResources);
      var cause := options.loadConfiguration(recipe).error;
      && r.err == Some(cause) && r.definition.None?
      && Outcome(r.err) == (if GetErrorDetails(cause).Some? then ErrorCode(GetErrorDetails(cause).value.code) else FailedOperationState)
  {
  }

  /** An unknown driver is recorded with RecipeDriverNotFoundFailure and no definition,
      by Execute and by Delete. */
  lemma DriverNotFoundOutcome(options: Options, recipe: ResourceMetadata, prevState: seq<string>, outputResources: seq<OutputResource>)
    requires options.loadConfiguration(recipe).Success? && !options.loadConfiguration(recipe).value.simulated
    requires options.loadRecipe(recipe).Success? && options.loadRecipe(recipe).value.driver !in options.drivers
    ensures var r := ExecuteCore(options, recipe, prevState);
      && r.err.Some? && IsSetupError(r.err.value, RECIPE_DRIVER_NOT_FOUND_FAILURE)
      && Outcome(r.err) == ErrorCode(RECIPE_DRIVER_NOT_FOUND_FAILURE) && r.definition.None? && r.output.None?
    ensures var r := DeleteCore(options, recipe, outputResources);
      && r.err.Some? && IsSetupError(r.err.value, RECIPE_DRIVER_NOT_FOUND_FAILURE)
      && Outcome(r.err) == ErrorCode(RECIPE_DRIVER_NOT_FOUND_FAILURE) && r.definition.None?
  {
  }

  /** A secrets-loader failure is recorded with LoadSecretsFailed and no definition, by
      Execute and by Delete. */
  lemma LoadSecretsFailureOutcome(options: Options, recipe: ResourceMetadata, prevState: seq<string>, outputResources: seq<OutputResource>)
    requires LoadsSecrets(options, recipe)
    requires var def := options.loadRecipe(recipe).value;
      var found := options.drivers[def.driver].findSecretIDs.value(options.loadConfiguration(recipe).value, def);
      options.loadSecrets(found.value.value).Failure?
    ensures !ReachesDriver(options, recipe)
    ensures var r := ExecuteCore(options, recipe, prevState);
      && r.err.Some? && IsSetupError(r.err.value, LOAD_SECRETS_FAILED)
      && Outcome(r.err) == ErrorCode(LOAD_SECRETS_FAILED) && r.definition.None? && r.output.None?
    ensures var r := DeleteCore(options, recipe, outputResources);
      && r.err.Some? && IsSetupError(r.err.value, LOAD_SECRETS_FAILED)
      && Outcome(r.err) == ErrorCode(LOAD_SECRETS_FAILED) && r.definition.None?
  {
  }

  /** A simulated environment is recorded as a success with no definition, by Execute
      and by Delete, and only the configuration loader was called. */
  lemma SimulatedOutcome(options: Options, recipe: ResourceMetadata, prevState: seq<string>, outputResources: seq<OutputResource>)
    requires options.loadConfiguration(recipe).Success? && options.loadConfiguration(recipe).value.simulated
    ensures var r := ExecuteCore(options, recipe, prevState);
      && Outcome(r.err) == SuccessfulOperationState && r.definition.None? && r.output.None?
      && CountOf(r.calls, RecipeLoad) == 0 && CountOf(r.calls, SecretDiscovery) == 0
      && CountOf(r.calls, SecretLoad) == 0 && CountOf(r.calls, DriverOperation) == 0
    ensures var r := DeleteCore(options, recipe, outputResources);
      && Outcome(r.err) == SuccessfulOperationState && r.definition.None?
      && CountOf(r.calls, RecipeLoad) == 0 && CountOf(r.calls, SecretDiscovery) == 0
      && CountOf(r.calls, SecretLoad) == 0 && CountOf(r.calls, DriverOperation) == 0
  {
    CountOfSingle(LoadConfiguration(recipe));
  }

  /** The caller-facing ExecuteOptions of the engine. */
  datatype ExecuteRequest = ExecuteRequest(recipe: ResourceMetadata, previousState: seq<string>)

  /** The caller-facing DeleteOptions of the engine. */
  datatype DeleteRequest = DeleteRequest(recipe: ResourceMetadata, outputResources: seq<OutputResource>)

  /** The recipe-engine metrics recorder, made an explicit sink instead of a global. */
  class MetricsSink {
    var events: seq<RecipeOperationEvent>

    constructor ()
      ensures events == []
    {
      events := [];
    }

    method RecordRecipeOperationDuration(event: RecipeOperationEvent)
      modifies this
      ensures events == old(events) + [event]
    {
      events := events + [event];
    }
  }

  class Engine {
    const options: Options
    const metrics: MetricsSink

    constructor (options: Options, metrics: MetricsSink)
      ensures this.options == options && this.metrics == metrics
    {
      this.options := options;
      this.metrics := metrics;
    }

    /** Execute: run the core and record exactly one event, whichever way it ended. */
    method Execute(request: ExecuteRequest) returns (output: Option<RecipeOutput>, err: Option<Error>)
      modifies metrics
      ensures var core := ExecuteCore(options, request.recipe, request.previousState);
        && output == core.output && err == core.err
        && metrics.events == old(metrics.events) +
             [RecipeOperationEvent(ExecuteOperation, request.recipe.name, core.definition, Outcome(core.err))]
    {
      var result := SuccessfulOperationState;
      var core := ExecuteCore(options, request.recipe, request.previousState);
      if core.err.Some? {
        result := FailedOperationState;
        var details := GetErrorDetails(core.err.value);
        if details.Some? {
          result := ErrorCode(details.value.code);
        }
      }
      metrics.RecordRecipeOperationDuration(
        RecipeOperationEvent(ExecuteOperation, request.recipe.name, core.definition, result));
      return core.output, core.err;
    }

    /** Delete: run the core and record exactly one event, whichever way it ended. */
    method Delete(request: DeleteRequest) returns (err: Option<Error>)
      modifies metrics
      ensures var core := DeleteCore(options, request.recipe, request.outputResources);
        && err == core.err
        && metrics.events == old(metrics.events) +
             [RecipeOperationEvent(DeleteOperation, request.recipe.name, core.definition, Outcome(core.err))]
    {
      var result := SuccessfulOperationState;
      var core := DeleteCore(options, request.recipe, request.outputResources);
      if core.err.Some? {
        result := FailedOperationState;
        var details := GetErrorDetails(core.err.value);
        if details.Some? {
          result := ErrorCode(details.value.code);
        }
      }
      metrics.RecordRecipeOperationDuration(
        RecipeOperationEvent(DeleteOperation, request.recipe.name, core.definition, result));
      return core.err;
    }
  }
}
