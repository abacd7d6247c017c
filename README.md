# Radius core, modelled in Dafny

This project models several pieces of the Radius control plane and proves properties about them.

**Recipe engine.** This is the main piece. It carries out recipes for portable resources: it loads the environment configuration and then the recipe definition. It next picks the driver named by the definition and resolves secrets. Finally it calls the driver and records one metrics event per Execute or Delete.

**Conversion helpers.** These cover two parts of corerp's versioned API:
- the provisioning-state and identity-kind maps, and `stringSlice`, of the 2022-03-15-privatepreview API;
- the Gateway conversion of the 2023-10-01-preview API, covering TLS, routes and hostname.

**Messaging resource provider.** This covers the RabbitMQ queue processor's computed URI and TLS flag, and the RabbitMQQueue datamodel record.

**resourceutil.** This covers property extraction, which runs after a resource has been decoded from JSON.

**Bicep CLI.** This covers the choice of which release binary to download.

## How the model is built

Modules:
- `Wrappers` holds Option (a Go nil) and Result (a Go error).
- `Values` holds decoded JSON values.
- `Strings` holds prefix, suffix and substring tests.
- `Recipes` holds the recipe data model: configuration, definition, secrets, output resources, and the structured RecipeError.
- The other modules follow the source files one by one.

The engine's collaborators appear as the functions they compute. These are the configuration loader, the recipe loader, the secrets loader and the drivers. They are fields of `RecipeEngine.Options`, and a driver's optional `findSecretIDs` field is the DriverWithSecrets capability.

The engine's pure steps (`executeCore`, `deleteCore`, `getDriver`, `getRecipeConfigSecrets`, `getRecipeMetadataCore`) are functions. Each returns its result together with the trace of collaborator calls it made. "X is never called" and "the driver receives exactly these options" are then statements about that trace.

`Execute` and `Delete` are methods of an `Engine` object. Each appends exactly one event to an explicit `MetricsSink`, which stands in for the global metrics recorder.

Code that fills a slice or a map in a loop keeps its loop: `stringSlice`, the Gateway route loops, the property merge and the connection scan. Code that updates a receiver in place is a class method: `GatewayResource.ConvertFrom` and `RabbitMQQueue.ApplyDeploymentOutput`.

## Model

| member | source | states |
|---|---|---|
| Recipes.GetErrorDetails | pkg/recipes/engine/engine.go:60-63 | An engine-built RecipeError yields its own details. A collaborator's error yields whatever details it carries. |
| Recipes.NewRecipeError | pkg/recipes/engine/engine.go:80 | The result is a RecipeError with exactly the given code, message and category. It nests the inner details exactly when there are some. |
| RecipeEngine.GetDriver | pkg/recipes/engine/engine.go:213-227 | Exactly one LoadRecipe call and no driver call. It succeeds if and only if the definition loaded and its driver key is known, and then returns the loaded definition. A loader error is returned unchanged. An unknown key gives RecipeDriverNotFoundFailure in the setup category, with a message naming the key. |
| RecipeEngine.LoadSecretsMessageNamesCause | pkg/recipes/engine/engine.go:244-246 | The LoadSecretsFailed message contains both the template path and the loader's error text. |
| RecipeEngine.GetRecipeConfigSecrets | pkg/recipes/engine/engine.go:229-249 | A driver without the secrets capability gives nil secrets and makes no call. Otherwise FindSecretIDs is called first. Its error is returned unchanged. A nil map gives nil secrets; any non-nil map, even an empty one, leads to exactly one LoadSecrets call with that map. A loader failure becomes LoadSecretsFailed in the setup category, with the template path and the cause in the message. |
| RecipeEngine.ConfigurationError | pkg/recipes/engine/engine.go:78-81 | Execute's configuration failure is RecipeConfigurationFailure in the setup category. Its message is the original error's text and it nests the original details. |
| RecipeEngine.ExecuteCore | pkg/recipes/engine/engine.go:75-113 | The first call is always LoadConfiguration. A configuration failure gives only the wrapped error. A simulated environment gives (nil, nil, nil) and makes no other call. Once the configuration has loaded, a failure of getDriver or of secret resolution is returned unchanged. When setup reaches secret resolution, the trace begins with LoadConfiguration, LoadRecipe and then exactly the secret calls made for the loaded definition. Any error implies a nil output. The definition is returned exactly when setup reached the driver. Only then is Execute called, exactly once and as the last call, with the loaded configuration, the caller's metadata, the loaded definition, the resolved secrets and PrevState. The driver's error is returned as-is and suppresses its output; without an error its output is returned unchanged. |
| RecipeEngine.DeleteCore | pkg/recipes/engine/engine.go:137-172 | The same chain as ExecuteCore. A configuration failure is returned unwrapped, and a failure of getDriver or of secret resolution is returned unchanged. When setup reaches secret resolution, the trace begins with LoadConfiguration, LoadRecipe and the secret calls, as for ExecuteCore. The driver's Delete is called exactly once, only when setup reached it, with the base options and OutputResources. Its error is returned as-is. |
| RecipeEngine.ExecuteCoreCallCounts | pkg/recipes/engine/engine.go:75-113 | Counts the collaborator calls by kind. The configuration is loaded once. The recipe is loaded once unless the configuration failed or is simulated. FindSecretIDs is called once exactly when setup reached a capable driver. LoadSecrets is called once exactly when FindSecretIDs also returned a map; otherwise these counts are zero. |
| RecipeEngine.DeleteCoreCallCounts | pkg/recipes/engine/engine.go:137-172 | The same call counts for Delete. |
| RecipeEngine.SecretCallCounts | pkg/recipes/engine/engine.go:229-249 | Secret resolution never loads a configuration or a recipe. FindSecretIDs is called exactly when the driver has the capability. LoadSecrets is called exactly when FindSecretIDs returned a non-nil map. |
| RecipeEngine.NoSecretsWithoutCapability | pkg/recipes/engine/engine.go:229-233 | With a driver lacking the capability, setup reaches the driver with nil secrets. Neither FindSecretIDs nor LoadSecrets is called. |
| RecipeEngine.GetRecipeMetadataCore | pkg/recipes/engine/engine.go:186-211 | Loads the configuration but never the recipe. A configuration error is returned unwrapped. An unknown driver key in the caller's definition gives the plain "could not find driver" error. Once the configuration has loaded and the driver is known, the calls after LoadConfiguration start with exactly those of getRecipeConfigSecrets. A failure there is returned unchanged (the FindSecretIDs error as-is, a LoadSecrets failure as LoadSecretsFailed), with no data and no further call. The driver is called exactly once when it is reached. It receives an empty ResourceMetadata and the caller's definition, and its answer is returned verbatim. |
| RecipeEngine.GetRecipeMetadata | pkg/recipes/engine/engine.go:175-182 | Returns the core's error and drops the data whenever there is one. Otherwise it returns the core's data. |
| RecipeEngine.MetadataIgnoresSimulated | pkg/recipes/engine/engine.go:186-211 | A simulated environment does not stop GetRecipeMetadata from calling its driver. |
| RecipeEngine.ExecuteConfigurationFailureOutcome | pkg/recipes/engine/engine.go:54-81 | Execute records a configuration failure with the outcome RecipeConfigurationFailure and no definition. |
| RecipeEngine.DeleteConfigurationFailureOutcome | pkg/recipes/engine/engine.go:116-142 | Delete returns the configuration error itself. Its recorded outcome is that error's own details code, or the generic failure. |
| RecipeEngine.DriverNotFoundOutcome | pkg/recipes/engine/engine.go:221-225 | For both Execute and Delete, an unknown driver returns a RecipeDriverNotFoundFailure error in the setup category. It is recorded with that code, no definition and no output. |
| RecipeEngine.LoadSecretsFailureOutcome | pkg/recipes/engine/engine.go:241-246 | For both Execute and Delete, a secrets-loader failure stops before the driver and returns a LoadSecretsFailed error in the setup category. It is recorded with that code and no definition. |
| RecipeEngine.SimulatedOutcome | pkg/recipes/engine/engine.go:83-87 | For both Execute and Delete, a simulated environment is recorded as a success with no definition and no output. Only the configuration loader is called. |
| RecipeEngine.MetricsSink.RecordRecipeOperationDuration | pkg/recipes/engine/engine.go:66-68 | Appends exactly the given event. |
| RecipeEngine.Engine.constructor | pkg/recipes/engine/engine.go:34-36 | The engine holds the given collaborators and sink. |
| RecipeEngine.Engine.Execute | pkg/recipes/engine/engine.go:54-71 | Returns the core's output and error. It appends exactly one event: the Execute operation, the recipe name, the core's definition, and an outcome that is success without an error, the details code when the error carries details, and the generic failure otherwise. |
| RecipeEngine.Engine.Delete | pkg/recipes/engine/engine.go:116-133 | Returns the core's error and appends exactly one Delete event with the same outcome rule. |
| ApiUtil.ToProvisioningStateDataModel | pkg/corerp/api/v20220315privatepreview/util.go:17-38 | Always a known state. Each of the six known states maps to the same-named state; nil and unknown values map to Accepted. |
| ApiUtil.FromProvisioningStateDataModel | pkg/corerp/api/v20220315privatepreview/util.go:40-60 | Never nil and always a known state. Known states map to the same name; unknown ones map to Accepted. |
| ApiUtil.ProvisioningStateRoundTrip | pkg/corerp/api/v20220315privatepreview/util.go:17-60 | from(to(s)) == s if and only if s is one of the six known states, and any other versioned state comes back as Accepted. to(from(d)) == d if and only if d is known. |
| ApiUtil.FromIdentityKind | pkg/corerp/api/v20220315privatepreview/util.go:79-86 | The result is non-nil exactly for AzureIdentityWorkload, and it is then AzureComWorkload. |
| ApiUtil.ToIdentityKind | pkg/corerp/api/v20220315privatepreview/util.go:88-99 | The result is AzureIdentityWorkload exactly for AzureComWorkload. Nil and every other kind give IdentityNone. |
| ApiUtil.IdentityKindRoundTrip | pkg/corerp/api/v20220315privatepreview/util.go:79-99 | to(from(k)) == k if and only if k is the workload kind or IdentityNone. Every other kind comes back as IdentityNone. The versioned workload kind survives the opposite round trip. |
| ApiUtil.StringSlice | pkg/corerp/api/v20220315privatepreview/util.go:101-110 | The result is nil if and only if the input is nil or empty. Otherwise it has the same length, and element i is the dereferenced input element i. |
| GatewayConversion.ToTLSMinVersionDataModel | pkg/corerp/api/v20231001preview/gateway_conversion.go:165-178 | Tls12 maps to 1.2 and Tls13 to 1.3. Nil and anything else map to the datamodel default. |
| GatewayConversion.FromTLSMinVersionDataModel | pkg/corerp/api/v20231001preview/gateway_conversion.go:180-192 | The result is never nil. It is Tls13 exactly for 1.3, and Tls12 for every other value. |
| GatewayConversion.TLSMinVersionRoundTrip | pkg/corerp/api/v20231001preview/gateway_conversion.go:165-192 | The versioned round trip keeps a version exactly when it is Tls12 or Tls13. The datamodel round trip keeps a version exactly when it is 1.2 or 1.3. |
| GatewayConversion.TLSToDataModel | pkg/corerp/api/v20231001preview/gateway_conversion.go:28-43 | An absent block stays absent. A nil SSLPassthrough becomes false. CertificateFrom and MinimumProtocolVersion are set only when CertificateFrom is present. |
| GatewayConversion.TLSFromDataModel | pkg/corerp/api/v20231001preview/gateway_conversion.go:108-115 | An absent block stays absent. A present block sets all three pointers from the datamodel values. |
| GatewayConversion.TLSRoundTrip | pkg/corerp/api/v20231001preview/gateway_conversion.go:28-115 | A datamodel TLS block survives the round trip exactly when its version is 1.2 or 1.3. Otherwise the version comes back as 1.2. |
| GatewayConversion.RouteToDataModel | pkg/corerp/api/v20231001preview/gateway_conversion.go:47-61 | Copies every field, reading nil as the zero value (an empty string, or false for EnableWebsockets). The timeout policy is present exactly when the source has one. |
| GatewayConversion.RouteFromDataModel | pkg/corerp/api/v20231001preview/gateway_conversion.go:119-132 | Copies every field into pointers. The timeout policy is present exactly when the source has one. |
| GatewayConversion.RoutesToDataModel | pkg/corerp/api/v20231001preview/gateway_conversion.go:45-63 | Converts the routes one to one, in order. |
| GatewayConversion.RoutesFromDataModel | pkg/corerp/api/v20231001preview/gateway_conversion.go:117-134 | Converts the routes one to one, in order. |
| GatewayConversion.RoutesRoundTrip | pkg/corerp/api/v20231001preview/gateway_conversion.go:45-134 | Datamodel routes survive the round trip unchanged. |
| GatewayConversion.HostnameToDataModel | pkg/corerp/api/v20231001preview/gateway_conversion.go:65-71 | Nil stays nil. A present hostname copies both fields. |
| GatewayConversion.HostnameFromDataModel | pkg/corerp/api/v20231001preview/gateway_conversion.go:136-142 | Nil stays nil. A present hostname copies both fields. |
| GatewayConversion.HostnameRoundTrip | pkg/corerp/api/v20231001preview/gateway_conversion.go:65-142 | A datamodel hostname survives the round trip unchanged. |
| GatewayConversion.GatewayResource.ConvertTo | pkg/corerp/api/v20231001preview/gateway_conversion.go:27-99 | UpdatedAPIVersion is always this package's version. The envelope fields, provisioning state, application and URL are copied. TLS and hostname are converted as above. The routes are a non-nil list: empty for nil routes, otherwise the one-to-one conversion built by the loop. |
| GatewayConversion.GatewayResource.ConvertFrom | pkg/corerp/api/v20231001preview/gateway_conversion.go:102-163 | A non-Gateway input gives ErrInvalidModelConversion and leaves the receiver unchanged. A Gateway sets every modelled field: the envelope, provisioning state, application, URL, TLS and hostname, plus routes as a non-nil list converted one to one. |
| RabbitMQProcessor.NatToStringRoundTrip | pkg/messagingrp/processors/rabbitmqqueues/processor.go:78 | The decimal rendering of a natural number reads back as that number. |
| RabbitMQProcessor.FormatIntRoundTrip | pkg/messagingrp/processors/rabbitmqqueues/processor.go:78 | The port's `%v` rendering is well formed and reads back as the port. |
| RabbitMQProcessor.SchemeIsRecognisable | pkg/messagingrp/processors/rabbitmqqueues/processor.go:70-73 | A URI built on either scheme starts with "amqps://" exactly when TLS is on, and with "amqp://" exactly when it is off. |
| RabbitMQProcessor.ComputeURI | pkg/messagingrp/processors/rabbitmqqueues/processor.go:69-79 | The scheme is amqps if and only if TLS is on, and amqp otherwise. After "://" comes "username:password@" exactly when either is non-empty, then the host. The URI ends with ":" + port + "/" + vhost. |
| RabbitMQProcessor.ComputeSSL | pkg/messagingrp/processors/rabbitmqqueues/processor.go:81-83 | True if and only if the port is 5671. |
| RabbitMQProcessor.ComputedSchemeFollowsPort | pkg/messagingrp/processors/rabbitmqqueues/processor.go:81-83 | With TLS taken from computeSSL, the URI uses amqps exactly for port 5671. |
| RabbitMQProcessor.Delete | pkg/messagingrp/processors/rabbitmqqueues/processor.go:65-67 | Always returns nil. |
| RabbitMQDatamodel.RabbitMQQueue.ApplyDeploymentOutput | pkg/messagingrp/datamodel/rabbitmq.go:38-41 | Returns nil. Afterwards OutputResources() is the deployed output resources. No other part of the record changes. |
| RabbitMQDatamodel.RabbitMQQueue.OutputResources | pkg/messagingrp/datamodel/rabbitmq.go:44-46 | The output resources held in the status. |
| RabbitMQDatamodel.RabbitMQQueue.ResourceMetadata | pkg/messagingrp/datamodel/rabbitmq.go:49-51 | The record's own embedded basic properties, whose status holds OutputResources(). |
| RabbitMQDatamodel.RabbitMQQueue.ResourceTypeName | pkg/messagingrp/datamodel/rabbitmq.go:53-55 | The RabbitMQ queues resource type, the same one every RabbitMQSecrets reports. |
| RabbitMQDatamodel.RabbitMQSecrets.ResourceTypeName | pkg/messagingrp/datamodel/rabbitmq.go:71-73 | The RabbitMQ queues resource type. |
| ResourceUtil.GetPropertiesFromResource | pkg/resourceutil/utils.go:37-60 | Either decoding failure gives its own error, and succeeds if and only if decoding succeeded. A nil properties map gives an empty map; otherwise the decoded map is returned unchanged. |
| ResourceUtil.MergeProperties | pkg/resourceutil/utils.go:102-107 | The copy loop leaves every property with its value. Every metadata entry that no property overrides is kept, and nothing else is added. |
| ResourceUtil.GetMetadataAndPropertiesFromResource | pkg/resourceutil/utils.go:69-110 | Either decoding failure gives its own error. On success, the result is the metadata overlaid with the properties. |
| ResourceUtil.MetadataKeys | pkg/resourceutil/utils.go:90-107 | The merged map always has id, name and type. It has location exactly when the location is non-empty or a property supplies it. Metadata values survive unless a property of that name overrides them. |
| ResourceUtil.GetConnectionNameandSourceIDs | pkg/resourceutil/utils.go:114-145 | A decoding failure is passed on. No `connections` (or null) gives an empty map, and a non-object gives an error. It succeeds if and only if every connection has a string `source` that is a valid resource ID. Then the keys are exactly the connection names and each value is that connection's source. Each error names a connection that has the stated defect. |
| BicepTools.GetValidPlatform | pkg/cli/bicep/tools/download_tools.go:107-113 | A listed os-arch key gives its table entry and no error. Any other gives an empty name and "unsupported platform os/arch". |
| BicepTools.ValidPlatformIffSupported | pkg/cli/bicep/tools/download_tools.go:36-43 | The lookup succeeds if and only if the OS is windows, linux or darwin and the architecture is amd64 or arm64. No other strings joined with a dash can hit the table. |
| BicepTools.GetFilename | pkg/cli/bicep/tools/download_tools.go:172-181 | darwin and linux keep the base name, and windows appends ".exe". Any other OS gives an "unsupported platform" error. |
| BicepTools.FilenameOnValidPlatform | pkg/cli/bicep/tools/download_tools.go:131-140 | Once GetValidPlatform accepted the platform, getFilename cannot fail. The name ends in ".exe" exactly on windows. |

## Left out

Versions and assumptions:
- The datamodel file `pkg/messagingrp/datamodel/rabbitmq.go` is an older revision than the one the processor reads. It has `Queue`, `Recipe`, `Secrets.ConnectionString` and `Mode`, while the processor works from `TLS`, `Host`, `Port`, `VHost`, `Username` and `Secrets.Password`. The datamodel is modelled as written. The processor is modelled over its own `RabbitMQProcessor.QueueConnection` view of the fields it reads.
- Constants defined outside the modelled files are taken by name, and their values are assumptions:
  - the versioned provisioning-state names of both API versions ("Updating", "Deleting", "Accepted", "Succeeded", "Failed", "Canceled");
  - the v1 provisioning states (same names as the versioned ones);
  - the 2022-03-15-privatepreview `IdentitySettingKindAzureComWorkload` ("azure.com.workload");
  - `rp.IdentityNone` ("None") and `rp.AzureIdentityWorkload` ("azure.com.workload");
  - `Version` of the 2023-10-01-preview package ("2023-10-01-preview");
  - the versioned `TLSMinVersion` enum values `TLSMinVersionTls12` ("1.2") and `TLSMinVersionTls13` ("1.3");
  - the datamodel `MinimumTLSProtocolVersion` values for 1.2 and 1.3, and `datamodel.DefaultTLSMinVersion` (1.2);
  - `linkrp.N_RabbitMQQueuesResourceType` ("Applications.Messaging/rabbitMQQueues").
- Recipes.Error: the text of a RecipeError (`Error()`) is assumed to be "code <code>: err <message>", because the recipes package is not part of this model. No proof depends on this format: LoadSecretsMessageNamesCause is stated in terms of the cause's text, whatever it is. The format only fixes two modelled messages, those of ConfigurationError and of the LoadSecretsFailed error, and only when their cause is itself a RecipeError returned by a collaborator.
- RecipeEngine.GetDriver: `GetErrorDetails` of the `fmt.Errorf` error it wraps is taken to be nil, so the driver-not-found error nests no details.

Engine:
- Logging, context and cancellation, and `time.Now` and durations are not modelled. A metrics event keeps the operation, recipe name, definition and outcome, but not the timestamps.
- The configuration loader, secrets loader and drivers are deterministic functions of their arguments. Their internals, and any side effects they have, are outside the model.
- `GetErrorDetails` for a collaborator's error is the details that error was built with. The recipes package is not part of this model.

Processor and datamodel:
- `Process` of the RabbitMQ processor is not modelled, because it delegates to `processors.Validator`, which is not part of this model.
- RabbitMQDatamodel.RabbitMQQueue.ResourceMetadata returns the embedded properties by value. The Go code returns a pointer into the record, so writes through it would change the record; that aliasing is not modelled.

Gateway conversion:
- GatewayConversion.GatewayResource.ConvertTo requires Properties to be present: with nil Properties the Go code dereferences nil and panics. A nil element of Properties.Routes (a `[]*GatewayRoute`, so a request body with `"routes": [null]`) also panics in the route loop. The model's versioned route sequence holds route values and cannot hold a nil element, so ConvertTo's route contract covers only inputs without one.
- ConvertTo also does not model Tags. ConvertFrom does not model Tags, SystemData (`fromSystemDataModel`) or the status output resources (`toOutputResourcesDataModel`), because the conversions they use are not part of this model.

Conversion helpers:
- ApiUtil.StringSlice requires every element to be non-nil, because dereferencing a nil element panics.
- `unmarshalTimeString` and `fromSystemDataModel` in util.go are left out, because they are RFC 3339 time parsing through a library.

resourceutil:
- `json.Marshal` and `json.Unmarshal` are not modelled. The extractors start from the outcome of decoding, and the two failures are abstract.
- JSON numbers are kept as integers, because floating point is not modelled.
- ResourceUtil.GetConnectionNameandSourceIDs:
  - requires every connection value to be a JSON object, because it type-asserts each one without checking and panics otherwise;
  - does not say which bad connection is reported when there are several, since Go visits map entries in an unspecified order;
  - models errors by kind and connection name, not by message text. The invalid-resource-ID message wraps the error from `resources.Parse`; the other three wrap the outer `err`, which is nil at that point;
  - takes `validResourceID` as a parameter standing for `resources.Parse` succeeding.

Bicep CLI:
- The OS and architecture are parameters instead of `runtime.GOOS`/`runtime.GOARCH`.
- `DownloadToFolder`, `GetLocalFilepath` and `getOverridePath` are left out, because they do filesystem work, read environment variables and download over HTTP.
