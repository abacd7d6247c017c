/** The recipe data model the engine works on: the resource that asks for a recipe,
    the environment configuration and recipe definition loaded for it, the resolved
    secrets, the driver's output, and the structured RecipeError. */
module Recipes {
  import opened Wrappers

  /** The resource requesting a recipe (recipes.ResourceMetadata). */
  datatype ResourceMetadata = ResourceMetadata(
    name: string,
    environmentID: string,
    applicationID: string,
    resourceID: string,
    parameters: map<string, string>)

  /** The zero value `recipes.ResourceMetadata{}`. */
  const EMPTY_RESOURCE_METADATA := ResourceMetadata("", "", "", "", map[])

  /** Environment-scoped configuration; the engine itself reads only `simulated`. */
  datatype Configuration = Configuration(simulated: bool, settings: map<string, string>)

  /** The recipe definition declared by the environment (recipes.EnvironmentDefinition). */
  datatype EnvironmentDefinition = EnvironmentDefinition(
    name: string,
    driver: string,
    resourceType: string,
    templatePath: string,
    templateVersion: string,
    parameters: map<string, string>)

  /** What a driver produced; the engine never looks inside it. */
  datatype RecipeOutput = RecipeOutput(
    resources: seq<string>,
    values: map<string, string>,
    secrets: map<string, string>)

  /** One resolved secret store entry. */
  datatype SecretData = SecretData(kind: string, data: map<string, string>)

  /** Secret store resource ID -> the keys needed from it. */
  type SecretKeys = map<string, seq<string>>

  /** Resolved secrets by secret store resource ID; `None` is a nil map. */
  type Secrets = Option<map<string, SecretData>>

  /** A previously deployed resource handed back to a driver for deletion. */
  datatype OutputResource = OutputResource(localID: string, id: string, radiusManaged: bool)

  /** v1.ErrorDetails: a machine-readable code, a message and nested details. */
  datatype ErrorDetails = ErrorDetails(code: string, message: string, details: seq<ErrorDetails>)

  /** The deployment-status category a RecipeError carries. */
  datatype Category = RecipeSetupError | ExecutionError

  const RECIPE_CONFIGURATION_FAILURE := "RecipeConfigurationFailure"
  const RECIPE_DRIVER_NOT_FOUND_FAILURE := "RecipeDriverNotFoundFailure"
  const LOAD_SECRETS_FAILED := "LoadSecretsFailed"

  /** A Go `error`. A collaborator's error is seen by the engine only through its text
      (`err.Error()`) and what `recipes.GetErrorDetails` extracts from it; the errors the
      engine builds itself are RecipeErrors. */
  datatype Error =
    | Opaque(text: string, found: Option<ErrorDetails>)
    | RecipeError(details: ErrorDetails, category: Category)
  {
    /** err.Error() */
    function Text(): string {
      match this
      case Opaque(t, _) => t
      case RecipeError(d, _) => "code " + d.code + ": err " + d.message
    }
  }

  /** recipes.GetErrorDetails: the structured details an error carries, if any. */
  function GetErrorDetails(err: Error): (r: Option<ErrorDetails>)
    ensures err.RecipeError? ==> r == Some(err.details)
    ensures err.Opaque? ==> r == err.found
  {
    match err
    case Opaque(_, found) => found
    case RecipeError(details, _) => Some(details)
  }

  /** recipes.NewRecipeError: a RecipeError with the given code, message and category,
      nesting the details of the error it replaces when there are any. */
  function NewRecipeError(code: string, message: string, category: Category, inner: Option<ErrorDetails>): (r: Error)
    ensures r.RecipeError? && r.category == category
    ensures r.details.code == code && r.details.message == message
    ensures inner.None? <==> r.details.details == []
    ensures inner.Some? ==> r.details.details == [inner.value]
  {
    RecipeError(ErrorDetails(code, message, if inner.Some? then [inner.value] else []), category)
  }
}
