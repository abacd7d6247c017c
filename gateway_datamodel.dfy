/** The version-agnostic Gateway datamodel that the versioned API converts to and from
    (only the parts the conversion touches). */
module GatewayDatamodel {
  import opened Wrappers
  import ApiUtil

  /** datamodel.MinimumTLSProtocolVersion, a string type. */
  datatype MinimumTLSProtocolVersion = MinimumTLSProtocolVersion(name: string)

  const TLS_MIN_VERSION_12 := MinimumTLSProtocolVersion("1.2")
  const TLS_MIN_VERSION_13 := MinimumTLSProtocolVersion("1.3")
  /** The datamodel package's default minimum version, TLS 1.2. */
  const DEFAULT_TLS_MIN_VERSION := TLS_MIN_VERSION_12
  /** The zero value, left in place when no certificate is given. */
  const UNSET_TLS_MIN_VERSION := MinimumTLSProtocolVersion("")

  datatype GatewayPropertiesTLS = GatewayPropertiesTLS(
    sslPassthrough: bool,
    certificateFrom: string,
    minimumProtocolVersion: MinimumTLSProtocolVersion)

  datatype GatewayRouteTimeoutPolicy = GatewayRouteTimeoutPolicy(request: string, backendRequest: string)

  datatype GatewayRoute = GatewayRoute(
    destination: string,
    path: string,
    replacePrefix: string,
    enableWebsockets: bool,
    timeoutPolicy: Option<GatewayRouteTimeoutPolicy>)

  datatype GatewayPropertiesHostname = GatewayPropertiesHostname(fullyQualifiedHostname: string, prefix: string)

  /** datamodel.Gateway; a nil `routes` slice is `None`. */
  datatype Gateway = Gateway(
    id: string,
    name: string,
    resourceType: string,
    location: string,
    updatedAPIVersion: string,
    asyncProvisioningState: ApiUtil.ProvisioningState,
    application: string,
    hostname: Option<GatewayPropertiesHostname>,
    tls: Option<GatewayPropertiesTLS>,
    routes: Option<seq<GatewayRoute>>,
    url: string)

  /** v1.DataModelInterface: a Gateway, or a datamodel of some other resource type. */
  datatype DataModel = GatewayModel(gateway: Gateway) | OtherModel(resourceType: string)
}
