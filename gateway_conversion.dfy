/** Gateway conversion of the 2023-10-01-preview API
    (pkg/corerp/api/v20231001preview/gateway_conversion.go). Versioned fields are
    pointers, modelled as Options; the `to.String`/`to.Bool` helpers read a nil pointer
    as "" and false. */
module GatewayConversion {
  import opened Wrappers
  import ApiUtil
  import DM = GatewayDatamodel

  /** This package's API version, stamped on every datamodel it produces. */
  const VERSION := "2023-10-01-preview"

  /** The versioned TLSMinVersion, a string type. */
  datatype TLSMinVersion = TLSMinVersion(name: string)

  const TLS_MIN_VERSION_TLS12 := TLSMinVersion("1.2")
  const TLS_MIN_VERSION_TLS13 := TLSMinVersion("1.3")

  datatype GatewayTLS = GatewayTLS(
    certificateFrom: Option<string>,
    minimumProtocolVersion: Option<TLSMinVersion>,
    sslPassthrough: Option<bool>)

  datatype GatewayRouteTimeoutPolicy = GatewayRouteTimeoutPolicy(request: Option<string>, backendRequest: Option<string>)

  datatype GatewayRoute = GatewayRoute(
    destination: Option<string>,
    path: Option<string>,
    replacePrefix: Option<string>,
    enableWebsockets: Option<bool>,
    timeoutPolicy: Option<GatewayRouteTimeoutPolicy>)

  datatype GatewayHostname = GatewayHostname(fullyQualifiedHostname: Option<string>, prefix: Option<string>)

  datatype GatewayProperties = GatewayProperties(
    application: Option<string>,
    hostname: Option<GatewayHostname>,
    tls: Option<GatewayTLS>,
    routes: Option<seq<GatewayRoute>>,
    url: Option<string>,
    provisioningState: Option<ApiUtil.ApiProvisioningState>)

  datatype ConversionError = ErrInvalidModelConversion

  /** to.String */
  function Str(p: Option<string>): string { p.GetOr("") }

  /** to.Bool */
  function Flag(p: Option<bool>): bool { p.GetOr(false) }

  /** toTLSMinVersionDataModel: nil and unknown versions give the default. */
  function ToTLSMinVersionDataModel(v: Option<TLSMinVersion>): (r: DM.MinimumTLSProtocolVersion)
    ensures v == Some(TLS_MIN_VERSION_TLS12) ==> r == DM.TLS_MIN_VERSION_12
    ensures v == Some(TLS_MIN_VERSION_TLS13) ==> r == DM.TLS_MIN_VERSION_13
    ensures v != Some(TLS_MIN_VERSION_TLS12) && v != Some(TLS_MIN_VERSION_TLS13) ==> r == DM.DEFAULT_TLS_MIN_VERSION
  {
    match v
    case None => DM.DEFAULT_TLS_MIN_VERSION
    case Some(t) =>
      if t == TLS_MIN_VERSION_TLS12 then DM.TLS_MIN_VERSION_12
      else if t == TLS_MIN_VERSION_TLS13 then DM.TLS_MIN_VERSION_13
      else DM.DEFAULT_TLS_MIN_VERSION
  }

  /** fromTLSMinVersionDataModel: never nil; anything but 1.3 becomes Tls12. */
  function FromTLSMinVersionDataModel(v: DM.MinimumTLSProtocolVersion): (r: TLSMinVersion)
    ensures v == DM.TLS_MIN_VERSION_13 <==> r == TLS_MIN_VERSION_TLS13
    ensures v != DM.TLS_MIN_VERSION_13 ==> r == TLS_MIN_VERSION_TLS12
  {
    if v == DM.TLS_MIN_VERSION_12 then TLS_MIN_VERSION_TLS12
    else if v == DM.TLS_MIN_VERSION_13 then TLS_MIN_VERSION_TLS13
    else TLS_MIN_VERSION_TLS12
  }

  /** The version maps are inverse exactly on TLS 1.2 and 1.3, both ways round. */
  lemma TLSMinVersionRoundTrip(v: TLSMinVersion, m: DM.MinimumTLSProtocolVersion)
    ensures FromTLSMinVersionDataModel(ToTLSMinVersionDataModel(Some(v))) == v <==>
              v == TLS_MIN_VERSION_TLS12 || v == TLS_MIN_VERSION_TLS13
    ensures ToTLSMinVersionDataModel(Some(FromTLSMinVersionDataModel(m))) == m <==>
              m == DM.TLS_MIN_VERSION_12 || m == DM.TLS_MIN_VERSION_13
  {
  }

  /** The TLS block of ConvertTo. */
  function TLSToDataModel(tls: Option<GatewayTLS>): (r: Option<DM.GatewayPropertiesTLS>)
    ensures tls.None? <==> r.None?
    ensures tls.Some? ==> r.value.sslPassthrough == Flag(tls.value.sslPassthrough)
    ensures tls.Some? && tls.value.certificateFrom.Some? ==>
      && r.value.certificateFrom == tls.value.certificateFrom.value
      && r.value.minimumProtocolVersion == ToTLSMinVersionDataModel(tls.value.minimumProtocolVersion)
    ensures tls.Some? && tls.value.certificateFrom.None? ==>
      r.value.certificateFrom == "" && r.value.minimumProtocolVersion == DM.UNSET_TLS_MIN_VERSION
  {
    match tls
    case None => None
    case Some(t) =>
      var passthrough := if t.sslPassthrough.Some? then t.sslPassthrough.value else false;
      if t.certificateFrom.Some? then
        Some(DM.GatewayPropertiesTLS(passthrough, t.certificateFrom.value, ToTLSMinVersionDataModel(t.minimumProtocolVersion)))
      else
        Some(DM.GatewayPropertiesTLS(passthrough, "", DM.UNSET_TLS_MIN_VERSION))
  }

  /** The TLS block of ConvertFrom: every field becomes a non-nil pointer. */
  function TLSFromDataModel(tls: Option<DM.GatewayPropertiesTLS>): (r: Option<GatewayTLS>)
    ensures tls.None? <==> r.None?
    ensures tls.Some? ==>
      && r.value.certificateFrom == Some(tls.value.certificateFrom)
      && r.value.sslPassthrough == Some(tls.value.sslPassthrough)
      && r.value.minimumProtocolVersion == Some(FromTLSMinVersionDataModel(tls.value.minimumProtocolVersion))
  {
    match tls
    case None => None
    case Some(t) => Some(GatewayTLS(Some(t.certificateFrom), Some(FromTLSMinVersionDataModel(t.minimumProtocolVersion)), Some(t.sslPassthrough)))
  }

  /** A datamodel TLS block survives ConvertFrom then ConvertTo exactly when its minimum
      version is 1.2 or 1.3; any other version comes back as 1.2. */
  lemma TLSRoundTrip(tls: DM.GatewayPropertiesTLS)
    ensures TLSToDataModel(TLSFromDataModel(Some(tls))) == Some(tls) <==>
      tls.minimumProtocolVersion == DM.TLS_MIN_VERSION_12 || tls.minimumProtocolVersion == DM.TLS_MIN_VERSION_13
    ensures TLSToDataModel(TLSFromDataModel(Some(tls))) == Some(tls.(minimumProtocolVersion :=
      if tls.minimumProtocolVersion == DM.TLS_MIN_VERSION_13 then DM.TLS_MIN_VERSION_13 else DM.TLS_MIN_VERSION_12))
  {
  }

  /** One route of ConvertTo. */
  function RouteToDataModel(r: GatewayRoute): (s: DM.GatewayRoute)
    ensures s.timeoutPolicy.Some? <==> r.timeoutPolicy.Some?
    ensures s.destination == Str(r.destination) && s.path == Str(r.path)
    ensures s.replacePrefix == Str(r.replacePrefix) && s.enableWebsockets == Flag(r.enableWebsockets)
    ensures r.timeoutPolicy.Some? ==>
      s.timeoutPolicy.value == DM.GatewayRouteTimeoutPolicy(Str(r.timeoutPolicy.value.request), Str(r.timeoutPolicy.value.backendRequest))
  {
    DM.GatewayRoute(Str(r.destination), Str(r.path), Str(r.replacePrefix), Flag(r.enableWebsockets),
      match r.timeoutPolicy
      case None => None
      case Some(p) => Some(DM.GatewayRouteTimeoutPolicy(Str(p.request), Str(p.backendRequest))))
  }

  /** One route of ConvertFrom. */
  function RouteFromDataModel(r: DM.GatewayRoute): (s: GatewayRoute)
    ensures s.timeoutPolicy.Some? <==> r.timeoutPolicy.Some?
    ensures s.destination == Some(r.destination) && s.path == Some(r.path)
    ensures s.replacePrefix == Some(r.replacePrefix) && s.enableWebsockets == Some(r.enableWebsockets)
    ensures r.timeoutPolicy.Some? ==>
      s.timeoutPolicy.value == GatewayRouteTimeoutPolicy(Some(r.timeoutPolicy.value.request), Some(r.timeoutPolicy.value.backendRequest))
  {
    GatewayRoute(Some(r.destination), Some(r.path), Some(r.replacePrefix), Some(r.enableWebsockets),
      match r.timeoutPolicy
      case None => None
      case Some(p) => Some(GatewayRouteTimeoutPolicy(Some(p.request), Some(p.backendRequest))))
  }

  /** Routes of ConvertTo, one for one and in order. */
  function RoutesToDataModel(routes: seq<GatewayRoute>): (r: seq<DM.GatewayRoute>)
    ensures |r| == |routes|
    ensures forall k :: 0 <= k < |r| ==> r[k] == RouteToDataModel(routes[k])
  {
    if routes == [] then []
    else RoutesToDataModel(routes[..|routes| - 1]) + [RouteToDataModel(routes[|routes| - 1])]
  }

  /** Routes of ConvertFrom, one for one and in order. */
  function RoutesFromDataModel(routes: seq<DM.GatewayRoute>): (r: seq<GatewayRoute>)
    ensures |r| == |routes|
    ensures forall k :: 0 <= k < |r| ==> r[k] == RouteFromDataModel(routes[k])
  {
    if routes == [] then []
    else RoutesFromDataModel(routes[..|routes| - 1]) + [RouteFromDataModel(routes[|routes| - 1])]
  }

  /** Datamodel routes survive ConvertFrom then ConvertTo unchanged. */
  lemma {:induction false} RoutesRoundTrip(routes: seq<DM.GatewayRoute>)
    ensures RoutesToDataModel(RoutesFromDataModel(routes)) == routes
  {
    if routes != [] {
      var n := |routes| - 1;
      RoutesRoundTrip(routes[..n]);
      assert RoutesFromDataModel(routes)[..n] == RoutesFromDataModel(routes[..n]);
      var r := RouteFromDataModel(routes[n]);
      assert RouteToDataModel(r) == routes[n];
    }
  }

  function HostnameToDataModel(h: Option<GatewayHostname>): (r: Option<DM.GatewayPropertiesHostname>)
    ensures h.None? <==> r.None?
    ensures h.Some? ==> r.value == DM.GatewayPropertiesHostname(Str(h.value.fullyQualifiedHostname), Str(h.value.prefix))
  {
    match h
    case None => None
    case Some(v) => Some(DM.GatewayPropertiesHostname(Str(v.fullyQualifiedHostname), Str(v.prefix)))
  }

  function HostnameFromDataModel(h: Option<DM.GatewayPropertiesHostname>): (r: Option<GatewayHostname>)
    ensures h.None? <==> r.None?
    ensures h.Some? ==> r.value == GatewayHostname(Some(h.value.fullyQualifiedHostname), Some(h.value.prefix))
  {
    match h
    case None => None
    case Some(v) => Some(GatewayHostname(Some(v.fullyQualifiedHostname), Some(v.prefix)))
  }

  /** A datamodel hostname (present or not) survives ConvertFrom then ConvertTo. */
  lemma HostnameRoundTrip(h: Option<DM.GatewayPropertiesHostname>)
    ensures HostnameToDataModel(HostnameFromDataModel(h)) == h
  {
  }

  /** The versioned Gateway resource; ConvertFrom overwrites its fields in place. */
  class GatewayResource {
    var id: Option<string>
    var name: Option<string>
    var resourceType: Option<string>
    var location: Option<string>
    var properties: Option<GatewayProperties>

    constructor (id: Option<string>, name: Option<string>, resourceType: Option<string>,
                 location: Option<string>, properties: Option<GatewayProperties>)
      ensures this.id == id && this.name == name && this.resourceType == resourceType
      ensures this.location == location && this.properties == properties
    {
      this.id, this.name, this.resourceType := id, name, resourceType;
      this.location, this.properties := location, properties;
    }

    /** ConvertTo: the error it returns is always nil; a nil Properties would panic. */
    method ConvertTo() returns (g: DM.Gateway)
      requires properties.Some?
      ensures g.updatedAPIVersion == VERSION
      ensures g.id == Str(id) && g.name == Str(name) && g.resourceType == Str(resourceType) && g.location == Str(location)
      ensures g.asyncProvisioningState == ApiUtil.ToProvisioningStateDataModel(properties.value.provisioningState)
      ensures g.application == Str(properties.value.application) && g.url == Str(properties.value.url)
      ensures g.tls == TLSToDataModel(properties.value.tls)
      ensures g.hostname == HostnameToDataModel(properties.value.hostname)
      ensures g.routes.Some?
      ensures properties.value.routes.None? ==> g.routes == Some([])
      ensures properties.value.routes.Some? ==> g.routes == Some(RoutesToDataModel(properties.value.routes.value))
    {
      var src := properties.value;
      var tls: Option<DM.GatewayPropertiesTLS> := None;
      if src.tls.Some? {
        var t := DM.GatewayPropertiesTLS(false, "", DM.UNSET_TLS_MIN_VERSION);
        if src.tls.value.sslPassthrough.Some? {
          t := t.(sslPassthrough := src.tls.value.sslPassthrough.value);
        } else {
          t := t.(sslPassthrough := false);
        }
        if src.tls.value.certificateFrom.Some? {
          t := t.(certificateFrom := src.tls.value.certificateFrom.value,
                  minimumProtocolVersion := ToTLSMinVersionDataModel(src.tls.value.minimumProtocolVersion));
        }
        tls := Some(t);
      }

      var routes: seq<DM.GatewayRoute> := [];
      if src.routes.Some? {
        var items := src.routes.value;
        for i := 0 to |items|
          invariant routes == RoutesToDataModel(items[..i])
        {
          var r := items[i];
          var s := DM.GatewayRoute(Str(r.destination), Str(r.path), Str(r.replacePrefix), Flag(r.enableWebsockets), None);
          if r.timeoutPolicy.Some? {
            s := s.(timeoutPolicy := Some(DM.GatewayRouteTimeoutPolicy(Str(r.timeoutPolicy.value.request),
                                                                         Str(r.timeoutPolicy.value.backendRequest))));
          }
          assert items[..i + 1][..i] == items[..i];
          routes := routes + [s];
        }
        assert items[..|items|] == items;
      }

      var hostname: Option<DM.GatewayPropertiesHostname> := None;
      if src.hostname.Some? {
        hostname := Some(DM.GatewayPropertiesHostname(Str(src.hostname.value.fullyQualifiedHostname), Str(src.hostname.value.prefix)));
      }

      g := DM.Gateway(Str(id), Str(name), Str(resourceType), Str(location), VERSION,
                      ApiUtil.ToProvisioningStateDataModel(src.provisioningState),
                      Str(src.application), hostname, tls, Some(routes), Str(src.url));
    }

    /** ConvertFrom: a non-Gateway datamodel is refused and leaves the receiver as it was;
        a Gateway overwrites every modelled field. */
    method ConvertFrom(src: DM.DataModel) returns (err: Option<ConversionError>)
      modifies this
      ensures src.OtherModel? ==> err == Some(ErrInvalidModelConversion) && unchanged(this)
      ensures src.GatewayModel? ==>
        var g := src.gateway;
        && err.None?
        && id == Some(g.id) && name == Some(g.name) && resourceType == Some(g.resourceType) && location == Some(g.location)
        && properties.Some?
        && properties.value.provisioningState == Some(ApiUtil.FromProvisioningStateDataModel(g.asyncProvisioningState))
        && properties.value.application == Some(g.application) && properties.value.url == Some(g.url)
        && properties.value.tls == TLSFromDataModel(g.tls)
        && properties.value.hostname == HostnameFromDataModel(g.hostname)
        && properties.value.routes == Some(if g.routes.None? then [] else RoutesFromDataModel(g.routes.value))
    {
      if !src.GatewayModel? {
        return Some(ErrInvalidModelConversion);
      }
      var g := src.gateway;

      var tls: Option<GatewayTLS> := None;
      if g.tls.Some? {
        tls := Some(GatewayTLS(Some(g.tls.value.certificateFrom),
                               Some(FromTLSMinVersionDataModel(g.tls.value.minimumProtocolVersion)),
                               Some(g.tls.value.sslPassthrough)));
      }

      var routes: seq<GatewayRoute> := [];
      if g.routes.Some? {
        var items := g.routes.value;
        for i := 0 to |items|
          invariant routes == RoutesFromDataModel(items[..i])
        {
          var r := items[i];
          var s := GatewayRoute(Some(r.destination), Some(r.path), Some(r.replacePrefix), Some(r.enableWebsockets), None);
          if r.timeoutPolicy.Some? {
            s := s.(timeoutPolicy := Some(GatewayRouteTimeoutPolicy(Some(r.timeoutPolicy.value.request),
                                                                    Some(r.timeoutPolicy.value.backendRequest))));
          }
          assert items[..i + 1][..i] == items[..i];
          routes := routes + [s];
        }
        assert items[..|items|] == items;
      }

      var hostname: Option<GatewayHostname> := None;
      if g.hostname.Some? {
        hostname := Some(GatewayHostname(Some(g.hostname.value.fullyQualifiedHostname), Some(g.hostname.value.prefix)));
      }

      id := Some(g.id);
      name := Some(g.name);
      resourceType := Some(g.resourceType);
      location := Some(g.location);
      properties := Some(GatewayProperties(Some(g.application), hostname, tls, Some(routes), Some(g.url),
                                           Some(ApiUtil.FromProvisioningStateDataModel(g.asyncProvisioningState))));
      return None;
    }
  }
}
