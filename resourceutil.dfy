/** Property extraction from a resource after its JSON round trip
    (pkg/resourceutil/utils.go). Serialising the resource and decoding the partial view
    are foreign; the model starts from the outcome of that decoding. */
module ResourceUtil {
  import opened Wrappers
  import opened Values

  /** The partial view both extractors decode a resource into. `properties` is `None`
      when the JSON has no `properties` member or has `null` there. */
  datatype PartialResource = PartialResource(
    id: string,
    name: string,
    resourceType: string,
    location: string,
    properties: Option<map<string, Value>>)

  /** The outcome of json.Marshal followed by json.Unmarshal into the partial view. */
  datatype Decoding =
    | MarshalFailed
    | UnmarshalFailed
    | Decoded(resource: PartialResource)

  /** The errors the extractors return, one per distinct message. */
  datatype ResourceError =
    | MarshalResourceError
    | UnmarshalPropertiesError
    | UnmarshalMetadataAndPropertiesError
    | ConnectionsNotAMap
    | SourceNotFound(connection: string)
    | SourceNotAString(connection: string)
    | InvalidResourceID(connection: string)

  const CONNECTIONS := "connections"
  const SOURCE := "source"

  /** GetPropertiesFromResource: the decoded `properties` map, or an empty map when it
      was absent or null. */
  function GetPropertiesFromResource(d: Decoding): (r: Result<map<string, Value>, ResourceError>)
    ensures d.MarshalFailed? <==> r == Failure(MarshalResourceError)
    ensures d.UnmarshalFailed? <==> r == Failure(UnmarshalPropertiesError)
    ensures d.Decoded? <==> r.Success?
    ensures d.Decoded? && d.resource.properties.None? ==> r.value == map[]
    ensures d.Decoded? && d.resource.properties.Some? ==> r.value == d.resource.properties.value
  {
    match d
    case MarshalFailed => Failure(MarshalResourceError)
    case UnmarshalFailed => Failure(UnmarshalPropertiesError)
    case Decoded(p) => Success(p.properties.GetOr(map[]))
  }

  /** The metadata entries the merged map starts from: id, name, type, and location
      when it is non-empty. */
  function Metadata(p: PartialResource): map<string, Value> {
    var m := map["id" := String(p.id), "name" := String(p.name), "type" := String(p.resourceType)];
    if p.location != "" then m["location" := String(p.location)] else m
  }

  /** `merged` holds every entry of `props`, and every entry of `meta` whose key
      `props` does not have. */
  predicate Overlays(merged: map<string, Value>, meta: map<string, Value>, props: map<string, Value>) {
    && merged.Keys == meta.Keys + props.Keys
    && (forall k :: k in props ==> merged[k] == props[k])
    && (forall k :: k in meta && k !in props ==> merged[k] == meta[k])
  }

  /** The copy loop: every property written over the metadata map, one key at a time. */
  method MergeProperties(meta: map<string, Value>, props: map<string, Value>) returns (result: map<string, Value>)
    ensures Overlays(result, meta, props)
  {
    result := meta;
    var remaining := props.Keys;
    while remaining != {}
      invariant remaining <= props.Keys
      invariant Overlays(result, meta, props - remaining)
      decreases |remaining|
    {
      var key :| key in remaining;
      result := result[key := props[key]];
      remaining := remaining - {key};
    }
    assert props - {} == props;
  }

  /** GetMetadataAndPropertiesFromResource: the metadata map with every property copied
      over it, so that a property named like a metadata key wins. */
  method GetMetadataAndPropertiesFromResource(d: Decoding) returns (r: Result<map<string, Value>, ResourceError>)
    ensures d.MarshalFailed? <==> r == Failure(MarshalResourceError)
    ensures d.UnmarshalFailed? <==> r == Failure(UnmarshalMetadataAndPropertiesError)
    ensures d.Decoded? <==> r.Success?
    ensures r.Success? ==> Overlays(r.value, Metadata(d.resource), d.resource.properties.GetOr(map[]))
  {
    match d
    case MarshalFailed => return Failure(MarshalResourceError);
    case UnmarshalFailed => return Failure(UnmarshalMetadataAndPropertiesError);
    case Decoded(p) =>
      var result := Metadata(p);
      if p.properties.Some? {
        result := MergeProperties(result, p.properties.value);
      } else {
        assert Overlays(result, result, map[]);
      }
      return Success(result);
  }

  /** The merged map always has id, name and type, has location exactly when the
      location is non-empty or a property supplies it, and lets properties override. */
  lemma MetadataKeys(p: PartialResource, merged: map<string, Value>)
    requires Overlays(merged, Metadata(p), p.properties.GetOr(map[]))
    ensures {"id", "name", "type"} <= merged.Keys
    ensures "location" in merged <==> p.location != "" || "location" in p.properties.GetOr(map[])
    ensures "id" !in p.properties.GetOr(map[]) ==> merged["id"] == String(p.id)
    ensures "location" !in p.properties.GetOr(map[]) && p.location != "" ==> merged["location"] == String(p.location)
  {
  }

  /** The decoded `connections` property, when it is there and not null. */
  function Connections(props: map<string, Value>): Option<Value> {
    if CONNECTIONS in props && !props[CONNECTIONS].Null? then Some(props[CONNECTIONS]) else None
  }

  /** Whether one connection names a valid source resource ID. */
  predicate ValidConnection(c: Value, validResourceID: string -> bool) {
    c.Object? && SOURCE in c.fields && c.fields[SOURCE].String? && validResourceID(c.fields[SOURCE].s)
  }

  /** The source treats every connection as a JSON object without checking; any other
      connection value makes it panic, so callers must not pass one. */
  predicate ConnectionsAreObjects(d: Decoding) {
    d.Decoded? ==>
      var props := d.resource.properties.GetOr(map[]);
      Connections(props).Some? && Connections(props).value.Object? ==>
        forall name :: name in Connections(props).value.fields ==> Connections(props).value.fields[name].Object?
  }

  /** GetConnectionNameandSourceIDs: connection name -> source resource ID, for a resource
      whose connections all name valid source IDs. `validResourceID` stands for
      resources.Parse succeeding. The connections are visited in an unspecified order and
      the first bad one is reported. */
  method GetConnectionNameandSourceIDs(d: Decoding, validResourceID: string -> bool)
    returns (r: Result<map<string, string>, ResourceError>)
    requires ConnectionsAreObjects(d)
    ensures !d.Decoded? ==> r == Failure(GetPropertiesFromResource(d).error)
    ensures d.Decoded? ==>
      var conns := Connections(GetPropertiesFromResource(d).value);
      && (conns.None? ==> r == Success(map[]))
      && (conns.Some? && !conns.value.Object? ==> r == Failure(ConnectionsNotAMap))
      && (conns.Some? && conns.value.Object? ==>
            var cs := conns.value.fields;
            && (r.Success? <==> forall name :: name in cs ==> ValidConnection(cs[name], validResourceID))
            && (r.Success? ==> r.value.Keys == cs.Keys)
            && (r.Success? ==> forall name :: name in cs ==> r.value[name] == cs[name].fields[SOURCE].s)
            && (r.Failure? && r.error.SourceNotFound? ==>
                  r.error.connection in cs && SOURCE !in cs[r.error.connection].fields)
            && (r.Failure? && r.error.SourceNotAString? ==>
                  r.error.connection in cs && SOURCE in cs[r.error.connection].fields &&
                  !cs[r.error.connection].fields[SOURCE].String?)
            && (r.Failure? && r.error.InvalidResourceID? ==>
                  r.error.connection in cs && SOURCE in cs[r.error.connection].fields &&
                  cs[r.error.connection].fields[SOURCE].String? &&
                  !validResourceID(cs[r.error.connection].fields[SOURCE].s))
            && (r.Failure? ==> r.error.SourceNotFound? || r.error.SourceNotAString? || r.error.InvalidResourceID?))
  {
    var ids: map<string, string> := map[];
    var properties := GetPropertiesFromResource(d);
    if properties.Failure? {
      return Failure(properties.error);
    }
    var conns := Connections(properties.value);
    if conns.Some? {
      if !conns.value.Object? {
        return Failure(ConnectionsNotAMap);
      }
      var cs := conns.value.fields;
      var remaining := cs.Keys;
      while remaining != {}
        invariant remaining <= cs.Keys
        invariant ids.Keys == cs.Keys - remaining
        invariant forall name :: name in ids ==> ValidConnection(cs[name], validResourceID)
        invariant forall name :: name in ids ==> ids[name] == cs[name].fields[SOURCE].s
        decreases |remaining|
      {
        var name :| name in remaining;
        var connection := cs[name];
        if SOURCE !in connection.fields {
          return Failure(SourceNotFound(name));
        }
        var source := connection.fields[SOURCE];
        if !source.String? {
          return Failure(SourceNotAString(name));
        }
        if !validResourceID(source.s) {
          return Failure(InvalidResourceID(name));
        }
        ids := ids[name := source.s];
        remaining := remaining - {name};
      }
    }
    return Success(ids);
  }
}
