/** Conversion helpers of the 2022-03-15-privatepreview API
    (pkg/corerp/api/v20220315privatepreview/util.go): provisioning states, identity
    kinds and pointer-slice flattening. Every enum on both sides is a Go string type,
    so a value outside the named constants can occur and is handled by the default
    branch of each switch. */
module ApiUtil {
  import opened Wrappers

  /** The versioned (API) ProvisioningState. */
  datatype ApiProvisioningState = ApiProvisioningState(name: string)

  /** v1.ProvisioningState, the datamodel state. */
  datatype ProvisioningState = ProvisioningState(name: string)

  const API_UPDATING := ApiProvisioningState("Updating")
  const API_DELETING := ApiProvisioningState("Deleting")
  const API_ACCEPTED := ApiProvisioningState("Accepted")
  const API_SUCCEEDED := ApiProvisioningState("Succeeded")
  const API_FAILED := ApiProvisioningState("Failed")
  const API_CANCELED := ApiProvisioningState("Canceled")

  const UPDATING := ProvisioningState("Updating")
  const DELETING := ProvisioningState("Deleting")
  const ACCEPTED := ProvisioningState("Accepted")
  const SUCCEEDED := ProvisioningState("Succeeded")
  const FAILED := ProvisioningState("Failed")
  const CANCELED := ProvisioningState("Canceled")

  /** The six state names both sides define. */
  const KNOWN_STATES: set<string> := {"Updating", "Deleting", "Accepted", "Succeeded", "Failed", "Canceled"}

  /** toProvisioningStateDataModel */
  function ToProvisioningStateDataModel(state: Option<ApiProvisioningState>): (r: ProvisioningState)
    ensures r.name in KNOWN_STATES
    ensures state.Some? && state.value.name in KNOWN_STATES ==> r.name == state.value.name
    ensures state.None? || state.value.name !in KNOWN_STATES ==> r == ACCEPTED
  {
    match state
    case None => ACCEPTED
    case Some(s) =>
      if s == API_UPDATING then UPDATING
      else if s == API_DELETING then DELETING
      else if s == API_ACCEPTED then ACCEPTED
      else if s == API_SUCCEEDED then SUCCEEDED
      else if s == API_FAILED then FAILED
      else if s == API_CANCELED then CANCELED
      else ACCEPTED
  }

  /** fromProvisioningStateDataModel; the Go result is a pointer that is never nil. */
  function FromProvisioningStateDataModel(state: ProvisioningState): (r: ApiProvisioningState)
    ensures r.name in KNOWN_STATES
    ensures state.name in KNOWN_STATES ==> r.name == state.name
    ensures state.name !in KNOWN_STATES ==> r == API_ACCEPTED
  {
    if state == UPDATING then API_UPDATING
    else if state == DELETING then API_DELETING
    else if state == ACCEPTED then API_ACCEPTED
    else if state == SUCCEEDED then API_SUCCEEDED
    else if state == FAILED then API_FAILED
    else if state == CANCELED then API_CANCELED
    else API_ACCEPTED
  }

  /** The two maps are inverse on the six known states, in both directions; a versioned
      state outside them comes back as Accepted. */
  lemma ProvisioningStateRoundTrip(api: ApiProvisioningState, dm: ProvisioningState)
    ensures api.name in KNOWN_STATES <==> FromProvisioningStateDataModel(ToProvisioningStateDataModel(Some(api))) == api
    ensures api.name !in KNOWN_STATES ==> FromProvisioningStateDataModel(ToProvisioningStateDataModel(Some(api))) == API_ACCEPTED
    ensures dm.name in KNOWN_STATES <==> ToProvisioningStateDataModel(Some(FromProvisioningStateDataModel(dm))) == dm
  {
  }

  /** The versioned IdentitySettingKind. */
  datatype ApiIdentityKind = ApiIdentityKind(name: string)

  /** rp.IdentitySettingKind, the datamodel kind. */
  datatype IdentityKind = IdentityKind(name: string)

  const API_AZURE_COM_WORKLOAD := ApiIdentityKind("azure.com.workload")
  const IDENTITY_NONE := IdentityKind("None")
  const AZURE_IDENTITY_WORKLOAD := IdentityKind("azure.com.workload")

  /** fromIdentityKind: only the workload kind has a versioned counterpart. */
  function FromIdentityKind(kind: IdentityKind): (r: Option<ApiIdentityKind>)
    ensures r.Some? <==> kind == AZURE_IDENTITY_WORKLOAD
    ensures r.Some? ==> r.value == API_AZURE_COM_WORKLOAD
  {
    if kind == AZURE_IDENTITY_WORKLOAD then Some(API_AZURE_COM_WORKLOAD) else None
  }

  /** toIdentityKind: nil and every unknown kind become IdentityNone. */
  function ToIdentityKind(kind: Option<ApiIdentityKind>): (r: IdentityKind)
    ensures r == AZURE_IDENTITY_WORKLOAD <==> kind == Some(API_AZURE_COM_WORKLOAD)
    ensures r != AZURE_IDENTITY_WORKLOAD ==> r == IDENTITY_NONE
  {
    match kind
    case None => IDENTITY_NONE
    case Some(k) => if k == API_AZURE_COM_WORKLOAD then AZURE_IDENTITY_WORKLOAD else IDENTITY_NONE
  }

  /** The identity maps are inverse on the workload kind; every other kind is lost on the
      way out and comes back as IdentityNone, so only IdentityNone itself survives too. */
  lemma IdentityKindRoundTrip(kind: IdentityKind)
    ensures kind == AZURE_IDENTITY_WORKLOAD || kind == IDENTITY_NONE <==> ToIdentityKind(FromIdentityKind(kind)) == kind
    ensures kind != AZURE_IDENTITY_WORKLOAD ==> ToIdentityKind(FromIdentityKind(kind)) == IDENTITY_NONE
    ensures FromIdentityKind(ToIdentityKind(Some(API_AZURE_COM_WORKLOAD))) == Some(API_AZURE_COM_WORKLOAD)
  {
  }

  /** stringSlice: dereference every element of a []*string. A nil input and an empty
      one both give nil, since nothing is ever appended to the nil result. A nil element
      would make Go panic, so callers pass none. */
  method StringSlice(s: Option<seq<Option<string>>>) returns (r: Option<seq<string>>)
    requires s.Some? ==> forall i :: 0 <= i < |s.value| ==> s.value[i].Some?
    ensures r.None? <==> s.None? || |s.value| == 0
    ensures r.Some? ==> |r.value| == |s.value| && forall i :: 0 <= i < |r.value| ==> r.value[i] == s.value[i].value
  {
    if s.None? {
      return None;
    }
    var items := s.value;
    r := None;
    for i := 0 to |items|
      invariant r.None? <==> i == 0
      invariant r.Some? ==> |r.value| == i && forall k :: 0 <= k < i ==> r.value[k] == items[k].value
    {
      r := Some(r.GetOr([]) + [items[i].value]);
    }
  }
}
