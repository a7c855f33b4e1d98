/** TelephonyManagerCallback: each telephony event copies the last published
    record, replaces the fields the event describes, republishes it and
    refreshes the shared "last updated" stamp. */
module TelephonyCallback {
  import opened Wrappers
  import opened Platform
  import opened Records

  /** The fields a service-state event may touch. */
  const ServiceStateFields: set<NetworkField> :=
    {ServiceStateField, IsRoamingField, OperatorField, OperatorNameField, CountryIsoField}

  /** onServiceStateChanged on the record: store the new service state and its
      roaming flag; an out-of-service radio additionally forgets the operator
      identity and roaming. */
  function ApplyServiceState(prev: MobileNetworkDetails, state: ServiceState): (r: MobileNetworkDetails)
    ensures r.serviceState == Some(state)
    ensures state.state == StateOutOfService ==>
      r.operator == "" && r.operatorName == "" && r.countryIso == "" && !r.isRoaming
    ensures state.state != StateOutOfService ==>
      r.isRoaming == state.roaming && r.operator == prev.operator
      && r.operatorName == prev.operatorName && r.countryIso == prev.countryIso
    ensures NetworkSameExcept(prev, r, ServiceStateFields)
  {
    var updated := prev.(serviceState := Some(state), isRoaming := state.roaming);
    if state.state == StateOutOfService then
      updated.(operator := "", operatorName := "", countryIso := "", isRoaming := false)
    else
      updated
  }

  /** onDataConnectionStateChanged on the record. */
  function ApplyDataConnectionState(prev: MobileNetworkDetails, dataState: int, netType: int): (r: MobileNetworkDetails)
    ensures r.dataState == dataState && r.dataNetworkType == netType
    ensures NetworkSameExcept(prev, r, {DataNetworkTypeField, DataStateField})
  {
    prev.(dataNetworkType := netType, dataState := dataState)
  }

  /** onUserMobileDataStateChanged on the phone record. */
  function ApplyUserMobileDataState(prev: PhoneDetails, dataEnabled: bool): (r: PhoneDetails)
    ensures r.isDataEnabled == dataEnabled
    ensures PhoneSameExcept(prev, r, {IsDataEnabledField})
  {
    prev.(isDataEnabled := dataEnabled)
  }

  // ------------------------------------------------------------------
  // The published values the callback reads and writes

  /** The callback's view of the store: the shared stamp (an abstract counter
      standing for LocalDateTime.now()) and the two records it updates. */
  datatype TelephonyStore = TelephonyStore(
    lastUpdated: nat,
    networkState: Option<MobileNetworkDetails>,
    phoneState: Option<PhoneDetails>)

  datatype TelephonyEvent =
    | ServiceStateChanged(state: ServiceState)
    | DataConnectionStateChanged(dataState: int, netType: int)
    | UserMobileDataStateChanged(dataEnabled: bool)

  /** Whether the record an event reads has been published; the source
      dereferences it with `!!`. */
  predicate Ready(s: TelephonyStore, e: TelephonyEvent) {
    if e.UserMobileDataStateChanged? then s.phoneState.Some? else s.networkState.Some?
  }

  /** One callback invocation: apply the delta, publish, advance the stamp. */
  function Handle(s: TelephonyStore, e: TelephonyEvent): (r: TelephonyStore)
    requires Ready(s, e)
    ensures r.lastUpdated == s.lastUpdated + 1
    ensures r.networkState.Some? == s.networkState.Some? && r.phoneState.Some? == s.phoneState.Some?
    ensures e.UserMobileDataStateChanged? ==>
      r.networkState == s.networkState
      && r.phoneState == Some(ApplyUserMobileDataState(s.phoneState.value, e.dataEnabled))
    ensures !e.UserMobileDataStateChanged? ==> r.phoneState == s.phoneState
    ensures e.ServiceStateChanged? ==>
      r.networkState == Some(ApplyServiceState(s.networkState.value, e.state))
    ensures e.DataConnectionStateChanged? ==>
      r.networkState == Some(ApplyDataConnectionState(s.networkState.value, e.dataState, e.netType))
  {
    var stamped := s.(lastUpdated := s.lastUpdated + 1);
    match e
    case ServiceStateChanged(state) =>
      stamped.(networkState := Some(ApplyServiceState(s.networkState.value, state)))
    case DataConnectionStateChanged(dataState, netType) =>
      stamped.(networkState := Some(ApplyDataConnectionState(s.networkState.value, dataState, netType)))
    case UserMobileDataStateChanged(enabled) =>
      stamped.(phoneState := Some(ApplyUserMobileDataState(s.phoneState.value, enabled)))
  }

  /** Both records have been published (the state after the initial snapshot). */
  predicate Initialised(s: TelephonyStore) {
    s.networkState.Some? && s.phoneState.Some?
  }

  /** Delivering a sequence of events one after another. */
  function Replay(s: TelephonyStore, events: seq<TelephonyEvent>): (r: TelephonyStore)
    requires Initialised(s)
    ensures Initialised(r)
    decreases |events|
  {
    if |events| == 0 then s else Replay(Handle(s, events[0]), events[1..])
  }

  // ------------------------------------------------------------------
  // Properties

  /** The result of an out-of-service event does not depend on the operator
      identity or roaming flag the previous record held. */
  lemma OutOfServiceForgetsIdentity(a: MobileNetworkDetails, b: MobileNetworkDetails, state: ServiceState)
    requires state.state == StateOutOfService
    requires NetworkSameExcept(a, b, {OperatorField, OperatorNameField, CountryIsoField, IsRoamingField})
    ensures ApplyServiceState(a, state) == ApplyServiceState(b, state)
  {
    var ra, rb := ApplyServiceState(a, state), ApplyServiceState(b, state);
    forall f: NetworkField
      ensures NetworkAgreeOn(ra, rb, f)
    {
      if f !in ServiceStateFields {
        assert NetworkAgreeOn(a, ra, f) && NetworkAgreeOn(b, rb, f) && NetworkAgreeOn(a, b, f);
      }
    }
    NetworkSameExceptNothing(ra, rb);
  }

  /** Receiving the same service state twice changes nothing the second time. */
  lemma ServiceStateIdempotent(prev: MobileNetworkDetails, state: ServiceState)
    ensures ApplyServiceState(ApplyServiceState(prev, state), state) == ApplyServiceState(prev, state)
  {
  }

  /** Receiving the same data-connection event twice changes nothing the second time. */
  lemma DataConnectionIdempotent(prev: MobileNetworkDetails, dataState: int, netType: int)
    ensures ApplyDataConnectionState(ApplyDataConnectionState(prev, dataState, netType), dataState, netType)
         == ApplyDataConnectionState(prev, dataState, netType)
  {
  }

  /** Service-state and data-connection events touch disjoint fields, so when
      delivered one after the other their order does not matter. */
  lemma ServiceAndDataConnectionCommute(prev: MobileNetworkDetails, state: ServiceState, dataState: int, netType: int)
    ensures ApplyDataConnectionState(ApplyServiceState(prev, state), dataState, netType)
         == ApplyServiceState(ApplyDataConnectionState(prev, dataState, netType), state)
  {
  }

  /** Every delivered event advances the stamp by one. */
  lemma {:induction false} ReplayAdvancesStamp(s: TelephonyStore, events: seq<TelephonyEvent>)
    requires Initialised(s)
    ensures Replay(s, events).lastUpdated == s.lastUpdated + |events|
    decreases |events|
  {
    if |events| > 0 {
      ReplayAdvancesStamp(Handle(s, events[0]), events[1..]);
    }
  }

  /** Only user-mobile-data events touch the phone record. */
  lemma {:induction false} PhoneOnlyChangedByUserDataEvents(s: TelephonyStore, events: seq<TelephonyEvent>)
    requires Initialised(s)
    requires forall i :: 0 <= i < |events| ==> !events[i].UserMobileDataStateChanged?
    ensures Replay(s, events).phoneState == s.phoneState
    decreases |events|
  {
    if |events| > 0 {
      PhoneOnlyChangedByUserDataEvents(Handle(s, events[0]), events[1..]);
    }
  }

  /** After any events, the network record agrees with the first one on every
      field no telephony event writes: voice type, PLMN lists, group id and
      signal strength are only ever set by a full snapshot. */
  lemma {:induction false} SnapshotOnlyFieldsPersist(s: TelephonyStore, events: seq<TelephonyEvent>)
    requires Initialised(s)
    ensures NetworkSameExcept(s.networkState.value, Replay(s, events).networkState.value,
                              ServiceStateFields + {DataNetworkTypeField, DataStateField})
    decreases |events|
  {
    if |events| > 0 {
      var s' := Handle(s, events[0]);
      SnapshotOnlyFieldsPersist(s', events[1..]);
      var a, b, c := s.networkState.value, s'.networkState.value, Replay(s', events[1..]).networkState.value;
      forall f | f !in ServiceStateFields + {DataNetworkTypeField, DataStateField}
        ensures NetworkAgreeOn(a, c, f)
      {
        assert NetworkAgreeOn(a, b, f) && NetworkAgreeOn(b, c, f);
      }
    }
  }
}
