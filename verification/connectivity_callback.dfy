/** ConnectivityManagerCallback: each network event copies the last published
    IP-network record, replaces the fields the event describes, republishes it
    and refreshes the shared "last updated" stamp. */
module ConnectivityCallback {
  import opened Wrappers
  import opened Platform
  import opened Records
  import opened ConnectivityManager

  /** onAvailable, onUnavailable, onLosing and onLost: overwrite the
      availability, whatever it was. */
  function SetAvailability(prev: IpNetworkDetails, availability: IpNetworkAvailability): (r: IpNetworkDetails)
    ensures r.availability == availability
    ensures IpSameExcept(prev, r, {AvailabilityField})
  {
    prev.(availability := availability)
  }

  /** onBlockedStatusChanged */
  function OnBlockedStatusChanged(prev: IpNetworkDetails, blocked: bool): (r: IpNetworkDetails)
    ensures r.isBlocked == blocked
    ensures IpSameExcept(prev, r, {IsBlockedField})
  {
    prev.(isBlocked := blocked)
  }

  /** onCapabilitiesChanged */
  function OnCapabilitiesChanged(prev: IpNetworkDetails, caps: NetworkCapabilities): (r: IpNetworkDetails)
    ensures r.capabilities == caps.capabilities && r.signalStrength == caps.signalStrength
    ensures IpSameExcept(prev, r, {CapabilitiesField, IpSignalStrengthField})
  {
    prev.(capabilities := caps.capabilities, signalStrength := caps.signalStrength)
  }

  /** onLinkPropertiesChanged */
  function OnLinkPropertiesChanged(prev: IpNetworkDetails, lp: LinkProperties): (r: IpNetworkDetails)
    ensures |r.linkAddresses| == |lp.linkAddresses|
    ensures forall i :: 0 <= i < |r.linkAddresses| ==> r.linkAddresses[i] == lp.linkAddresses[i].GetOr("")
    ensures |r.dnsServers| == |lp.dnsServers|
    ensures forall i :: 0 <= i < |r.dnsServers| ==> r.dnsServers[i] == lp.dnsServers[i].GetOr("")
    ensures r.dnsSearchDomains == lp.domains && r.ifaceName == lp.interfaceName
    ensures IpSameExcept(prev, r, {LinkAddressesField, DnsServersField, DnsSearchDomainsField, IfaceNameField})
  {
    prev.(linkAddresses := HostAddresses(lp.linkAddresses),
          dnsServers := HostAddresses(lp.dnsServers),
          dnsSearchDomains := lp.domains,
          ifaceName := lp.interfaceName)
  }

  datatype NetworkEvent =
    | OnAvailable
    | OnBlockedStatus(blocked: bool)
    | OnUnavailable
    | OnCapabilities(caps: NetworkCapabilities)
    | OnLinkProperties(lp: LinkProperties)
    | OnLosing(maxMsToLive: int)
    | OnLost

  /** The fields an event may write. */
  function WrittenFields(e: NetworkEvent): set<IpField> {
    match e
    case OnAvailable | OnUnavailable | OnLosing(_) | OnLost => {AvailabilityField}
    case OnBlockedStatus(_) => {IsBlockedField}
    case OnCapabilities(_) => {CapabilitiesField, IpSignalStrengthField}
    case OnLinkProperties(_) => {LinkAddressesField, DnsServersField, DnsSearchDomainsField, IfaceNameField}
  }

  /** The delta of one network callback. */
  function Apply(prev: IpNetworkDetails, e: NetworkEvent): (r: IpNetworkDetails)
    ensures IpSameExcept(prev, r, WrittenFields(e))
    ensures e.OnAvailable? ==> r.availability == Available
    ensures e.OnUnavailable? ==> r.availability == Unavailable
    ensures e.OnLosing? ==> r.availability == Losing
    ensures e.OnLost? ==> r.availability == Lost
  {
    match e
    case OnAvailable => SetAvailability(prev, Available)
    case OnBlockedStatus(blocked) => OnBlockedStatusChanged(prev, blocked)
    case OnUnavailable => SetAvailability(prev, Unavailable)
    case OnCapabilities(caps) => OnCapabilitiesChanged(prev, caps)
    case OnLinkProperties(lp) => OnLinkPropertiesChanged(prev, lp)
    case OnLosing(_) => SetAvailability(prev, Losing)
    case OnLost => SetAvailability(prev, Lost)
  }

  /** The callback's view of the store: the shared stamp and the record. */
  datatype ConnectivityStore = ConnectivityStore(lastUpdated: nat, details: Option<IpNetworkDetails>)

  /** One callback invocation; the prior record is dereferenced with `!!`. */
  function Handle(s: ConnectivityStore, e: NetworkEvent): (r: ConnectivityStore)
    requires s.details.Some?
    ensures r.lastUpdated == s.lastUpdated + 1
    ensures r.details == Some(Apply(s.details.value, e))
  {
    ConnectivityStore(s.lastUpdated + 1, Some(Apply(s.details.value, e)))
  }

  function Replay(s: ConnectivityStore, events: seq<NetworkEvent>): (r: ConnectivityStore)
    requires s.details.Some?
    ensures r.details.Some?
    ensures r.lastUpdated == s.lastUpdated + |events|
    decreases |events|
  {
    if |events| == 0 then s else Replay(Handle(s, events[0]), events[1..])
  }

  /** The availability an availability event installs. */
  function Installs(e: NetworkEvent): Option<IpNetworkAvailability> {
    match e
    case OnAvailable => Some(Available)
    case OnUnavailable => Some(Unavailable)
    case OnLosing(_) => Some(Losing)
    case OnLost => Some(Lost)
    case _ => None
  }

  // ------------------------------------------------------------------
  // Properties

  /** There is no transition guard: from any record, some event installs any
      availability, and the availability events install exactly theirs. */
  lemma NoTransitionGuard(prev: IpNetworkDetails, target: IpNetworkAvailability)
    ensures exists e :: Installs(e) == Some(target) && Apply(prev, e).availability == target
  {
    var e := match target
      case Available => OnAvailable
      case Unavailable => OnUnavailable
      case Losing => OnLosing(0)
      case Lost => OnLost;
    assert Installs(e) == Some(target) && Apply(prev, e).availability == target;
  }

  /** No sequence of events ever changes `isMetered`; with the snapshot's
      `false` it stays false for the lifetime of the callback. */
  lemma {:induction false} MeteredNeverChanges(s: ConnectivityStore, events: seq<NetworkEvent>)
    requires s.details.Some?
    ensures Replay(s, events).details.value.isMetered == s.details.value.isMetered
    decreases |events|
  {
    if |events| > 0 {
      var s' := Handle(s, events[0]);
      assert IpAgreeOn(s.details.value, s'.details.value, IsMeteredField);
      MeteredNeverChanges(s', events[1..]);
    }
  }

  /** Every delivered event advances the stamp by one. */
  lemma {:induction false} ReplayAdvancesStamp(s: ConnectivityStore, events: seq<NetworkEvent>)
    requires s.details.Some?
    ensures Replay(s, events).lastUpdated == s.lastUpdated + |events|
    decreases |events|
  {
    if |events| > 0 {
      ReplayAdvancesStamp(Handle(s, events[0]), events[1..]);
    }
  }

  /** A link-properties event carrying what the record already shows leaves
      every field as it was; only the stamp moves. */
  lemma LinkPropertiesIdempotent(s: ConnectivityStore, lp: LinkProperties)
    requires s.details.Some?
    requires s.details.value.linkAddresses == HostAddresses(lp.linkAddresses)
    requires s.details.value.dnsServers == HostAddresses(lp.dnsServers)
    requires s.details.value.dnsSearchDomains == lp.domains
    requires s.details.value.ifaceName == lp.interfaceName
    ensures Handle(s, OnLinkProperties(lp)).details == s.details
    ensures Handle(s, OnLinkProperties(lp)).lastUpdated == s.lastUpdated + 1
  {
    var d, d' := s.details.value, Handle(s, OnLinkProperties(lp)).details.value;
    forall f: IpField
      ensures IpAgreeOn(d, d', f)
    {
      if f !in WrittenFields(OnLinkProperties(lp)) {
        assert IpAgreeOn(d, d', f);
      }
    }
    IpSameExceptNothing(d, d');
  }

  /** Re-delivering the link properties and capabilities a cellular snapshot
      was built from reproduces the snapshot. */
  lemma SnapshotIsFixedPoint(caps: NetworkCapabilities, lp: LinkProperties)
    requires caps.HasTransport(TransportCellular)
    ensures Apply(GetMobileIpNetworkDetails(Some(caps), Some(lp)), OnLinkProperties(lp))
         == GetMobileIpNetworkDetails(Some(caps), Some(lp))
    ensures Apply(GetMobileIpNetworkDetails(Some(caps), Some(lp)), OnCapabilities(caps))
         == GetMobileIpNetworkDetails(Some(caps), Some(lp))
  {
  }

  /** An UNAVAILABLE record is all-empty only when it comes from the snapshot
      builder: onUnavailable keeps the addresses of the record it replaces. */
  lemma UnavailableEventKeepsDetails(prev: IpNetworkDetails)
    requires |prev.linkAddresses| > 0
    ensures Apply(prev, OnUnavailable).availability == Unavailable
    ensures !IsEmptyDetails(Apply(prev, OnUnavailable))
  {
  }
}
