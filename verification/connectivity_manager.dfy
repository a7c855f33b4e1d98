/** getMobileIpNetworkDetails: the IP-network snapshot of the active network
    when it runs over the cellular transport, and a fixed all-empty
    UNAVAILABLE record otherwise. */
module ConnectivityManager {
  import opened Wrappers
  import opened Platform
  import opened Records

  /** The host strings of a list of addresses, in order, with a null host
      address read as "" (`hostAddress.orEmpty()` in a for loop). */
  function HostAddresses(hosts: seq<Option<string>>): (r: seq<string>)
    ensures |r| == |hosts|
    ensures forall i :: 0 <= i < |hosts| ==> r[i] == hosts[i].GetOr("")
  {
    if |hosts| == 0 then []
    else HostAddresses(hosts[..|hosts| - 1]) + [hosts[|hosts| - 1].GetOr("")]
  }

  /** The record published when there is no cellular IP network. */
  const UnavailableDetails := IpNetworkDetails(
    availability := Unavailable,
    ifaceName := Some(""),
    linkAddresses := [],
    dnsServers := [],
    dnsSearchDomains := Some(""),
    isMetered := false,
    isBlocked := false,
    signalStrength := 0,
    capabilities := [])

  /** No addresses, no servers, empty names, both flags clear, zero signal
      and no capabilities. */
  predicate IsEmptyDetails(d: IpNetworkDetails) {
    && d.ifaceName == Some("") && d.dnsSearchDomains == Some("")
    && |d.linkAddresses| == 0 && |d.dnsServers| == 0 && |d.capabilities| == 0
    && !d.isMetered && !d.isBlocked && d.signalStrength == 0
  }

  /** The IP network is usable by this model: capabilities and link
      properties were reported and the network runs over cellular. */
  predicate IsCellular(netCap: Option<NetworkCapabilities>, linkProp: Option<LinkProperties>) {
    netCap.Some? && linkProp.Some? && netCap.value.HasTransport(TransportCellular)
  }

  /** getMobileIpNetworkDetails, given what getNetworkCapabilities and
      getLinkProperties returned for the active network (both null when
      there is no active network). */
  function GetMobileIpNetworkDetails(netCap: Option<NetworkCapabilities>, linkProp: Option<LinkProperties>)
    : (r: IpNetworkDetails)
    ensures r.availability == Unavailable <==> !IsCellular(netCap, linkProp)
    ensures r.availability == Unavailable ==> IsEmptyDetails(r)
    ensures r.availability != Unavailable ==> r.availability == Available
    ensures IsCellular(netCap, linkProp) ==>
      && r.ifaceName == linkProp.value.interfaceName
      && |r.linkAddresses| == |linkProp.value.linkAddresses|
      && (forall i :: 0 <= i < |r.linkAddresses| ==> r.linkAddresses[i] == linkProp.value.linkAddresses[i].GetOr(""))
      && |r.dnsServers| == |linkProp.value.dnsServers|
      && (forall i :: 0 <= i < |r.dnsServers| ==> r.dnsServers[i] == linkProp.value.dnsServers[i].GetOr(""))
      && r.dnsSearchDomains == linkProp.value.domains
      && (r.isBlocked <==> netCap.value.HasCapability(NetCapabilityCaptivePortal))
      && r.signalStrength == netCap.value.signalStrength
      && r.capabilities == netCap.value.capabilities
    ensures !r.isMetered
  {
    if !IsCellular(netCap, linkProp) then
      UnavailableDetails
    else
      var caps, lp := netCap.value, linkProp.value;
      IpNetworkDetails(
        availability := Available,
        ifaceName := lp.interfaceName,
        linkAddresses := HostAddresses(lp.linkAddresses),
        dnsServers := HostAddresses(lp.dnsServers),
        dnsSearchDomains := lp.domains,
        isMetered := false,
        isBlocked := caps.HasCapability(NetCapabilityCaptivePortal),
        signalStrength := caps.signalStrength,
        capabilities := caps.capabilities)
  }
}
