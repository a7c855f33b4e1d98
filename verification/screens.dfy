/** The display decisions of the card screen (Screens.kt): the operator brand
    fallback, the PLMN list join, the IP-network detail gating, the
    service-state row and country-code upper-casing. Layout is not modelled;
    a card is the list of values it would show. */
module Screens {
  import opened Wrappers
  import opened Platform
  import opened Records
  import opened Carriers
  import opened Formatters
  import ConnectivityManager
  import ConnectivityCallback

  // ------------------------------------------------------------ brand

  /** The operator brand: the table's brand for the operator code, or the
      operator name the network reports when the code is not listed. */
  function OperatorBrand(operator: string, operatorName: string): (brand: string)
    ensures BrandOf(operator).Some? ==> brand == BrandOf(operator).value
    ensures BrandOf(operator).None? ==> brand == operatorName
    ensures brand == "" <==> BrandOf(operator).None? && operatorName == ""
  {
    var listed := CarrierNameFromMccMnc(operator);
    if listed == "" then operatorName else listed
  }

  // ------------------------------------------------------------- join

  const Separator := ", "

  /** The source's loop: append `", "` only when the text so far is
      non-empty, then append the element. */
  function JoinFrom(acc: string, plmns: seq<string>): string
    decreases |plmns|
  {
    if |plmns| == 0 then acc
    else
      var sep := if acc != "" then Separator else "";
      JoinFrom(acc + sep + plmns[0], plmns[1..])
  }

  /** The PLMN list as displayed. */
  function JoinPlmns(plmns: seq<string>): string {
    JoinFrom("", plmns)
  }

  /** Reference join: the elements in order with `", "` between neighbours. */
  function Join(items: seq<string>): string {
    if |items| == 0 then "" else items[0] + SeparatedTail(items[1..])
  }

  /** `", " + x` for every element `x`, in order. */
  function SeparatedTail(items: seq<string>): string {
    if |items| == 0 then "" else Separator + items[0] + SeparatedTail(items[1..])
  }

  /** The list without its leading run of empty strings. */
  function DropLeadingEmpty(items: seq<string>): (r: seq<string>)
    ensures |r| <= |items|
    ensures |r| == 0 || r[0] != ""
    ensures r == items[|items| - |r|..]
    ensures forall i :: 0 <= i < |items| - |r| ==> items[i] == ""
  {
    if |items| == 0 || items[0] != "" then items else DropLeadingEmpty(items[1..])
  }

  /** Once the text is non-empty, every further element gets a separator. */
  lemma {:induction false} JoinFromNonEmpty(acc: string, plmns: seq<string>)
    requires acc != ""
    ensures JoinFrom(acc, plmns) == acc + SeparatedTail(plmns)
    decreases |plmns|
  {
    if |plmns| > 0 {
      var next := acc + Separator + plmns[0];
      JoinFromNonEmpty(next, plmns[1..]);
      assert JoinFrom(acc, plmns) == JoinFrom(next, plmns[1..]);
    }
  }

  /** The displayed list is the reference join of the list without its
      leading empty elements: a leading "" suppresses the next separator,
      while an empty element after a non-empty one still gets one. */
  lemma {:induction false} JoinPlmnsIsJoin(plmns: seq<string>)
    ensures JoinPlmns(plmns) == Join(DropLeadingEmpty(plmns))
    decreases |plmns|
  {
    if |plmns| > 0 {
      if plmns[0] == "" {
        assert JoinFrom("", plmns) == JoinFrom("", plmns[1..]);
        JoinPlmnsIsJoin(plmns[1..]);
      } else {
        assert "" + "" + plmns[0] == plmns[0];
        assert JoinFrom("", plmns) == JoinFrom(plmns[0], plmns[1..]);
        JoinFromNonEmpty(plmns[0], plmns[1..]);
      }
    }
  }

  /** With no empty elements the display is the plain `", "` join. */
  lemma JoinPlmnsOfNonEmpty(plmns: seq<string>)
    requires forall i :: 0 <= i < |plmns| ==> plmns[i] != ""
    ensures JoinPlmns(plmns) == Join(plmns)
  {
    JoinPlmnsIsJoin(plmns);
  }

  /** A leading empty element suppresses the separator: `["", "a"]` shows "a". */
  lemma JoinSkipsLeadingEmpty()
    ensures JoinPlmns(["", "a"]) == "a"
  {
    var ps := ["", "a"];
    assert ps[1..] == ["a"];
    assert JoinFrom("", ps) == JoinFrom("", ["a"]);
    assert ["a"][1..] == [];
    assert JoinFrom("", ["a"]) == JoinFrom("a", []);
  }

  /** An empty element after a non-empty one still gets its separator. */
  lemma JoinKeepsInnerEmpty()
    ensures JoinPlmns(["a", "", "b"]) == "a, , b"
  {
    var ps := ["a", "", "b"];
    assert ps[1..] == ["", "b"] && ps[1..][1..] == ["b"] && ps[1..][1..][1..] == [];
    assert JoinFrom("", ps) == JoinFrom("a", ["", "b"]);
    assert JoinFrom("a", ["", "b"]) == JoinFrom("a, ", ["b"]);
    assert JoinFrom("a, ", ["b"]) == JoinFrom("a, , b", []);
  }

  // -------------------------------------------------------- upper case

  function UpperChar(c: char): char {
    if 'a' <= c <= 'z' then (c as int - 32) as char else c
  }

  /** `String.uppercase()` on the ASCII letters ISO country codes use. */
  function Uppercase(s: string): (r: string)
    ensures |r| == |s|
    ensures forall i :: 0 <= i < |s| ==> r[i] == UpperChar(s[i])
  {
    if |s| == 0 then "" else Uppercase(s[..|s| - 1]) + [UpperChar(s[|s| - 1])]
  }

  /** Upper-casing leaves no lower-case ASCII letter and is idempotent. */
  lemma UppercaseIsUpper(s: string)
    ensures forall i :: 0 <= i < |s| ==> !('a' <= Uppercase(s)[i] <= 'z')
    ensures Uppercase(Uppercase(s)) == Uppercase(s)
  {
    var u := Uppercase(s);
    var uu := Uppercase(u);
    forall i | 0 <= i < |s|
      ensures !('a' <= u[i] <= 'z') && uu[i] == u[i]
    {
      UpperCharIsUpper(s[i]);
    }
  }

  lemma UpperCharIsUpper(c: char)
    ensures !('a' <= UpperChar(c) <= 'z')
    ensures UpperChar(UpperChar(c)) == UpperChar(c)
  {
  }

  // ------------------------------------------------- service state row

  datatype ServiceStateRow = ServiceStateUnavailable | ServiceStateShown(radio: RadioStateLabel, channel: int)

  /** The service-state rows: a radio-state label and channel, or the
      "unavailable" label when there is no ServiceState. */
  function ServiceStateRowOf(serviceState: Option<ServiceState>): (row: ServiceStateRow)
    ensures row.ServiceStateUnavailable? <==> serviceState.None?
    ensures serviceState.Some? ==>
      RadioStateShown(row.radio, serviceState.value.state) && row.channel == serviceState.value.channelNumber
  {
    match serviceState
    case None => ServiceStateUnavailable
    case Some(ss) => ServiceStateShown(RadioStateLabelOf(ss.state), ss.channelNumber)
  }

  // --------------------------------------------------- mobile network card

  /** What MobileNetworkInfoCard shows, one value per row. `groupId` is
      Kotlin's `toString()` of a nullable string; `signalLevel` is None when
      the signal-strength-unknown label is shown. */
  datatype MobileNetworkCard = MobileNetworkCard(
    voiceNetworkType: NetworkTypeLabel,
    dataNetworkType: NetworkTypeLabel,
    serviceState: ServiceStateRow,
    dataState: DataStateLabel,
    isRoaming: bool,
    countryIso: string,
    operator: string,
    operatorName: string,
    operatorBrand: string,
    signalLevel: Option<int>,
    groupId: string,
    homePlmns: string,
    forbiddenPlmns: string)

  function MobileNetworkInfoCard(state: MobileNetworkDetails): (card: MobileNetworkCard)
    ensures NetworkTypeShown(card.voiceNetworkType, state.voiceNetworkType)
    ensures NetworkTypeShown(card.dataNetworkType, state.dataNetworkType)
    ensures card.serviceState == ServiceStateRowOf(state.serviceState)
    ensures DataStateShown(card.dataState, state.dataState)
    ensures card.isRoaming == state.isRoaming
    ensures card.countryIso == Uppercase(state.countryIso)
    ensures card.operator == state.operator && card.operatorName == state.operatorName
    ensures card.operatorBrand == OperatorBrand(state.operator, state.operatorName)
    ensures card.signalLevel.Some? <==> state.signalStrength.Some?
    ensures state.signalStrength.Some? ==> card.signalLevel == Some(state.signalStrength.value.level)
    ensures card.groupId == NullableToString(state.groupIdLevel1)
    ensures card.homePlmns == Join(DropLeadingEmpty(state.equivalentHomePlmns))
    ensures card.forbiddenPlmns == Join(DropLeadingEmpty(state.forbiddenPlmns))
  {
    JoinPlmnsIsJoin(state.equivalentHomePlmns);
    JoinPlmnsIsJoin(state.forbiddenPlmns);
    MobileNetworkCard(
      NetworkTypeLabelOf(state.voiceNetworkType),
      NetworkTypeLabelOf(state.dataNetworkType),
      ServiceStateRowOf(state.serviceState),
      DataStateLabelOf(state.dataState),
      state.isRoaming,
      Uppercase(state.countryIso),
      state.operator,
      state.operatorName,
      OperatorBrand(state.operator, state.operatorName),
      if state.signalStrength.Some? then Some(state.signalStrength.value.level) else None,
      NullableToString(state.groupIdLevel1),
      JoinPlmns(state.equivalentHomePlmns),
      JoinPlmns(state.forbiddenPlmns))
  }

  // ------------------------------------------------------ IP network card

  datatype IpDetailRows =
    | NotAvailableRow
    | DetailRows(ifaceName: string, linkAddresses: seq<string>, dnsServers: seq<string>,
                 dnsSearchDomains: string, isBlocked: bool, isMetered: bool,
                 capabilities: seq<int>, signalStrength: int)

  datatype IpNetworkCard = IpNetworkCard(availability: IpNetworkAvailability, rows: IpDetailRows)

  /** The interface name is dereferenced with `!!` when the network is available. */
  predicate IpCardRenderable(state: IpNetworkDetails) {
    state.availability == Available ==> state.ifaceName.Some?
  }

  /** IpNetworkCard: the detail rows only for an AVAILABLE network; LOSING,
      LOST and UNAVAILABLE all show the single not-available row. */
  function IpNetworkCardOf(state: IpNetworkDetails): (card: IpNetworkCard)
    requires IpCardRenderable(state)
    ensures card.availability == state.availability
    ensures card.rows.DetailRows? <==> state.availability == Available
    ensures card.rows.DetailRows? ==>
      && Some(card.rows.ifaceName) == state.ifaceName
      && card.rows.linkAddresses == state.linkAddresses
      && card.rows.dnsServers == state.dnsServers
      && card.rows.dnsSearchDomains == state.dnsSearchDomains.GetOr("")
      && card.rows.isBlocked == state.isBlocked && card.rows.isMetered == state.isMetered
      && card.rows.capabilities == state.capabilities
      && card.rows.signalStrength == state.signalStrength
  {
    if state.availability == Available then
      IpNetworkCard(state.availability,
        DetailRows(state.ifaceName.value, state.linkAddresses, state.dnsServers,
                   state.dnsSearchDomains.GetOr(""), state.isBlocked, state.isMetered,
                   state.capabilities, state.signalStrength))
    else
      IpNetworkCard(state.availability, NotAvailableRow)
  }

  /** A cellular network whose link properties carry no interface name gives an
      AVAILABLE record the IP card cannot render, from the builder and from a
      link-properties event alike: the `!!` would throw. */
  lemma NullInterfaceNameReachesIpCard(caps: NetworkCapabilities, lp: LinkProperties, prev: IpNetworkDetails)
    requires caps.HasTransport(TransportCellular) && lp.interfaceName.None?
    requires prev.availability == Available
    ensures !IpCardRenderable(ConnectivityManager.GetMobileIpNetworkDetails(Some(caps), Some(lp)))
    ensures !IpCardRenderable(ConnectivityCallback.Apply(prev, ConnectivityCallback.OnLinkProperties(lp)))
  {
  }

  // -------------------------------------------------------- SIM card

  /** What SimStateCard shows, one value per row. */
  datatype SimCard = SimCard(
    state: SimStateLabel,
    countryIso: string,
    carrierId: int,
    carrierIdName: string,
    specificCarrierId: int,
    specificCarrierIdName: string,
    operator: string,
    operatorName: string)

  /** The rows of both SIM cards other than the country code. */
  predicate SimRowsShown(card: SimCard, sim: SimDetails) {
    && SimStateShown(card.state, sim.state)
    && card.carrierId == sim.carrierId && card.carrierIdName == sim.carrierIdName
    && card.specificCarrierId == sim.specificCarrierId
    && card.specificCarrierIdName == sim.specificCarrierIdName
    && card.operator == sim.operator && card.operatorName == sim.operatorName
  }

  function SimStateCardOf(sim: SimDetails): (card: SimCard)
    ensures SimRowsShown(card, sim)
    ensures card.countryIso == Uppercase(sim.countryIso)
  {
    SimCard(SimStateLabelOf(sim.state), Uppercase(sim.countryIso), sim.carrierId, sim.carrierIdName,
            sim.specificCarrierId, sim.specificCarrierIdName, sim.operator, sim.operatorName)
  }

  // ------------------------------------------------------ phone card

  /** What PhoneInfoCard shows, one value per row. The version and TAC rows
      are `toString()` of nullable strings. */
  datatype PhoneCard = PhoneCard(
    name: string,
    manufacturer: string,
    supportedModemCount: int,
    activeModemCount: int,
    hasIccCard: bool,
    phoneType: PhoneTypeLabel,
    tac: string,
    softwareVersion: string,
    voiceCapable: bool,
    dataCapable: bool,
    dataConnectionAllowed: bool,
    dataEnabled: bool,
    dataRoamingEnabled: bool,
    multiSim: MultiSimLabel)

  /** Every row of both phone cards except "data capable". */
  predicate PhoneRowsShown(card: PhoneCard, phone: PhoneDetails) {
    && card.name == phone.name && card.manufacturer == phone.manufacturer
    && card.supportedModemCount == phone.supportedModemCount
    && card.activeModemCount == phone.activeModemCount
    && card.hasIccCard == phone.hasIccCard
    && PhoneTypeShown(card.phoneType, phone.phoneType)
    && card.tac == NullableToString(phone.tac)
    && card.softwareVersion == NullableToString(phone.deviceSoftwareVersion)
    && card.voiceCapable == phone.isVoiceCapable
    && card.dataConnectionAllowed == phone.isDataConnectionAllowed
    && card.dataEnabled == phone.isDataEnabled
    && card.dataRoamingEnabled == phone.isDataRoamingEnabled
    && MultiSimShown(card.multiSim, phone.isMultiSimSupported)
  }

  /** PhoneInfoCard as written: the "data capable" row shows `isDataEnabled`. */
  function PhoneInfoCardAsWritten(phone: PhoneDetails): (card: PhoneCard)
    ensures PhoneRowsShown(card, phone)
    ensures card.dataCapable == phone.isDataEnabled
  {
    PhoneCard(phone.name, phone.manufacturer, phone.supportedModemCount, phone.activeModemCount,
              phone.hasIccCard, PhoneTypeLabelOf(phone.phoneType), NullableToString(phone.tac),
              NullableToString(phone.deviceSoftwareVersion), phone.isVoiceCapable,
              phone.isDataEnabled, phone.isDataConnectionAllowed, phone.isDataEnabled,
              phone.isDataRoamingEnabled, MultiSimCapableLabel(phone.isMultiSimSupported))
  }

  /** The as-written card misreports a device that can carry data but has
      mobile data switched off. */
  lemma DataCapableRowMisreports(phone: PhoneDetails)
    requires phone.isDataCapable && !phone.isDataEnabled
    ensures PhoneInfoCardAsWritten(phone).dataCapable != phone.isDataCapable
  {
  }

  /** PhoneInfoCard with the "data capable" row showing `isDataCapable`; every
      other row is as written. */
  function PhoneInfoCardOf(phone: PhoneDetails): (card: PhoneCard)
    ensures PhoneRowsShown(card, phone)
    ensures card.dataCapable == phone.isDataCapable
    ensures card.(dataCapable := phone.isDataEnabled) == PhoneInfoCardAsWritten(phone)
  {
    PhoneInfoCardAsWritten(phone).(dataCapable := phone.isDataCapable)
  }

  // ------------------------------------------------------ whole screen

  datatype InfoScreen = InfoScreen(lastUpdated: nat, network: MobileNetworkCard, ip: IpNetworkCard,
                                   sim: SimCard, phone: PhoneCard)

  /** Whether the top-level card can be composed: all five published values
      are dereferenced with `!!`, and the IP card's interface name too. */
  predicate InfoScreenRenderable(lastUpdated: Option<nat>, network: Option<MobileNetworkDetails>,
                                 ip: Option<IpNetworkDetails>, phone: Option<PhoneDetails>,
                                 sim: Option<SimDetails>) {
    && lastUpdated.Some? && network.Some? && ip.Some? && phone.Some? && sim.Some?
    && IpCardRenderable(ip.value)
  }

  /** MobileInfoCard as written: the phone card shows `isDataEnabled` in its
      "data capable" row. */
  function MobileInfoCardAsWritten(lastUpdated: Option<nat>, network: Option<MobileNetworkDetails>,
                                   ip: Option<IpNetworkDetails>, phone: Option<PhoneDetails>,
                                   sim: Option<SimDetails>): (screen: InfoScreen)
    requires InfoScreenRenderable(lastUpdated, network, ip, phone, sim)
    ensures screen.lastUpdated == lastUpdated.value
    ensures screen.network.operatorBrand == OperatorBrand(network.value.operator, network.value.operatorName)
    ensures screen.ip.rows.DetailRows? <==> ip.value.availability == Available
    ensures PhoneRowsShown(screen.phone, phone.value)
    ensures screen.phone.dataCapable == phone.value.isDataEnabled
    ensures screen.sim.countryIso == Uppercase(sim.value.countryIso)
    ensures SimRowsShown(screen.sim, sim.value)
    ensures screen.network == MobileNetworkInfoCard(network.value)
    ensures screen.ip == IpNetworkCardOf(ip.value)
  {
    InfoScreen(lastUpdated.value, MobileNetworkInfoCard(network.value), IpNetworkCardOf(ip.value),
               SimStateCardOf(sim.value), PhoneInfoCardAsWritten(phone.value))
  }

  /** MobileInfoCard with the corrected phone card; every other card is as
      written. */
  function MobileInfoCard(lastUpdated: Option<nat>, network: Option<MobileNetworkDetails>,
                          ip: Option<IpNetworkDetails>, phone: Option<PhoneDetails>,
                          sim: Option<SimDetails>): (screen: InfoScreen)
    requires InfoScreenRenderable(lastUpdated, network, ip, phone, sim)
    ensures PhoneRowsShown(screen.phone, phone.value)
    ensures screen.phone.dataCapable == phone.value.isDataCapable
    ensures screen.(phone := screen.phone.(dataCapable := phone.value.isDataEnabled))
            == MobileInfoCardAsWritten(lastUpdated, network, ip, phone, sim)
  {
    InfoScreen(lastUpdated.value, MobileNetworkInfoCard(network.value), IpNetworkCardOf(ip.value),
               SimStateCardOf(sim.value), PhoneInfoCardOf(phone.value))
  }
}
