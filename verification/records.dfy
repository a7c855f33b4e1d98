/** The snapshot records the application publishes, and "only these fields
    differ" predicates used to state what each change event touches. */
module Records {
  import opened Wrappers
  import opened Platform

  /** The state of an IP network. No transition graph is enforced. */
  datatype IpNetworkAvailability = Available | Unavailable | Losing | Lost

  datatype IpNetworkDetails = IpNetworkDetails(
    availability: IpNetworkAvailability,
    ifaceName: Option<string>,
    linkAddresses: seq<string>,
    dnsServers: seq<string>,
    dnsSearchDomains: Option<string>,
    isMetered: bool,
    isBlocked: bool,
    signalStrength: int,
    capabilities: seq<int>)

  datatype MobileNetworkDetails = MobileNetworkDetails(
    voiceNetworkType: int,
    isRoaming: bool,
    dataNetworkType: int,
    dataState: int,
    equivalentHomePlmns: seq<string>,
    forbiddenPlmns: seq<string>,
    groupIdLevel1: Option<string>,
    countryIso: string,
    operator: string,
    operatorName: string,
    serviceState: Option<ServiceState>,
    signalStrength: Option<SignalStrength>)

  datatype PhoneDetails = PhoneDetails(
    deviceSoftwareVersion: Option<string>,
    hasIccCard: bool,
    supportedModemCount: int,
    activeModemCount: int,
    tac: Option<string>,
    isDataCapable: bool,
    isDataConnectionAllowed: bool,
    isDataEnabled: bool,
    isDataRoamingEnabled: bool,
    isMultiSimSupported: int,
    isVoiceCapable: bool,
    phoneType: int,
    name: string,
    manufacturer: string)

  /** SIM card record; operator fields are meaningful only in the READY state. */
  datatype SimDetails = SimDetails(
    state: int,
    carrierId: int,
    carrierIdName: string,
    countryIso: string,
    operator: string,
    operatorName: string,
    specificCarrierId: int,
    specificCarrierIdName: string)

  /** What the home-screen widget renders. */
  datatype MobileInfo = MobileInfo(
    operator: string,
    operatorName: string,
    dataState: int,
    networkType: int,
    radioState: int)

  // ---------------------------------------------------------------------
  // Field names and frame predicates

  datatype NetworkField =
    | VoiceNetworkTypeField | IsRoamingField | DataNetworkTypeField | DataStateField
    | HomePlmnsField | ForbiddenPlmnsField | GroupIdField | CountryIsoField
    | OperatorField | OperatorNameField | ServiceStateField | SignalStrengthField

  predicate NetworkAgreeOn(a: MobileNetworkDetails, b: MobileNetworkDetails, f: NetworkField) {
    match f
    case VoiceNetworkTypeField => a.voiceNetworkType == b.voiceNetworkType
    case IsRoamingField => a.isRoaming == b.isRoaming
    case DataNetworkTypeField => a.dataNetworkType == b.dataNetworkType
    case DataStateField => a.dataState == b.dataState
    case HomePlmnsField => a.equivalentHomePlmns == b.equivalentHomePlmns
    case ForbiddenPlmnsField => a.forbiddenPlmns == b.forbiddenPlmns
    case GroupIdField => a.groupIdLevel1 == b.groupIdLevel1
    case CountryIsoField => a.countryIso == b.countryIso
    case OperatorField => a.operator == b.operator
    case OperatorNameField => a.operatorName == b.operatorName
    case ServiceStateField => a.serviceState == b.serviceState
    case SignalStrengthField => a.signalStrength == b.signalStrength
  }

  /** `a` and `b` differ at most in the fields of `changed`. */
  predicate NetworkSameExcept(a: MobileNetworkDetails, b: MobileNetworkDetails, changed: set<NetworkField>) {
    forall f :: f !in changed ==> NetworkAgreeOn(a, b, f)
  }

  /** Agreeing on every field is equality. */
  lemma NetworkSameExceptNothing(a: MobileNetworkDetails, b: MobileNetworkDetails)
    requires NetworkSameExcept(a, b, {})
    ensures a == b
  {
    assert NetworkAgreeOn(a, b, VoiceNetworkTypeField) && NetworkAgreeOn(a, b, IsRoamingField);
    assert NetworkAgreeOn(a, b, DataNetworkTypeField) && NetworkAgreeOn(a, b, DataStateField);
    assert NetworkAgreeOn(a, b, HomePlmnsField) && NetworkAgreeOn(a, b, ForbiddenPlmnsField);
    assert NetworkAgreeOn(a, b, GroupIdField) && NetworkAgreeOn(a, b, CountryIsoField);
    assert NetworkAgreeOn(a, b, OperatorField) && NetworkAgreeOn(a, b, OperatorNameField);
    assert NetworkAgreeOn(a, b, ServiceStateField) && NetworkAgreeOn(a, b, SignalStrengthField);
  }

  datatype IpField =
    | AvailabilityField | IfaceNameField | LinkAddressesField | DnsServersField
    | DnsSearchDomainsField | IsMeteredField | IsBlockedField | IpSignalStrengthField
    | CapabilitiesField

  predicate IpAgreeOn(a: IpNetworkDetails, b: IpNetworkDetails, f: IpField) {
    match f
    case AvailabilityField => a.availability == b.availability
    case IfaceNameField => a.ifaceName == b.ifaceName
    case LinkAddressesField => a.linkAddresses == b.linkAddresses
    case DnsServersField => a.dnsServers == b.dnsServers
    case DnsSearchDomainsField => a.dnsSearchDomains == b.dnsSearchDomains
    case IsMeteredField => a.isMetered == b.isMetered
    case IsBlockedField => a.isBlocked == b.isBlocked
    case IpSignalStrengthField => a.signalStrength == b.signalStrength
    case CapabilitiesField => a.capabilities == b.capabilities
  }

  /** `a` and `b` differ at most in the fields of `changed`. */
  predicate IpSameExcept(a: IpNetworkDetails, b: IpNetworkDetails, changed: set<IpField>) {
    forall f :: f !in changed ==> IpAgreeOn(a, b, f)
  }

  /** Agreeing on every field is equality. */
  lemma IpSameExceptNothing(a: IpNetworkDetails, b: IpNetworkDetails)
    requires IpSameExcept(a, b, {})
    ensures a == b
  {
    assert IpAgreeOn(a, b, AvailabilityField) && IpAgreeOn(a, b, IfaceNameField);
    assert IpAgreeOn(a, b, LinkAddressesField) && IpAgreeOn(a, b, DnsServersField);
    assert IpAgreeOn(a, b, DnsSearchDomainsField) && IpAgreeOn(a, b, IsMeteredField);
    assert IpAgreeOn(a, b, IsBlockedField) && IpAgreeOn(a, b, IpSignalStrengthField);
    assert IpAgreeOn(a, b, CapabilitiesField);
  }

  /** Frames compose: two steps change at most the union of what each changes. */
  lemma IpSameExceptTrans(a: IpNetworkDetails, b: IpNetworkDetails, c: IpNetworkDetails,
                          f1: set<IpField>, f2: set<IpField>)
    requires IpSameExcept(a, b, f1) && IpSameExcept(b, c, f2)
    ensures IpSameExcept(a, c, f1 + f2)
  {
    forall f | f !in f1 + f2
      ensures IpAgreeOn(a, c, f)
    {
      assert IpAgreeOn(a, b, f) && IpAgreeOn(b, c, f);
    }
  }

  datatype PhoneField =
    | SoftwareVersionField | HasIccCardField | SupportedModemsField | ActiveModemsField
    | TacField | IsDataCapableField | IsDataConnectionAllowedField | IsDataEnabledField
    | IsDataRoamingEnabledField | MultiSimField | IsVoiceCapableField | PhoneTypeField
    | NameField | ManufacturerField

  predicate PhoneAgreeOn(a: PhoneDetails, b: PhoneDetails, f: PhoneField) {
    match f
    case SoftwareVersionField => a.deviceSoftwareVersion == b.deviceSoftwareVersion
    case HasIccCardField => a.hasIccCard == b.hasIccCard
    case SupportedModemsField => a.supportedModemCount == b.supportedModemCount
    case ActiveModemsField => a.activeModemCount == b.activeModemCount
    case TacField => a.tac == b.tac
    case IsDataCapableField => a.isDataCapable == b.isDataCapable
    case IsDataConnectionAllowedField => a.isDataConnectionAllowed == b.isDataConnectionAllowed
    case IsDataEnabledField => a.isDataEnabled == b.isDataEnabled
    case IsDataRoamingEnabledField => a.isDataRoamingEnabled == b.isDataRoamingEnabled
    case MultiSimField => a.isMultiSimSupported == b.isMultiSimSupported
    case IsVoiceCapableField => a.isVoiceCapable == b.isVoiceCapable
    case PhoneTypeField => a.phoneType == b.phoneType
    case NameField => a.name == b.name
    case ManufacturerField => a.manufacturer == b.manufacturer
  }

  /** `a` and `b` differ at most in the fields of `changed`. */
  predicate PhoneSameExcept(a: PhoneDetails, b: PhoneDetails, changed: set<PhoneField>) {
    forall f :: f !in changed ==> PhoneAgreeOn(a, b, f)
  }
}
