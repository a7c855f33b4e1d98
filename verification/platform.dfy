/** The Android platform values the application reads, as plain records.
    Integer codes are Kotlin `Int`s; they are only compared, never computed
    with, so they are modelled as unbounded integers. */
module Platform {
  import opened Wrappers

  /** Kotlin's `toString()` on a nullable receiver: the value's text, or
      "null" for null. */
  function NullableToString(s: Option<string>): string {
    if s.Some? then s.value else "null"
  }

  // android.telephony.ServiceState radio states
  const StateInService := 0
  const StateOutOfService := 1
  const StateEmergencyOnly := 2
  const StatePowerOff := 3

  // TelephonyManager.isMultiSimSupported results
  const MultiSimAllowed := 0
  const MultiSimNotSupportedByHardware := 1
  const MultiSimNotSupportedByCarrier := 2

  // TelephonyManager.getPhoneType results
  const PhoneTypeNone := 0
  const PhoneTypeGsm := 1
  const PhoneTypeCdma := 2
  const PhoneTypeSip := 3

  // TelephonyManager.getSimState results
  const SimStateUnknown := 0
  const SimStateAbsent := 1
  const SimStatePinRequired := 2
  const SimStatePukRequired := 3
  const SimStateNetworkLocked := 4
  const SimStateReady := 5
  const SimStateNotReady := 6
  const SimStatePermDisabled := 7
  const SimStateCardIoError := 8
  const SimStateCardRestricted := 9

  // TelephonyManager.getDataState results
  const DataUnknown := -1
  const DataDisconnected := 0
  const DataConnecting := 1
  const DataConnected := 2
  const DataSuspended := 3
  const DataDisconnecting := 4

  // TelephonyManager NETWORK_TYPE_* radio technologies
  const NetworkTypeUnknown := 0
  const NetworkTypeGprs := 1
  const NetworkTypeEdge := 2
  const NetworkTypeUmts := 3
  const NetworkTypeCdma := 4
  const NetworkTypeEvdo0 := 5
  const NetworkTypeEvdoA := 6
  const NetworkType1xRtt := 7
  const NetworkTypeHsdpa := 8
  const NetworkTypeHsupa := 9
  const NetworkTypeHspa := 10
  const NetworkTypeIden := 11
  const NetworkTypeEvdoB := 12
  const NetworkTypeLte := 13
  const NetworkTypeEhrpd := 14
  const NetworkTypeHspap := 15
  const NetworkTypeGsm := 16
  const NetworkTypeTdScdma := 17
  const NetworkTypeIwlan := 18
  const NetworkTypeNr := 20

  // NetworkCapabilities constants
  const TransportCellular := 0
  const NetCapabilityCaptivePortal := 17

  /** The parts of android.telephony.ServiceState the application reads. */
  datatype ServiceState = ServiceState(state: int, roaming: bool, channelNumber: int)

  /** The part of android.telephony.SignalStrength the application reads. */
  datatype SignalStrength = SignalStrength(level: int)

  /** A NetworkCapabilities object: its transports, capability list and signal. */
  datatype NetworkCapabilities =
    NetworkCapabilities(transportTypes: seq<int>, capabilities: seq<int>, signalStrength: int)
  {
    predicate HasTransport(transport: int) { transport in transportTypes }
    predicate HasCapability(capability: int) { capability in capabilities }
  }

  /** A LinkProperties object. Each address is an InetAddress whose
      `hostAddress` may be null. */
  datatype LinkProperties = LinkProperties(
    interfaceName: Option<string>,
    linkAddresses: seq<Option<string>>,
    dnsServers: seq<Option<string>>,
    domains: Option<string>)

  /** Device facts readable without any runtime permission. */
  datatype DeviceReads = DeviceReads(
    hasIccCard: bool,
    supportedModemCount: int,
    activeModemCount: int,
    model: string,
    manufacturer: string)

  /** Phone facts whose accessors need READ_PHONE_STATE. */
  datatype PhoneReads = PhoneReads(
    deviceSoftwareVersion: Option<string>,
    typeAllocationCode: Option<string>,
    isDataCapable: bool,
    isDataConnectionAllowed: bool,
    isDataEnabled: bool,
    isDataRoamingEnabled: bool,
    isMultiSimSupported: int,
    isVoiceCapable: bool,
    phoneType: int)

  /** SIM facts, readable without a runtime permission. */
  datatype SimReads = SimReads(
    simState: int,
    simCarrierId: int,
    simCarrierIdName: Option<string>,
    simCountryIso: string,
    simOperator: string,
    simOperatorName: string,
    simSpecificCarrierId: int,
    simSpecificCarrierIdName: Option<string>)

  /** Network facts readable without a runtime permission. */
  datatype NetworkReads = NetworkReads(
    isNetworkRoaming: bool,
    dataState: int,
    networkCountryIso: string,
    networkOperator: string,
    networkOperatorName: string,
    signalStrength: Option<SignalStrength>)

  /** Network facts whose accessors need READ_PHONE_STATE; the forbidden
      PLMN list is null when the SIM cannot report it. */
  datatype NetworkPrivilegedReads = NetworkPrivilegedReads(
    voiceNetworkType: int,
    dataNetworkType: int,
    equivalentHomePlmns: seq<string>,
    forbiddenPlmns: Option<seq<string>>,
    groupIdLevel1: Option<string>,
    serviceState: Option<ServiceState>)

  /** Everything one TelephonyManager instance answers, with the
      permission-guarded groups tagged by whether the read succeeded. */
  datatype TelephonyReads = TelephonyReads(
    device: DeviceReads,
    phone: Permission<PhoneReads>,
    sim: SimReads,
    network: NetworkReads,
    networkPrivileged: Permission<NetworkPrivilegedReads>)
}
