/** The code-to-label formatters. Each maps every integer code to a label,
    with an explicit "unknown" label for codes it does not list; the labels
    stand for the application's string resources. Each formatter comes with
    the inverse table (the code a label stands for) and its contract ties the
    two together. */
module Formatters {
  import opened Wrappers
  import opened Platform

  // ---------------------------------------------------------------- multi-SIM

  datatype MultiSimLabel = MultiSimYes | MultiSimNotByHardware | MultiSimNotByCarrier | MultiSimUnknown

  function MultiSimCode(l: MultiSimLabel): Option<int> {
    match l
    case MultiSimYes => Some(MultiSimAllowed)
    case MultiSimNotByHardware => Some(MultiSimNotSupportedByHardware)
    case MultiSimNotByCarrier => Some(MultiSimNotSupportedByCarrier)
    case MultiSimUnknown => None
  }

  /** multiSimCapableToString */
  function MultiSimCapableLabel(code: int): (l: MultiSimLabel)
    ensures l != MultiSimUnknown ==> MultiSimCode(l) == Some(code)
    ensures l == MultiSimUnknown <==> forall k :: MultiSimCode(k) != Some(code)
  {
    if code == MultiSimAllowed then MultiSimYes
    else if code == MultiSimNotSupportedByHardware then MultiSimNotByHardware
    else if code == MultiSimNotSupportedByCarrier then MultiSimNotByCarrier
    else MultiSimUnknown
  }

  // --------------------------------------------------------------- phone type

  datatype PhoneTypeLabel = PhoneGsm | PhoneCdma | PhoneSip | PhoneNone | PhoneUnknown

  function PhoneTypeCode(l: PhoneTypeLabel): Option<int> {
    match l
    case PhoneGsm => Some(PhoneTypeGsm)
    case PhoneCdma => Some(PhoneTypeCdma)
    case PhoneSip => Some(PhoneTypeSip)
    case PhoneNone => Some(PhoneTypeNone)
    case PhoneUnknown => None
  }

  /** phoneTypeToString */
  function PhoneTypeLabelOf(code: int): (l: PhoneTypeLabel)
    ensures l != PhoneUnknown ==> PhoneTypeCode(l) == Some(code)
    ensures l == PhoneUnknown <==> forall k :: PhoneTypeCode(k) != Some(code)
  {
    if code == PhoneTypeGsm then PhoneGsm
    else if code == PhoneTypeCdma then PhoneCdma
    else if code == PhoneTypeSip then PhoneSip
    else if code == PhoneTypeNone then PhoneNone
    else PhoneUnknown
  }

  // ---------------------------------------------------------------- SIM state

  datatype SimStateLabel =
    | SimAbsent | SimCardIoError | SimCardRestricted | SimNetworkLocked | SimNotReady
    | SimPermDisabled | SimPinRequired | SimPukRequired | SimReady | SimUnknown

  function SimStateCode(l: SimStateLabel): Option<int> {
    match l
    case SimAbsent => Some(SimStateAbsent)
    case SimCardIoError => Some(SimStateCardIoError)
    case SimCardRestricted => Some(SimStateCardRestricted)
    case SimNetworkLocked => Some(SimStateNetworkLocked)
    case SimNotReady => Some(SimStateNotReady)
    case SimPermDisabled => Some(SimStatePermDisabled)
    case SimPinRequired => Some(SimStatePinRequired)
    case SimPukRequired => Some(SimStatePukRequired)
    case SimReady => Some(SimStateReady)
    case SimUnknown => None
  }

  /** simStateToString; SIM_STATE_UNKNOWN itself is not listed and so also
      falls through to the unknown label. */
  function SimStateLabelOf(code: int): (l: SimStateLabel)
    ensures l != SimUnknown ==> SimStateCode(l) == Some(code)
    ensures l == SimUnknown <==> forall k :: SimStateCode(k) != Some(code)
  {
    if code == SimStateAbsent then SimAbsent
    else if code == SimStateCardIoError then SimCardIoError
    else if code == SimStateCardRestricted then SimCardRestricted
    else if code == SimStateNetworkLocked then SimNetworkLocked
    else if code == SimStateNotReady then SimNotReady
    else if code == SimStatePermDisabled then SimPermDisabled
    else if code == SimStatePinRequired then SimPinRequired
    else if code == SimStatePukRequired then SimPukRequired
    else if code == SimStateReady then SimReady
    else SimUnknown
  }

  // -------------------------------------------------------------- radio state

  datatype RadioStateLabel = RadioInService | RadioOff | RadioEmergency | RadioOutOfService | RadioUnknown

  function RadioStateCode(l: RadioStateLabel): Option<int> {
    match l
    case RadioInService => Some(StateInService)
    case RadioOff => Some(StatePowerOff)
    case RadioEmergency => Some(StateEmergencyOnly)
    case RadioOutOfService => Some(StateOutOfService)
    case RadioUnknown => None
  }

  /** radioStateToString */
  function RadioStateLabelOf(code: int): (l: RadioStateLabel)
    ensures l != RadioUnknown ==> RadioStateCode(l) == Some(code)
    ensures l == RadioUnknown <==> forall k :: RadioStateCode(k) != Some(code)
  {
    if code == StateInService then RadioInService
    else if code == StatePowerOff then RadioOff
    else if code == StateEmergencyOnly then RadioEmergency
    else if code == StateOutOfService then RadioOutOfService
    else RadioUnknown
  }

  // --------------------------------------------------------------- data state

  datatype DataStateLabel =
    | DataDisconnectedLabel | DataConnectingLabel | DataConnectedLabel
    | DataSuspendedLabel | DataDisconnectingLabel | DataUnknownLabel

  function DataStateCode(l: DataStateLabel): Option<int> {
    match l
    case DataDisconnectedLabel => Some(DataDisconnected)
    case DataConnectingLabel => Some(DataConnecting)
    case DataConnectedLabel => Some(DataConnected)
    case DataSuspendedLabel => Some(DataSuspended)
    case DataDisconnectingLabel => Some(DataDisconnecting)
    case DataUnknownLabel => None
  }

  /** dataStateToString */
  function DataStateLabelOf(code: int): (l: DataStateLabel)
    ensures l != DataUnknownLabel ==> DataStateCode(l) == Some(code)
    ensures l == DataUnknownLabel <==> forall k :: DataStateCode(k) != Some(code)
  {
    if code == DataDisconnected then DataDisconnectedLabel
    else if code == DataConnecting then DataConnectingLabel
    else if code == DataConnected then DataConnectedLabel
    else if code == DataSuspended then DataSuspendedLabel
    else if code == DataDisconnecting then DataDisconnectingLabel
    else DataUnknownLabel
  }

  // ------------------------------------------------------------- network type

  datatype NetworkTypeLabel =
    | Net1xRtt | NetCdma | NetEdge | NetEhrpd | NetEvdo0 | NetEvdoA | NetEvdoB
    | NetGprs | NetGsm | NetHsdpa | NetHspa | NetHspap | NetHsupa | NetIden
    | NetIwlan | NetLte | NetNr | NetTdScdma | NetUmts | NetUnknown

  function NetworkTypeCode(l: NetworkTypeLabel): Option<int> {
    match l
    case Net1xRtt => Some(NetworkType1xRtt)
    case NetCdma => Some(NetworkTypeCdma)
    case NetEdge => Some(NetworkTypeEdge)
    case NetEhrpd => Some(NetworkTypeEhrpd)
    case NetEvdo0 => Some(NetworkTypeEvdo0)
    case NetEvdoA => Some(NetworkTypeEvdoA)
    case NetEvdoB => Some(NetworkTypeEvdoB)
    case NetGprs => Some(NetworkTypeGprs)
    case NetGsm => Some(NetworkTypeGsm)
    case NetHsdpa => Some(NetworkTypeHsdpa)
    case NetHspa => Some(NetworkTypeHspa)
    case NetHspap => Some(NetworkTypeHspap)
    case NetHsupa => Some(NetworkTypeHsupa)
    case NetIden => Some(NetworkTypeIden)
    case NetIwlan => Some(NetworkTypeIwlan)
    case NetLte => Some(NetworkTypeLte)
    case NetNr => Some(NetworkTypeNr)
    case NetTdScdma => Some(NetworkTypeTdScdma)
    case NetUmts => Some(NetworkTypeUmts)
    case NetUnknown => None
  }

  /** networkTypeToString; NETWORK_TYPE_UNKNOWN and unlisted technologies
      both get the unknown label. */
  function NetworkTypeLabelOf(code: int): (l: NetworkTypeLabel)
    ensures l != NetUnknown ==> NetworkTypeCode(l) == Some(code)
    ensures l == NetUnknown <==> forall k :: NetworkTypeCode(k) != Some(code)
  {
    if code == NetworkType1xRtt then Net1xRtt
    else if code == NetworkTypeCdma then NetCdma
    else if code == NetworkTypeEdge then NetEdge
    else if code == NetworkTypeEhrpd then NetEhrpd
    else if code == NetworkTypeEvdo0 then NetEvdo0
    else if code == NetworkTypeEvdoA then NetEvdoA
    else if code == NetworkTypeEvdoB then NetEvdoB
    else if code == NetworkTypeGprs then NetGprs
    else if code == NetworkTypeGsm then NetGsm
    else if code == NetworkTypeHsdpa then NetHsdpa
    else if code == NetworkTypeHspa then NetHspa
    else if code == NetworkTypeHspap then NetHspap
    else if code == NetworkTypeHsupa then NetHsupa
    else if code == NetworkTypeIden then NetIden
    else if code == NetworkTypeIwlan then NetIwlan
    else if code == NetworkTypeLte then NetLte
    else if code == NetworkTypeNr then NetNr
    else if code == NetworkTypeTdScdma then NetTdScdma
    else if code == NetworkTypeUmts then NetUmts
    else NetUnknown
  }

  // ------------------------------------------------------- shown labels

  /* What a card shows for a code, stated without calling the switch: a known
     label whose code is the input, or the unknown label exactly when no known
     label has that code. `ShownLabelsUnique` shows each pins one label. */

  predicate MultiSimShown(l: MultiSimLabel, code: int) {
    && (l != MultiSimUnknown ==> MultiSimCode(l) == Some(code))
    && (l == MultiSimUnknown <==> forall k :: MultiSimCode(k) != Some(code))
  }

  predicate PhoneTypeShown(l: PhoneTypeLabel, code: int) {
    && (l != PhoneUnknown ==> PhoneTypeCode(l) == Some(code))
    && (l == PhoneUnknown <==> forall k :: PhoneTypeCode(k) != Some(code))
  }

  predicate SimStateShown(l: SimStateLabel, code: int) {
    && (l != SimUnknown ==> SimStateCode(l) == Some(code))
    && (l == SimUnknown <==> forall k :: SimStateCode(k) != Some(code))
  }

  predicate RadioStateShown(l: RadioStateLabel, code: int) {
    && (l != RadioUnknown ==> RadioStateCode(l) == Some(code))
    && (l == RadioUnknown <==> forall k :: RadioStateCode(k) != Some(code))
  }

  predicate DataStateShown(l: DataStateLabel, code: int) {
    && (l != DataUnknownLabel ==> DataStateCode(l) == Some(code))
    && (l == DataUnknownLabel <==> forall k :: DataStateCode(k) != Some(code))
  }

  predicate NetworkTypeShown(l: NetworkTypeLabel, code: int) {
    && (l != NetUnknown ==> NetworkTypeCode(l) == Some(code))
    && (l == NetUnknown <==> forall k :: NetworkTypeCode(k) != Some(code))
  }

  // ---------------------------------------------------------------- lemmas

  /** A code is shown by at most one label: distinct known labels have
      distinct codes, and the unknown label excludes every known one. */
  lemma ShownLabelsUnique()
    ensures forall a, b, c :: MultiSimShown(a, c) && MultiSimShown(b, c) ==> a == b
    ensures forall a, b, c :: PhoneTypeShown(a, c) && PhoneTypeShown(b, c) ==> a == b
    ensures forall a, b, c :: SimStateShown(a, c) && SimStateShown(b, c) ==> a == b
    ensures forall a, b, c :: RadioStateShown(a, c) && RadioStateShown(b, c) ==> a == b
    ensures forall a, b, c :: DataStateShown(a, c) && DataStateShown(b, c) ==> a == b
    ensures forall a, b, c :: NetworkTypeShown(a, c) && NetworkTypeShown(b, c) ==> a == b
  {
  }

  /** Every known label is produced by exactly its own code. */
  lemma LabelsRoundTrip()
    ensures forall l :: MultiSimCode(l).Some? ==> MultiSimCapableLabel(MultiSimCode(l).value) == l
    ensures forall l :: PhoneTypeCode(l).Some? ==> PhoneTypeLabelOf(PhoneTypeCode(l).value) == l
    ensures forall l :: SimStateCode(l).Some? ==> SimStateLabelOf(SimStateCode(l).value) == l
    ensures forall l :: RadioStateCode(l).Some? ==> RadioStateLabelOf(RadioStateCode(l).value) == l
    ensures forall l :: DataStateCode(l).Some? ==> DataStateLabelOf(DataStateCode(l).value) == l
    ensures forall l :: NetworkTypeCode(l).Some? ==> NetworkTypeLabelOf(NetworkTypeCode(l).value) == l
  {
  }

  /** The four radio states get four different labels, none of them unknown. */
  lemma RadioStatesDistinct()
    ensures RadioStateLabelOf(StateInService) == RadioInService
    ensures RadioStateLabelOf(StatePowerOff) == RadioOff
    ensures RadioStateLabelOf(StateEmergencyOnly) == RadioEmergency
    ensures RadioStateLabelOf(StateOutOfService) == RadioOutOfService
    ensures forall c :: RadioStateLabelOf(c) == RadioUnknown <==>
      c !in {StateInService, StatePowerOff, StateEmergencyOnly, StateOutOfService}
  {
  }

  /** The sentinel the permission fallbacks use is labelled "not by hardware". */
  lemma NotByHardwareLabel()
    ensures MultiSimCapableLabel(MultiSimNotSupportedByHardware) == MultiSimNotByHardware
  {
  }
}
