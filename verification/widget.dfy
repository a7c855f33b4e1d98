/** The home-screen widget (MobileNetworkWidget.kt): the permission gate, the
    MobileInfo it builds from the telephony reads, and the two texts it shows. */
module Widget {
  import opened Wrappers
  import opened Platform
  import opened Records
  import opened Screens

  /** The two texts of the widget card: the operator code and its name. */
  datatype WidgetCard = WidgetCard(operator: string, name: string)

  datatype WidgetView = PermissionsRequiredCard | InfoCard(info: MobileInfo, card: WidgetCard)

  const Dash := "-"

  /** Whether the radio state has an operator worth naming. */
  predicate HasOperator(radioState: int) {
    radioState == StateInService || radioState == StateEmergencyOnly
  }

  /** MobileInfoWidgetCard: dashes unless the radio is in service or
      emergency-only; otherwise the operator code and the brand, falling back
      to the reported operator name when the code is not listed. */
  function MobileInfoWidgetCard(info: MobileInfo): (c: WidgetCard)
    ensures !HasOperator(info.radioState) ==> c == WidgetCard(Dash, Dash)
    ensures HasOperator(info.radioState) ==>
      && c.operator == info.operator
      && c.name == OperatorBrand(info.operator, info.operatorName)
    ensures HasOperator(info.radioState) && c.name == "" ==> info.operatorName == ""
  {
    if HasOperator(info.radioState) then
      var listed := Carriers.CarrierNameFromMccMnc(info.operator);
      WidgetCard(info.operator, if listed == "" then info.operatorName else listed)
    else
      WidgetCard(Dash, Dash)
  }

  /** Content: the permission gate and the MobileInfo; a missing ServiceState
      is read as OUT_OF_SERVICE. */
  function WidgetContent(granted: bool, network: NetworkReads, privileged: NetworkPrivilegedReads): (v: WidgetView)
    ensures v.PermissionsRequiredCard? <==> !granted
    ensures v.InfoCard? ==>
      && v.info.operator == network.networkOperator
      && v.info.operatorName == network.networkOperatorName
      && v.info.dataState == network.dataState
      && v.info.networkType == privileged.dataNetworkType
      && v.info.radioState == (if privileged.serviceState.Some? then privileged.serviceState.value.state
                               else StateOutOfService)
      && v.card == MobileInfoWidgetCard(v.info)
  {
    if !granted then PermissionsRequiredCard
    else
      var radio := if privileged.serviceState.None? then StateOutOfService else privileged.serviceState.value.state;
      var info := MobileInfo(network.networkOperator, network.networkOperatorName, network.dataState,
                             privileged.dataNetworkType, radio);
      InfoCard(info, MobileInfoWidgetCard(info))
  }

  /** With no ServiceState the widget shows dashes, whatever the operator. */
  lemma NoServiceStateShowsDashes(network: NetworkReads, privileged: NetworkPrivilegedReads)
    requires privileged.serviceState.None?
    ensures WidgetContent(true, network, privileged).card == WidgetCard(Dash, Dash)
  {
  }

  /** In service, the widget names the operator exactly as the network card
      of the main screen does for the same reads. */
  lemma WidgetAgreesWithNetworkCard(details: MobileNetworkDetails, info: MobileInfo)
    requires info.operator == details.operator && info.operatorName == details.operatorName
    requires HasOperator(info.radioState)
    ensures MobileInfoWidgetCard(info).name == MobileNetworkInfoCard(details).operatorBrand
    ensures MobileInfoWidgetCard(info).operator == MobileNetworkInfoCard(details).operator
  {
  }
}
