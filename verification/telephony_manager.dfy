/** The TelephonyManager snapshot builders. A read guarded by READ_PHONE_STATE
    that fails is replaced by fixed sentinel values; no builder lets the
    failure escape. */
module TelephonyManager {
  import opened Wrappers
  import opened Platform
  import opened Records

  /** getSimDetails: every accessor value lands in its field; the two
      carrier-id names are nullable reads turned into text with `toString()`,
      so a null read is stored as "null". */
  function GetSimDetails(tm: TelephonyReads): (r: SimDetails)
    ensures r.state == tm.sim.simState && r.carrierId == tm.sim.simCarrierId
    ensures tm.sim.simCarrierIdName.Some? ==> r.carrierIdName == tm.sim.simCarrierIdName.value
    ensures tm.sim.simCarrierIdName.None? ==> r.carrierIdName == "null"
    ensures r.countryIso == tm.sim.simCountryIso
    ensures r.operator == tm.sim.simOperator && r.operatorName == tm.sim.simOperatorName
    ensures r.specificCarrierId == tm.sim.simSpecificCarrierId
    ensures tm.sim.simSpecificCarrierIdName.Some? ==> r.specificCarrierIdName == tm.sim.simSpecificCarrierIdName.value
    ensures tm.sim.simSpecificCarrierIdName.None? ==> r.specificCarrierIdName == "null"
  {
    var sim := tm.sim;
    SimDetails(sim.simState, sim.simCarrierId, NullableToString(sim.simCarrierIdName), sim.simCountryIso,
               sim.simOperator, sim.simOperatorName, sim.simSpecificCarrierId,
               NullableToString(sim.simSpecificCarrierIdName))
  }

  /** The phone record a denied READ_PHONE_STATE produces. */
  predicate IsPhoneFallback(r: PhoneDetails, permRequired: string) {
    && r.deviceSoftwareVersion == Some(permRequired) && r.tac == Some(permRequired)
    && !r.isDataCapable && !r.isDataConnectionAllowed && !r.isDataEnabled
    && !r.isDataRoamingEnabled && !r.isVoiceCapable
    && r.isMultiSimSupported == MultiSimNotSupportedByHardware
    && r.phoneType == PhoneTypeNone
  }

  /** The fields read without a permission come from the device in both branches. */
  predicate FromDevice(r: PhoneDetails, device: DeviceReads) {
    && r.hasIccCard == device.hasIccCard
    && r.supportedModemCount == device.supportedModemCount
    && r.activeModemCount == device.activeModemCount
    && r.name == device.model && r.manufacturer == device.manufacturer
  }

  /** getPhoneDetails(permRequired) */
  function GetPhoneDetails(tm: TelephonyReads, permRequired: string): (r: PhoneDetails)
    ensures FromDevice(r, tm.device)
    ensures tm.phone.Denied? ==> IsPhoneFallback(r, permRequired)
    ensures tm.phone.Granted? ==>
      var p := tm.phone.values;
      && r.deviceSoftwareVersion == p.deviceSoftwareVersion && r.tac == p.typeAllocationCode
      && r.isDataCapable == p.isDataCapable && r.isDataConnectionAllowed == p.isDataConnectionAllowed
      && r.isDataEnabled == p.isDataEnabled && r.isDataRoamingEnabled == p.isDataRoamingEnabled
      && r.isMultiSimSupported == p.isMultiSimSupported && r.isVoiceCapable == p.isVoiceCapable
      && r.phoneType == p.phoneType
  {
    var d := tm.device;
    match tm.phone
    case Granted(p) =>
      PhoneDetails(p.deviceSoftwareVersion, d.hasIccCard, d.supportedModemCount, d.activeModemCount,
                   p.typeAllocationCode, p.isDataCapable, p.isDataConnectionAllowed, p.isDataEnabled,
                   p.isDataRoamingEnabled, p.isMultiSimSupported, p.isVoiceCapable, p.phoneType,
                   d.model, d.manufacturer)
    case Denied =>
      PhoneDetails(Some(permRequired), d.hasIccCard, d.supportedModemCount, d.activeModemCount,
                   Some(permRequired), false, false, false, false, MultiSimNotSupportedByHardware,
                   false, PhoneTypeNone, d.model, d.manufacturer)
  }

  /** The network fields a denied READ_PHONE_STATE blanks. */
  predicate IsNetworkFallback(r: MobileNetworkDetails) {
    && r.voiceNetworkType == NetworkTypeUnknown && r.dataNetworkType == NetworkTypeUnknown
    && r.equivalentHomePlmns == [] && r.forbiddenPlmns == []
    && r.groupIdLevel1 == Some("") && r.serviceState.None?
  }

  /** The fields read without a permission are populated in both branches. */
  predicate FromOpenReads(r: MobileNetworkDetails, n: NetworkReads) {
    && r.isRoaming == n.isNetworkRoaming && r.dataState == n.dataState
    && r.countryIso == n.networkCountryIso && r.operator == n.networkOperator
    && r.operatorName == n.networkOperatorName && r.signalStrength == n.signalStrength
  }

  /** getMobileNetworkDetails; a null forbidden-PLMN list becomes empty. */
  function GetMobileNetworkDetails(tm: TelephonyReads): (r: MobileNetworkDetails)
    ensures FromOpenReads(r, tm.network)
    ensures tm.networkPrivileged.Denied? ==> IsNetworkFallback(r)
    ensures tm.networkPrivileged.Granted? ==>
      var p := tm.networkPrivileged.values;
      && r.voiceNetworkType == p.voiceNetworkType && r.dataNetworkType == p.dataNetworkType
      && r.equivalentHomePlmns == p.equivalentHomePlmns
      && r.forbiddenPlmns == (if p.forbiddenPlmns.Some? then p.forbiddenPlmns.value else [])
      && r.groupIdLevel1 == p.groupIdLevel1 && r.serviceState == p.serviceState
  {
    var n := tm.network;
    match tm.networkPrivileged
    case Granted(p) =>
      var forbidden := if p.forbiddenPlmns.Some? then p.forbiddenPlmns.value else [];
      MobileNetworkDetails(p.voiceNetworkType, n.isNetworkRoaming, p.dataNetworkType, n.dataState,
                           p.equivalentHomePlmns, forbidden, p.groupIdLevel1, n.networkCountryIso,
                           n.networkOperator, n.networkOperatorName, p.serviceState, n.signalStrength)
    case Denied =>
      MobileNetworkDetails(NetworkTypeUnknown, n.isNetworkRoaming, NetworkTypeUnknown, n.dataState,
                           [], [], Some(""), n.networkCountryIso,
                           n.networkOperator, n.networkOperatorName, None, n.signalStrength)
  }

  /** Denying the permission changes only the permission-guarded phone
      fields: two devices that differ only in those reads yield the same
      fallback record. */
  lemma PhoneFallbackIgnoresGuardedReads(a: TelephonyReads, b: TelephonyReads, permRequired: string)
    requires a.phone.Denied? && b.phone.Denied? && a.device == b.device
    ensures GetPhoneDetails(a, permRequired) == GetPhoneDetails(b, permRequired)
  {
  }
}
