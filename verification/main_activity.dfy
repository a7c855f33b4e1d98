/** The main activity (MainActivity.kt): the display-state snapshot it builds
    on every resume, and the screen it shows as the activity is created,
    resumed and answered by the permission dialog. Compose layout is not
    modelled; a screen is the card shown. */
module MainActivity {
  import opened Wrappers
  import opened Platform
  import opened Records
  import Carriers
  import Formatters
  import TelephonyManager
  import Screens

  const PermissionRequired := "Permission required"

  /** The display state; the clock is replaced by a caller-supplied stamp. */
  datatype DisplayState = DisplayState(
    lastUpdated: nat,
    phoneState: PhoneDetails,
    simState: SimDetails,
    networkState: MobileNetworkDetails)

  /** Runtime failures the activity does not catch. */
  datatype Fault =
    | NullForbiddenPlmns        // a null list reaches a non-null parameter
    | LauncherNotInitialised    // the lateinit permission launcher is read unset

  // ------------------------------------------------------ display state

  /** The phone part of getDisplayState, with its own SecurityException fallback. */
  function DisplayPhoneState(tm: TelephonyReads): (p: PhoneDetails)
    ensures tm.phone.Denied? ==> TelephonyManager.IsPhoneFallback(p, PermissionRequired)
    ensures TelephonyManager.FromDevice(p, tm.device)
  {
    var d := tm.device;
    match tm.phone
    case Granted(ph) =>
      PhoneDetails(ph.deviceSoftwareVersion, d.hasIccCard, d.supportedModemCount, d.activeModemCount,
                   ph.typeAllocationCode, ph.isDataCapable, ph.isDataConnectionAllowed, ph.isDataEnabled,
                   ph.isDataRoamingEnabled, ph.isMultiSimSupported, ph.isVoiceCapable, ph.phoneType,
                   d.model, d.manufacturer)
    case Denied =>
      PhoneDetails(Some(PermissionRequired), d.hasIccCard, d.supportedModemCount, d.activeModemCount,
                   Some(PermissionRequired), false, false, false, false, MultiSimNotSupportedByHardware,
                   false, PhoneTypeNone, d.model, d.manufacturer)
  }

  /** The network fallback getDisplayState builds when a read is denied. */
  function NetworkFallback(n: NetworkReads): (r: MobileNetworkDetails)
    ensures TelephonyManager.IsNetworkFallback(r) && TelephonyManager.FromOpenReads(r, n)
  {
    MobileNetworkDetails(NetworkTypeUnknown, n.isNetworkRoaming, NetworkTypeUnknown, n.dataState,
                         [], [], Some(""), n.networkCountryIso,
                         n.networkOperator, n.networkOperatorName, None, n.signalStrength)
  }

  /** The SIM part of getDisplayState. */
  function DisplaySimState(tm: TelephonyReads): (s: SimDetails)
    ensures s == TelephonyManager.GetSimDetails(tm)
  {
    var sim := tm.sim;
    SimDetails(sim.simState, sim.simCarrierId, NullableToString(sim.simCarrierIdName), sim.simCountryIso,
               sim.simOperator, sim.simOperatorName, sim.simSpecificCarrierId,
               NullableToString(sim.simSpecificCarrierIdName))
  }

  /** getDisplayState as written: the forbidden-PLMN list is passed on
      unchecked, so a null list fails with an exception that is not a
      SecurityException and escapes the catch. */
  function GetDisplayStateAsWritten(tm: TelephonyReads, now: nat): (r: Result<DisplayState, Fault>)
    ensures r.Failure? <==> tm.networkPrivileged.Granted? && tm.networkPrivileged.values.forbiddenPlmns.None?
    ensures r.Failure? ==> r.error == NullForbiddenPlmns
    ensures r.Success? ==> r.value.networkState == TelephonyManager.GetMobileNetworkDetails(tm)
  {
    var phone := DisplayPhoneState(tm);
    var n := tm.network;
    match tm.networkPrivileged
    case Granted(p) =>
      if p.forbiddenPlmns.None? then Failure(NullForbiddenPlmns)
      else
        var network := MobileNetworkDetails(p.voiceNetworkType, n.isNetworkRoaming, p.dataNetworkType,
                                            n.dataState, p.equivalentHomePlmns, p.forbiddenPlmns.value,
                                            p.groupIdLevel1, n.networkCountryIso, n.networkOperator,
                                            n.networkOperatorName, p.serviceState, n.signalStrength);
        Success(DisplayState(now, phone, DisplaySimState(tm), network))
    case Denied =>
      Success(DisplayState(now, phone, DisplaySimState(tm), NetworkFallback(n)))
  }

  /** A device that reports no forbidden-PLMN list makes the as-written
      snapshot fail. */
  lemma NullForbiddenListEscapes(tm: TelephonyReads, now: nat)
    requires tm.networkPrivileged.Granted? && tm.networkPrivileged.values.forbiddenPlmns.None?
    ensures GetDisplayStateAsWritten(tm, now) == Failure(NullForbiddenPlmns)
    ensures TelephonyManager.GetMobileNetworkDetails(tm).forbiddenPlmns == []
  {
  }

  /** getDisplayState with the forbidden-PLMN list guarded as
      getMobileNetworkDetails guards it: a null list becomes empty. */
  function GetDisplayState(tm: TelephonyReads, now: nat): (r: DisplayState)
    ensures r.lastUpdated == now
    ensures r.phoneState == TelephonyManager.GetPhoneDetails(tm, PermissionRequired)
    ensures r.simState == TelephonyManager.GetSimDetails(tm)
    ensures r.networkState == TelephonyManager.GetMobileNetworkDetails(tm)
  {
    var n := tm.network;
    var network :=
      match tm.networkPrivileged
      case Granted(p) =>
        var forbidden := if p.forbiddenPlmns.None? then [] else p.forbiddenPlmns.value;
        MobileNetworkDetails(p.voiceNetworkType, n.isNetworkRoaming, p.dataNetworkType,
                             n.dataState, p.equivalentHomePlmns, forbidden,
                             p.groupIdLevel1, n.networkCountryIso, n.networkOperator,
                             n.networkOperatorName, p.serviceState, n.signalStrength)
      case Denied => NetworkFallback(n);
    DisplayState(now, DisplayPhoneState(tm), DisplaySimState(tm), network)
  }

  /** Where the as-written snapshot succeeds it is the corrected one. */
  lemma AsWrittenAgreesWhenListPresent(tm: TelephonyReads, now: nat)
    requires GetDisplayStateAsWritten(tm, now).Success?
    ensures GetDisplayStateAsWritten(tm, now).value == GetDisplayState(tm, now)
  {
  }

  // ------------------------------------------------------ cards

  /** NetworkInfoCard: the brand fallback and the PLMN join of the card
      screen, but the country code is shown as reported, not upper-cased. */
  function NetworkInfoCardOf(state: MobileNetworkDetails): (card: Screens.MobileNetworkCard)
    ensures card == Screens.MobileNetworkInfoCard(state).(countryIso := state.countryIso)
    ensures card.operatorBrand == Screens.OperatorBrand(state.operator, state.operatorName)
    ensures card.forbiddenPlmns == Screens.Join(Screens.DropLeadingEmpty(state.forbiddenPlmns))
  {
    var brand := Carriers.CarrierNameFromMccMnc(state.operator);
    Screens.JoinPlmnsIsJoin(state.forbiddenPlmns);
    Screens.MobileNetworkCard(
      Formatters.NetworkTypeLabelOf(state.voiceNetworkType),
      Formatters.NetworkTypeLabelOf(state.dataNetworkType),
      Screens.ServiceStateRowOf(state.serviceState),
      Formatters.DataStateLabelOf(state.dataState),
      state.isRoaming,
      state.countryIso,
      state.operator,
      state.operatorName,
      if brand == "" then state.operatorName else brand,
      if state.signalStrength.Some? then Some(state.signalStrength.value.level) else None,
      NullableToString(state.groupIdLevel1),
      Screens.JoinPlmns(state.equivalentHomePlmns),
      Screens.JoinPlmns(state.forbiddenPlmns))
  }

  /** SIMStateCard: every row of the card screen's SIM card, but the country
      code is shown as reported, not upper-cased. */
  function SimCardOf(sim: SimDetails): (card: Screens.SimCard)
    ensures Screens.SimRowsShown(card, sim)
    ensures card.countryIso == sim.countryIso
    ensures card == Screens.SimStateCardOf(sim).(countryIso := sim.countryIso)
  {
    Screens.SimCard(Formatters.SimStateLabelOf(sim.state), sim.countryIso, sim.carrierId, sim.carrierIdName,
                    sim.specificCarrierId, sim.specificCarrierIdName, sim.operator, sim.operatorName)
  }

  /** PhoneInfoCard of the main activity as written: the same rows as the card
      screen's, including the "data capable" row showing `isDataEnabled`. */
  function PhoneInfoCardAsWritten(state: PhoneDetails): (card: Screens.PhoneCard)
    ensures Screens.PhoneRowsShown(card, state)
    ensures card.dataCapable == state.isDataEnabled
    ensures card == Screens.PhoneInfoCardAsWritten(state)
  {
    Screens.PhoneCard(state.name, state.manufacturer, state.supportedModemCount, state.activeModemCount,
                      state.hasIccCard, Formatters.PhoneTypeLabelOf(state.phoneType), NullableToString(state.tac),
                      NullableToString(state.deviceSoftwareVersion), state.isVoiceCapable,
                      state.isDataEnabled, state.isDataConnectionAllowed, state.isDataEnabled,
                      state.isDataRoamingEnabled, Formatters.MultiSimCapableLabel(state.isMultiSimSupported))
  }

  /** The main activity's phone card misreports a data-capable device with
      mobile data switched off, as the card screen's does. */
  lemma DataCapableRowMisreports(state: PhoneDetails)
    requires state.isDataCapable && !state.isDataEnabled
    ensures PhoneInfoCardAsWritten(state).dataCapable != state.isDataCapable
  {
  }

  datatype MainCards = MainCards(lastUpdated: nat, phone: Screens.PhoneCard, sim: Screens.SimCard,
                                 network: Screens.MobileNetworkCard)

  /** MobileInfoCard of the main activity as written. */
  function MobileInfoCardAsWritten(d: DisplayState): (c: MainCards)
    ensures c.lastUpdated == d.lastUpdated
    ensures Screens.PhoneRowsShown(c.phone, d.phoneState)
    ensures c.phone.dataCapable == d.phoneState.isDataEnabled
    ensures Screens.SimRowsShown(c.sim, d.simState) && c.sim.countryIso == d.simState.countryIso
    ensures c.network.operatorBrand == Screens.OperatorBrand(d.networkState.operator, d.networkState.operatorName)
    ensures c.network == Screens.MobileNetworkInfoCard(d.networkState).(countryIso := d.networkState.countryIso)
  {
    MainCards(d.lastUpdated, PhoneInfoCardAsWritten(d.phoneState), SimCardOf(d.simState),
              NetworkInfoCardOf(d.networkState))
  }

  /** MobileInfoCard of the main activity with the "data capable" row showing
      `isDataCapable`; every other card and row is as written. */
  function MobileInfoCardOf(d: DisplayState): (c: MainCards)
    ensures Screens.PhoneRowsShown(c.phone, d.phoneState)
    ensures c.phone.dataCapable == d.phoneState.isDataCapable
    ensures c.(phone := c.phone.(dataCapable := d.phoneState.isDataEnabled)) == MobileInfoCardAsWritten(d)
  {
    MainCards(d.lastUpdated, Screens.PhoneInfoCardOf(d.phoneState), SimCardOf(d.simState),
              NetworkInfoCardOf(d.networkState))
  }

  // ------------------------------------------------------ activity

  datatype Screen =
    | NoContent
    | NoModemError
    | InfoScreen(state: DisplayState)
    | PermissionPrompt
    | PermissionDeniedError

  /** The activity: the card on screen, whether onCreate registered the
      permission launcher, and whether a permission request is outstanding. */
  datatype Activity = Activity(screen: Screen, launcherRegistered: bool, requestPending: bool)

  /** What happens to a created activity. The SIM, phone and network reads
      of a resume or a dialog answer are parameters. */
  datatype ActivityEvent =
    | Resume(granted: bool, showRationale: bool, tm: TelephonyReads, now: nat)
    | PermissionAnswered(isGranted: bool, tm: TelephonyReads, now: nat)
    | CancelPressed
    | ProceedPressed

  datatype Outcome = Running(activity: Activity) | Crashed(fault: Fault)

  /** onCreate: without the telephony feature the no-modem card is shown and
      the permission launcher is never registered. */
  function OnCreate(hasTelephony: bool): (a: Activity)
    ensures a.launcherRegistered <==> hasTelephony
    ensures a.screen == NoModemError <==> !hasTelephony
    ensures !a.requestPending
  {
    if hasTelephony then Activity(NoContent, true, false) else Activity(NoModemError, false, false)
  }

  /** onResume as written: granted shows the snapshot; otherwise the
      launcher is used, either through the rationale prompt or directly. */
  function OnResumeAsWritten(a: Activity, granted: bool, showRationale: bool, tm: TelephonyReads, now: nat): (o: Outcome)
    ensures granted ==>
      match GetDisplayStateAsWritten(tm, now)
      case Success(d) => o == Running(a.(screen := InfoScreen(d)))
      case Failure(f) => o == Crashed(f)
    ensures !granted && !a.launcherRegistered ==> o == Crashed(LauncherNotInitialised)
    ensures !granted && a.launcherRegistered && showRationale ==> o == Running(a.(screen := PermissionPrompt))
    ensures !granted && a.launcherRegistered && !showRationale ==> o == Running(a.(requestPending := true))
  {
    if granted then
      match GetDisplayStateAsWritten(tm, now)
      case Success(d) => Running(a.(screen := InfoScreen(d)))
      case Failure(f) => Crashed(f)
    else if !a.launcherRegistered then Crashed(LauncherNotInitialised)
    else if showRationale then Running(a.(screen := PermissionPrompt))
    else Running(a.(requestPending := true))
  }

  /** A device without telephony whose permission is not yet granted: the
      first resume after onCreate reads the unset launcher. */
  lemma NoModemResumeCrashes(tm: TelephonyReads, now: nat, showRationale: bool)
    ensures OnResumeAsWritten(OnCreate(false), false, showRationale, tm, now) == Crashed(LauncherNotInitialised)
  {
  }

  /** onResume with the early return of onCreate honoured: an activity whose
      launcher was never registered keeps the no-modem card. */
  function OnResume(a: Activity, granted: bool, showRationale: bool, tm: TelephonyReads, now: nat): (r: Activity)
    ensures !a.launcherRegistered ==> r == a
    ensures a.launcherRegistered && granted ==> r == a.(screen := InfoScreen(GetDisplayState(tm, now)))
    ensures a.launcherRegistered && !granted && showRationale ==> r == a.(screen := PermissionPrompt)
    ensures a.launcherRegistered && !granted && !showRationale ==> r == a.(requestPending := true)
  {
    if !a.launcherRegistered then a
    else if granted then a.(screen := InfoScreen(GetDisplayState(tm, now)))
    else if showRationale then a.(screen := PermissionPrompt)
    else a.(requestPending := true)
  }

  /** The launcher callback; an answer arrives only for an outstanding request. */
  function OnPermissionAnswered(a: Activity, isGranted: bool, tm: TelephonyReads, now: nat): (r: Activity)
    ensures !a.requestPending ==> r == a
    ensures a.requestPending ==> !r.requestPending && r.launcherRegistered == a.launcherRegistered
    ensures a.requestPending && isGranted ==> r.screen == InfoScreen(GetDisplayState(tm, now))
    ensures a.requestPending && !isGranted ==> r.screen == PermissionDeniedError
  {
    if !a.requestPending then a
    else if isGranted then Activity(InfoScreen(GetDisplayState(tm, now)), a.launcherRegistered, false)
    else Activity(PermissionDeniedError, a.launcherRegistered, false)
  }

  /** The launcher callback as written: a granted answer builds the snapshot
      with the as-written getDisplayState, so it fails as onResume does. */
  function OnPermissionAnsweredAsWritten(a: Activity, isGranted: bool, tm: TelephonyReads, now: nat): (o: Outcome)
    ensures !a.requestPending ==> o == Running(a)
    ensures a.requestPending && isGranted ==>
      match GetDisplayStateAsWritten(tm, now)
      case Success(d) => o == Running(Activity(InfoScreen(d), a.launcherRegistered, false))
      case Failure(f) => o == Crashed(f)
    ensures a.requestPending && !isGranted ==> o == Running(Activity(PermissionDeniedError, a.launcherRegistered, false))
  {
    if !a.requestPending then Running(a)
    else if isGranted then
      match GetDisplayStateAsWritten(tm, now)
      case Success(d) => Running(Activity(InfoScreen(d), a.launcherRegistered, false))
      case Failure(f) => Crashed(f)
    else Running(Activity(PermissionDeniedError, a.launcherRegistered, false))
  }

  /** Granting the permission on a device with no forbidden-PLMN list crashes
      the as-written callback; the corrected one shows the snapshot with an
      empty list. */
  lemma GrantedAnswerCrashes(a: Activity, tm: TelephonyReads, now: nat)
    requires a.requestPending
    requires tm.networkPrivileged.Granted? && tm.networkPrivileged.values.forbiddenPlmns.None?
    ensures OnPermissionAnsweredAsWritten(a, true, tm, now) == Crashed(NullForbiddenPlmns)
    ensures OnPermissionAnswered(a, true, tm, now).screen.InfoScreen?
    ensures OnPermissionAnswered(a, true, tm, now).screen.state.networkState.forbiddenPlmns == []
  {
  }

  /** The prompt's buttons exist only while the prompt is shown: Cancel shows
      the denied card, Proceed launches the request. */
  function OnPromptButton(a: Activity, proceed: bool): (r: Activity)
    ensures a.screen != PermissionPrompt ==> r == a
    ensures a.screen == PermissionPrompt && !proceed ==> r == a.(screen := PermissionDeniedError)
    ensures a.screen == PermissionPrompt && proceed ==> r == a.(requestPending := true)
  {
    if a.screen != PermissionPrompt then a
    else if proceed then a.(requestPending := true)
    else a.(screen := PermissionDeniedError)
  }

  function Step(a: Activity, e: ActivityEvent): Activity {
    match e
    case Resume(granted, showRationale, tm, now) => OnResume(a, granted, showRationale, tm, now)
    case PermissionAnswered(isGranted, tm, now) => OnPermissionAnswered(a, isGranted, tm, now)
    case CancelPressed => OnPromptButton(a, false)
    case ProceedPressed => OnPromptButton(a, true)
  }

  function StepAsWritten(a: Activity, e: ActivityEvent): Outcome {
    match e
    case Resume(granted, showRationale, tm, now) => OnResumeAsWritten(a, granted, showRationale, tm, now)
    case PermissionAnswered(isGranted, tm, now) => OnPermissionAnsweredAsWritten(a, isGranted, tm, now)
    case _ => Running(Step(a, e))
  }

  /** The activity after onCreate and the events in order. */
  function RunFrom(a: Activity, events: seq<ActivityEvent>): Activity
    decreases |events|
  {
    if |events| == 0 then a else RunFrom(Step(a, events[0]), events[1..])
  }

  function Run(hasTelephony: bool, events: seq<ActivityEvent>): Activity {
    RunFrom(OnCreate(hasTelephony), events)
  }

  /** Every state reachable from onCreate: a request is outstanding only
      through a registered launcher, and an unregistered launcher means the
      no-modem card. */
  predicate WellFormed(a: Activity) {
    && (a.requestPending ==> a.launcherRegistered)
    && (!a.launcherRegistered ==> a.screen == NoModemError)
  }

  lemma {:induction false} RunPreservesWellFormed(a: Activity, events: seq<ActivityEvent>)
    requires WellFormed(a)
    ensures WellFormed(RunFrom(a, events))
    ensures RunFrom(a, events).launcherRegistered == a.launcherRegistered
    decreases |events|
  {
    if |events| > 0 {
      RunPreservesWellFormed(Step(a, events[0]), events[1..]);
    }
  }

  /** A device without telephony shows the no-modem card for ever. */
  lemma NoModemScreenIsPermanent(events: seq<ActivityEvent>)
    ensures Run(false, events).screen == NoModemError
  {
    RunPreservesWellFormed(OnCreate(false), events);
  }

  /** Whether an event builds a snapshot: a granted resume, or a granted
      answer to an outstanding request. */
  predicate BuildsSnapshot(a: Activity, e: ActivityEvent) {
    || (e.Resume? && e.granted)
    || (e.PermissionAnswered? && e.isGranted && a.requestPending)
  }

  /** On a device with telephony, whenever the snapshot an event builds has a
      forbidden-PLMN list, the as-written and corrected activities take the
      same step. */
  lemma StepAsWrittenAgrees(a: Activity, e: ActivityEvent)
    requires a.launcherRegistered
    requires BuildsSnapshot(a, e) ==> GetDisplayStateAsWritten(e.tm, e.now).Success?
    ensures StepAsWritten(a, e) == Running(Step(a, e))
  {
    if BuildsSnapshot(a, e) {
      AsWrittenAgreesWhenListPresent(e.tm, e.now);
    }
  }

  /** The usual first launch: resume without permission, the dialog is
      granted, and the snapshot is on screen. */
  lemma GrantedOnFirstLaunchShowsInfo(tm: TelephonyReads, now: nat, tm2: TelephonyReads, later: nat)
    ensures Run(true, [Resume(false, false, tm, now), PermissionAnswered(true, tm2, later)]).screen
            == InfoScreen(GetDisplayState(tm2, later))
  {
    var events := [Resume(false, false, tm, now), PermissionAnswered(true, tm2, later)];
    var a1 := Step(OnCreate(true), events[0]);
    assert a1.requestPending;
    assert events[1..] == [PermissionAnswered(true, tm2, later)];
    assert events[1..][1..] == [];
    assert RunFrom(a1, events[1..]) == RunFrom(Step(a1, events[1]), []);
  }
}
