# Mobile Info: a Dafny model of the snapshot, update and display rules

Mobile Info is an Android app that shows the state of the phone's cellular
connection. It has a main screen, a card screen and a home-screen widget. This
project models the app's decision logic as pure Dafny functions over immutable
records:

- **Carrier lookup and formatters** (`Carriers`, `Formatters`). The
  six-digit MCC+MNC brand table is an exact-match lookup: any key that is not
  listed gives `""`. The six code-to-label switches each end in an "unknown"
  label. Every label has an inverse `…Code` function, and the two are proved
  to round-trip.
- **Snapshot builders** (`TelephonyManager`, `ConnectivityManager`,
  `MainActivity.GetDisplayState`). Platform reads are inputs. A read guarded by
  READ_PHONE_STATE is `Granted(values) | Denied`. A nullable read is an
  `Option`. A denied read gives the fixed fallback record the source builds
  in its `catch (SecurityException)` branch.
- **Deltas from the platform callbacks** (`TelephonyCallback`,
  `ConnectivityCallback`). Each handler copies the previous record with one or
  two fields replaced. Its contract names the fields written, and an
  "all other fields agree" predicate over a field enum (`Records`) says
  nothing else changes. A store pairs the published record with a
  last-updated counter that every event increments. The source's `!!` on the
  previous record is a `requires`.
- **Display decisions** (`Screens`, `Widget`, `MainActivity`):
  - the brand falls back to the operator name;
  - PLMN lists are joined with `", "`, with the separator added only once the
    text is non-empty;
  - IP-network details are gated on AVAILABLE;
  - a missing service state is handled;
  - the widget shows an operator only when the radio is in service or
    emergency-only;
  - the main activity's permission state machine.

The main activity and the card screen carry parallel record types with the
same fields (`PhoneState` and `PhoneDetails`, `SIMState` and
`SimDetails`, `MobileNetworkState` and `MobileNetworkDetails`). They share
one Dafny datatype each.

Android constants use the platform API values:

- ServiceState: IN_SERVICE 0, OUT_OF_SERVICE 1, EMERGENCY_ONLY 2, POWER_OFF 3.
- SIM_STATE: 0 to 9.
- DATA_*: -1 to 4.
- NETWORK_TYPE_*: 0 to 18, and NR is 20.
- MULTISIM: 0 to 2.
- PHONE_TYPE: 0 to 3.
- TRANSPORT_CELLULAR is 0 and NET_CAPABILITY_CAPTIVE_PORTAL is 17.

The clock (`LocalDateTime.now()`) is replaced by a counter or by a
caller-supplied `nat` stamp.

The code and its description disagree in one place, and the model follows
the code. An UNAVAILABLE record has empty fields only when
`getMobileIpNetworkDetails` builds it. The `onUnavailable` callback sets
only the availability and keeps the other fields
(`ConnectivityCallback.UnavailableEventKeepsDetails`).

## Model

| member | source | states |
|---|---|---|
| Carriers.Mcc302 | app/src/main/java/ca/rmrobinson/mobileinfo/Utilities.kt:19-49 | every MCC 302 (Canada) entry gives a non-empty brand |
| Carriers.Mcc310 | app/src/main/java/ca/rmrobinson/mobileinfo/Utilities.kt:50-111 | every MCC 310 entry gives a non-empty brand |
| Carriers.Mcc311 | app/src/main/java/ca/rmrobinson/mobileinfo/Utilities.kt:112-168 | every MCC 311 entry gives a non-empty brand |
| Carriers.Mcc312 | app/src/main/java/ca/rmrobinson/mobileinfo/Utilities.kt:169-204 | every MCC 312 entry gives a non-empty brand |
| Carriers.Mcc313 | app/src/main/java/ca/rmrobinson/mobileinfo/Utilities.kt:205-218 | every MCC 313 entry gives a non-empty brand |
| Carriers.BrandOf | app/src/main/java/ca/rmrobinson/mobileinfo/Utilities.kt:17-223 | a key has a brand only if it is six digits; every listed brand is non-empty |
| Carriers.KeyCodesInjective | app/src/main/java/ca/rmrobinson/mobileinfo/Utilities.kt:18-219 | two six-digit keys with the same MCC and MNC codes are the same string, so matching on the codes is the string `when`'s exact match |
| Carriers.CarrierNameFromMccMnc | app/src/main/java/ca/rmrobinson/mobileinfo/Utilities.kt:17-223 | the result is the listed brand, and it is `""` exactly when the key is not listed |
| Carriers.UnlistedShapeHasNoBrand | app/src/main/java/ca/rmrobinson/mobileinfo/Utilities.kt:219 | a key that is not six digits gives `""` |
| Carriers.ListedBrands302 | app/src/main/java/ca/rmrobinson/mobileinfo/Utilities.kt:21-37 | 302610 gives Bell Mobility and 302220 gives Telus Mobility |
| Carriers.ListedBrands310 | app/src/main/java/ca/rmrobinson/mobileinfo/Utilities.kt:50-75 | 310260 gives T-Mobile and 310004 gives Verizon |
| Carriers.ListedBrands311 | app/src/main/java/ca/rmrobinson/mobileinfo/Utilities.kt:113-143 | 311480 and 311012 both give Verizon |
| Carriers.ListedBrands312And313 | app/src/main/java/ca/rmrobinson/mobileinfo/Utilities.kt:198-212 | 312670 gives FirstNet and 313340 gives Dish |
| Carriers.ExactMatchOnly | app/src/main/java/ca/rmrobinson/mobileinfo/Utilities.kt:219 | a neighbouring code, a prefix, an extension and the empty string all give `""` |
| Carriers.SharedBrand | app/src/main/java/ca/rmrobinson/mobileinfo/Utilities.kt:33-34 | 302500 and 302510 both give Videotron, so the table is not injective |
| Formatters.MultiSimCapableLabel | app/src/main/java/ca/rmrobinson/mobileinfo/Utilities.kt:226-233 | a known label's code is the input; the unknown label is used exactly when no label has that code |
| Formatters.PhoneTypeLabelOf | app/src/main/java/ca/rmrobinson/mobileinfo/Utilities.kt:236-244 | the same, for phone types |
| Formatters.SimStateLabelOf | app/src/main/java/ca/rmrobinson/mobileinfo/Utilities.kt:247-260 | the same, for the ten SIM states |
| Formatters.RadioStateLabelOf | app/src/main/java/ca/rmrobinson/mobileinfo/Utilities.kt:263-271 | the same, for the four service states |
| Formatters.DataStateLabelOf | app/src/main/java/ca/rmrobinson/mobileinfo/Utilities.kt:274-283 | the same, for data-connection states |
| Formatters.NetworkTypeLabelOf | app/src/main/java/ca/rmrobinson/mobileinfo/Utilities.kt:286-309 | the same, for network types |
| Formatters.LabelsRoundTrip | app/src/main/java/ca/rmrobinson/mobileinfo/Utilities.kt:226-309 | every label's code maps back to that label, in all six formatters |
| Formatters.RadioStatesDistinct | app/src/main/java/ca/rmrobinson/mobileinfo/Utilities.kt:263-270 | the four service states get four distinct labels, and any other code is unknown |
| Formatters.NotByHardwareLabel | app/src/main/java/ca/rmrobinson/mobileinfo/Utilities.kt:229 | MULTISIM_NOT_SUPPORTED_BY_HARDWARE gets the not-by-hardware label |
| Formatters.ShownLabelsUnique | app/src/main/java/ca/rmrobinson/mobileinfo/Utilities.kt:226-309 | the "shown label" characterisation (a known label with that code, or unknown exactly when no label has it) pins exactly one label per code, for all six formatters |
| TelephonyCallback.ApplyServiceState | app/src/main/java/ca/rmrobinson/mobileinfo/TelephonyManagerCallback.kt:13-28 | the service state is stored and roaming follows it; OUT_OF_SERVICE clears operator, name and country and sets roaming to false; any other state keeps them; no other field changes |
| TelephonyCallback.ApplyDataConnectionState | app/src/main/java/ca/rmrobinson/mobileinfo/TelephonyManagerCallback.kt:30-37 | only the data network type and data state change |
| TelephonyCallback.ApplyUserMobileDataState | app/src/main/java/ca/rmrobinson/mobileinfo/TelephonyManagerCallback.kt:39-46 | only `isDataEnabled` of the phone record changes |
| TelephonyCallback.Handle | app/src/main/java/ca/rmrobinson/mobileinfo/TelephonyManagerCallback.kt:13-46 | needs the previous snapshot; advances the stamp by one; the user-data event alone touches the phone record, and the other two events alone touch the network record |
| TelephonyCallback.Replay | app/src/main/java/ca/rmrobinson/mobileinfo/TelephonyManagerCallback.kt:13-46 | a store with both snapshots keeps both through any run of events |
| TelephonyCallback.OutOfServiceForgetsIdentity | app/src/main/java/ca/rmrobinson/mobileinfo/TelephonyManagerCallback.kt:19-24 | after OUT_OF_SERVICE the result does not depend on the previous operator, name, country or roaming values |
| TelephonyCallback.ServiceStateIdempotent | app/src/main/java/ca/rmrobinson/mobileinfo/TelephonyManagerCallback.kt:13-28 | applying the same service state twice equals applying it once |
| TelephonyCallback.DataConnectionIdempotent | app/src/main/java/ca/rmrobinson/mobileinfo/TelephonyManagerCallback.kt:33-34 | applying the same data-connection event twice equals applying it once |
| TelephonyCallback.ServiceAndDataConnectionCommute | app/src/main/java/ca/rmrobinson/mobileinfo/TelephonyManagerCallback.kt:13-37 | service-state and data-connection events write disjoint fields, so their order does not matter |
| TelephonyCallback.ReplayAdvancesStamp | app/src/main/java/ca/rmrobinson/mobileinfo/TelephonyManagerCallback.kt:27-44 | after n events the stamp is n higher |
| TelephonyCallback.PhoneOnlyChangedByUserDataEvents | app/src/main/java/ca/rmrobinson/mobileinfo/TelephonyManagerCallback.kt:39-46 | a run without user-data events leaves the phone record as it was |
| TelephonyCallback.SnapshotOnlyFieldsPersist | app/src/main/java/ca/rmrobinson/mobileinfo/TelephonyManagerCallback.kt:13-37 | over any run, the voice network type, the home and forbidden PLMNs, the group id and the signal strength keep their snapshot values |
| ConnectivityManager.HostAddresses | app/src/main/java/ca/rmrobinson/mobileinfo/ConnectivityManager.kt:33-41 | one entry per host, in order, with a null host shown as `""` |
| ConnectivityManager.GetMobileIpNetworkDetails | app/src/main/java/ca/rmrobinson/mobileinfo/ConnectivityManager.kt:11-56 | UNAVAILABLE exactly when capabilities or link properties are missing or not cellular, and then all fields are empty; otherwise AVAILABLE with the link's fields, with blocked meaning "has a captive portal"; never metered |
| ConnectivityCallback.SetAvailability | app/src/main/java/ca/rmrobinson/mobileinfo/ConnectivityManagerCallback.kt:15-25 | only the availability changes |
| ConnectivityCallback.OnBlockedStatusChanged | app/src/main/java/ca/rmrobinson/mobileinfo/ConnectivityManagerCallback.kt:27-37 | only `isBlocked` changes |
| ConnectivityCallback.OnCapabilitiesChanged | app/src/main/java/ca/rmrobinson/mobileinfo/ConnectivityManagerCallback.kt:51-62 | only the capabilities and the signal strength change |
| ConnectivityCallback.OnLinkPropertiesChanged | app/src/main/java/ca/rmrobinson/mobileinfo/ConnectivityManagerCallback.kt:64-87 | addresses and DNS servers keep the input's length and order, with null shown as `""`; the domains and interface name are replaced; nothing else changes |
| ConnectivityCallback.Apply | app/src/main/java/ca/rmrobinson/mobileinfo/ConnectivityManagerCallback.kt:15-111 | each of the seven events writes only its own fields; onAvailable, onUnavailable, onLosing and onLost set AVAILABLE, UNAVAILABLE, LOSING and LOST |
| ConnectivityCallback.Handle | app/src/main/java/ca/rmrobinson/mobileinfo/ConnectivityManagerCallback.kt:18-24 | needs the previous snapshot; publishes the delta and advances the stamp by one |
| ConnectivityCallback.Replay | app/src/main/java/ca/rmrobinson/mobileinfo/ConnectivityManagerCallback.kt:15-111 | a store with a snapshot keeps one through any run of events, and each event raises the stamp by one |
| ConnectivityCallback.NoTransitionGuard | app/src/main/java/ca/rmrobinson/mobileinfo/ConnectivityManagerCallback.kt:22-108 | from any record, some event installs any chosen availability |
| ConnectivityCallback.MeteredNeverChanges | app/src/main/java/ca/rmrobinson/mobileinfo/ConnectivityManagerCallback.kt:11-112 | no run of events changes `isMetered` |
| ConnectivityCallback.ReplayAdvancesStamp | app/src/main/java/ca/rmrobinson/mobileinfo/ConnectivityManagerCallback.kt:15-111 | after n events the stamp is n higher |
| ConnectivityCallback.LinkPropertiesIdempotent | app/src/main/java/ca/rmrobinson/mobileinfo/ConnectivityManagerCallback.kt:64-87 | repeating link properties the record already shows changes only the stamp |
| ConnectivityCallback.SnapshotIsFixedPoint | app/src/main/java/ca/rmrobinson/mobileinfo/ConnectivityManager.kt:33-55 | the fresh snapshot already holds what a later link-properties or capabilities event with the same values would write |
| ConnectivityCallback.UnavailableEventKeepsDetails | app/src/main/java/ca/rmrobinson/mobileinfo/ConnectivityManagerCallback.kt:39-49 | onUnavailable sets UNAVAILABLE but keeps the old addresses, so the record is not the empty one |
| TelephonyManager.GetSimDetails | app/src/main/java/ca/rmrobinson/mobileinfo/TelephonyManager.kt:5-16 | each SIM accessor's value lands in its field; the two nullable carrier-id names go through `toString()`, so a null read is stored as "null" |
| TelephonyManager.GetPhoneDetails | app/src/main/java/ca/rmrobinson/mobileinfo/TelephonyManager.kt:18-54 | when denied: the version and TAC are the sentinel, every flag is false, multi-SIM is NOT_SUPPORTED_BY_HARDWARE and the type is NONE; when granted: the guarded values; in both cases the unguarded device values |
| TelephonyManager.PhoneFallbackIgnoresGuardedReads | app/src/main/java/ca/rmrobinson/mobileinfo/TelephonyManager.kt:36-53 | when denied, the record depends only on the unguarded device reads |
| TelephonyManager.GetMobileNetworkDetails | app/src/main/java/ca/rmrobinson/mobileinfo/TelephonyManager.kt:56-93 | when denied: UNKNOWN types, empty PLMN lists, group id `""` and no service state; when granted: the guarded values, with a null forbidden list becoming empty; roaming, data state, country, operator, name and signal in both cases |
| Screens.OperatorBrand | app/src/main/java/ca/rmrobinson/mobileinfo/Screens.kt:240-243 | the listed brand when there is one, otherwise the operator name; empty only when neither exists |
| Screens.DropLeadingEmpty | app/src/main/java/ca/rmrobinson/mobileinfo/Screens.kt:245-250 | the longest suffix of the list that does not start with an empty string: every dropped element is empty, and the result is empty or starts with a non-empty element |
| Screens.JoinFromNonEmpty | app/src/main/java/ca/rmrobinson/mobileinfo/Screens.kt:246-251 | once the text is non-empty, every further element is preceded by `", "` |
| Screens.JoinPlmnsIsJoin | app/src/main/java/ca/rmrobinson/mobileinfo/Screens.kt:245-259 | the displayed list is the plain `", "` join of the list without its leading empty strings |
| Screens.JoinPlmnsOfNonEmpty | app/src/main/java/ca/rmrobinson/mobileinfo/Screens.kt:245-259 | with no empty elements, the display is the plain join: in order, with no leading or trailing separator |
| Screens.JoinSkipsLeadingEmpty | app/src/main/java/ca/rmrobinson/mobileinfo/Screens.kt:247-250 | `["", "a"]` shows `"a"`: a leading empty element suppresses the next separator |
| Screens.JoinKeepsInnerEmpty | app/src/main/java/ca/rmrobinson/mobileinfo/Screens.kt:247-250 | `["a", "", "b"]` shows `"a, , b"`: an empty element after a non-empty one still gets its separator |
| Screens.Uppercase | app/src/main/java/ca/rmrobinson/mobileinfo/Screens.kt:306 | upper-casing keeps the length and upper-cases each ASCII letter in place |
| Screens.UppercaseIsUpper | app/src/main/java/ca/rmrobinson/mobileinfo/Screens.kt:167 | the result has no lower-case ASCII letter, and upper-casing twice equals upper-casing once |
| Screens.ServiceStateRowOf | app/src/main/java/ca/rmrobinson/mobileinfo/Screens.kt:289-300 | "unavailable" exactly when there is no service state; otherwise the channel and the radio-state label shown for the state (its own label for the four states, unknown exactly for any other code) |
| Screens.MobileNetworkInfoCard | app/src/main/java/ca/rmrobinson/mobileinfo/Screens.kt:239-324 | every row: the type and data-state labels shown for the codes, the service-state row, roaming, the upper-cased country, operator and name, the brand fallback, the signal level exactly when a signal strength exists, the group id's text ("null" for null), and both PLMN joins |
| Screens.IpNetworkCardOf | app/src/main/java/ca/rmrobinson/mobileinfo/Screens.kt:183-236 | detail rows exactly when AVAILABLE; LOSING, LOST and UNAVAILABLE show the not-available row; a null domain list shows as `""`; requires an interface name when AVAILABLE, as the source's `!!` does |
| Screens.NullInterfaceNameReachesIpCard | app/src/main/java/ca/rmrobinson/mobileinfo/Screens.kt:210 | a cellular network whose link properties have no interface name reaches the IP card as AVAILABLE without a name, from the builder and from a link-properties event |
| Screens.SimStateCardOf | app/src/main/java/ca/rmrobinson/mobileinfo/Screens.kt:143-180 | every row: the SIM-state label shown for the code, the upper-cased country, both carrier ids and their names, operator and operator name |
| Screens.PhoneInfoCardAsWritten | app/src/main/java/ca/rmrobinson/mobileinfo/Screens.kt:86-140 | every row from the record (the version and TAC as their text, "null" for null; the labels shown for the type and multi-SIM codes), with the "data capable" row showing `isDataEnabled` |
| Screens.DataCapableRowMisreports | app/src/main/java/ca/rmrobinson/mobileinfo/Screens.kt:123-124 | a device that is data-capable but has mobile data off is shown as not data-capable |
| Screens.PhoneInfoCardOf | app/src/main/java/ca/rmrobinson/mobileinfo/Screens.kt:86-140 | the corrected card: the "data capable" row shows `isDataCapable`, and every other row is the as-written card's |
| Screens.MobileInfoCardAsWritten | app/src/main/java/ca/rmrobinson/mobileinfo/Screens.kt:327-368 | requires all five published values and an interface name for an available IP network, as the `!!`s do; keeps the stamp; the network card is the card screen's network card and the IP card its IP card; every SIM row, with the country upper-cased; every phone row, with the "data capable" row showing `isDataEnabled` |
| Screens.MobileInfoCard | app/src/main/java/ca/rmrobinson/mobileinfo/Screens.kt:327-368 | the corrected top-level card: requires all five published values and an interface name for an available IP network, as the `!!`s do; the phone card shows `isDataCapable`, and the screen is otherwise the as-written one |
| Widget.MobileInfoWidgetCard | app/src/main/java/ca/rmrobinson/mobileinfo/widget/MobileNetworkWidget.kt:90-101 | dashes unless the radio is IN_SERVICE or EMERGENCY_ONLY; then the operator verbatim and the brand, falling back to the operator name |
| Widget.WidgetContent | app/src/main/java/ca/rmrobinson/mobileinfo/widget/MobileNetworkWidget.kt:29-56 | the permissions card exactly when permission is missing; otherwise MobileInfo from the reads, with a null service state read as OUT_OF_SERVICE |
| Widget.NoServiceStateShowsDashes | app/src/main/java/ca/rmrobinson/mobileinfo/widget/MobileNetworkWidget.kt:41-44 | with no service state the widget shows dashes, whatever the operator |
| Widget.WidgetAgreesWithNetworkCard | app/src/main/java/ca/rmrobinson/mobileinfo/widget/MobileNetworkWidget.kt:93-100 | in service, the widget names the operator as the card screen's brand row does |
| MainActivity.DisplayPhoneState | app/src/main/java/ca/rmrobinson/mobileinfo/MainActivity.kt:139-173 | when denied: the "Permission required" fallback with the unguarded device values |
| MainActivity.NetworkFallback | app/src/main/java/ca/rmrobinson/mobileinfo/MainActivity.kt:190-205 | UNKNOWN types, empty PLMN lists, group id `""` and no service state; the unguarded reads are kept |
| MainActivity.DisplaySimState | app/src/main/java/ca/rmrobinson/mobileinfo/MainActivity.kt:210-219 | the SIM part equals the SIM builder's record |
| MainActivity.GetDisplayStateAsWritten | app/src/main/java/ca/rmrobinson/mobileinfo/MainActivity.kt:135-222 | fails exactly when the network read is granted and the forbidden-PLMN list is null; otherwise the network part equals the network builder's record |
| MainActivity.NullForbiddenListEscapes | app/src/main/java/ca/rmrobinson/mobileinfo/MainActivity.kt:182 | a null forbidden list makes the as-written snapshot fail, where the network builder shows an empty list |
| MainActivity.GetDisplayState | app/src/main/java/ca/rmrobinson/mobileinfo/MainActivity.kt:135-222 | each part of the snapshot equals the corresponding builder's record, with the sentinel "Permission required" |
| MainActivity.AsWrittenAgreesWhenListPresent | app/src/main/java/ca/rmrobinson/mobileinfo/MainActivity.kt:175-189 | where the as-written snapshot succeeds, it equals the guarded one |
| MainActivity.NetworkInfoCardOf | app/src/main/java/ca/rmrobinson/mobileinfo/MainActivity.kt:363-438 | the same brand fallback and PLMN join as the card screen, but the country is not upper-cased |
| MainActivity.SimCardOf | app/src/main/java/ca/rmrobinson/mobileinfo/MainActivity.kt:330-360 | every row of the card screen's SIM card, but the country is shown as reported, not upper-cased |
| MainActivity.PhoneInfoCardAsWritten | app/src/main/java/ca/rmrobinson/mobileinfo/MainActivity.kt:285-327 | the same rows as the card screen's phone card, with the "data capable" row showing `isDataEnabled` |
| MainActivity.DataCapableRowMisreports | app/src/main/java/ca/rmrobinson/mobileinfo/MainActivity.kt:315 | a data-capable device with mobile data off is shown as not data-capable |
| MainActivity.MobileInfoCardAsWritten | app/src/main/java/ca/rmrobinson/mobileinfo/MainActivity.kt:441-451 | keeps the stamp; the phone card shows `isDataEnabled` as "data capable"; every SIM row with the country as reported; the network card is the card screen's network card with the country as reported |
| MainActivity.MobileInfoCardOf | app/src/main/java/ca/rmrobinson/mobileinfo/MainActivity.kt:441-451 | the corrected main-activity card: the phone card shows `isDataCapable`, and everything else is the as-written card |
| MainActivity.OnCreate | app/src/main/java/ca/rmrobinson/mobileinfo/MainActivity.kt:44-83 | without telephony: the no-modem card and no registered launcher; with telephony: the launcher is registered |
| MainActivity.OnResumeAsWritten | app/src/main/java/ca/rmrobinson/mobileinfo/MainActivity.kt:85-125 | granted: the snapshot, or the crash of the as-written snapshot; not granted: the rationale prompt or a request, checked in that order, and a crash when the launcher is not registered |
| MainActivity.NoModemResumeCrashes | app/src/main/java/ca/rmrobinson/mobileinfo/MainActivity.kt:49-122 | on a device without telephony, the first resume without permission reads the unset launcher |
| MainActivity.OnResume | app/src/main/java/ca/rmrobinson/mobileinfo/MainActivity.kt:85-125 | the same three branches in the same order, for an activity whose launcher is registered; without one, nothing changes |
| MainActivity.OnPermissionAnswered | app/src/main/java/ca/rmrobinson/mobileinfo/MainActivity.kt:59-81 | the corrected callback: a granted answer shows the guarded snapshot and a denied one shows the error card; without an outstanding request nothing changes |
| MainActivity.OnPermissionAnsweredAsWritten | app/src/main/java/ca/rmrobinson/mobileinfo/MainActivity.kt:59-81 | a granted answer shows the as-written snapshot, or crashes when that snapshot fails; a denied answer shows the error card; without an outstanding request nothing changes |
| MainActivity.GrantedAnswerCrashes | app/src/main/java/ca/rmrobinson/mobileinfo/MainActivity.kt:59-66 | granting the permission with a null forbidden list crashes the as-written callback, while the corrected one shows the snapshot with an empty list |
| MainActivity.OnPromptButton | app/src/main/java/ca/rmrobinson/mobileinfo/MainActivity.kt:240-256 | on the prompt, Cancel shows the error card and Proceed launches the request; on any other screen nothing changes |
| MainActivity.RunPreservesWellFormed | app/src/main/java/ca/rmrobinson/mobileinfo/MainActivity.kt:44-125 | a request is outstanding only through a registered launcher; an unregistered launcher means the no-modem card; no event registers or drops the launcher |
| MainActivity.NoModemScreenIsPermanent | app/src/main/java/ca/rmrobinson/mobileinfo/MainActivity.kt:49-54 | on a device without telephony, the no-modem card stays after any events |
| MainActivity.StepAsWrittenAgrees | app/src/main/java/ca/rmrobinson/mobileinfo/MainActivity.kt:59-125 | with a registered launcher, and a forbidden list present whenever the event builds a snapshot (a granted resume or a granted answer), the as-written activity takes the same step as the corrected one |
| MainActivity.GrantedOnFirstLaunchShowsInfo | app/src/main/java/ca/rmrobinson/mobileinfo/MainActivity.kt:56-122 | a first resume without permission and then a granted answer show the snapshot |

## Left out

- Compose and Glance layout are not modelled: modifiers, colours, icons, headers and string resources. A card holds one value per row. Labels are enum tags. Booleans and numbers stay values rather than text.
- Display helpers that only turn values into text are not modelled: `boolToString`, `networkAvailabilityToString`, `netCapabilitiesToString` and `toString()` on numbers. Their inputs are kept as values.
- `LiveData.postValue`, executor threads and the read-modify-publish race between callbacks are not modelled. Each handler is an atomic pure function.
- `LocalDateTime.now()` and ISO date formatting are not modelled. A stamp that each event increments, or that the caller passes in, takes their place.
- The widget's receiver and its callback class are not modelled. They only register callbacks and call `updateAll`.
- The Android platform objects are not modelled: TelephonyManager, ConnectivityManager, ServiceState, SignalStrength, LinkProperties and InetAddress. Their values are input records. ServiceState exposes only its state, roaming flag and channel, and SignalStrength only its level.
- Kotlin's 32-bit Int is not modelled. Codes are only compared, and the one counter the model adds is a `nat`.
- Screens.IpNetworkCardOf: the throw from `ifaceName!!` at Screens.kt:210 is not modelled. The card requires an interface name for an AVAILABLE record, and so do Screens.MobileInfoCardAsWritten and Screens.MobileInfoCard through their requires. Screens.NullInterfaceNameReachesIpCard shows that the connectivity builder and callback can produce such a record when the platform gives no interface name. Whether Android ever reports a connected cellular network without an interface name is outside the model, so this is not listed as a finding.
- Screens.Uppercase: only ASCII letters are upper-cased. Kotlin's `uppercase()` follows Unicode. Country codes are ASCII.
- Platform.NullableToString follows Kotlin's `toString()` on a nullable receiver, which gives "null" for null. It is used for the two carrier-id names, the TAC, the software version and the group id. If a platform getter were typed non-null and still returned null, the call would throw instead; the model does not cover that case.
- The "refresh" button of the card screen is not modelled, nor the main activity's widget refresh on resume. Both are I/O.
- Finding 1 is corrected by leaving a telephony-less activity unchanged in onResume. The no-modem card therefore stays even if permission is granted (`MainActivity.OnResume`). The source's own early return in onCreate is the basis for this choice; nothing in the source states it.

## Findings

| source | as written | input that shows it | evidently intended | confidence | as-written member | corrected member |
|---|---|---|---|---|---|---|
| app/src/main/java/ca/rmrobinson/mobileinfo/MainActivity.kt:49-122 | onCreate returns before registering the `lateinit` permission launcher on a device without telephony, but onResume still reads the launcher whenever permission is not granted | no telephony feature, READ_PHONE_STATE not granted, first onResume | the no-modem card stays on screen | high for the crash path; not executed | MainActivity.OnResumeAsWritten, shown by MainActivity.NoModemResumeCrashes | MainActivity.OnResume, with MainActivity.NoModemScreenIsPermanent |
| app/src/main/java/ca/rmrobinson/mobileinfo/MainActivity.kt:182 | getDisplayState passes the nullable forbidden-PLMN list into a non-null parameter; the resulting exception is not a SecurityException, so it is not caught | READ_PHONE_STATE granted and the forbidden list is null, e.g. no SIM | a null list becomes empty, as getMobileNetworkDetails does | medium (depends on the platform nullability of the getter); not executed | MainActivity.GetDisplayStateAsWritten and MainActivity.OnPermissionAnsweredAsWritten, shown by MainActivity.NullForbiddenListEscapes and MainActivity.GrantedAnswerCrashes | MainActivity.GetDisplayState and MainActivity.OnPermissionAnswered |
| app/src/main/java/ca/rmrobinson/mobileinfo/Screens.kt:123-124 | the "data capable" row shows `isDataEnabled`; MainActivity.kt line 315 does the same | isDataCapable true and isDataEnabled false | the row shows `isDataCapable` | high; not executed | Screens.PhoneInfoCardAsWritten and MainActivity.PhoneInfoCardAsWritten, shown by Screens.DataCapableRowMisreports and MainActivity.DataCapableRowMisreports | Screens.PhoneInfoCardOf, used by Screens.MobileInfoCard and MainActivity.MobileInfoCardOf |
