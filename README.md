# XFS4IoT service-provider framework: a verified model of its common core

This project models the shared core of the XFS4IoT service-provider
framework, the C# library that a device class plugs into to serve XFS4IoT
clients over WebSockets. The model covers the following parts.

- The common service class. It loads the device's capabilities and status
  once only. It turns each status property change into a status-changed
  event of the right interface, using one translation per status class. It
  also translates the common error event.
- The `Common.Capabilities` handler. It assembles the interface list, the
  synchronizable and authentication-required command lists, the device
  information, the end-to-end security record, and the card reader, cash
  dispenser, cash management, text terminal, lights and printer records.
- Three command handlers:
  - `Printer.RetractMedia`, which validates the media control and chooses the bin;
  - `CashDispenser.Count`, which checks the position and selects the units;
  - `VendorApplication.StartLocalApplication`, which checks the access level
    and updates the shared status.
- The `HandleError` exception-to-completion-code switches of four generated
  handlers: `Check.ReadImage`, `CardReader.EMVClessPerformTransaction`,
  `CardReader.SetKey` and `CardReader.ResetCount`.

The model follows the C# code's own shape.

- Enums become datatypes. An enum whose translation switch ends in a throwing
  default arm gets an extra `Other(code)` case. That case stands for a
  numeric value the enum does not name.
- Flag enums become sets. The zero value, `NotSupported`, is the empty set.
- A wire record of booleans, one per flag, becomes a `seq<bool>` over a fixed
  order of the flags (`CapabilityFlags.FlagBits`).
- An exception is a `Failure` of a `Result`.
- Callbacks into the device class are parameters: a value the device
  reported, or a function of the request.
- The capabilities and status loads are a class, `CommonService.ServiceCache`,
  whose fields are updated in place. So is the vendor-application status,
  `VendorApplication.VendorApplicationStatus`.
- Every loop of the source is a method. Each is proved equal to a
  specification function, and that function's properties are proved as
  lemmas.

## Model

| member | source | states |
|---|---|---|
| CommonService.LoadOnce | Framework/ServiceClasses/CommonServiceProvider/CommonServiceClass.cs:134-145 | A held value is kept and the device is not consulted. Otherwise the report is stored, and the null check fails exactly when there was nothing held and nothing reported. |
| CommonService.LoadOnceIsStable | Framework/ServiceClasses/CommonServiceProvider/CommonServiceClass.cs:577-589 | Once a load has stored a value, no later load replaces it, whatever the device reports. |
| CommonService.Replay | Framework/ServiceClasses/CommonServiceProvider/CommonServiceClass.cs:134-145 | A series of loads keeps any held value. From an empty cache, a non-null report yields a held value. |
| CommonService.ReplayKeepsFirstReport | Framework/ServiceClasses/CommonServiceProvider/CommonServiceClass.cs:577-589 | From an empty cache, the value held after a series of loads is the first non-null report. |
| CommonService.ServiceCache.constructor | Framework/ServiceClasses/CommonServiceProvider/CommonServiceClass.cs:29-36 | A new cache holds neither capabilities nor status and has no subscription. |
| CommonService.ServiceCache.GetCapabilities | Framework/ServiceClasses/CommonServiceProvider/CommonServiceClass.cs:134-145 | The capabilities become the LoadOnce of the old value and the report. The status and the subscriptions are unchanged. |
| CommonService.ServiceCache.GetStatus | Framework/ServiceClasses/CommonServiceProvider/CommonServiceClass.cs:577-589 | The status becomes the LoadOnce of the old value and the report. The status is subscribed to once, only when it is first stored. The capabilities are unchanged, and the cache stays valid (subscribed exactly when the status is held). |
| CommonService.Construct | Framework/ServiceClasses/CommonServiceProvider/CommonServiceClass.cs:29-36 | Construction loads the capabilities and then the status into a fresh, valid cache. It faults when either report is null, and a null capabilities report stops construction before the status is loaded. |
| StatusFields.Field | Framework/ServiceClasses/CommonServiceProvider/CommonServiceClass.cs:598-646 | A field is set only when its property changed and the switch keeps the value, and then it carries that value. It is refused with an InternalError fault exactly when the switch rejects the value; the fault is tagged with the property name, not the message text. |
| StatusFields.Pass | Framework/ServiceClasses/CommonServiceProvider/CommonServiceClass.cs:626-628 | A passed-through field is set exactly when its property changed and has a value. |
| StatusFields.Written | Framework/Core/Printer/PrinterSchemas_g.cs:130-138 | Entries added to the parsed copy of the extended properties leave the record empty; assigned entries are stored as they are. |
| DeviceStatusEvents.CommonEvent | Framework/ServiceClasses/CommonServiceProvider/CommonServiceClass.cs:595-648 | At most the changed property's field is set, and a set field holds the status's own value. The event is refused, with an InternalError, exactly when the changed property holds an unlisted value. |
| DeviceStatusEvents.CardReaderEvent | Framework/ServiceClasses/CommonServiceProvider/CommonServiceClass.cs:650-727 | On success each of the seven fields is set exactly when its property is the one that changed, and then holds the status value. An unlisted value of the changed property is refused. |
| DeviceStatusEvents.BarcodeReaderEvent | Framework/ServiceClasses/CommonServiceProvider/CommonServiceClass.cs:729-745 | The scanner field follows the ScannerStatus property. An unlisted value is refused. |
| DeviceStatusEvents.BiometricEvent | Framework/ServiceClasses/CommonServiceProvider/CommonServiceClass.cs:747-779 | On success Subject and DataPersistence are each set exactly when their property changed to a value other than NotSupported or None, and hold the status value. Capture and RemainingStorage are the status values exactly when their property changed. Unlisted values are refused. |
| DeviceStatusEvents.CommonEventOfListedValue | Framework/ServiceClasses/CommonServiceProvider/CommonServiceClass.cs:595-648 | Changing one property with a listed value yields the payload with exactly that field set, unchanged. |
| DeviceStatusEvents.CommonEventOfOtherProperty | Framework/ServiceClasses/CommonServiceProvider/CommonServiceClass.cs:595-648 | A property the common status does not have yields an empty payload, which is still sent. |
| DeviceStatusEvents.BiometricDropsUnsupported | Framework/ServiceClasses/CommonServiceProvider/CommonServiceClass.cs:747-779 | NotSupported and PersistNone are sent as null and never refused. |
| ApplicationStatusEvents.VendorApplicationEvent | Framework/ServiceClasses/CommonServiceProvider/CommonServiceClass.cs:781-797 | The AccessLevel field is set only for that property and a listed level. An unlisted level is refused. |
| ApplicationStatusEvents.StartedLevelIsReportable | Framework/ServiceClasses/VendorApplicationServiceProvider/Handlers/StartLocalApplicationHandler.cs:48-64 | A level stored by StartLocalApplication is always one the AccessLevel event can report, provided the level held before was a named one. |
| ApplicationStatusEvents.VendorModeEvent | Framework/ServiceClasses/CommonServiceProvider/CommonServiceClass.cs:799-824 | On success Device is set exactly when DeviceStatus changed, and Service exactly when ServiceStatus changed, each holding the status value. Unlisted values are refused. |
| ApplicationStatusEvents.DisplaySize | Framework/ServiceClasses/CommonServiceProvider/CommonServiceClass.cs:850-855 | A display size is sent when its property changed, except the "unknown" value -1, which is sent as null. |
| ApplicationStatusEvents.TextTerminalEvent | Framework/ServiceClasses/CommonServiceProvider/CommonServiceClass.cs:826-856 | On success Keyboard and KeyLock are each set exactly when their property changed to a value other than NotAvailable, and hold the status value. The display sizes are the DisplaySize of the status values, so -1 is null. Unlisted values are refused. |
| ApplicationStatusEvents.DisplaySizeSentinel | Framework/ServiceClasses/CommonServiceProvider/CommonServiceClass.cs:850-855 | The -1 sentinel never reaches the wire. Every other size, negative or not, does. |
| ApplicationStatusEvents.KeyManagementEvent | Framework/ServiceClasses/CommonServiceProvider/CommonServiceClass.cs:858-887 | The key-management payload has at most the changed field set. NotSupported is sent as null, and unlisted values are refused. |
| ApplicationStatusEvents.KeyboardEvent | Framework/ServiceClasses/CommonServiceProvider/CommonServiceClass.cs:889-904 | The AutoBeepMode record is built only for that property and a non-empty flag set. The record carries the two flags. |
| ApplicationStatusEvents.AutoBeepModeOffersOne | Framework/ServiceClasses/CommonServiceProvider/CommonServiceClass.cs:889-904 | A mode record that is sent always offers at least one of the two modes. |
| CameraStatusEvents.WireMedia | Framework/ServiceClasses/CommonServiceProvider/CommonServiceClass.cs:906-1006 | Each listed media state keeps its name. Unknown and unlisted states are sent as Unknown. |
| CameraStatusEvents.WireCameras | Framework/ServiceClasses/CommonServiceProvider/CommonServiceClass.cs:906-1006 | Inoperable is sent as Inop, the other listed states keep their names, and unlisted states are sent as Unknown. |
| CameraStatusEvents.Place | Framework/ServiceClasses/CommonServiceProvider/CommonServiceClass.cs:917-944 | A record exists exactly for a named location or a non-empty custom location. A named location gets the value in its own field. A custom location gets a fresh record whose entries are the value under the custom name only when the extended properties are assigned; with the `.Add` on the parsed copy, it stays empty. |
| CameraStatusEvents.CameraEvent | Framework/ServiceClasses/CommonServiceProvider/CommonServiceClass.cs:906-1006 | An event is sent exactly for the media, cameras or pictures property at a placeable location, with only the changed record set. That record holds the translated value under the location's key when the key reaches it, and nothing otherwise. |
| CameraStatusEvents.CameraEventNeedsLocation | Framework/ServiceClasses/CommonServiceProvider/CommonServiceClass.cs:906-1006 | An unnamed location with no custom location never raises an event, and nor does any other property. A named location reports media with no extended properties. |
| CameraStatusEvents.NamedLocationWins | Framework/ServiceClasses/CommonServiceProvider/CommonServiceClass.cs:906-1006 | For any named location and any of the three properties, the event is sent under the named location, and a custom location name reaches none of its records. |
| CameraStatusEvents.CustomLocationIsLost | Framework/ServiceClasses/CommonServiceProvider/CommonServiceClass.cs:938-944 | As written, a custom location alone still raises the event, but each record sent is empty. |
| CameraStatusEvents.CustomLocationIsKept | Framework/ServiceClasses/CommonServiceProvider/CommonServiceClass.cs:938-944 | With the extended properties assigned, each record sent for a custom location holds exactly the value under the custom name. |
| CashStatusEvents.CashManagementEvent | Framework/ServiceClasses/CommonServiceProvider/CommonServiceClass.cs:1008-1036 | The dispenser and acceptor fields follow their properties. An unlisted state is sent as null, never refused. |
| CashStatusEvents.CashAcceptorEvent | Framework/ServiceClasses/CommonServiceProvider/CommonServiceClass.cs:1379-1420 | On success the intermediate stacker, stacker items and banknote reader are each set exactly when their property changed to a value other than NotSupported, and hold the status value. DropBox is the status value exactly when it changed. Unlisted values are refused. |
| CashStatusEvents.CashDispenserEvent | Framework/ServiceClasses/CommonServiceProvider/CommonServiceClass.cs:1422-1442 | The intermediate stacker field is set only for that property. NotSupported is sent as null, and unlisted values are refused. |
| CashStatusEvents.PositionFieldsEvent | Framework/ServiceClasses/CommonServiceProvider/CommonServiceClass.cs:1451-1497 | On success each of the four position statuses is set exactly when it is the changed property and not NotSupported, and then holds the status value. An unlisted value is refused. |
| CashStatusEvents.DispenserEntries | Framework/ServiceClasses/CommonServiceProvider/CommonServiceClass.cs:1499-1528 | One entry per flag set, all with the same statuses, each position under its wire name. No flag faults: the null list is dereferenced. |
| CashStatusEvents.OrderIndex | Framework/ServiceClasses/CommonServiceProvider/CommonServiceClass.cs:1499-1501 | The index returned holds the element. |
| CashStatusEvents.AcceptorEntries | Framework/ServiceClasses/CommonServiceProvider/CommonServiceClass.cs:1586-1623 | One entry per flag set, each position under AcceptorWirePosition. No flag faults likewise. |
| CashStatusEvents.AcceptorEntriesInOrder | Framework/ServiceClasses/CommonServiceProvider/CommonServiceClass.cs:1586-1623 | The acceptor list's k-th entry reports the k-th flag set, in enumeration order. |
| CashStatusEvents.DispenserEntriesInOrder | Framework/ServiceClasses/CommonServiceProvider/CommonServiceClass.cs:1499-1528 | The dispenser list's k-th entry reports the k-th flag set, in enumeration order. |
| CashStatusEvents.DispenserEntriesCoverFlags | Framework/ServiceClasses/CommonServiceProvider/CommonServiceClass.cs:1499-1528 | Every flag set has an entry in the dispenser list, and no other position does. |
| CashStatusEvents.AcceptorEntriesCoverFlags | Framework/ServiceClasses/CommonServiceProvider/CommonServiceClass.cs:1586-1623 | Every flag set has an entry in the acceptor list, under its reported name. |
| CashStatusEvents.OutDefaultReportedAsInBottom | Framework/ServiceClasses/CommonServiceProvider/CommonServiceClass.cs:1598-1615 | A bitmap holding both OutDefault and InBottom yields two InBottom entries and no OutDefault entry. |
| CashStatusEvents.PositionEvents | Framework/ServiceClasses/CommonServiceProvider/CommonServiceClass.cs:1444-1630 | At most two events. A fault in the dispenser branch ends the handler with that branch's outcome. Otherwise the dispenser's events are followed by the acceptor's, and a fault leaves at most one event. |
| CashStatusEvents.DispenserList | Framework/ServiceClasses/CommonServiceProvider/CommonServiceClass.cs:1499-1528 | The dispenser's foreach loop computes DispenserEntries. |
| CashStatusEvents.AcceptorList | Framework/ServiceClasses/CommonServiceProvider/CommonServiceClass.cs:1586-1623 | The acceptor's foreach loop computes AcceptorEntries. |
| CashStatusEvents.HandlePositionStatus | Framework/ServiceClasses/CommonServiceProvider/CommonServiceClass.cs:1444-1630 | The position branch, statement by statement, computes PositionEvents. |
| CashStatusEvents.FaultAfterDispenserEvent | Framework/ServiceClasses/CommonServiceProvider/CommonServiceClass.cs:1535-1630 | Once the dispenser's event has been sent, the only fault left is the acceptor's empty bitmap. |
| CashStatusEvents.BothUnitsReported | Framework/ServiceClasses/CommonServiceProvider/CommonServiceClass.cs:1444-1630 | A position of both units, with accepted statuses and a flag in each bitmap, sends both lists, dispenser first, with the same statuses. |
| CashPositions.FromWireOutput | Framework/ServiceClasses/CashDispenserServiceProvider/Handlers/CountHandler.cs:30-41 | The output position a wire value names. Translating it back gives the wire value. |
| CashPositions.WireOutputRoundTrip | Framework/ServiceClasses/CommonServiceProvider/CommonServiceClass.cs:1509-1520 | Translating an output position to the wire and back gives the same position. |
| CashPositions.Selected | Framework/ServiceClasses/CommonServiceProvider/CommonServiceClass.cs:1500 | The flags of a bitmap, listed in enumeration order: exactly the enumerated values that are set. |
| CashPositions.SelectedKeepsOrder | Framework/ServiceClasses/CommonServiceProvider/CommonServiceClass.cs:1500 | The selection keeps the enumeration order: ranks strictly increase along it. |
| CashPositions.SelectedCount | Framework/ServiceClasses/CommonServiceProvider/CommonServiceClass.cs:1500-1504 | When every flag is enumerated, the selection has one element per flag set. It is empty exactly when no flag is set. |
| CashPositions.OutputSelection | Framework/ServiceClasses/CommonServiceProvider/CommonServiceClass.cs:1500-1504 | The output-position list has one entry per flag set, in enumeration order. |
| CashPositions.PositionSelection | Framework/ServiceClasses/CommonServiceProvider/CommonServiceClass.cs:1586-1591 | The acceptor-position list likewise. |
| AuxiliariesStatusEvents.DoorEvent | Framework/ServiceClasses/CommonServiceProvider/CommonServiceClass.cs:1041-1111 | A door event is sent only for DoorStatus, with the status in the field of the door's type. A door of another type sends all fields null. |
| AuxiliariesStatusEvents.UnroutedDoorIsNeverRefused | Framework/ServiceClasses/CommonServiceProvider/CommonServiceClass.cs:1041-1111 | An unlisted status of a door without a field is not refused. |
| AuxiliariesStatusEvents.UpsRecord | Framework/ServiceClasses/CommonServiceProvider/CommonServiceClass.cs:1331-1338 | Low is reported only while Good is not also set. Engaged, Powering and Recovered are reported as they are. |
| AuxiliariesStatusEvents.VolumeField | Framework/ServiceClasses/CommonServiceProvider/CommonServiceClass.cs:1328-1330 | A volume is sent when its property changed, except 0, which is sent as null. |
| AuxiliariesStatusEvents.SensorsEvent | Framework/ServiceClasses/CommonServiceProvider/CommonServiceClass.cs:1120-1204 | The nine sensor fields: at most the changed one set, with the status's own value. NotAvailable is null, and unlisted values are refused. |
| AuxiliariesStatusEvents.AudioEvent | Framework/ServiceClasses/CommonServiceProvider/CommonServiceClass.cs:1275-1299 | The audio record is present for either audio property, each part only for its own property. |
| AuxiliariesStatusEvents.PeripheralsEvent | Framework/ServiceClasses/CommonServiceProvider/CommonServiceClass.cs:1205-1299 | The next eight fields likewise. ConsumerDisplaySensor follows the DisplaySensor property. |
| AuxiliariesStatusEvents.ControlsEvent | Framework/ServiceClasses/CommonServiceProvider/CommonServiceClass.cs:1301-1376 | The last nine fields likewise, with the UPS record and the two zero-is-null volumes. |
| AuxiliariesStatusEvents.VerdictGroupsAreDisjoint | Framework/ServiceClasses/CommonServiceProvider/CommonServiceClass.cs:1116-1377 | A property outside a group of fields gets no verdict from that group. |
| AuxiliariesStatusEvents.PropertyGroupsAreDisjoint | Framework/ServiceClasses/CommonServiceProvider/CommonServiceClass.cs:1116-1377 | No property name belongs to two groups of fields. |
| AuxiliariesStatusEvents.AuxiliariesEvent | Framework/ServiceClasses/CommonServiceProvider/CommonServiceClass.cs:1116-1377 | Always sent unless the changed value is refused. Only the changed property's field is set, and only when its value is sent; it agrees with the status. |
| AuxiliariesStatusEvents.GoodUpsIsNeverLow | Framework/ServiceClasses/CommonServiceProvider/CommonServiceClass.cs:1331-1338 | A UPS that reports Good never reports Low. |
| AuxiliariesStatusEvents.AudioRecordWithoutValue | Framework/ServiceClasses/CommonServiceProvider/CommonServiceClass.cs:1275-1299 | A change of an audio property sends the audio record even when its value is not available. |
| PrinterStatusEvents.PrinterEvent | Framework/ServiceClasses/CommonServiceProvider/CommonServiceClass.cs:1636-1703 | On success media, toner, ink, lamp and black-mark mode are each set exactly when their property changed to a value other than NotSupported, and then hold the status value. The stacker count is set exactly when it changed and is not negative. Unlisted values are refused. |
| PrinterStatusEvents.MediaOnStackerSentinel | Framework/ServiceClasses/CommonServiceProvider/CommonServiceClass.cs:1636-1703 | A negative stacker count is sent as null. A count of 0 or more is sent. |
| PrinterStatusEvents.RetractBinEvent | Framework/ServiceClasses/CommonServiceProvider/CommonServiceClass.cs:1704-1730 | A retract-bin change is reported as a one-entry list, whichever bin changed. Unlisted states are refused. |
| PrinterStatusEvents.PlaceSupply | Framework/ServiceClasses/CommonServiceProvider/CommonServiceClass.cs:1761-1789 | The value sits in its source's own field when the source is named. The custom source is in the extended properties only when they are assigned; the `.Add` on the parsed copy leaves them empty. |
| PrinterStatusEvents.SupplyEvents | Framework/ServiceClasses/CommonServiceProvider/CommonServiceClass.cs:1732-1831 | First a paper record, when the supply changed to a listed value, then a paper-type record, when the type changed to a listed value, each for a known source. Each record holds only the status value, in the source's own field, and its extended properties are those of the custom source as written to it. |
| PrinterStatusEvents.CustomSourceIsLost | Framework/ServiceClasses/CommonServiceProvider/CommonServiceClass.cs:1784-1789 | As written, a custom source never reaches the paper or paper-type record; the record holds only the named source's field. |
| PrinterStatusEvents.UnnamedSourceSendsEmptyRecord | Framework/ServiceClasses/CommonServiceProvider/CommonServiceClass.cs:1761-1789 | As written, an unnamed source with a custom source sends an empty paper record. |
| PrinterStatusEvents.UnnamedSourceUsesCustomSource | Framework/ServiceClasses/CommonServiceProvider/CommonServiceClass.cs:1761-1789 | With the extended properties assigned, an unnamed source still raises the event, with no named field and the value under the custom source. |
| CheckStatusEvents.AcceptorField | Framework/ServiceClasses/CommonServiceProvider/CommonServiceClass.cs:1843-1851 | Attention is sent as State, the other listed values keep their names, and unlisted values are refused. |
| CheckStatusEvents.CheckScannerEvent | Framework/ServiceClasses/CommonServiceProvider/CommonServiceClass.cs:1836-1949 | Always sent unless refused. The changed field is set exactly when its property is one of the ten. The acceptor is the AcceptorField translation of the status, so Attention is sent as State, and every other field holds the status value. |
| CheckStatusEvents.PositionStatEvent | Framework/ServiceClasses/CommonServiceProvider/CommonServiceClass.cs:1951-2030 | The per-position record: at most the changed field set, and unlisted values refused. |
| CheckStatusEvents.CheckPositionsEvent | Framework/ServiceClasses/CommonServiceProvider/CommonServiceClass.cs:1951-2030 | An unlisted value is refused first, and then a null position fails the IsNotNull check. Otherwise every position in the bitmap gets the same record and the others are null; it is sent even for an empty bitmap. |
| CheckStatusEvents.UnlistedValueBeforeNullPosition | Framework/ServiceClasses/CommonServiceProvider/CommonServiceClass.cs:1951-2030 | A null position with an unlisted value reports the unlisted value, not the null. |
| CheckStatusEvents.PositionsShareTheRecord | Framework/ServiceClasses/CommonServiceProvider/CommonServiceClass.cs:2007-2030 | For any bitmap, each position it names carries the record built from the changed property and every other position is null, so all named positions carry the same record. |
| CheckStatusEvents.WireEventIdOf | Framework/ServiceClasses/CommonServiceProvider/CommonServiceClass.cs:2053-2059 | Three named ids keep their names. Every other value is reported as User. |
| CheckStatusEvents.WireActionOf | Framework/ServiceClasses/CommonServiceProvider/CommonServiceClass.cs:2060-2068 | Five named actions keep their names. Every other value is reported as Suspend. |
| CheckStatusEvents.ErrorEvent | Framework/ServiceClasses/CommonServiceProvider/CommonServiceClass.cs:2051-2069 | The error event never refuses a value and passes the description on unchanged. |
| CheckStatusEvents.ErrorEventDefaults | Framework/ServiceClasses/CommonServiceProvider/CommonServiceClass.cs:2051-2069 | Two errors are reported alike exactly when they agree up to the two defaults. |
| StatusDispatch.Send | Framework/ServiceClasses/CommonServiceProvider/CommonServiceClass.cs:593-2048 | A built payload is sent as one event. A refused one raises and sends nothing. |
| StatusDispatch.SendIfPresent | Framework/ServiceClasses/CommonServiceProvider/CommonServiceClass.cs:593-2048 | The same, with nothing sent for an absent payload. |
| StatusDispatch.CashPositionEmission | Framework/ServiceClasses/CommonServiceProvider/CommonServiceClass.cs:1444-1630 | The position branch's events, each wrapped as a payload of the dispatch. |
| StatusDispatch.SupplyEmission | Framework/ServiceClasses/CommonServiceProvider/CommonServiceClass.cs:1732-1831 | The supply branch's events, each wrapped likewise. |
| StatusDispatch.DeviceBranch | Framework/ServiceClasses/CommonServiceProvider/CommonServiceClass.cs:595-779 | A device-class sender produces at most one event, of its own class. |
| StatusDispatch.ApplicationBranch | Framework/ServiceClasses/CommonServiceProvider/CommonServiceClass.cs:781-904 | The same for the application and key classes. |
| StatusDispatch.UnitBranch | Framework/ServiceClasses/CommonServiceProvider/CommonServiceClass.cs:906-1377 | The same for the camera, cash-management, auxiliaries and door classes. |
| StatusDispatch.CashUnitBranch | Framework/ServiceClasses/CommonServiceProvider/CommonServiceClass.cs:1379-1442 | The same for the cash-acceptor and cash-dispenser classes. |
| StatusDispatch.PrinterBranch | Framework/ServiceClasses/CommonServiceProvider/CommonServiceClass.cs:1632-1831 | A printer, retract-bin or supply sender produces at most one event, of its own class. |
| StatusDispatch.CheckBranch | Framework/ServiceClasses/CommonServiceProvider/CommonServiceClass.cs:1833-2046 | A check scanner or check position sender produces at most one event, of its own class, and nothing once it is refused. |
| StatusDispatch.StatusChanged | Framework/ServiceClasses/CommonServiceProvider/CommonServiceClass.cs:593-2048 | Every event sent is of the sender's own class. Only a cash position status sends two events or raises after sending one. |
| StatusDispatch.MixedMediaIsNeverReported | Framework/ServiceClasses/CommonServiceProvider/CommonServiceClass.cs:1833-2048 | The mixed-media case sits inside the check-scanner branch, so no sender ever produces a MixedMedia payload. |
| StatusDispatch.MixedMediaCaseAlone | Framework/ServiceClasses/CommonServiceProvider/CommonServiceClass.cs:2032-2046 | Reached directly, the mixed-media case would report the two mode flags. |
| StatusDispatch.UnknownSenderIsIgnored | Framework/ServiceClasses/CommonServiceProvider/CommonServiceClass.cs:593-2048 | A class no branch names sends nothing and raises nothing. |
| ErrorMapping.ReadImageErrorCode | Framework/ServiceClasses/CheckServiceProvider/Handlers/ReadImageHandler_g.cs:59-76 | Each of the eleven same-named exceptions keeps its code. NotImplemented and NotSupported give UnsupportedCommand, a timeout gives Canceled or TimeOut, and anything else gives InternalError. |
| ErrorMapping.EmvClessErrorCode | Framework/ServiceClasses/CardReaderServiceProvider/Handlers/EMVClessPerformTransactionHandler_g.cs:55-62 | Only InvalidData keeps its code. Unsupported commands and timeouts are mapped as above, and everything else gives InternalError. |
| ErrorMapping.SetKeyErrorCode | Framework/ServiceClasses/CardReaderServiceProvider/Handlers/SetKeyHandler_g.cs:55-62 | The same four arms as EMVClessPerformTransaction. |
| ErrorMapping.ResetCountErrorCode | Framework/ServiceClasses/CardReaderServiceProvider/Handlers/ResetCountHandler_g.cs:52-57 | InvalidData keeps its code, NotImplemented gives UnsupportedCommand, and everything else gives InternalError. |
| ErrorMapping.NeverSuccess | Framework/ServiceClasses/CheckServiceProvider/Handlers/ReadImageHandler_g.cs:59-76 | No handler ever reports an exception as Success. |
| ErrorMapping.EmvClessCollapsesNamedExceptions | Framework/ServiceClasses/CardReaderServiceProvider/Handlers/EMVClessPerformTransactionHandler_g.cs:55-62 | The card-reader code equals the check-scanner code exactly on the exceptions it recognises. The ten other named exceptions collapse to InternalError. |
| ErrorMapping.SetKeyMatchesEmvCless | Framework/ServiceClasses/CardReaderServiceProvider/Handlers/SetKeyHandler_g.cs:55-62 | SetKey and EMVClessPerformTransaction choose the same code for every exception. |
| ErrorMapping.ResetCountDiffersFromEmvCless | Framework/ServiceClasses/CardReaderServiceProvider/Handlers/ResetCountHandler_g.cs:52-57 | ResetCount differs from EMVClessPerformTransaction exactly on NotSupported and on timeouts, which it reports as InternalError. |
| ErrorMapping.ErrorReply | Framework/ServiceClasses/CheckServiceProvider/Handlers/ReadImageHandler_g.cs:56-78 | The reply goes out under the command's request id with the chosen code. A missing id fails the IsTrue check. |
| ErrorMapping.ReadImageHandleError | Framework/ServiceClasses/CheckServiceProvider/Handlers/ReadImageHandler_g.cs:56-78 | A reply exactly when the id is present, with ReadImageErrorCode and the exception's message. |
| ErrorMapping.EmvClessHandleError | Framework/ServiceClasses/CardReaderServiceProvider/Handlers/EMVClessPerformTransactionHandler_g.cs:52-64 | The same with EmvClessErrorCode. |
| ErrorMapping.SetKeyHandleError | Framework/ServiceClasses/CardReaderServiceProvider/Handlers/SetKeyHandler_g.cs:52-64 | The same with SetKeyErrorCode. |
| ErrorMapping.ResetCountHandleError | Framework/ServiceClasses/CardReaderServiceProvider/Handlers/ResetCountHandler_g.cs:50-59 | The reply always carries the header's id, the message and ResetCountErrorCode. |
| RetractMedia.BinNumber | Framework/ServiceClasses/PrinterServiceProvider/Handlers/RetractMediaHandler.cs:32-47 | "transport" gives -1. Any other control succeeds only with five characters, giving its fifth character minus '0'. A null control faults. |
| RetractMedia.HandleRetractMedia | Framework/ServiceClasses/PrinterServiceProvider/Handlers/RetractMediaHandler.cs:26-66 | No bins, or a control outside the pattern, gives InvalidData without a device call. A failed length check gives a fault. Otherwise the device is called with BinNumber and the completion carries its code, its description and MediaResult. |
| RetractMedia.NoBinsRejectsEverything | Framework/ServiceClasses/PrinterServiceProvider/Handlers/RetractMediaHandler.cs:26-30 | With no retract bins even "transport" is refused. |
| RetractMedia.FiveCharacterControl | Framework/ServiceClasses/PrinterServiceProvider/Handlers/RetractMediaHandler.cs:35-46 | A five-character control that passes the pattern is "unit" and one digit. |
| RetractMedia.BinNumberOfAcceptedControl | Framework/ServiceClasses/PrinterServiceProvider/Handlers/RetractMediaHandler.cs:32-47 | For an accepted control, the device is called exactly for "transport" or "unit<d>", with -1 or d. An absent or empty control, or a multi-digit unit, never reaches it. |
| RetractMedia.UnitDigitSelectsBin | Framework/ServiceClasses/PrinterServiceProvider/Handlers/RetractMediaHandler.cs:35-46 | "unit<d>" is accepted and retracts to bin d. |
| RetractMedia.ResultMatchesCompletionPattern | Framework/ServiceClasses/PrinterServiceProvider/Handlers/RetractMediaHandler.cs:53-61 | Any result that is sent matches the completion's pattern `^transport$\|^nomedia$\|^unit[0-9]+$`. |
| RetractMedia.NoResultExactlyWhen | Framework/ServiceClasses/PrinterServiceProvider/Handlers/RetractMediaHandler.cs:53-61 | No result is sent exactly when the device found media but did not succeed, or when no control was given. |
| CashDispenserCount.RequestedPosition | Framework/ServiceClasses/CashDispenserServiceProvider/Handlers/CountHandler.cs:27-42 | An absent position is NotSupported. A given one is the internal position whose wire name it is. |
| CashDispenserCount.CashOutUnits | Framework/ServiceClasses/CashDispenserServiceProvider/Handlers/CountHandler.cs:54-61 | The ids of the units configured for cash-out, and only those. |
| CashDispenserCount.HandleCount | Framework/ServiceClasses/CashDispenserServiceProvider/Handlers/CountHandler.cs:27-85 | A rejected plan gives InvalidData with its message and no device call. Otherwise the device is called with the planned request, and the completion carries its code, description and error code. |
| CashDispenserCount.CashOutUnitsAppend | Framework/ServiceClasses/CashDispenserServiceProvider/Handlers/CountHandler.cs:54-61 | Splitting the units splits the selection: the filter keeps the enumeration order. |
| CashDispenserCount.CashOutUnitsOfOne | Framework/ServiceClasses/CashDispenserServiceProvider/Handlers/CountHandler.cs:58-59 | A single unit is selected exactly when it is a cash-out unit. |
| CashDispenserCount.PositionCheck | Framework/ServiceClasses/CashDispenserServiceProvider/Handlers/CountHandler.cs:27-48 | An absent position always passes. A named one passes exactly when it is among the output positions, and a rejected one never reaches the device. |
| CashDispenserCount.UnitSelection | Framework/ServiceClasses/CashDispenserServiceProvider/Handlers/CountHandler.cs:50-73 | No units for an absent or empty unit. Every cash-out unit for "all" in any letter case. Otherwise the named unit alone, unless it is a known id, which is refused. |
| CashDispenserCount.AllIgnoresCase | Framework/ServiceClasses/CashDispenserServiceProvider/Handlers/CountHandler.cs:54 | A unit compares equal to "all" exactly when it is three letters spelling a, l, l, each in either case. |
| VendorApplication.ActiveLevel | Framework/ServiceClasses/VendorApplicationServiceProvider/Handlers/StartLocalApplicationHandler.cs:51-63 | The stored level is NotActive exactly when no level was requested. Otherwise it is the requested level. |
| VendorApplication.VendorApplicationStatus.constructor | Framework/ServiceClasses/VendorApplicationServiceProvider/Handlers/StartLocalApplicationHandler.cs:53-62 | A status starts at the given level. |
| VendorApplication.VendorApplicationStatus.HandleStartLocalApplication | Framework/ServiceClasses/VendorApplicationServiceProvider/Handlers/StartLocalApplicationHandler.cs:22-67 | An unsupported level gives InvalidData, and the status and the device are untouched. Otherwise the device gets the name and the level, the status becomes NextAccessLevel, and the completion carries the device's code and description. |
| VendorApplication.SupportCheckIsFlagMembership | Framework/ServiceClasses/VendorApplicationServiceProvider/Handlers/StartLocalApplicationHandler.cs:22-34 | A requested level is refused exactly when its own flag is missing. |
| VendorApplication.NextAccessLevelCases | Framework/ServiceClasses/VendorApplicationServiceProvider/Handlers/StartLocalApplicationHandler.cs:48-64 | After a successful start, with some level supported, the status names the requested level, or NotActive when none was requested. Otherwise it is unchanged. |
| VendorApplication.AcceptedLevelIsSupported | Framework/ServiceClasses/VendorApplicationServiceProvider/Handlers/StartLocalApplicationHandler.cs:22-64 | An accepted level's flag is supported, so an update never names a level the capability lacks. |
| CapabilitiesInterfaces.ToDictionary | Framework/ServiceClasses/CommonServiceProvider/Handlers/CapabilitiesHandler.cs:45-46 | Succeeds exactly when the keys are distinct. Otherwise it raises the duplicate-key fault. On success the dictionary has exactly those keys, each with the given version. |
| CapabilitiesInterfaces.QualifyPreservesDistinct | Framework/ServiceClasses/CommonServiceProvider/Handlers/CapabilitiesHandler.cs:45-46 | Prefixing names with "<interface>." keeps them distinct, and keeps repeats. |
| CapabilitiesInterfaces.Dictionary | Framework/ServiceClasses/CommonServiceProvider/Handlers/CapabilitiesHandler.cs:45-46 | A null list gives null. A list with a repeat faults. Otherwise the dictionary's keys are the qualified names. |
| CapabilitiesInterfaces.EntryOf | Framework/ServiceClasses/CommonServiceProvider/Handlers/CapabilitiesHandler.cs:44-47 | An interface entry named after the interface, with maximumRequests 0 and the two dictionaries. It faults exactly when the commands or the events repeat a name. |
| CapabilitiesInterfaces.Listed | Framework/ServiceClasses/CommonServiceProvider/Handlers/CapabilitiesHandler.cs:41-286 | Exactly the supported interfaces, in the handler's order. |
| CapabilitiesInterfaces.AddInterface | Framework/ServiceClasses/CommonServiceProvider/Handlers/CapabilitiesHandler.cs:60-77 | One interface block: adds the entry and appends the qualified synchronizable and authentication-required commands when the lists are non-empty. Computes Step. |
| CapabilitiesInterfaces.BuildInterfaces | Framework/ServiceClasses/CommonServiceProvider/Handlers/CapabilitiesHandler.cs:41-286 | The thirteen interface blocks in order compute Assemble. |
| CapabilitiesInterfaces.CollectStopsAtFailure | Framework/ServiceClasses/CommonServiceProvider/Handlers/CapabilitiesHandler.cs:41-286 | A fault in one block ends the handler: the later blocks change nothing. |
| CapabilitiesInterfaces.CollectEntries | Framework/ServiceClasses/CommonServiceProvider/Handlers/CapabilitiesHandler.cs:41-286 | On success there is one entry per listed interface, each its EntryOf. |
| CapabilitiesInterfaces.CollectSynchronizable | Framework/ServiceClasses/CommonServiceProvider/Handlers/CapabilitiesHandler.cs:48-57 | A name is in the synchronizable (or authentication-required) list exactly when some supported interface in the order lists it among its qualified commands. |
| CapabilitiesInterfaces.CollectFailsOnDuplicates | Framework/ServiceClasses/CommonServiceProvider/Handlers/CapabilitiesHandler.cs:41-286 | Collection fails exactly when some supported interface repeats a command or event name, and then with the duplicate-key fault. |
| CapabilitiesInterfaces.FirstSupportedComesFirst | Framework/ServiceClasses/CommonServiceProvider/Handlers/CapabilitiesHandler.cs:41-57 | A supported first interface is listed first. |
| CapabilitiesInterfaces.InterfaceList | Framework/ServiceClasses/CommonServiceProvider/Handlers/CapabilitiesHandler.cs:41-286 | On success Common is listed first, and each entry is the EntryOf of its interface's report. |
| CapabilitiesInterfaces.AllInterfacesListed | Framework/ServiceClasses/CommonServiceProvider/Handlers/CapabilitiesHandler.cs:59-286 | When every interface is supported, all are listed in the handler's order. |
| CapabilityFlags.FlagBits | Framework/ServiceClasses/CommonServiceProvider/Handlers/CapabilitiesHandler.cs:371-398 | One boolean per flag of the order. It is set exactly when the flag is (HasFlag). |
| CapabilityFlags.FlagsOf | Framework/ServiceClasses/CommonServiceProvider/Handlers/CapabilitiesHandler.cs:371-398 | The flags whose boolean is set: the inverse reading of a boolean record. |
| CapabilityFlags.FlagBitsRoundTrip | Framework/ServiceClasses/CommonServiceProvider/Handlers/CapabilitiesHandler.cs:371-398 | Reading the record back gives exactly the reported flags the record names. |
| CapabilityFlags.FlagBitsComplete | Framework/ServiceClasses/CommonServiceProvider/Handlers/CapabilitiesHandler.cs:371-398 | When the record names every flag, reading it back gives the reported flags. |
| CapabilityFlags.FlagBitsInjective | Framework/ServiceClasses/CommonServiceProvider/Handlers/CapabilitiesHandler.cs:371-398 | Two flag sets give the same record exactly when they agree on every named flag. |
| CapabilityFlags.NoFlagsNoBits | Framework/ServiceClasses/CommonServiceProvider/Handlers/CapabilitiesHandler.cs:424-433 | All booleans are false exactly when no flag is set (NotSupported). |
| CapabilityLists.NullIfEmpty | Framework/ServiceClasses/CommonServiceProvider/Handlers/CapabilitiesHandler.cs:288-291 | A list is sent only when it has elements, and then unchanged. |
| CapabilityLists.NullIfEmptyIdempotent | Framework/ServiceClasses/CommonServiceProvider/Handlers/CapabilitiesHandler.cs:294-297 | An empty list is never sent, and copying a sent list again changes nothing. |
| CapabilityLists.CopyNonEmpty | Framework/ServiceClasses/CommonServiceProvider/Handlers/CapabilitiesHandler.cs:294-306 | The copying loop computes NullIfEmpty. |
| CapabilitiesCompletion.BuildDeviceInformation | Framework/ServiceClasses/CommonServiceProvider/Handlers/CapabilitiesHandler.cs:288-330 | The device-information loop, with its firmware and software loops, computes DeviceInformationOf. |
| CapabilitiesCompletion.DeviceInformationShape | Framework/ServiceClasses/CommonServiceProvider/Handlers/CapabilitiesHandler.cs:288-330 | Null exactly for a null or empty report. Otherwise one entry per device, keeping its fields, with its firmware and software lists null when empty. |
| CapabilitiesCompletion.DeviceInformationIdempotent | Framework/ServiceClasses/CommonServiceProvider/Handlers/CapabilitiesHandler.cs:288-330 | Translating translated device information again changes nothing. |
| CapabilitiesCompletion.WireRequired | Framework/ServiceClasses/CommonServiceProvider/Handlers/CapabilitiesHandler.cs:340-344 | Always stays Always. Anything else is IfConfigured. |
| CapabilitiesCompletion.WireResponseSecurity | Framework/ServiceClasses/CommonServiceProvider/Handlers/CapabilitiesHandler.cs:346-351 | Always and IfConfigured keep their names. Anything else is NotSupported. |
| CapabilitiesCompletion.EndToEndSecurityOf | Framework/ServiceClasses/CommonServiceProvider/Handlers/CapabilitiesHandler.cs:338-354 | Present exactly when reported, with the translated enums. The authentication list is null exactly when empty. |
| CapabilitiesCompletion.HandleCapabilities | Framework/ServiceClasses/CommonServiceProvider/Handlers/CapabilitiesHandler.cs:26-1075 | The handler computes CapabilitiesOf. |
| CapabilitiesCompletion.NoCommonCapabilities | Framework/ServiceClasses/CommonServiceProvider/Handlers/CapabilitiesHandler.cs:28-31 | Without common capabilities the completion is InternalError with its message and no records. |
| CapabilitiesCompletion.CapabilitiesFailure | Framework/ServiceClasses/CommonServiceProvider/Handlers/CapabilitiesHandler.cs:41-286 | The handler faults exactly when the Common interface is missing or a reported interface lists a command or event twice. With Common present the fault is the duplicate-key fault. |
| CapabilitiesCompletion.CapabilitiesSuccess | Framework/ServiceClasses/CommonServiceProvider/Handlers/CapabilitiesHandler.cs:1058-1075 | Otherwise it is Success with an empty description, the assembled interfaces and a common record with the service version, the device information, the synchronizable commands and the end-to-end record. Each device record is present exactly when its capabilities are reported. |
| CapabilitiesCompletion.AuthenticationRequiredList | Framework/ServiceClasses/CommonServiceProvider/Handlers/CapabilitiesHandler.cs:48-57 | A command is in the end-to-end authentication list exactly when some supported interface requires authentication for it. |
| CardReaderCapabilities.WireDeviceType | Framework/ServiceClasses/CommonServiceProvider/Handlers/CapabilitiesHandler.cs:361-370 | Named types keep their names. An unnamed type is Swipe. |
| CardReaderCapabilities.WireSecurityType | Framework/ServiceClasses/CommonServiceProvider/Handlers/CapabilitiesHandler.cs:400-405 | Cim86 and Mm keep their names. Anything else is NotSupported. |
| CardReaderCapabilities.WirePowerOption | Framework/ServiceClasses/CommonServiceProvider/Handlers/CapabilitiesHandler.cs:406-421 | The four named options keep their names. Anything else is NotSupported. |
| CardReaderCapabilities.Mode | Framework/ServiceClasses/CommonServiceProvider/Handlers/CapabilitiesHandler.cs:424-433 | notSupported is true exactly when no flag is set, and the flag booleans follow the set. |
| CardReaderCapabilities.CardReaderRecordOf | Framework/ServiceClasses/CommonServiceProvider/Handlers/CapabilitiesHandler.cs:358-442 | Every part of the card-reader record is its translated enum, flag record or passed-through value. |
| CardReaderCapabilities.OrdersNameEveryFlag | Framework/ServiceClasses/CommonServiceProvider/Handlers/CapabilitiesHandler.cs:371-433 | Every card-reader flag has a boolean in its record. |
| CardReaderCapabilities.NotSupportedIffNoFlag | Framework/ServiceClasses/CommonServiceProvider/Handlers/CapabilitiesHandler.cs:424-433 | The write mode and chip power records say NotSupported exactly when all their flag booleans are false. |
| CardReaderCapabilities.CardReaderFlagsRoundTrip | Framework/ServiceClasses/CommonServiceProvider/Handlers/CapabilitiesHandler.cs:371-433 | Every card-reader flag record reads back as the reported flags. |
| CashCapabilities.WireDispenserType | Framework/ServiceClasses/CommonServiceProvider/Handlers/CapabilitiesHandler.cs:448-454 | Three named types keep their names. Anything else is TellerCoin. |
| CashCapabilities.DispenserRecordOf | Framework/ServiceClasses/CommonServiceProvider/Handlers/CapabilitiesHandler.cs:445-494 | Every part of the dispenser record is its translated type, flag record or passed-through value. |
| CashCapabilities.OrdersNameEveryFlag | Framework/ServiceClasses/CommonServiceProvider/Handlers/CapabilitiesHandler.cs:455-509 | Every retract, move, exchange and item-info flag has a boolean in its record. |
| CashCapabilities.DispenserFlagsRoundTrip | Framework/ServiceClasses/CommonServiceProvider/Handlers/CapabilitiesHandler.cs:455-494 | The retract and move records read back as reported. The positions record reads back as the output positions minus Default, which it has no boolean for. |
| CashCapabilities.PositionOrderNamesAllButDefault | Framework/ServiceClasses/CommonServiceProvider/Handlers/CapabilitiesHandler.cs:478-486 | The positions record names every output position except Default. |
| CashCapabilities.ManagementRecordOf | Framework/ServiceClasses/CommonServiceProvider/Handlers/CapabilitiesHandler.cs:497-509 | The cash-management record: the ByHand boolean, the item-info flags and the passed-through booleans. |
| CashCapabilities.ManagementFlagsRoundTrip | Framework/ServiceClasses/CommonServiceProvider/Handlers/CapabilitiesHandler.cs:497-509 | The cash-management flag records read back as reported. |
| TerminalCapabilities.WireTerminalType | Framework/ServiceClasses/CommonServiceProvider/Handlers/CapabilitiesHandler.cs:858-862 | Fixed stays Fixed. Anything else is Removable. |
| TerminalCapabilities.TerminalRecordOf | Framework/ServiceClasses/CommonServiceProvider/Handlers/CapabilitiesHandler.cs:842-868 | The translated type, the resolutions (null when empty) and the three booleans. |
| TerminalCapabilities.BuildTerminalRecord | Framework/ServiceClasses/CommonServiceProvider/Handlers/CapabilitiesHandler.cs:842-868 | The text-terminal block, with its resolution loop, computes TerminalRecordOf. |
| LightsCapabilities.LightOrdersNameEveryFlag | Framework/ServiceClasses/CommonServiceProvider/Handlers/CapabilitiesHandler.cs:870-931 | Every flash rate, colour, direction and position has a boolean in a light's record. |
| LightsCapabilities.LightFlagsRoundTrip | Framework/ServiceClasses/CommonServiceProvider/Handlers/CapabilitiesHandler.cs:870-931 | A light's four flag records lose none of its reported flags. |
| LightsCapabilities.Translated | Framework/ServiceClasses/CommonServiceProvider/Handlers/CapabilitiesHandler.cs:870-931 | A light map translated entry by entry: the same keys, each value its record. |
| LightsCapabilities.BuildLightMap | Framework/ServiceClasses/CommonServiceProvider/Handlers/CapabilitiesHandler.cs:870-931 | The dictionary loop computes Translated. |
| LightsCapabilities.Slots | Framework/ServiceClasses/CommonServiceProvider/Handlers/CapabilitiesHandler.cs:933-957 | Each named slot holds its device's entry, when there is one. |
| LightsCapabilities.LightsOf | Framework/ServiceClasses/CommonServiceProvider/Handlers/CapabilitiesHandler.cs:933-967 | The lights object exists exactly when either dictionary has entries. The custom lights are its extended properties, and the slots are empty without standard lights. |
| LightsCapabilities.BuildLights | Framework/ServiceClasses/CommonServiceProvider/Handlers/CapabilitiesHandler.cs:870-967 | The lights block computes LightsRecordOf. |
| LightsCapabilities.LightsPresence | Framework/ServiceClasses/CommonServiceProvider/Handlers/CapabilitiesHandler.cs:870-967 | Lights are sent exactly when standard or custom lights are reported. The custom lights, translated, become the extended properties, and the standard ones fill the slots. |
| LightsCapabilities.UnnamedDeviceIsDropped | Framework/ServiceClasses/CommonServiceProvider/Handlers/CapabilitiesHandler.cs:933-957 | A light of a device without a slot reaches no slot and no extended property. |
| PrinterCapabilities.PaperSourcesOf | Framework/ServiceClasses/CommonServiceProvider/Handlers/CapabilitiesHandler.cs:972-982 | The six source booleans, with the custom sources as extended properties. |
| PrinterCapabilities.PrinterRecordOf | Framework/ServiceClasses/CommonServiceProvider/Handlers/CapabilitiesHandler.cs:970-1056 | Every part of the printer record is its flag record or passed-through value. |
| PrinterCapabilities.FormOrdersNameEveryFlag | Framework/ServiceClasses/CommonServiceProvider/Handlers/CapabilitiesHandler.cs:970-1056 | Every read-form, write-form and control flag has a boolean. |
| PrinterCapabilities.DeviceOrdersNameEveryFlag | Framework/ServiceClasses/CommonServiceProvider/Handlers/CapabilitiesHandler.cs:970-1056 | Every type, resolution, extent and paper-source flag has a boolean. |
| PrinterCapabilities.ImageOrdersNameEveryFlag | Framework/ServiceClasses/CommonServiceProvider/Handlers/CapabilitiesHandler.cs:970-1056 | Every image type, color format, codeline format and image source flag has a boolean. |
| PrinterCapabilities.PrinterFlagsRoundTrip | Framework/ServiceClasses/CommonServiceProvider/Handlers/CapabilitiesHandler.cs:970-1056 | The device flag records read back as reported. |
| PrinterCapabilities.ImageFlagsRoundTrip | Framework/ServiceClasses/CommonServiceProvider/Handlers/CapabilitiesHandler.cs:970-1056 | The image flag records read back as reported. |

## Left out

- The message discovery in GetCapabilities is not modelled. It scans the loaded assemblies by reflection, builds the supported-message dictionary and calls SetMessagesSupported (CommonServiceClass.cs:147-176). It depends on .NET reflection and on code that is not part of this model.
- Event delivery is not modelled. The async sending of events and completions, the connection, the request ids of events and the PropertyChanged forwarding are out. The model stops at the payload built and the exception raised.
- Device-class calls are not modelled. RetractAsync, CountAsync, StartLocalApplication and the Device.* capability and status properties are inputs or functions given as parameters. Their behaviour is not part of the model.
- Cash accounting is not modelled. Storage.UpdateCashAccounting after a count is an I/O step on the storage service, which is not part of this model.
- Logging is left out.
- The .NET regular-expression engine is not modelled. The RetractMedia pattern is modelled by a predicate for the two alternatives, including `$` matching before a final line feed.
- The culture-aware case folding of `string.Compare(..., ignoreCase: true)` is not modelled; only ASCII letters are folded.
- Enum numeric values are not modelled, because they are declared outside the files modelled. The enumeration order of a flag enum is taken from the order of its translation switch.
- A flag bit without a name is not representable: flag sets hold only named flags.
- Exception message texts are not modelled. A refused status value gives an InternalError fault tagged with the name of the property whose switch refused it (StatusFields.Field), not the source's message. Two messages name a different property than the switch they sit in: the VandalShield refusal names OperatorSwitch (CommonServiceClass.cs:1264), and the BanknoteReader refusal names the intermediate stacker (CommonServiceClass.cs:1416). The model's faults name VandalShield and BanknoteReader.
- The camera schema classes are not part of this model. Their ExtendedProperties is taken to be computed from ExtensionData as in the generated printer classes (PrinterSchemas_g.cs:130-138), which the `.Add` calls at CommonServiceClass.cs:942, 970 and 994 rely on.
- MessageBase.ParseExtendedProperties is not part of this model. It is taken to return a dictionary parsed afresh from ExtensionData, so entries added to it are not stored; `StatusFields.ExtendedWrite` names both ways of writing, and the status dispatch uses the one the code uses.
- Crypto, KeyManagement, Keyboard and PinPad records of the capabilities completion are not modelled (CapabilitiesHandler.cs:511-839). They are left out to keep the project within size. This includes the quirk that their verify and pinblock attribute dictionaries start as empty `new()` objects.
- The service version and the supported version range come from XFSConstants, which is not part of this model. They are the `Versions` parameter.
- Dictionary insertion order is not modelled: the dictionaries of the completion are maps.
- Some interfaces are never listed by this handler (Barcode reader, biometric, camera, check, mixed media, vendor mode and others). Their capabilities records are never built.
- The unreachable `_ => throw` arms of switches over enums the model closes (for example, the cash-position output switch) are the `Other` cases. Where a datatype is closed, that arm is absent.
- The printer's osPrinter, maxRetract and custom paper sources are passed through as a string, a sequence of integers and a string-to-boolean map, without their own structure.
- CashDispenserCount.CashOutUnits: the storage service's unit dictionary is a sequence in enumeration order; the dictionary's own ordering is not modelled.

## Findings

| source | as written | input that shows it | evidently intended | confidence | as-written member | corrected member |
|---|---|---|---|---|---|---|
| Framework/ServiceClasses/CommonServiceProvider/CommonServiceClass.cs:1784-1789 | The custom paper source is added with `paper.ExtendedProperties.Add(...)` (and `type.ExtendedProperties.Add(...)` at 1822-1825). The getter returns a dictionary parsed from ExtensionData (PrinterSchemas_g.cs:134-137), so the entry is lost. | A supply at source Upper with custom source "Tray3" whose PaperSupply changes to Low: the paper record names Upper and carries no "Tray3" entry. An unnamed source with a custom source sends an empty paper record. | The custom source is sent in the extended properties, as the capabilities handler does by assigning the property (CapabilitiesHandler.cs:981). | not executed; high (the getter is in the source, the parser is not) | PrinterStatusEvents.CustomSourceIsLost | PrinterStatusEvents.UnnamedSourceUsesCustomSource |
| Framework/ServiceClasses/CommonServiceProvider/CommonServiceClass.cs:938-944 | A custom camera location is added with `mediaStatusLocation.ExtendedProperties.Add(...)` (likewise at 970 and 994) on a fresh record, so the record is sent empty. | A camera status with no named location and custom location "Lobby" whose MediaState changes to Full: the event is sent with a media record that holds nothing. | The value is sent under the custom location, as the capabilities handler does for custom lights (CapabilitiesHandler.cs:966). | not executed; medium (the camera schema class is not part of this model) | CameraStatusEvents.CustomLocationIsLost | CameraStatusEvents.CustomLocationIsKept |

The status dispatch (`StatusDispatch.StatusChanged`) follows the code as written (`AddOnParsedCopy`). The corrected behaviour is the same functions with `AssignProperty`, and the corrected members prove the intended property about it.
