/**
 * CapabilitiesHandler.HandleCapabilities: the Common.Capabilities completion
 * assembled from the capabilities the device class reports.
 */
module CapabilitiesCompletion {
  import opened Wrappers
  import C = Completion
  import opened CapabilityLists
  import CI = CapabilitiesInterfaces
  import CR = CardReaderCapabilities
  import Cash = CashCapabilities
  import TT = TerminalCapabilities
  import L = LightsCapabilities
  import P = PrinterCapabilities

  // ---- Device information ----

  datatype Firmware = Firmware(firmwareName: string, firmwareVersion: string, hardwareRevision: string)
  datatype Software = Software(softwareName: string, softwareVersion: string)
  datatype DeviceInfo = DeviceInfo(
    modelName: string,
    serialNumber: string,
    revisionNumber: string,
    modelDescription: string,
    firmware: Option<seq<Firmware>>,
    software: Option<seq<Software>>)

  /** One device's entry: its firmware and software lists are sent only when they have elements. */
  function DeviceEntry(d: DeviceInfo): DeviceInfo
  {
    d.(firmware := NullIfEmpty(d.firmware), software := NullIfEmpty(d.software))
  }

  /** The device information list: null unless devices are reported, one entry per device. */
  function DeviceInformationOf(ds: Option<seq<DeviceInfo>>): Option<seq<DeviceInfo>>
  {
    if ds.Some? && |ds.value| > 0 then Some(seq(|ds.value|, i requires 0 <= i < |ds.value| => DeviceEntry(ds.value[i])))
    else None
  }

  /** The device information loop of HandleCapabilities, with its firmware and software loops. */
  method BuildDeviceInformation(ds: Option<seq<DeviceInfo>>) returns (r: Option<seq<DeviceInfo>>)
    ensures r == DeviceInformationOf(ds)
  {
    r := None;
    if ds.Some? && |ds.value| > 0 {
      var devices := ds.value;
      var entries: seq<DeviceInfo> := [];
      var i := 0;
      while i < |devices|
        invariant 0 <= i <= |devices|
        invariant |entries| == i
        invariant forall j :: 0 <= j < i ==> entries[j] == DeviceEntry(devices[j])
      {
        var firmware := CopyNonEmpty(devices[i].firmware);
        var software := CopyNonEmpty(devices[i].software);
        entries := entries + [DeviceInfo(devices[i].modelName, devices[i].serialNumber, devices[i].revisionNumber,
                                         devices[i].modelDescription, firmware, software)];
        i := i + 1;
      }
      assert entries == seq(|devices|, j requires 0 <= j < |devices| => DeviceEntry(devices[j]));
      r := Some(entries);
    }
  }

  /**
   * The device information list is null exactly when no device is reported;
   * otherwise it keeps every device, in order, with its names unchanged, and
   * no list in it is ever empty.
   */
  lemma DeviceInformationShape(ds: Option<seq<DeviceInfo>>)
    ensures DeviceInformationOf(ds).None? <==> ds.None? || |ds.value| == 0
    ensures DeviceInformationOf(ds).Some? ==>
              var r := DeviceInformationOf(ds).value;
              |r| == |ds.value|
              && forall i :: 0 <= i < |r| ==>
                   r[i].modelName == ds.value[i].modelName && r[i].serialNumber == ds.value[i].serialNumber
                   && r[i].revisionNumber == ds.value[i].revisionNumber && r[i].modelDescription == ds.value[i].modelDescription
                   && (r[i].firmware.None? <==> ds.value[i].firmware.None? || |ds.value[i].firmware.value| == 0)
                   && (r[i].firmware.Some? ==> r[i].firmware == ds.value[i].firmware)
                   && (r[i].software.None? <==> ds.value[i].software.None? || |ds.value[i].software.value| == 0)
                   && (r[i].software.Some? ==> r[i].software == ds.value[i].software)
  {
  }

  /** Translating a translated list changes nothing. */
  lemma DeviceInformationIdempotent(ds: Option<seq<DeviceInfo>>)
    ensures DeviceInformationOf(DeviceInformationOf(ds)) == DeviceInformationOf(ds)
  {
    if ds.Some? && |ds.value| > 0 {
      var once := DeviceInformationOf(ds).value;
      forall i | 0 <= i < |once| ensures DeviceEntry(once[i]) == once[i] {
        NullIfEmptyIdempotent(ds.value[i].firmware);
        NullIfEmptyIdempotent(ds.value[i].software);
      }
      assert seq(|once|, i requires 0 <= i < |once| => DeviceEntry(once[i])) == once;
    }
  }

  // ---- End-to-end security ----

  datatype Required = IfConfigured | Always | OtherRequired(code: int)
  datatype ResponseSecurity = ResponseNotSupported | ResponseIfConfigured | ResponseAlways | OtherResponse(code: int)

  datatype EndToEndSecurityCaps = EndToEndSecurityCaps(
    required: Required,
    hardwareSecurityElement: bool,
    responseSecurityEnabled: ResponseSecurity,
    commandNonceTimeout: int)

  datatype EndToEndSecurityRecord = EndToEndSecurityRecord(
    required: Required,
    hardwareSecurityElement: bool,
    responseSecurityEnabled: ResponseSecurity,
    authenticationRequired: Option<seq<string>>,
    commandNonceTimeout: int)

  /** Always stays Always; anything else is reported as IfConfigured. */
  function WireRequired(r: Required): (w: Required)
    ensures w == Always <==> r == Always
    ensures w != Always ==> w == IfConfigured
  {
    match r
    case Always => Always
    case _ => IfConfigured
  }

  /** Always and IfConfigured keep their name; anything else is reported as NotSupported. */
  function WireResponseSecurity(r: ResponseSecurity): (w: ResponseSecurity)
    ensures !w.OtherResponse?
    ensures w == ResponseNotSupported <==> !(r == ResponseAlways || r == ResponseIfConfigured)
    ensures r == ResponseAlways || r == ResponseIfConfigured ==> w == r
  {
    match r
    case ResponseAlways => ResponseAlways
    case ResponseIfConfigured => ResponseIfConfigured
    case _ => ResponseNotSupported
  }

  /** The end-to-end security record: null when not reported; the gathered list is sent only when non-empty. */
  function EndToEndSecurityOf(e: Option<EndToEndSecurityCaps>, authenticationRequired: seq<string>): (r: Option<EndToEndSecurityRecord>)
    ensures r.Some? <==> e.Some?
    ensures r.Some? ==> r.value.required == WireRequired(e.value.required)
                        && r.value.responseSecurityEnabled == WireResponseSecurity(e.value.responseSecurityEnabled)
                        && r.value.hardwareSecurityElement == e.value.hardwareSecurityElement
                        && r.value.commandNonceTimeout == e.value.commandNonceTimeout
    ensures r.Some? ==> (r.value.authenticationRequired.None? <==> authenticationRequired == [])
                        && (r.value.authenticationRequired.Some? ==> r.value.authenticationRequired.value == authenticationRequired)
  {
    if e.None? then None
    else
      Some(EndToEndSecurityRecord(
        WireRequired(e.value.required),
        e.value.hardwareSecurityElement,
        WireResponseSecurity(e.value.responseSecurityEnabled),
        if |authenticationRequired| > 0 then Some(authenticationRequired) else None,
        e.value.commandNonceTimeout))
  }

  // ---- The completion ----

  datatype CommonCaps = CommonCaps(
    interfaces: map<CI.InterfaceName, CI.InterfaceSupport>,
    deviceInformation: Option<seq<DeviceInfo>>,
    powerSaveControl: bool,
    antiFraudModule: bool,
    endToEndSecurity: Option<EndToEndSecurityCaps>)

  /** What the device class reports; each part may be null. */
  datatype Snapshot = Snapshot(
    common: Option<CommonCaps>,
    cardReader: Option<CR.CardReaderCaps>,
    cashDispenser: Option<Cash.DispenserCaps>,
    cashManagement: Option<Cash.ManagementCaps>,
    textTerminal: Option<TT.TerminalCaps>,
    lights: Option<L.LightsCaps>,
    printer: Option<P.PrinterCaps>)

  /** The framework's fixed values: the service version and the one version range of every command and event. */
  datatype Versions = Versions(serviceVersion: string, commandVersion: CI.VersionInfo, eventVersion: CI.VersionInfo)

  datatype CommonRecord = CommonRecord(
    serviceVersion: string,
    deviceInformation: Option<seq<DeviceInfo>>,
    powerSaveControl: bool,
    antiFraudModule: bool,
    synchronizableCommands: seq<string>,
    endToEndSecurity: Option<EndToEndSecurityRecord>)

  datatype CapabilitiesPayload = CapabilitiesPayload(
    completionCode: C.CompletionCode,
    errorDescription: string,
    interfaces: Option<seq<CI.InterfaceEntry>>,
    common: Option<CommonRecord>,
    cardReader: Option<CR.CardReaderRecord>,
    cashDispenser: Option<Cash.DispenserRecord>,
    cashManagement: Option<Cash.ManagementRecord>,
    textTerminal: Option<TT.TerminalRecord>,
    lights: Option<L.LightsRecord>,
    printer: Option<P.PrinterRecord>)

  const NoCommonCapabilitiesMessage := "No common capabilities is reported by the device class."

  function MapOption<A, B>(x: Option<A>, f: A -> B): (r: Option<B>)
    ensures r.Some? <==> x.Some?
    ensures r.Some? ==> r.value == f(x.value)
  {
    if x.Some? then Some(f(x.value)) else None
  }

  /** The completion for a snapshot, or the exception that ends the handler. */
  function CapabilitiesOf(s: Snapshot, v: Versions): Result<CapabilitiesPayload>
  {
    if s.common.None? then
      Success(CapabilitiesPayload(C.InternalError, NoCommonCapabilitiesMessage, None, None, None, None, None, None, None, None))
    else
      var c := s.common.value;
      var assembly :- CI.Assemble(c.interfaces, v.commandVersion, v.eventVersion);
      var common := CommonRecord(v.serviceVersion, DeviceInformationOf(c.deviceInformation), c.powerSaveControl,
                                 c.antiFraudModule, assembly.synchronizable,
                                 EndToEndSecurityOf(c.endToEndSecurity, assembly.authenticationRequired));
      Success(CapabilitiesPayload(
        C.Success, "", Some(assembly.interfaces), Some(common),
        MapOption(s.cardReader, CR.CardReaderRecordOf),
        MapOption(s.cashDispenser, Cash.DispenserRecordOf),
        MapOption(s.cashManagement, Cash.ManagementRecordOf),
        MapOption(s.textTerminal, TT.TerminalRecordOf),
        L.LightsRecordOf(s.lights),
        MapOption(s.printer, P.PrinterRecordOf)))
  }

  /** HandleCapabilities, block by block in the handler's order. */
  method HandleCapabilities(s: Snapshot, v: Versions) returns (r: Result<CapabilitiesPayload>)
    ensures r == CapabilitiesOf(s, v)
  {
    if s.common.None? {
      return Success(CapabilitiesPayload(C.InternalError, NoCommonCapabilitiesMessage, None, None, None, None, None, None, None, None));
    }
    var c := s.common.value;
    var assembly := CI.BuildInterfaces(c.interfaces, v.commandVersion, v.eventVersion);
    if assembly.Failure? {
      return Failure(assembly.error);
    }
    var deviceInformation := BuildDeviceInformation(c.deviceInformation);
    var common := CommonRecord(v.serviceVersion, deviceInformation, c.powerSaveControl, c.antiFraudModule,
                               assembly.value.synchronizable,
                               EndToEndSecurityOf(c.endToEndSecurity, assembly.value.authenticationRequired));
    var textTerminal: Option<TT.TerminalRecord> := None;
    if s.textTerminal.Some? {
      var t := TT.BuildTerminalRecord(s.textTerminal.value);
      textTerminal := Some(t);
    }
    var lights := L.BuildLights(s.lights);
    r := Success(CapabilitiesPayload(
      C.Success, "", Some(assembly.value.interfaces), Some(common),
      MapOption(s.cardReader, CR.CardReaderRecordOf),
      MapOption(s.cashDispenser, Cash.DispenserRecordOf),
      MapOption(s.cashManagement, Cash.ManagementRecordOf),
      textTerminal, lights,
      MapOption(s.printer, P.PrinterRecordOf)));
  }

  /** Without common capabilities the completion is InternalError and carries nothing else. */
  lemma NoCommonCapabilities(s: Snapshot, v: Versions)
    requires s.common.None?
    ensures CapabilitiesOf(s, v).Success?
    ensures var p := CapabilitiesOf(s, v).value;
            p.completionCode == C.InternalError && p.errorDescription == NoCommonCapabilitiesMessage
            && p.interfaces.None? && p.common.None? && p.cardReader.None? && p.cashDispenser.None?
            && p.cashManagement.None? && p.textTerminal.None? && p.lights.None? && p.printer.None?
  {
  }

  /**
   * The handler fails exactly when the Common interface is missing or some
   * reported interface lists a command or event twice; only the Common
   * interface's absence is an assertion, a repeated name is a duplicate key.
   */
  lemma CapabilitiesFailure(s: Snapshot, v: Versions)
    requires s.common.Some?
    ensures CapabilitiesOf(s, v).Failure? <==>
            CI.Common !in s.common.value.interfaces
            || exists n :: n in CI.InterfaceOrder && n in s.common.value.interfaces && CI.HasDuplicates(s.common.value.interfaces[n])
    ensures CapabilitiesOf(s, v).Failure? && CI.Common in s.common.value.interfaces ==>
            CapabilitiesOf(s, v).error == DuplicateKeyFault
  {
    CI.CollectFailsOnDuplicates(s.common.value.interfaces, CI.InterfaceOrder, v.commandVersion, v.eventVersion);
  }

  /**
   * A successful completion: code Success with an empty description, the
   * interface list and the gathered command lists of the interface blocks, and
   * each device record present exactly when the device class reports it.
   */
  lemma CapabilitiesSuccess(s: Snapshot, v: Versions)
    requires s.common.Some? && CI.Assemble(s.common.value.interfaces, v.commandVersion, v.eventVersion).Success?
    ensures CapabilitiesOf(s, v).Success?
    ensures var p := CapabilitiesOf(s, v).value;
            var a := CI.Assemble(s.common.value.interfaces, v.commandVersion, v.eventVersion).value;
            p.completionCode == C.Success && p.errorDescription == ""
            && p.interfaces == Some(a.interfaces)
            && p.common.Some? && p.common.value.synchronizableCommands == a.synchronizable
            && p.common.value.serviceVersion == v.serviceVersion
            && p.common.value.deviceInformation == DeviceInformationOf(s.common.value.deviceInformation)
            && p.common.value.endToEndSecurity == EndToEndSecurityOf(s.common.value.endToEndSecurity, a.authenticationRequired)
            && (p.cardReader.Some? <==> s.cardReader.Some?) && (p.cashDispenser.Some? <==> s.cashDispenser.Some?)
            && (p.cashManagement.Some? <==> s.cashManagement.Some?) && (p.textTerminal.Some? <==> s.textTerminal.Some?)
            && (p.printer.Some? <==> s.printer.Some?)
            && p.lights == L.LightsRecordOf(s.lights)
  {
  }

  /**
   * The end-to-end security record carries the authentication-required
   * commands of every reported interface, prefixed, and is null when there
   * are none; without a reported end-to-end security there is no record at all.
   */
  lemma AuthenticationRequiredList(s: Snapshot, v: Versions, x: string)
    requires s.common.Some? && CI.Assemble(s.common.value.interfaces, v.commandVersion, v.eventVersion).Success?
    ensures var e := CapabilitiesOf(s, v).value.common.value.endToEndSecurity;
            (e.Some? <==> s.common.value.endToEndSecurity.Some?)
            && (e.Some? && e.value.authenticationRequired.Some? ==>
                  (x in e.value.authenticationRequired.value <==>
                   exists n :: n in CI.InterfaceOrder && n in s.common.value.interfaces
                               && x in CI.PrefixedList(n, s.common.value.interfaces[n].authenticationRequired)))
  {
    CI.CollectSynchronizable(s.common.value.interfaces, CI.InterfaceOrder, v.commandVersion, v.eventVersion, x);
  }
}
