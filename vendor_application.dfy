/**
 * VendorApplication.StartLocalApplication: refuses an access level the
 * service does not support, starts the application through the device, and on
 * success records the level now active in the shared vendor-application
 * status.
 */
module VendorApplication {
  import opened Wrappers
  import C = Completion

  /** The access level a client may request (the command payload's enum). */
  datatype RequestedLevel = Basic | Intermediate | Full

  /**
   * One flag of SupportedAccessLevelEnum; the set of flags is the capability,
   * with NotSupported as the empty set.
   */
  datatype SupportedLevel = SupportsBasic | SupportsIntermediate | SupportsFull

  /**
   * The status's AccessLevelEnum; Other is a numeric value the enum does not
   * name, which a device class could still store.
   */
  datatype AccessLevel = Basic | NotActive | Full | Intermediate | Other(code: int)

  /** StartLocalApplicationRequest: the application name and the level, null when none was requested. */
  datatype StartRequest = StartRequest(appName: Option<string>, accessLevel: Option<RequestedLevel>)

  /** What the device class returns from StartLocalApplication; unconstrained. */
  datatype DeviceStartResult = DeviceStartResult(completionCode: C.CompletionCode, errorDescription: Option<string>)

  const UnsupportedLevelMessage: string := "Specified access level is not supported by the device."

  function FlagOf(level: RequestedLevel): SupportedLevel
  {
    match level
    case Basic => SupportsBasic
    case Intermediate => SupportsIntermediate
    case Full => SupportsFull
  }

  /** The support check: a requested level whose flag is missing is refused; no level is never refused. */
  predicate IsUnsupported(supported: set<SupportedLevel>, level: Option<RequestedLevel>)
  {
    level.Some?
    && ((level.value == RequestedLevel.Basic && SupportsBasic !in supported)
        || (level.value == RequestedLevel.Intermediate && SupportsIntermediate !in supported)
        || (level.value == RequestedLevel.Full && SupportsFull !in supported))
  }

  /** The level recorded in the status once a start succeeded. */
  function ActiveLevel(level: Option<RequestedLevel>): (a: AccessLevel)
    ensures a == NotActive <==> level.None?
  {
    match level
    case None => NotActive
    case Some(Basic) => AccessLevel.Basic
    case Some(Intermediate) => AccessLevel.Intermediate
    case Some(_) => AccessLevel.Full
  }

  /** The status is updated only after a successful start, and only when some level is supported. */
  predicate UpdatesStatus(supported: set<SupportedLevel>, result: DeviceStartResult)
  {
    result.completionCode == C.Success && supported != {}
  }

  /** The new access level, as a function of the request, the capability and the device result. */
  function NextAccessLevel(current: AccessLevel, supported: set<SupportedLevel>,
                           level: Option<RequestedLevel>, result: DeviceStartResult): AccessLevel
  {
    if UpdatesStatus(supported, result) then ActiveLevel(level) else current
  }

  /** The vendor-application status that the service shares with its clients. */
  class VendorApplicationStatus {
    var accessLevel: AccessLevel

    constructor (initial: AccessLevel)
      ensures accessLevel == initial
    {
      accessLevel := initial;
    }

    /**
     * HandleStartLocalApplication. The device is a black box given as a
     * function of the request; started is the request it was called with.
     */
    method HandleStartLocalApplication(supported: set<SupportedLevel>, appName: Option<string>,
                                       level: Option<RequestedLevel>, device: StartRequest -> DeviceStartResult)
      returns (r: C.Outcome, started: Option<StartRequest>)
      modifies this
      ensures IsUnsupported(supported, level) ==>
                r == C.Outcome(C.InvalidData, Some(UnsupportedLevelMessage)) && started.None?
                && accessLevel == old(accessLevel)
      ensures !IsUnsupported(supported, level) ==>
                var d := device(StartRequest(appName, level));
                started == Some(StartRequest(appName, level))
                && r == C.Outcome(d.completionCode, d.errorDescription)
                && accessLevel == NextAccessLevel(old(accessLevel), supported, level, d)
    {
      if level.Some? {
        if (level.value == RequestedLevel.Basic && SupportsBasic !in supported)
           || (level.value == RequestedLevel.Intermediate && SupportsIntermediate !in supported)
           || (level.value == RequestedLevel.Full && SupportsFull !in supported)
        {
          return C.Outcome(C.InvalidData, Some(UnsupportedLevelMessage)), None;
        }
      }
      var request := StartRequest(appName, match level
                                           case Some(Basic) => Some(RequestedLevel.Basic)
                                           case Some(Intermediate) => Some(RequestedLevel.Intermediate)
                                           case Some(Full) => Some(RequestedLevel.Full)
                                           case None => None);
      var result := device(request);
      started := Some(request);
      if result.completionCode == C.Success && supported != {} {
        if level.Some? {
          accessLevel := match level.value
                         case Basic => AccessLevel.Basic
                         case Intermediate => AccessLevel.Intermediate
                         case _ => AccessLevel.Full;
        } else {
          accessLevel := NotActive;
        }
      }
      r := C.Outcome(result.completionCode, result.errorDescription);
    }
  }

  /** A requested level is refused exactly when its own flag is missing from the capability. */
  lemma SupportCheckIsFlagMembership(supported: set<SupportedLevel>, level: Option<RequestedLevel>)
    ensures IsUnsupported(supported, level) <==> level.Some? && FlagOf(level.value) !in supported
  {
  }

  /**
   * After an accepted start the status names the requested level, or NotActive
   * when none was requested; a failed start, or a service supporting no level,
   * leaves it as it was.
   */
  lemma NextAccessLevelCases(current: AccessLevel, supported: set<SupportedLevel>,
                             level: Option<RequestedLevel>, result: DeviceStartResult)
    ensures result.completionCode != C.Success || supported == {} ==>
              NextAccessLevel(current, supported, level, result) == current
    ensures UpdatesStatus(supported, result) && level == Some(RequestedLevel.Basic) ==>
              NextAccessLevel(current, supported, level, result) == AccessLevel.Basic
    ensures UpdatesStatus(supported, result) && level == Some(RequestedLevel.Intermediate) ==>
              NextAccessLevel(current, supported, level, result) == AccessLevel.Intermediate
    ensures UpdatesStatus(supported, result) && level == Some(RequestedLevel.Full) ==>
              NextAccessLevel(current, supported, level, result) == AccessLevel.Full
    ensures UpdatesStatus(supported, result) && level.None? ==>
              NextAccessLevel(current, supported, level, result) == NotActive
  {
  }

  /**
   * Accepting a level implies its flag is supported, so an update that names
   * a level never names one the capability lacks.
   */
  lemma AcceptedLevelIsSupported(current: AccessLevel, supported: set<SupportedLevel>,
                                 level: Option<RequestedLevel>, result: DeviceStartResult)
    requires !IsUnsupported(supported, level) && level.Some?
    ensures FlagOf(level.value) in supported
    ensures UpdatesStatus(supported, result) ==>
              NextAccessLevel(current, supported, level, result) != NotActive
              && !NextAccessLevel(current, supported, level, result).Other?
  {
  }
}
