/**
 * Status-changed payloads for the auxiliaries status class and its door
 * statuses. Every internal enum here has a NotAvailable value, sent as null,
 * and refuses a value it does not list.
 */
module AuxiliariesStatusEvents {
  import opened Wrappers
  import opened StatusFields

  // ---- Doors ----

  /** AuxiliariesCapabilitiesClass.DoorType; OtherDoor is a type without a payload field. */
  datatype DoorType = FrontCabinet | LeftCabinet | RearCabinet | RightCabinet | Safe | OtherDoor(code: int)

  datatype DoorState = Tampered | Open | Locked | Closed | Bolted | NotAvailable | Other(code: int)
  {
    function Check(): Verdict { if Other? then Reject else if NotAvailable? then Drop else Keep }
  }

  datatype DoorPayload = DoorPayload(
    cabinetFront: Option<DoorState>,
    cabinetLeft: Option<DoorState>,
    cabinetRear: Option<DoorState>,
    cabinetRight: Option<DoorState>,
    safe: Option<DoorState>)
  {
    /** The door types whose fields are set. */
    function Doors(): set<DoorType>
    {
      (if cabinetFront.Some? then {FrontCabinet} else {})
      + (if cabinetLeft.Some? then {LeftCabinet} else {})
      + (if cabinetRear.Some? then {RearCabinet} else {})
      + (if cabinetRight.Some? then {RightCabinet} else {})
      + (if safe.Some? then {Safe} else {})
    }
  }

  /** The name the door type is matched by. */
  function DoorName(t: DoorType): string
  {
    match t
    case FrontCabinet => "FrontCabinet"
    case LeftCabinet => "LeftCabinet"
    case RearCabinet => "RearCabinet"
    case RightCabinet => "RightCabinet"
    case Safe => "Safe"
    case OtherDoor(_) => "OtherDoor"
  }

  /**
   * A door status event: sent only when DoorStatus changed, with the status
   * in the field of the door's type; a door of another type sends all fields
   * null.
   */
  function DoorEvent(doorType: DoorType, doorStatus: DoorState, prop: string): (r: Result<Option<DoorPayload>>)
    ensures r.Success? && r.value.Some? <==> prop == "DoorStatus" && !r.Failure?
    ensures r.Failure? <==> prop == "DoorStatus" && !doorType.OtherDoor? && doorStatus.Other?
    ensures r.Success? && r.value.Some? ==> r.value.value.Doors() == (if doorType.OtherDoor? || doorStatus.NotAvailable? then {} else {doorType})
    ensures r.Success? && r.value.Some? ==>
              var p := r.value.value;
              (p.cabinetFront.Some? ==> p.cabinetFront.value == doorStatus)
              && (p.cabinetLeft.Some? ==> p.cabinetLeft.value == doorStatus)
              && (p.cabinetRear.Some? ==> p.cabinetRear.value == doorStatus)
              && (p.cabinetRight.Some? ==> p.cabinetRight.value == doorStatus)
              && (p.safe.Some? ==> p.safe.value == doorStatus)
  {
    if prop != "DoorStatus" then Success(None)
    else
      var t := DoorName(doorType);
      var front :- Field(t, "FrontCabinet", doorStatus, doorStatus.Check());
      var left :- Field(t, "LeftCabinet", doorStatus, doorStatus.Check());
      var rear :- Field(t, "RearCabinet", doorStatus, doorStatus.Check());
      var right :- Field(t, "RightCabinet", doorStatus, doorStatus.Check());
      var safe :- Field(t, "Safe", doorStatus, doorStatus.Check());
      Success(Some(DoorPayload(front, left, rear, right, safe)))
  }

  /** An unlisted status of a door that has no field is not refused. */
  lemma UnroutedDoorIsNeverRefused(code: int, doorStatus: DoorState)
    ensures DoorEvent(OtherDoor(code), doorStatus, "DoorStatus") == Success(Some(DoorPayload(None, None, None, None, None)))
  {
  }

  // ---- Auxiliaries ----

  datatype OperatorSwitchState = Run | Maintenance | Supervisor | NotAvailable | Other(code: int)
  {
    function Check(): Verdict { if Other? then Reject else if NotAvailable? then Drop else Keep }
  }

  /** SensorEnum, shared by eleven fields. */
  datatype SensorState = On | Off | NotAvailable | Other(code: int)
  {
    function Check(): Verdict { if Other? then Reject else if NotAvailable? then Drop else Keep }
  }

  /** PresenceSensorEnum, shared by three fields. */
  datatype PresenceState = Present | NotPresent | NotAvailable | Other(code: int)
  {
    function Check(): Verdict { if Other? then Reject else if NotAvailable? then Drop else Keep }
  }

  datatype AmbientLightState = Dark | Light | MediumLight | VeryLight | VeryDark | NotAvailable | Other(code: int)
  {
    function Check(): Verdict { if Other? then Reject else if NotAvailable? then Drop else Keep }
  }

  datatype DisplaySensorState = On | Off | DisplayError | NotAvailable | Other(code: int)
  {
    function Check(): Verdict { if Other? then Reject else if NotAvailable? then Drop else Keep }
  }

  datatype HandsetState = OnTheHook | OffTheHook | NotAvailable | Other(code: int)
  {
    function Check(): Verdict { if Other? then Reject else if NotAvailable? then Drop else Keep }
  }

  datatype VandalShieldState =
    | Open | Closed | Locked | Tampered | PartiallyOpen | Service | Jammed | Keyboard | NotAvailable | Other(code: int)
  {
    function Check(): Verdict { if Other? then Reject else if NotAvailable? then Drop else Keep }
  }

  datatype OpenClosedState = Open | Closed | NotAvailable | Other(code: int)
  {
    function Check(): Verdict { if Other? then Reject else if NotAvailable? then Drop else Keep }
  }

  datatype AudioRateState = On | Off | NotAvailable | Other(code: int)
  {
    function Check(): Verdict { if Other? then Reject else if NotAvailable? then Drop else Keep }
  }

  datatype AudioSignalState = Warning | Exclamation | Error | Critical | Keypress | NotAvailable | Other(code: int)
  {
    function Check(): Verdict { if Other? then Reject else if NotAvailable? then Drop else Keep }
  }

  /** EnhancedAudioControlEnum, shared by the audio and the microphone control. */
  datatype AudioControlState =
    | PublicAudioAuto | PublicAudioSemiAuto | PublicAudioManual
    | PrivateAudioAuto | PrivateAudioSemiAuto | PrivateAudioManual | NotAvailable | Other(code: int)
  {
    function Check(): Verdict { if Other? then Reject else if NotAvailable? then Drop else Keep }
  }

  /** One flag of UpsStatusEnum. */
  datatype UpsFlag = Good | Low | Engaged | Powering | Recovered

  datatype AuxiliariesStatus = AuxiliariesStatus(
    operatorSwitch: OperatorSwitchState,
    tamperSensor: SensorState,
    internalTamperSensor: SensorState,
    seismicSensor: SensorState,
    heatSensor: SensorState,
    proximitySensor: PresenceState,
    ambientLightSensor: AmbientLightState,
    enhancedAudioSensor: PresenceState,
    bootSwitchSensor: SensorState,
    displaySensor: DisplaySensorState,
    operatorCallButtonSensor: SensorState,
    handsetSensor: HandsetState,
    headsetMicrophoneSensor: PresenceState,
    fasciaMicrophoneSensor: SensorState,
    vandalShield: VandalShieldState,
    openClosedIndicator: OpenClosedState,
    audioRate: AudioRateState,
    audioSignal: AudioSignalState,
    heating: SensorState,
    consumerDisplayBacklight: SensorState,
    signageDisplay: SensorState,
    volume: int,
    ups: set<UpsFlag>,
    audibleAlarm: SensorState,
    enhancedAudioControl: AudioControlState,
    enhancedMicrophoneControl: AudioControlState,
    microphoneVolume: int)

  datatype AudioPayload = AudioPayload(rate: Option<AudioRateState>, signal: Option<AudioSignalState>)

  datatype UpsPayload = UpsPayload(low: bool, engaged: bool, powering: bool, recovered: bool)

  /** The first nine fields of the wire record, in its order: the sensors. */
  datatype SensorFields = SensorFields(
    operatorSwitch: Option<OperatorSwitchState>,
    tamperSensor: Option<SensorState>,
    internalTamperSensor: Option<SensorState>,
    seismicSensor: Option<SensorState>,
    heatSensor: Option<SensorState>,
    proximitySensor: Option<PresenceState>,
    ambientLightSensor: Option<AmbientLightState>,
    enhancedAudioSensor: Option<PresenceState>,
    bootSwitchSensor: Option<SensorState>)
  {
    /** The properties whose values are set. */
    function Populated(): set<string>
    {
      (if operatorSwitch.Some? then {"OperatorSwitch"} else {})
      + (if tamperSensor.Some? then {"TamperSensor"} else {})
      + (if internalTamperSensor.Some? then {"InternalTamperSensor"} else {})
      + (if seismicSensor.Some? then {"SeismicSensor"} else {})
      + (if heatSensor.Some? then {"HeatSensor"} else {})
      + (if proximitySensor.Some? then {"ProximitySensor"} else {})
      + (if ambientLightSensor.Some? then {"AmbientLightSensor"} else {})
      + (if enhancedAudioSensor.Some? then {"EnhancedAudioSensor"} else {})
      + (if bootSwitchSensor.Some? then {"BootSwitchSensor"} else {})
    }
  }

  /** The next eight fields: the ConsumerDisplaySensor field reports the DisplaySensor property. */
  datatype PeripheralFields = PeripheralFields(
    consumerDisplaySensor: Option<DisplaySensorState>,
    operatorCallButtonSensor: Option<SensorState>,
    handsetSensor: Option<HandsetState>,
    headsetMicrophoneSensor: Option<PresenceState>,
    fasciaMicrophoneSensor: Option<SensorState>,
    vandalShield: Option<VandalShieldState>,
    openClosedIndicator: Option<OpenClosedState>,
    audio: Option<AudioPayload>)
  {
    /** The properties whose values are set; the audio record reports AudioRate and AudioSignal separately. */
    function Populated(): set<string>
    {
      (if consumerDisplaySensor.Some? then {"DisplaySensor"} else {})
      + (if operatorCallButtonSensor.Some? then {"OperatorCallButtonSensor"} else {})
      + (if handsetSensor.Some? then {"HandsetSensor"} else {})
      + (if headsetMicrophoneSensor.Some? then {"HeadsetMicrophoneSensor"} else {})
      + (if fasciaMicrophoneSensor.Some? then {"FasciaMicrophoneSensor"} else {})
      + (if vandalShield.Some? then {"VandalShield"} else {})
      + (if openClosedIndicator.Some? then {"OpenClosedIndicator"} else {})
      + (if audio.Some? && audio.value.rate.Some? then {"AudioRate"} else {})
      + (if audio.Some? && audio.value.signal.Some? then {"AudioSignal"} else {})
    }
  }

  /** The last nine fields: displays, volumes, the UPS and the audio controls. */
  datatype ControlFields = ControlFields(
    heating: Option<SensorState>,
    consumerDisplayBacklight: Option<SensorState>,
    signageDisplay: Option<SensorState>,
    volume: Option<int>,
    ups: Option<UpsPayload>,
    audibleAlarm: Option<SensorState>,
    enhancedAudioControl: Option<AudioControlState>,
    enhancedMicrophoneControl: Option<AudioControlState>,
    microphoneVolume: Option<int>)
  {
    /** The properties whose values are set. */
    function Populated(): set<string>
    {
      (if heating.Some? then {"Heating"} else {})
      + (if consumerDisplayBacklight.Some? then {"ConsumerDisplayBacklight"} else {})
      + (if signageDisplay.Some? then {"SignageDisplay"} else {})
      + (if volume.Some? then {"Volume"} else {})
      + (if ups.Some? then {"UPS"} else {})
      + (if audibleAlarm.Some? then {"AudibleAlarm"} else {})
      + (if enhancedAudioControl.Some? then {"EnhancedAudioControl"} else {})
      + (if enhancedMicrophoneControl.Some? then {"EnhancedMicrophoneControl"} else {})
      + (if microphoneVolume.Some? then {"MicrophoneVolume"} else {})
    }
  }

  /** The wire record, its fields kept in order in three consecutive groups. */
  datatype AuxiliariesPayload = AuxiliariesPayload(sensors: SensorFields, peripherals: PeripheralFields, controls: ControlFields)
  {
    function Populated(): set<string>
    {
      sensors.Populated() + peripherals.Populated() + controls.Populated()
    }
  }

  const SensorProperties: set<string> :=
    {"OperatorSwitch", "TamperSensor", "InternalTamperSensor", "SeismicSensor", "HeatSensor",
     "ProximitySensor", "AmbientLightSensor", "EnhancedAudioSensor", "BootSwitchSensor"}

  const PeripheralProperties: set<string> :=
    {"DisplaySensor", "OperatorCallButtonSensor", "HandsetSensor", "HeadsetMicrophoneSensor",
     "FasciaMicrophoneSensor", "VandalShield", "OpenClosedIndicator", "AudioRate", "AudioSignal"}

  const ControlProperties: set<string> :=
    {"Heating", "ConsumerDisplayBacklight", "SignageDisplay", "Volume", "UPS", "AudibleAlarm",
     "EnhancedAudioControl", "EnhancedMicrophoneControl", "MicrophoneVolume"}

  /**
   * What the translation does with the value of the changed property: Keep
   * (sent), Drop (sent as null) or Reject (refused). A property the status
   * class does not have is Drop: nothing is set.
   */
  function PropertyVerdict(s: AuxiliariesStatus, prop: string): Verdict
  {
    if prop in SensorProperties then SensorVerdict(s, prop)
    else if prop in PeripheralProperties then PeripheralVerdict(s, prop)
    else ControlVerdict(s, prop)
  }

  function SensorVerdict(s: AuxiliariesStatus, prop: string): Verdict
  {
    if prop == "OperatorSwitch" then s.operatorSwitch.Check()
    else if prop == "TamperSensor" then s.tamperSensor.Check()
    else if prop == "InternalTamperSensor" then s.internalTamperSensor.Check()
    else if prop == "SeismicSensor" then s.seismicSensor.Check()
    else if prop == "HeatSensor" then s.heatSensor.Check()
    else if prop == "ProximitySensor" then s.proximitySensor.Check()
    else if prop == "AmbientLightSensor" then s.ambientLightSensor.Check()
    else if prop == "EnhancedAudioSensor" then s.enhancedAudioSensor.Check()
    else if prop == "BootSwitchSensor" then s.bootSwitchSensor.Check()
    else Drop
  }

  function PeripheralVerdict(s: AuxiliariesStatus, prop: string): Verdict
  {
    if prop == "DisplaySensor" then s.displaySensor.Check()
    else if prop == "OperatorCallButtonSensor" then s.operatorCallButtonSensor.Check()
    else if prop == "HandsetSensor" then s.handsetSensor.Check()
    else if prop == "HeadsetMicrophoneSensor" then s.headsetMicrophoneSensor.Check()
    else if prop == "FasciaMicrophoneSensor" then s.fasciaMicrophoneSensor.Check()
    else if prop == "VandalShield" then s.vandalShield.Check()
    else if prop == "OpenClosedIndicator" then s.openClosedIndicator.Check()
    else if prop == "AudioRate" then s.audioRate.Check()
    else if prop == "AudioSignal" then s.audioSignal.Check()
    else Drop
  }

  function ControlVerdict(s: AuxiliariesStatus, prop: string): Verdict
  {
    if prop == "Heating" then s.heating.Check()
    else if prop == "ConsumerDisplayBacklight" then s.consumerDisplayBacklight.Check()
    else if prop == "SignageDisplay" then s.signageDisplay.Check()
    else if prop == "Volume" then (if s.volume == 0 then Drop else Keep)
    else if prop == "UPS" then Keep
    else if prop == "AudibleAlarm" then s.audibleAlarm.Check()
    else if prop == "EnhancedAudioControl" then s.enhancedAudioControl.Check()
    else if prop == "EnhancedMicrophoneControl" then s.enhancedMicrophoneControl.Check()
    else if prop == "MicrophoneVolume" then (if s.microphoneVolume == 0 then Drop else Keep)
    else Drop
  }

  /**
   * The UPS record: Low is reported only while the UPS is not also Good; the
   * other three flags are reported as they are.
   */
  function UpsRecord(ups: set<UpsFlag>): (r: UpsPayload)
    ensures r.low <==> Low in ups && Good !in ups
    ensures (r.engaged <==> Engaged in ups) && (r.powering <==> Powering in ups) && (r.recovered <==> Recovered in ups)
  {
    UpsPayload(!(Good in ups) && Low in ups, Engaged in ups, Powering in ups, Recovered in ups)
  }

  /** A volume of 0 is sent as null. */
  function VolumeField(prop: string, name: string, volume: int): (r: Option<int>)
    ensures r.Some? <==> prop == name && volume != 0
    ensures r.Some? ==> r.value == volume
  {
    if prop != name then None else if volume == 0 then None else Some(volume)
  }

  /** Every sensor field that is set carries the status's own value. */
  predicate SensorsAgree(p: SensorFields, s: AuxiliariesStatus)
  {
    (p.operatorSwitch.Some? ==> p.operatorSwitch.value == s.operatorSwitch)
    && (p.tamperSensor.Some? ==> p.tamperSensor.value == s.tamperSensor)
    && (p.internalTamperSensor.Some? ==> p.internalTamperSensor.value == s.internalTamperSensor)
    && (p.seismicSensor.Some? ==> p.seismicSensor.value == s.seismicSensor)
    && (p.heatSensor.Some? ==> p.heatSensor.value == s.heatSensor)
    && (p.proximitySensor.Some? ==> p.proximitySensor.value == s.proximitySensor)
    && (p.ambientLightSensor.Some? ==> p.ambientLightSensor.value == s.ambientLightSensor)
    && (p.enhancedAudioSensor.Some? ==> p.enhancedAudioSensor.value == s.enhancedAudioSensor)
    && (p.bootSwitchSensor.Some? ==> p.bootSwitchSensor.value == s.bootSwitchSensor)
  }

  predicate PeripheralsAgree(p: PeripheralFields, s: AuxiliariesStatus)
  {
    (p.consumerDisplaySensor.Some? ==> p.consumerDisplaySensor.value == s.displaySensor)
    && (p.operatorCallButtonSensor.Some? ==> p.operatorCallButtonSensor.value == s.operatorCallButtonSensor)
    && (p.handsetSensor.Some? ==> p.handsetSensor.value == s.handsetSensor)
    && (p.headsetMicrophoneSensor.Some? ==> p.headsetMicrophoneSensor.value == s.headsetMicrophoneSensor)
    && (p.fasciaMicrophoneSensor.Some? ==> p.fasciaMicrophoneSensor.value == s.fasciaMicrophoneSensor)
    && (p.vandalShield.Some? ==> p.vandalShield.value == s.vandalShield)
    && (p.openClosedIndicator.Some? ==> p.openClosedIndicator.value == s.openClosedIndicator)
    && (p.audio.Some? && p.audio.value.rate.Some? ==> p.audio.value.rate.value == s.audioRate)
    && (p.audio.Some? && p.audio.value.signal.Some? ==> p.audio.value.signal.value == s.audioSignal)
  }

  predicate ControlsAgree(p: ControlFields, s: AuxiliariesStatus)
  {
    (p.heating.Some? ==> p.heating.value == s.heating)
    && (p.consumerDisplayBacklight.Some? ==> p.consumerDisplayBacklight.value == s.consumerDisplayBacklight)
    && (p.signageDisplay.Some? ==> p.signageDisplay.value == s.signageDisplay)
    && (p.volume.Some? ==> p.volume.value == s.volume)
    && (p.ups.Some? ==> p.ups.value == UpsRecord(s.ups))
    && (p.audibleAlarm.Some? ==> p.audibleAlarm.value == s.audibleAlarm)
    && (p.enhancedAudioControl.Some? ==> p.enhancedAudioControl.value == s.enhancedAudioControl)
    && (p.enhancedMicrophoneControl.Some? ==> p.enhancedMicrophoneControl.value == s.enhancedMicrophoneControl)
    && (p.microphoneVolume.Some? ==> p.microphoneVolume.value == s.microphoneVolume)
  }

  /** Every field that is set carries the status's own value. */
  predicate Agrees(p: AuxiliariesPayload, s: AuxiliariesStatus)
  {
    SensorsAgree(p.sensors, s) && PeripheralsAgree(p.peripherals, s) && ControlsAgree(p.controls, s)
  }

  function SensorsEvent(s: AuxiliariesStatus, prop: string): (r: Result<SensorFields>)
    ensures r.Failure? <==> SensorVerdict(s, prop) == Reject
    ensures r.Success? ==> r.value.Populated() == (if SensorVerdict(s, prop) == Keep then {prop} else {}) && SensorsAgree(r.value, s)
  {
    var operatorSwitch :- Field(prop, "OperatorSwitch", s.operatorSwitch, s.operatorSwitch.Check());
    var tamperSensor :- Field(prop, "TamperSensor", s.tamperSensor, s.tamperSensor.Check());
    var internalTamperSensor :- Field(prop, "InternalTamperSensor", s.internalTamperSensor, s.internalTamperSensor.Check());
    var seismicSensor :- Field(prop, "SeismicSensor", s.seismicSensor, s.seismicSensor.Check());
    var heatSensor :- Field(prop, "HeatSensor", s.heatSensor, s.heatSensor.Check());
    var proximitySensor :- Field(prop, "ProximitySensor", s.proximitySensor, s.proximitySensor.Check());
    var ambientLightSensor :- Field(prop, "AmbientLightSensor", s.ambientLightSensor, s.ambientLightSensor.Check());
    var enhancedAudioSensor :- Field(prop, "EnhancedAudioSensor", s.enhancedAudioSensor, s.enhancedAudioSensor.Check());
    var bootSwitchSensor :- Field(prop, "BootSwitchSensor", s.bootSwitchSensor, s.bootSwitchSensor.Check());
    Success(SensorFields(operatorSwitch, tamperSensor, internalTamperSensor, seismicSensor, heatSensor,
                         proximitySensor, ambientLightSensor, enhancedAudioSensor, bootSwitchSensor))
  }

  /** The audio record: present for either audio property, each part for its own. */
  function AudioEvent(s: AuxiliariesStatus, prop: string): (r: Result<Option<AudioPayload>>)
    ensures r.Success? ==> (r.value.Some? <==> prop == "AudioRate" || prop == "AudioSignal")
    ensures r.Success? && r.value.Some? ==>
              (r.value.value.rate.Some? <==> prop == "AudioRate" && s.audioRate.Check() == Keep)
              && (r.value.value.signal.Some? <==> prop == "AudioSignal" && s.audioSignal.Check() == Keep)
              && (r.value.value.rate.Some? ==> r.value.value.rate.value == s.audioRate)
              && (r.value.value.signal.Some? ==> r.value.value.signal.value == s.audioSignal)
    ensures r.Failure? <==> (prop == "AudioRate" && s.audioRate.Other?) || (prop == "AudioSignal" && s.audioSignal.Other?)
  {
    if prop != "AudioRate" && prop != "AudioSignal" then Success(None)
    else
      var rate :- Field(prop, "AudioRate", s.audioRate, s.audioRate.Check());
      var signal :- Field(prop, "AudioSignal", s.audioSignal, s.audioSignal.Check());
      Success(Some(AudioPayload(rate, signal)))
  }

  function PeripheralsEvent(s: AuxiliariesStatus, prop: string): (r: Result<PeripheralFields>)
    ensures r.Failure? <==> PeripheralVerdict(s, prop) == Reject
    ensures r.Success? ==> r.value.Populated() == (if PeripheralVerdict(s, prop) == Keep then {prop} else {}) && PeripheralsAgree(r.value, s)
    ensures r.Success? ==> (r.value.audio.Some? <==> prop == "AudioRate" || prop == "AudioSignal")
  {
    var consumerDisplaySensor :- Field(prop, "DisplaySensor", s.displaySensor, s.displaySensor.Check());
    var operatorCallButtonSensor :- Field(prop, "OperatorCallButtonSensor", s.operatorCallButtonSensor, s.operatorCallButtonSensor.Check());
    var handsetSensor :- Field(prop, "HandsetSensor", s.handsetSensor, s.handsetSensor.Check());
    var headsetMicrophoneSensor :- Field(prop, "HeadsetMicrophoneSensor", s.headsetMicrophoneSensor, s.headsetMicrophoneSensor.Check());
    var fasciaMicrophoneSensor :- Field(prop, "FasciaMicrophoneSensor", s.fasciaMicrophoneSensor, s.fasciaMicrophoneSensor.Check());
    var vandalShield :- Field(prop, "VandalShield", s.vandalShield, s.vandalShield.Check());
    var openClosedIndicator :- Field(prop, "OpenClosedIndicator", s.openClosedIndicator, s.openClosedIndicator.Check());
    var audio :- AudioEvent(s, prop);
    Success(PeripheralFields(consumerDisplaySensor, operatorCallButtonSensor, handsetSensor, headsetMicrophoneSensor,
                             fasciaMicrophoneSensor, vandalShield, openClosedIndicator, audio))
  }

  function ControlsEvent(s: AuxiliariesStatus, prop: string): (r: Result<ControlFields>)
    ensures r.Failure? <==> ControlVerdict(s, prop) == Reject
    ensures r.Success? ==> r.value.Populated() == (if ControlVerdict(s, prop) == Keep then {prop} else {}) && ControlsAgree(r.value, s)
  {
    var heating :- Field(prop, "Heating", s.heating, s.heating.Check());
    var consumerDisplayBacklight :- Field(prop, "ConsumerDisplayBacklight", s.consumerDisplayBacklight, s.consumerDisplayBacklight.Check());
    var signageDisplay :- Field(prop, "SignageDisplay", s.signageDisplay, s.signageDisplay.Check());
    var ups := if prop == "UPS" then Some(UpsRecord(s.ups)) else None;
    var audibleAlarm :- Field(prop, "AudibleAlarm", s.audibleAlarm, s.audibleAlarm.Check());
    var enhancedAudioControl :- Field(prop, "EnhancedAudioControl", s.enhancedAudioControl, s.enhancedAudioControl.Check());
    var enhancedMicrophoneControl :- Field(prop, "EnhancedMicrophoneControl", s.enhancedMicrophoneControl, s.enhancedMicrophoneControl.Check());
    Success(ControlFields(heating, consumerDisplayBacklight, signageDisplay, VolumeField(prop, "Volume", s.volume), ups,
                          audibleAlarm, enhancedAudioControl, enhancedMicrophoneControl,
                          VolumeField(prop, "MicrophoneVolume", s.microphoneVolume)))
  }

  /** A property outside a group gets no verdict from it. */
  lemma VerdictGroupsAreDisjoint(s: AuxiliariesStatus, prop: string)
    ensures prop !in SensorProperties ==> SensorVerdict(s, prop) == Drop
    ensures prop !in PeripheralProperties ==> PeripheralVerdict(s, prop) == Drop
    ensures prop !in ControlProperties ==> ControlVerdict(s, prop) == Drop
  {
  }

  /** No property name belongs to two groups. */
  lemma PropertyGroupsAreDisjoint()
    ensures SensorProperties !! PeripheralProperties
    ensures SensorProperties !! ControlProperties
    ensures PeripheralProperties !! ControlProperties
  {
  }

  /**
   * The auxiliaries event: always sent unless the changed value is refused,
   * with only the changed property's field set, and only when its value is
   * sent.
   */
  function AuxiliariesEvent(s: AuxiliariesStatus, prop: string): (r: Result<AuxiliariesPayload>)
    ensures r.Failure? <==> PropertyVerdict(s, prop) == Reject
    ensures r.Success? ==> r.value.Populated() == (if PropertyVerdict(s, prop) == Keep then {prop} else {})
    ensures r.Success? ==> Agrees(r.value, s)
    ensures r.Success? ==> (r.value.peripherals.audio.Some? <==> prop == "AudioRate" || prop == "AudioSignal")
  {
    VerdictGroupsAreDisjoint(s, prop);
    PropertyGroupsAreDisjoint();
    var sensors :- SensorsEvent(s, prop);
    var peripherals :- PeripheralsEvent(s, prop);
    var controls :- ControlsEvent(s, prop);
    Success(AuxiliariesPayload(sensors, peripherals, controls))
  }

  /** A UPS that reports Good never reports Low, whatever its Low flag says. */
  lemma GoodUpsIsNeverLow(s: AuxiliariesStatus)
    requires Good in s.ups
    ensures AuxiliariesEvent(s, "UPS").Success?
    ensures AuxiliariesEvent(s, "UPS").value.controls.ups.Some? && !AuxiliariesEvent(s, "UPS").value.controls.ups.value.low
  {
  }

  /** A change of an audio property sends the audio record even when its value is not available. */
  lemma AudioRecordWithoutValue(s: AuxiliariesStatus)
    requires s.audioRate.NotAvailable?
    ensures AuxiliariesEvent(s, "AudioRate").Success?
    ensures AuxiliariesEvent(s, "AudioRate").value.peripherals.audio == Some(AudioPayload(None, None))
  {
  }
}
