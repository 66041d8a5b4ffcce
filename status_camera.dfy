/**
 * Status-changed payload for a camera location status. Each of the three
 * fields (media, cameras, pictures) is a record keyed by location: one of the
 * three named locations, or a custom location in the extended properties.
 */
module CameraStatusEvents {
  import opened Wrappers
  import opened StatusFields

  /** CameraLocationEnum; OtherLocation is a value the payload has no slot for. */
  datatype CameraLocation = Room | ExitSlot | Person | OtherLocation(code: int)

  /** The internal media state. Unknown and unlisted values are both sent as Unknown. */
  datatype MediaState = Ok | High | Full | Unknown | Other(code: int)

  /** XFS4IoT.Camera.MediaStateEnum. */
  datatype WireMediaState = MediaOk | MediaHigh | MediaFull | MediaUnknown

  /** The internal cameras state. */
  datatype CamerasState = Ok | Inoperable | Unknown | Other(code: int)

  /** XFS4IoT.Camera.CamerasStateEnum: Inoperable is sent as Inop. */
  datatype WireCamerasState = CamerasOk | Inop | CamerasUnknown

  datatype CameraLocationStatus = CameraLocationStatus(
    location: Option<CameraLocation>,
    customLocation: Option<string>,
    mediaState: MediaState,
    camerasState: CamerasState,
    numberOfPictures: Option<int>)

  /** One location-keyed record: Room, Person, ExitSlot and the extended properties. */
  datatype LocationRecord<T> = LocationRecord(room: Option<T>, person: Option<T>, exitSlot: Option<T>, extended: map<string, T>)
  {
    /** Every location the record holds a value for, under the location's name. */
    function Entries(): map<string, T>
    {
      extended
      + (if room.Some? then map["Room" := room.value] else map[])
      + (if person.Some? then map["Person" := person.value] else map[])
      + (if exitSlot.Some? then map["ExitSlot" := exitSlot.value] else map[])
    }
  }

  datatype CameraPayload = CameraPayload(
    media: Option<LocationRecord<WireMediaState>>,
    cameras: Option<LocationRecord<WireCamerasState>>,
    pictures: Option<LocationRecord<int>>)

  function WireMedia(m: MediaState): (w: WireMediaState)
    ensures m.Ok? <==> w == MediaOk
    ensures m.High? <==> w == MediaHigh
    ensures m.Full? <==> w == MediaFull
    ensures (m.Unknown? || m.Other?) <==> w == MediaUnknown
  {
    match m
    case Ok => MediaOk
    case High => MediaHigh
    case Full => MediaFull
    case _ => MediaUnknown
  }

  function WireCameras(c: CamerasState): (w: WireCamerasState)
    ensures c.Ok? <==> w == CamerasOk
    ensures c.Inoperable? <==> w == Inop
    ensures (c.Unknown? || c.Other?) <==> w == CamerasUnknown
  {
    match c
    case Ok => CamerasOk
    case Inoperable => Inop
    case _ => CamerasUnknown
  }

  predicate IsNamedLocation(location: Option<CameraLocation>)
  {
    location.Some? && !location.value.OtherLocation?
  }

  /** The key a value is filed under: the named location, else the custom location. */
  function LocationKey(location: Option<CameraLocation>, customLocation: Option<string>): string
  {
    if IsNamedLocation(location) then
      match location.value
      case Room => "Room"
      case ExitSlot => "ExitSlot"
      case _ => "Person"
    else if customLocation.Some? then customLocation.value
    else ""
  }

  /** A record can be built for a named location or a non-empty custom location. */
  predicate Placeable(location: Option<CameraLocation>, customLocation: Option<string>)
  {
    IsNamedLocation(location) || (customLocation.Some? && customLocation.value != "")
  }

  /** Whether the key of the status's location reaches the record written the given way. */
  predicate KeyReaches(location: Option<CameraLocation>, write: ExtendedWrite)
  {
    IsNamedLocation(location) || write.AssignProperty?
  }

  /**
   * The record holding one value at the status's location, if it has one: the
   * named location's field, or else a fresh record with the value added to the
   * extended properties under the custom location.
   */
  function Place<T>(location: Option<CameraLocation>, customLocation: Option<string>, value: T, write: ExtendedWrite)
    : (r: Option<LocationRecord<T>>)
    ensures r.Some? <==> Placeable(location, customLocation)
    ensures r.Some? ==> r.value.Entries() == if KeyReaches(location, write) then map[LocationKey(location, customLocation) := value] else map[]
    ensures r.Some? && IsNamedLocation(location) ==> r.value.extended == map[]
    ensures r.Some? && !IsNamedLocation(location) ==> r.value.room.None? && r.value.person.None? && r.value.exitSlot.None?
  {
    if IsNamedLocation(location) then
      var l := location.value;
      Some(LocationRecord(if l.Room? then Some(value) else None,
                          if l.Person? then Some(value) else None,
                          if l.ExitSlot? then Some(value) else None,
                          map[]))
    else if customLocation.Some? && customLocation.value != "" then
      Some(LocationRecord(None, None, None, Written(write, map[customLocation.value := value])))
    else None
  }

  /** The property is one of the three the payload reports, with a value to report. */
  predicate Reports(s: CameraLocationStatus, prop: string)
  {
    prop == "MediaState" || prop == "CamerasState" || (prop == "NumberOfPictures" && s.numberOfPictures.Some?)
  }

  /** What a record sent for the status holds: its value under the location's key, when that key reaches the record. */
  function Filed<T>(s: CameraLocationStatus, write: ExtendedWrite, value: T): map<string, T>
  {
    if KeyReaches(s.location, write) then map[LocationKey(s.location, s.customLocation) := value] else map[]
  }

  /** The payload, or None when no event is sent. */
  function CameraEvent(s: CameraLocationStatus, prop: string, write: ExtendedWrite): (r: Option<CameraPayload>)
    ensures r.Some? <==> Reports(s, prop) && Placeable(s.location, s.customLocation)
    ensures r.Some? ==> (r.value.media.Some? <==> prop == "MediaState")
                        && (r.value.cameras.Some? <==> prop == "CamerasState")
                        && (r.value.pictures.Some? <==> prop == "NumberOfPictures")
    ensures r.Some? && r.value.media.Some? ==> r.value.media.value.Entries() == Filed(s, write, WireMedia(s.mediaState))
    ensures r.Some? && r.value.cameras.Some? ==> r.value.cameras.value.Entries() == Filed(s, write, WireCameras(s.camerasState))
    ensures r.Some? && r.value.pictures.Some? ==> r.value.pictures.value.Entries() == Filed(s, write, s.numberOfPictures.value)
  {
    var media := if prop == "MediaState" then Place(s.location, s.customLocation, WireMedia(s.mediaState), write) else None;
    var cameras := if prop == "CamerasState" then Place(s.location, s.customLocation, WireCameras(s.camerasState), write) else None;
    var pictures := if prop == "NumberOfPictures" && s.numberOfPictures.Some? then
                      Place(s.location, s.customLocation, s.numberOfPictures.value, write)
                    else None;
    if media.Some? || cameras.Some? || pictures.Some? then Some(CameraPayload(media, cameras, pictures)) else None
  }

  /**
   * A status at an unnamed location with no custom location never raises an
   * event, and neither does any property other than the three reported ones.
   */
  lemma CameraEventNeedsLocation(s: CameraLocationStatus, prop: string, write: ExtendedWrite)
    ensures !IsNamedLocation(s.location) && (s.customLocation.None? || s.customLocation == Some("")) ==> CameraEvent(s, prop, write).None?
    ensures prop !in {"MediaState", "CamerasState", "NumberOfPictures"} ==> CameraEvent(s, prop, write).None?
    ensures IsNamedLocation(s.location) && prop == "MediaState" ==>
              CameraEvent(s, prop, write).Some? && CameraEvent(s, prop, write).value.media.value.extended == map[]
  {
  }

  /** No record sent for the status holds the key `k`. */
  predicate KeyAbsent(p: CameraPayload, k: string)
  {
    (p.media.Some? ==> k !in p.media.value.Entries())
    && (p.cameras.Some? ==> k !in p.cameras.value.Entries())
    && (p.pictures.Some? ==> k !in p.pictures.value.Entries())
  }

  /**
   * A named location wins over a custom one: the event is sent under the named
   * location, for each of the three properties and however the extended
   * properties are written, and the custom name is then not used.
   */
  lemma NamedLocationWins(s: CameraLocationStatus, prop: string, write: ExtendedWrite)
    requires IsNamedLocation(s.location) && Reports(s, prop)
    requires s.customLocation.Some? && s.customLocation.value != LocationKey(s.location, s.customLocation)
    ensures CameraEvent(s, prop, write).Some?
    ensures KeyAbsent(CameraEvent(s, prop, write).value, s.customLocation.value)
    ensures LocationKey(s.location, s.customLocation) in {"Room", "ExitSlot", "Person"}
  {
  }

  /**
   * As written, a status at a custom location only still raises the event, but
   * the record it sends is empty: the value added to the parsed copy of the
   * extended properties never reaches it.
   */
  lemma CustomLocationIsLost(s: CameraLocationStatus, prop: string)
    requires !IsNamedLocation(s.location) && s.customLocation.Some? && s.customLocation.value != "" && Reports(s, prop)
    ensures var r := CameraEvent(s, prop, AddOnParsedCopy);
            r.Some?
            && (r.value.media.Some? ==> r.value.media.value == LocationRecord(None, None, None, map[]))
            && (r.value.cameras.Some? ==> r.value.cameras.value == LocationRecord(None, None, None, map[]))
            && (r.value.pictures.Some? ==> r.value.pictures.value == LocationRecord(None, None, None, map[]))
  {
  }

  /**
   * With the extended properties assigned, the record sent for a custom
   * location holds the value under the custom location and nowhere else.
   */
  lemma CustomLocationIsKept(s: CameraLocationStatus, prop: string)
    requires !IsNamedLocation(s.location) && s.customLocation.Some? && s.customLocation.value != "" && Reports(s, prop)
    ensures var r := CameraEvent(s, prop, AssignProperty);
            r.Some?
            && (r.value.media.Some? ==> r.value.media.value == LocationRecord(None, None, None, map[s.customLocation.value := WireMedia(s.mediaState)]))
            && (r.value.cameras.Some? ==> r.value.cameras.value == LocationRecord(None, None, None, map[s.customLocation.value := WireCameras(s.camerasState)]))
            && (r.value.pictures.Some? ==> r.value.pictures.value == LocationRecord(None, None, None, map[s.customLocation.value := s.numberOfPictures.value]))
  {
  }
}
