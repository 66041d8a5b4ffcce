/**
 * Status-changed payloads for the printer status class, its retract bins and
 * its paper supplies.
 */
module PrinterStatusEvents {
  import opened Wrappers
  import opened StatusFields

  // ---- Printer ----

  datatype PrinterMediaState = Present | Entering | Retracted | NotPresent | Jammed | Unknown | NotSupported | Other(code: int)
  {
    function Check(): Verdict { if Other? then Reject else if NotSupported? then Drop else Keep }
  }

  /** TonerEnum and InkEnum share these names. */
  datatype LevelState = Full | Low | Out | Unknown | NotSupported | Other(code: int)
  {
    function Check(): Verdict { if Other? then Reject else if NotSupported? then Drop else Keep }
  }

  datatype LampState = Ok | Fading | Inop | Unknown | NotSupported | Other(code: int)
  {
    function Check(): Verdict { if Other? then Reject else if NotSupported? then Drop else Keep }
  }

  datatype BlackMarkState = On | Off | Unknown | NotSupported | Other(code: int)
  {
    function Check(): Verdict { if Other? then Reject else if NotSupported? then Drop else Keep }
  }

  datatype PrinterStatus = PrinterStatus(
    media: PrinterMediaState,
    toner: LevelState,
    ink: LevelState,
    lamp: LampState,
    mediaOnStacker: int,
    blackMarkMode: BlackMarkState)

  datatype PrinterPayload = PrinterPayload(
    media: Option<PrinterMediaState>,
    toner: Option<LevelState>,
    ink: Option<LevelState>,
    lamp: Option<LampState>,
    mediaOnStacker: Option<int>,
    blackMarkMode: Option<BlackMarkState>)
  {
    function Populated(): set<string>
    {
      (if media.Some? then {"Media"} else {})
      + (if toner.Some? then {"Toner"} else {})
      + (if ink.Some? then {"Ink"} else {})
      + (if lamp.Some? then {"Lamp"} else {})
      + (if mediaOnStacker.Some? then {"MediaOnStacker"} else {})
      + (if blackMarkMode.Some? then {"BlackMarkMode"} else {})
    }
  }

  function PrinterEvent(s: PrinterStatus, prop: string): (r: Result<PrinterPayload>)
    ensures r.Success? ==> r.value.Populated() <= {prop}
    ensures r.Failure? <==> (prop == "Media" && s.media.Other?) || (prop == "Toner" && s.toner.Other?)
                            || (prop == "Ink" && s.ink.Other?) || (prop == "Lamp" && s.lamp.Other?)
                            || (prop == "BlackMarkMode" && s.blackMarkMode.Other?)
    ensures r.Success? ==> (r.value.media.Some? <==> prop == "Media" && !s.media.NotSupported?)
                           && (r.value.toner.Some? <==> prop == "Toner" && !s.toner.NotSupported?)
                           && (r.value.ink.Some? <==> prop == "Ink" && !s.ink.NotSupported?)
                           && (r.value.lamp.Some? <==> prop == "Lamp" && !s.lamp.NotSupported?)
                           && (r.value.blackMarkMode.Some? <==> prop == "BlackMarkMode" && !s.blackMarkMode.NotSupported?)
    ensures r.Success? ==> (r.value.mediaOnStacker.Some? <==> prop == "MediaOnStacker" && s.mediaOnStacker >= 0)
    ensures r.Success? ==> (r.value.media.Some? ==> r.value.media.value == s.media)
                           && (r.value.toner.Some? ==> r.value.toner.value == s.toner)
                           && (r.value.ink.Some? ==> r.value.ink.value == s.ink)
                           && (r.value.lamp.Some? ==> r.value.lamp.value == s.lamp)
                           && (r.value.mediaOnStacker.Some? ==> r.value.mediaOnStacker.value == s.mediaOnStacker)
                           && (r.value.blackMarkMode.Some? ==> r.value.blackMarkMode.value == s.blackMarkMode)
  {
    var media :- Field(prop, "Media", s.media, s.media.Check());
    var toner :- Field(prop, "Toner", s.toner, s.toner.Check());
    var ink :- Field(prop, "Ink", s.ink, s.ink.Check());
    var lamp :- Field(prop, "Lamp", s.lamp, s.lamp.Check());
    var mediaOnStacker := if prop != "MediaOnStacker" then None else if s.mediaOnStacker < 0 then None else Some(s.mediaOnStacker);
    var blackMarkMode :- Field(prop, "BlackMarkMode", s.blackMarkMode, s.blackMarkMode.Check());
    Success(PrinterPayload(media, toner, ink, lamp, mediaOnStacker, blackMarkMode))
  }

  /** A negative stacker count means "not known" and is sent as null; 0 and above are sent. */
  lemma MediaOnStackerSentinel(s: PrinterStatus)
    ensures PrinterEvent(s, "MediaOnStacker").Success?
    ensures PrinterEvent(s, "MediaOnStacker").value.mediaOnStacker == if s.mediaOnStacker < 0 then None else Some(s.mediaOnStacker)
  {
  }

  // ---- Retract bins ----

  /** The bin state has no NotSupported value: every value is sent or refused. */
  datatype BinState = Ok | Full | High | Missing | Unknown | Other(code: int)
  {
    function Check(): Verdict { if Other? then Reject else Keep }
  }

  datatype RetractBinPayload = RetractBinPayload(state: Option<BinState>, count: Option<int>)

  /**
   * A retract bin change is always reported as a one-entry list, whichever
   * bin changed.
   */
  function RetractBinEvent(state: BinState, count: int, prop: string): (r: Result<seq<RetractBinPayload>>)
    ensures r.Failure? <==> prop == "State" && state.Other?
    ensures r.Success? ==> |r.value| == 1
    ensures r.Success? ==> (r.value[0].state.Some? <==> prop == "State") && (r.value[0].count.Some? <==> prop == "Count")
    ensures r.Success? ==> (r.value[0].state.Some? ==> r.value[0].state.value == state)
                           && (r.value[0].count.Some? ==> r.value[0].count.value == count)
  {
    var binState :- Field(prop, "State", state, state.Check());
    Success([RetractBinPayload(binState, Pass(prop, "Count", Some(count)))])
  }

  // ---- Paper supplies ----

  /** An unlisted paper type is sent as null, not refused. */
  datatype PaperTypeState = Single | Dual | Unknown | Other(code: int)

  /** An unlisted paper supply state is sent as null, not refused. */
  datatype PaperSupplyState = Full | Low | Out | Jammed | Unknown | Other(code: int)

  /** PaperSourceEnum; OtherSource is a source without a payload field. */
  datatype PaperSource = Upper | Lower | External | Aux | Aux2 | Park | OtherSource(code: int)

  datatype SupplyStatus = SupplyStatus(
    source: Option<PaperSource>,
    customSource: Option<string>,
    paperType: PaperTypeState,
    paperSupply: PaperSupplyState)

  /** A source-keyed record: the six named sources and the extended properties. */
  datatype SourceRecord<T(==)> = SourceRecord(
    upper: Option<T>, lower: Option<T>, external: Option<T>, aux: Option<T>, aux2: Option<T>, park: Option<T>,
    extended: map<string, T>)
  {
    /** The named sources the record holds a value for. */
    function Sources(): set<PaperSource>
    {
      (if upper.Some? then {Upper} else {})
      + (if lower.Some? then {Lower} else {})
      + (if external.Some? then {External} else {})
      + (if aux.Some? then {Aux} else {})
      + (if aux2.Some? then {Aux2} else {})
      + (if park.Some? then {Park} else {})
    }

    /** Every value the record holds, named or extended. */
    predicate Holds(v: T)
    {
      (upper.Some? ==> upper.value == v) && (lower.Some? ==> lower.value == v) && (external.Some? ==> external.value == v)
      && (aux.Some? ==> aux.value == v) && (aux2.Some? ==> aux2.value == v) && (park.Some? ==> park.value == v)
      && (forall k :: k in extended ==> extended[k] == v)
    }
  }

  /** Whether the status names a custom source. */
  predicate HasCustomSource(customSource: Option<string>)
  {
    customSource.Some? && customSource.value != ""
  }

  /** The extended properties a supply record carries for the status's custom source. */
  function CustomEntries<T>(customSource: Option<string>, v: T, write: ExtendedWrite): map<string, T>
  {
    if HasCustomSource(customSource) then Written(write, map[customSource.value := v]) else map[]
  }

  /**
   * The record for one supply value: the source's own field when the source is
   * named, and, independently, the custom source added to the extended properties.
   */
  function PlaceSupply<T(==)>(source: PaperSource, customSource: Option<string>, v: T, write: ExtendedWrite): (r: SourceRecord<T>)
    ensures r.Sources() == if source.OtherSource? then {} else {source}
    ensures r.extended == if HasCustomSource(customSource) && write.AssignProperty? then map[customSource.value := v] else map[]
    ensures r.Holds(v)
  {
    var named := SourceRecord(if source == Upper then Some(v) else None,
                              if source == Lower then Some(v) else None,
                              if source == External then Some(v) else None,
                              if source == Aux then Some(v) else None,
                              if source == Aux2 then Some(v) else None,
                              if source == Park then Some(v) else None,
                              map[]);
    if HasCustomSource(customSource) then named.(extended := Written(write, map[customSource.value := v])) else named
  }

  datatype SupplyEvent = PaperEvent(paper: SourceRecord<PaperSupplyState>) | PaperTypeEvent(paperType: SourceRecord<PaperTypeState>)

  /**
   * The supply events: a paper record when the supply changed to a listed
   * value, then a paper-type record when the type changed to a listed value,
   * each only for a known source.
   */
  function SupplyEvents(s: SupplyStatus, prop: string, write: ExtendedWrite): (r: seq<SupplyEvent>)
    ensures |r| <= 1
    ensures r != [] <==> s.source.Some? && ((prop == "PaperSupply" && !s.paperSupply.Other?)
                                            || (prop == "PaperType" && !s.paperType.Other?))
    ensures r != [] && r[0].PaperEvent? ==> prop == "PaperSupply" && r[0].paper.Holds(s.paperSupply)
    ensures r != [] && r[0].PaperTypeEvent? ==> prop == "PaperType" && r[0].paperType.Holds(s.paperType)
    ensures r != [] && r[0].PaperEvent? ==> r[0].paper.Sources() == if s.source.value.OtherSource? then {} else {s.source.value}
    ensures r != [] && r[0].PaperTypeEvent? ==> r[0].paperType.Sources() == if s.source.value.OtherSource? then {} else {s.source.value}
    ensures r != [] && r[0].PaperEvent? ==> r[0].paper.extended == CustomEntries(s.customSource, s.paperSupply, write)
    ensures r != [] && r[0].PaperTypeEvent? ==> r[0].paperType.extended == CustomEntries(s.customSource, s.paperType, write)
  {
    var paperStatus := if prop != "PaperSupply" || s.paperSupply.Other? then None else Some(s.paperSupply);
    var typeStatus := if prop != "PaperType" || s.paperType.Other? then None else Some(s.paperType);
    var paper := if paperStatus.Some? && s.source.Some? then [PaperEvent(PlaceSupply(s.source.value, s.customSource, paperStatus.value, write))] else [];
    var paperType := if typeStatus.Some? && s.source.Some? then [PaperTypeEvent(PlaceSupply(s.source.value, s.customSource, typeStatus.value, write))] else [];
    paper + paperType
  }

  /**
   * As written, the custom source never reaches the record: a named source
   * sends only its own field, and an unnamed source still raises the event,
   * with an empty record.
   */
  lemma CustomSourceIsLost(s: SupplyStatus, prop: string)
    requires s.source.Some? && HasCustomSource(s.customSource)
    requires (prop == "PaperSupply" && !s.paperSupply.Other?) || (prop == "PaperType" && !s.paperType.Other?)
    ensures var r := SupplyEvents(s, prop, AddOnParsedCopy);
            |r| == 1
            && (r[0].PaperEvent? ==> r[0].paper.extended == map[] && r[0].paper.Sources() == if s.source.value.OtherSource? then {} else {s.source.value})
            && (r[0].PaperTypeEvent? ==> r[0].paperType.extended == map[] && r[0].paperType.Sources() == if s.source.value.OtherSource? then {} else {s.source.value})
  {
  }

  /** As written, an unnamed source with a custom source sends an empty paper record. */
  lemma UnnamedSourceSendsEmptyRecord(code: int, custom: string, supply: PaperSupplyState, paperType: PaperTypeState)
    requires custom != "" && !supply.Other?
    ensures SupplyEvents(SupplyStatus(Some(OtherSource(code)), Some(custom), paperType, supply), "PaperSupply", AddOnParsedCopy)
            == [PaperEvent(SourceRecord(None, None, None, None, None, None, map[]))]
  {
  }

  /**
   * With the extended properties assigned, an unnamed source still raises the
   * event, with no named field set and the value under the custom source.
   */
  lemma UnnamedSourceUsesCustomSource(code: int, custom: string, supply: PaperSupplyState, paperType: PaperTypeState)
    requires custom != "" && !supply.Other?
    ensures SupplyEvents(SupplyStatus(Some(OtherSource(code)), Some(custom), paperType, supply), "PaperSupply", AssignProperty)
            == [PaperEvent(SourceRecord(None, None, None, None, None, None, map[custom := supply]))]
  {
  }
}
