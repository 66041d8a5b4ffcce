/**
 * The shape every field of a status-changed payload is built with: a field is
 * null unless its property is the one that changed, and then the value is
 * passed on, dropped (null) or refused with an InternalErrorException,
 * according to the translation switch.
 */
module StatusFields {
  import opened Wrappers

  /** What a translation switch does with one internal value. */
  datatype Verdict =
    | Keep     // a listed value: sent under the same name
    | Drop     // NotSupported, NotAvailable and the like: sent as null
    | Reject   // a value the switch does not list: `_ => throw`

  /** `prop != name ? null : value switch { ... }` for a value the wire enum names alike. */
  function Field<T>(prop: string, name: string, value: T, verdict: Verdict): (r: Result<Option<T>>)
    ensures r.Success? && r.value.Some? <==> prop == name && verdict == Keep
    ensures r.Success? && r.value.Some? ==> r.value.value == value
    ensures r.Failure? <==> prop == name && verdict == Reject
    ensures r.Failure? ==> r.error == InternalErrorFault(name)
  {
    if prop != name then Success(None)
    else match verdict
      case Keep => Success(Some(value))
      case Drop => Success(None)
      case Reject => Failure(InternalErrorFault(name))
  }

  /** `prop != name ? null : value` for a value passed through as it is. */
  function Pass<T>(prop: string, name: string, value: Option<T>): (r: Option<T>)
    ensures r.Some? <==> prop == name && value.Some?
    ensures r.Some? ==> r == value
  {
    if prop != name then None else value
  }

  /**
   * How an entry reaches the extended properties of a payload record. The
   * generated schema classes compute ExtendedProperties from ExtensionData on
   * every read, so `record.ExtendedProperties.Add(key, value)` fills a freshly
   * parsed copy and leaves the record as it was; only assigning the property
   * stores the entries in the record.
   */
  datatype ExtendedWrite =
    | AddOnParsedCopy   // `record.ExtendedProperties.Add(key, value)`
    | AssignProperty    // `record.ExtendedProperties = dictionary`

  /** The extended properties a record carries after `entries` are written to it the given way. */
  function Written<T>(write: ExtendedWrite, entries: map<string, T>): (r: map<string, T>)
    ensures write.AssignProperty? ==> r == entries
    ensures write.AddOnParsedCopy? ==> r == map[]
  {
    if write.AssignProperty? then entries else map[]
  }

  /**
   * What one status change leads to: the events sent, in order, and the
   * exception that ended the handler, if any. An exception stops the handler,
   * so no event follows it.
   */
  datatype Emission<E> = Emission(events: seq<E>, fault: Option<Fault>)
}
