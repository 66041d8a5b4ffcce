/**
 * Printer.RetractMedia: validates the requested mediaControl against the
 * printer's retract bins, turns it into the bin number handed to the device
 * ("transport" is -1, "unit<d>" is d), and derives the completion's result
 * string from what the device reports.
 */
module RetractMedia {
  import opened Wrappers
  import C = Completion

  datatype RetractErrorCode = NoMediaPresent | RetractBinFull | MediaJammed

  /** What the device class returns from RetractAsync; the model leaves it unconstrained. */
  datatype DeviceRetractResult = DeviceRetractResult(
    completionCode: C.CompletionCode,
    errorDescription: Option<string>,
    errorCode: Option<RetractErrorCode>)

  /** The RetractMedia completion payload. */
  datatype RetractMediaPayload = RetractMediaPayload(
    completionCode: C.CompletionCode,
    errorDescription: Option<string>,
    errorCode: Option<RetractErrorCode>,
    result: Option<string>)

  const Transport: string := "transport"
  const NoMedia: string := "nomedia"
  const BadBinMessage: string := "Invalid bin number specifid."
  const BadControlMessage: string := "Specified media control is not supported by the device."

  predicate IsAsciiDigit(c: char)
  {
    '0' <= c <= '9'
  }

  /** `unit[0-9]+` over the whole string. */
  predicate IsUnitName(s: string)
  {
    |s| >= 5 && s[..4] == "unit" && forall i :: 4 <= i < |s| ==> IsAsciiDigit(s[i])
  }

  /** One alternative of the pattern over the whole string. */
  predicate MatchesWhole(s: string, alsoNoMedia: bool)
  {
    s == Transport || IsUnitName(s) || (alsoNoMedia && s == NoMedia)
  }

  /**
   * A .NET Regex.IsMatch of `^transport$|^unit[0-9]+$` (or, with alsoNoMedia, of
   * the completion's `^transport$|^nomedia$|^unit[0-9]+$`): without the
   * multiline option `^` anchors at the start and `$` at the end or just
   * before a final line feed.
   */
  predicate MatchesPattern(s: string, alsoNoMedia: bool)
  {
    MatchesWhole(s, alsoNoMedia)
    || (|s| > 0 && s[|s| - 1] == '\n' && MatchesWhole(s[..|s| - 1], alsoNoMedia))
  }

  /** A request is turned away with InvalidData before the device is called. */
  predicate Rejects(retractBins: int, mediaControl: Option<string>)
  {
    retractBins == 0
    || (mediaControl.Some? && mediaControl.value != "" && !MatchesPattern(mediaControl.value, false))
  }

  /**
   * The bin number handed to the device once the request is not rejected.
   * Anything but "transport" must be five characters long; a null control
   * fails on its Length before the length check can run.
   */
  function BinNumber(mediaControl: Option<string>): (r: Result<int>)
    ensures r.Success? ==> mediaControl.Some?
    ensures mediaControl == Some(Transport) ==> r == Success(-1)
    ensures r.Success? && mediaControl != Some(Transport) ==>
              |mediaControl.value| == 5 && r.value == mediaControl.value[4] as int - '0' as int
  {
    match mediaControl
    case None => Failure(NullReferenceFault)
    case Some(s) =>
      if s == Transport then Success(-1)
      else if |s| == 5 then Success(s[4] as int - 0x30)
      else Failure(AssertionFault("Invalid retract unit specified."))
  }

  /** The result string: "nomedia" when the device found none, the request on success, else null. */
  function MediaResult(mediaControl: Option<string>, device: DeviceRetractResult): Option<string>
  {
    if device.errorCode == Some(NoMediaPresent) then Some(NoMedia)
    else if device.completionCode == C.Success then mediaControl
    else None
  }

  function Rejection(message: string): RetractMediaPayload
  {
    RetractMediaPayload(C.InvalidData, Some(message), None, None)
  }

  /**
   * HandleRetractMedia. The device is a black box given as a function of the bin
   * number; retracted reports the bin it was called with, or None when it was
   * not called.
   */
  method HandleRetractMedia(retractBins: int, mediaControl: Option<string>, device: int -> DeviceRetractResult)
    returns (r: Result<RetractMediaPayload>, retracted: Option<int>)
    ensures retractBins == 0 ==> r == Success(Rejection(BadBinMessage)) && retracted == None
    ensures retractBins != 0 && Rejects(retractBins, mediaControl) ==>
              r == Success(Rejection(BadControlMessage + mediaControl.value)) && retracted == None
    ensures !Rejects(retractBins, mediaControl) && BinNumber(mediaControl).Failure? ==>
              r == Failure(BinNumber(mediaControl).error) && retracted == None
    ensures !Rejects(retractBins, mediaControl) && BinNumber(mediaControl).Success? ==>
              var bin := BinNumber(mediaControl).value;
              var d := device(bin);
              retracted == Some(bin)
              && r == Success(RetractMediaPayload(d.completionCode, d.errorDescription, d.errorCode,
                                                  MediaResult(mediaControl, d)))
  {
    retracted := None;
    if retractBins == 0 {
      return Success(Rejection(BadBinMessage)), None;
    }
    var binNumber := -1;
    if mediaControl.Some? && mediaControl.value != "" {
      if !MatchesPattern(mediaControl.value, false) {
        return Success(Rejection(BadControlMessage + mediaControl.value)), None;
      }
    }
    if mediaControl != Some(Transport) {
      if mediaControl.None? {
        return Failure(NullReferenceFault), None;
      }
      if |mediaControl.value| != 5 {
        return Failure(AssertionFault("Invalid retract unit specified.")), None;
      }
      binNumber := mediaControl.value[4] as int - 0x30;
    }
    var result := device(binNumber);
    retracted := Some(binNumber);
    var mediaResult: Option<string> := None;
    if result.errorCode == Some(NoMediaPresent) {
      mediaResult := Some(NoMedia);
    } else if result.completionCode == C.Success {
      mediaResult := mediaControl;
    }
    r := Success(RetractMediaPayload(result.completionCode, result.errorDescription, result.errorCode, mediaResult));
  }

  /** No retract bins: even "transport" is refused. */
  lemma NoBinsRejectsEverything(mediaControl: Option<string>)
    ensures Rejects(0, mediaControl)
  {
  }

  /**
   * A five-character control that passes the pattern is "unit" and one digit:
   * the line-feed alternative cannot fit in five characters.
   */
  lemma {:induction false} FiveCharacterControl(s: string)
    requires MatchesPattern(s, false) && |s| == 5
    ensures s[..4] == "unit" && IsAsciiDigit(s[4])
  {
  }

  /**
   * The bin number handed to the device: -1 for "transport", the digit for
   * "unit<d>", and no call at all for anything else, including an absent or
   * empty control (no default to the transport) and a multi-digit unit.
   */
  lemma {:induction false} BinNumberOfAcceptedControl(retractBins: int, mediaControl: Option<string>)
    requires !Rejects(retractBins, mediaControl)
    ensures BinNumber(mediaControl).Success? <==>
              mediaControl.Some? && (mediaControl.value == Transport || |mediaControl.value| == 5)
    ensures BinNumber(mediaControl).Success? ==>
              (mediaControl.value == Transport && BinNumber(mediaControl).value == -1)
              || (mediaControl.value[..4] == "unit" && IsAsciiDigit(mediaControl.value[4])
                  && 0 <= BinNumber(mediaControl).value <= 9)
    ensures mediaControl == None || mediaControl == Some("") ==> BinNumber(mediaControl).Failure?
  {
    if mediaControl.Some? && mediaControl.value != Transport && |mediaControl.value| == 5 {
      FiveCharacterControl(mediaControl.value);
    }
  }

  /** "unit<d>" retracts to bin d. */
  lemma UnitDigitSelectsBin(d: char)
    requires IsAsciiDigit(d)
    ensures !Rejects(1, Some("unit" + [d]))
    ensures BinNumber(Some("unit" + [d])) == Success(d as int - '0' as int)
  {
    var s := "unit" + [d];
    assert s[..4] == "unit";
    assert IsUnitName(s);
  }

  /**
   * Whatever the device reports, a result that is sent matches the
   * completion's own pattern `^transport$|^nomedia$|^unit[0-9]+$`.
   */
  lemma {:induction false} ResultMatchesCompletionPattern(retractBins: int, mediaControl: Option<string>, device: DeviceRetractResult)
    requires !Rejects(retractBins, mediaControl) && BinNumber(mediaControl).Success?
    ensures MediaResult(mediaControl, device).Some? ==> MatchesPattern(MediaResult(mediaControl, device).value, true)
    ensures MediaResult(mediaControl, device).Some? ==>
              MediaResult(mediaControl, device).value in {Transport, NoMedia} || |MediaResult(mediaControl, device).value| == 5
  {
    var res := MediaResult(mediaControl, device);
    if res.Some? && res.value != NoMedia {
      BinNumberOfAcceptedControl(retractBins, mediaControl);
      var s := mediaControl.value;
      if s != Transport {
        assert s[..4] == "unit" && IsAsciiDigit(s[4]);
        assert IsUnitName(s);
      }
    }
  }

  /** No result is reported exactly when the device found media but did not succeed, or no control was given. */
  lemma NoResultExactlyWhen(mediaControl: Option<string>, device: DeviceRetractResult)
    ensures MediaResult(mediaControl, device).None? <==>
              device.errorCode != Some(NoMediaPresent) && (device.completionCode != C.Success || mediaControl.None?)
  {
  }
}
