/**
 * The printer part of the Common.Capabilities completion: a boolean record
 * per flag enum, and the paper sources record with the custom sources as its
 * extended properties.
 */
module PrinterCapabilities {
  import opened Wrappers
  import opened CapabilityFlags

  datatype PrinterType = Receipt | Passbook | Journal | Document | ScannerType
  datatype Resolution = Low | Medium | High | VeryHigh
  datatype ReadForm = OCR | MICR | MSF | Barcode | PageMark | Image | EmptyLine
  datatype WriteForm = Text | Graphics | OCR | MICR | MSF | Barcode | Stamp
  datatype Extent = Horizontal | Vertical
  datatype Control =
    | Eject | Perforate | Cut | Skip | Flush | Retract | Stack | PartialCut | Alarm | PageForward
    | PageBackward | TurnMedia | Stamp | Park | Expel | EjectToTransport | Rotate180 | ClearBuffer
  datatype PaperSource = Upper | Lower | External | Aux | Aux2 | Park
  datatype ImageType = TIF | WMF | BMP | JPG
  /** FrontImageColorFormatEnum and BackImageColorFormatEnum carry the same three names. */
  datatype ImageColorFormat = Binary | GrayScale | Full
  datatype CodelineFormat = CMC7 | E13B | OCR
  datatype ImageSource = ImageFront | ImageBack | CodeLine

  const PrinterTypeOrder: seq<PrinterType> := [Receipt, Passbook, Journal, Document, ScannerType]
  const ResolutionOrder: seq<Resolution> := [Low, Medium, High, VeryHigh]
  const ReadFormOrder: seq<ReadForm> :=
    [ReadForm.OCR, ReadForm.MICR, ReadForm.MSF, ReadForm.Barcode, PageMark, Image, EmptyLine]
  const WriteFormOrder: seq<WriteForm> :=
    [Text, Graphics, WriteForm.OCR, WriteForm.MICR, WriteForm.MSF, WriteForm.Barcode, WriteForm.Stamp]
  const ExtentOrder: seq<Extent> := [Horizontal, Vertical]
  const ControlOrder: seq<Control> :=
    [Eject, Perforate, Cut, Skip, Flush, Retract, Stack, PartialCut, Alarm, PageForward,
     PageBackward, TurnMedia, Control.Stamp, Control.Park, Expel, EjectToTransport, Rotate180, ClearBuffer]
  const PaperSourceOrder: seq<PaperSource> := [Upper, Lower, External, Aux, Aux2, PaperSource.Park]
  const ImageTypeOrder: seq<ImageType> := [TIF, WMF, BMP, JPG]
  const ImageColorFormatOrder: seq<ImageColorFormat> := [Binary, GrayScale, Full]
  const CodelineFormatOrder: seq<CodelineFormat> := [CMC7, E13B, CodelineFormat.OCR]
  const ImageSourceOrder: seq<ImageSource> := [ImageFront, ImageBack, CodeLine]

  datatype PrinterCaps = PrinterCaps(
    types: set<PrinterType>,
    resolutions: set<Resolution>,
    readForms: set<ReadForm>,
    writeForms: set<WriteForm>,
    extents: set<Extent>,
    controls: set<Control>,
    maxMediaOnStacker: int,
    acceptMedia: bool,
    multiPage: bool,
    paperSources: set<PaperSource>,
    customPaperSources: Option<map<string, bool>>,
    mediaTaken: bool,
    retractBins: int,
    maxRetract: seq<int>,
    imageTypes: set<ImageType>,
    frontImageColorFormats: set<ImageColorFormat>,
    backImageColorFormats: set<ImageColorFormat>,
    codelineFormats: set<CodelineFormat>,
    imageSourceTypes: set<ImageSource>,
    dispensePaper: bool,
    osPrinter: string,
    mediaPresented: bool,
    autoRetractPeriod: int,
    retractToTransport: bool)

  /** PaperSourcesClass: the six named sources and the extended properties. */
  datatype PaperSourcesRecord = PaperSourcesRecord(sources: seq<bool>, extended: Option<map<string, bool>>)

  datatype PrinterRecord = PrinterRecord(
    types: seq<bool>,
    resolutions: seq<bool>,
    readForms: seq<bool>,
    writeForms: seq<bool>,
    extents: seq<bool>,
    controls: seq<bool>,
    maxMediaOnStacker: int,
    acceptMedia: bool,
    multiPage: bool,
    paperSources: PaperSourcesRecord,
    mediaTaken: bool,
    retractBins: int,
    maxRetract: seq<int>,
    imageTypes: seq<bool>,
    frontImageColorFormats: seq<bool>,
    backImageColorFormats: seq<bool>,
    codelineFormats: seq<bool>,
    imageSourceTypes: seq<bool>,
    dispensePaper: bool,
    osPrinter: string,
    mediaPresented: bool,
    autoRetractPeriod: int,
    retractToTransport: bool)

  /** The paper sources record: the custom sources are attached only when reported. */
  function PaperSourcesOf(c: PrinterCaps): (r: PaperSourcesRecord)
    ensures r.sources == FlagBits(PaperSourceOrder, c.paperSources)
    ensures r.extended == c.customPaperSources
  {
    PaperSourcesRecord(FlagBits(PaperSourceOrder, c.paperSources), c.customPaperSources)
  }

  function PrinterRecordOf(c: PrinterCaps): (r: PrinterRecord)
    ensures r.types == FlagBits(PrinterTypeOrder, c.types) && r.resolutions == FlagBits(ResolutionOrder, c.resolutions)
    ensures r.readForms == FlagBits(ReadFormOrder, c.readForms) && r.writeForms == FlagBits(WriteFormOrder, c.writeForms)
    ensures r.extents == FlagBits(ExtentOrder, c.extents) && r.controls == FlagBits(ControlOrder, c.controls)
    ensures r.paperSources == PaperSourcesOf(c)
    ensures r.imageTypes == FlagBits(ImageTypeOrder, c.imageTypes)
    ensures r.frontImageColorFormats == FlagBits(ImageColorFormatOrder, c.frontImageColorFormats)
    ensures r.backImageColorFormats == FlagBits(ImageColorFormatOrder, c.backImageColorFormats)
    ensures r.codelineFormats == FlagBits(CodelineFormatOrder, c.codelineFormats)
    ensures r.imageSourceTypes == FlagBits(ImageSourceOrder, c.imageSourceTypes)
    ensures r.maxMediaOnStacker == c.maxMediaOnStacker && r.acceptMedia == c.acceptMedia && r.multiPage == c.multiPage
    ensures r.mediaTaken == c.mediaTaken && r.retractBins == c.retractBins && r.maxRetract == c.maxRetract
    ensures r.dispensePaper == c.dispensePaper && r.osPrinter == c.osPrinter && r.mediaPresented == c.mediaPresented
    ensures r.autoRetractPeriod == c.autoRetractPeriod && r.retractToTransport == c.retractToTransport
  {
    PrinterRecord(
      FlagBits(PrinterTypeOrder, c.types),
      FlagBits(ResolutionOrder, c.resolutions),
      FlagBits(ReadFormOrder, c.readForms),
      FlagBits(WriteFormOrder, c.writeForms),
      FlagBits(ExtentOrder, c.extents),
      FlagBits(ControlOrder, c.controls),
      c.maxMediaOnStacker,
      c.acceptMedia,
      c.multiPage,
      PaperSourcesOf(c),
      c.mediaTaken,
      c.retractBins,
      c.maxRetract,
      FlagBits(ImageTypeOrder, c.imageTypes),
      FlagBits(ImageColorFormatOrder, c.frontImageColorFormats),
      FlagBits(ImageColorFormatOrder, c.backImageColorFormats),
      FlagBits(CodelineFormatOrder, c.codelineFormats),
      FlagBits(ImageSourceOrder, c.imageSourceTypes),
      c.dispensePaper,
      c.osPrinter,
      c.mediaPresented,
      c.autoRetractPeriod,
      c.retractToTransport)
  }

  /** Every flag of the form and control enums has a boolean in its record. */
  lemma FormOrdersNameEveryFlag()
    ensures forall f: ReadForm :: f in ReadFormOrder
    ensures forall f: WriteForm :: f in WriteFormOrder
    ensures forall f: Control :: f in ControlOrder
  {
    forall f: ReadForm ensures f in ReadFormOrder {
      match f
      case OCR => assert ReadFormOrder[0] == f;
      case MICR => assert ReadFormOrder[1] == f;
      case MSF => assert ReadFormOrder[2] == f;
      case Barcode => assert ReadFormOrder[3] == f;
      case PageMark => assert ReadFormOrder[4] == f;
      case Image => assert ReadFormOrder[5] == f;
      case EmptyLine => assert ReadFormOrder[6] == f;
    }
    forall f: WriteForm ensures f in WriteFormOrder {
      match f
      case Text => assert WriteFormOrder[0] == f;
      case Graphics => assert WriteFormOrder[1] == f;
      case OCR => assert WriteFormOrder[2] == f;
      case MICR => assert WriteFormOrder[3] == f;
      case MSF => assert WriteFormOrder[4] == f;
      case Barcode => assert WriteFormOrder[5] == f;
      case Stamp => assert WriteFormOrder[6] == f;
    }
    forall f: Control ensures f in ControlOrder {
      match f
      case Eject => assert ControlOrder[0] == f;
      case Perforate => assert ControlOrder[1] == f;
      case Cut => assert ControlOrder[2] == f;
      case Skip => assert ControlOrder[3] == f;
      case Flush => assert ControlOrder[4] == f;
      case Retract => assert ControlOrder[5] == f;
      case Stack => assert ControlOrder[6] == f;
      case PartialCut => assert ControlOrder[7] == f;
      case Alarm => assert ControlOrder[8] == f;
      case PageForward => assert ControlOrder[9] == f;
      case PageBackward => assert ControlOrder[10] == f;
      case TurnMedia => assert ControlOrder[11] == f;
      case Stamp => assert ControlOrder[12] == f;
      case Park => assert ControlOrder[13] == f;
      case Expel => assert ControlOrder[14] == f;
      case EjectToTransport => assert ControlOrder[15] == f;
      case Rotate180 => assert ControlOrder[16] == f;
      case ClearBuffer => assert ControlOrder[17] == f;
    }
  }

  /** Every flag of the type, resolution, extent and paper-source enums has a boolean in its record. */
  lemma DeviceOrdersNameEveryFlag()
    ensures forall f: PrinterType :: f in PrinterTypeOrder
    ensures forall f: Resolution :: f in ResolutionOrder
    ensures forall f: Extent :: f in ExtentOrder
    ensures forall f: PaperSource :: f in PaperSourceOrder
  {
    forall f: PrinterType ensures f in PrinterTypeOrder {
      match f
      case Receipt => assert PrinterTypeOrder[0] == f;
      case Passbook => assert PrinterTypeOrder[1] == f;
      case Journal => assert PrinterTypeOrder[2] == f;
      case Document => assert PrinterTypeOrder[3] == f;
      case ScannerType => assert PrinterTypeOrder[4] == f;
    }
    forall f: Resolution ensures f in ResolutionOrder {
      match f
      case Low => assert ResolutionOrder[0] == f;
      case Medium => assert ResolutionOrder[1] == f;
      case High => assert ResolutionOrder[2] == f;
      case VeryHigh => assert ResolutionOrder[3] == f;
    }
    forall f: Extent ensures f in ExtentOrder {
      match f
      case Horizontal => assert ExtentOrder[0] == f;
      case Vertical => assert ExtentOrder[1] == f;
    }
    forall f: PaperSource ensures f in PaperSourceOrder {
      match f
      case Upper => assert PaperSourceOrder[0] == f;
      case Lower => assert PaperSourceOrder[1] == f;
      case External => assert PaperSourceOrder[2] == f;
      case Aux => assert PaperSourceOrder[3] == f;
      case Aux2 => assert PaperSourceOrder[4] == f;
      case Park => assert PaperSourceOrder[5] == f;
    }
  }

  /** Every flag of the image enums has a boolean in its record. */
  lemma ImageOrdersNameEveryFlag()
    ensures forall f: ImageType :: f in ImageTypeOrder
    ensures forall f: ImageColorFormat :: f in ImageColorFormatOrder
    ensures forall f: CodelineFormat :: f in CodelineFormatOrder
    ensures forall f: ImageSource :: f in ImageSourceOrder
  {
    forall f: ImageType ensures f in ImageTypeOrder {
      match f
      case TIF => assert ImageTypeOrder[0] == f;
      case WMF => assert ImageTypeOrder[1] == f;
      case BMP => assert ImageTypeOrder[2] == f;
      case JPG => assert ImageTypeOrder[3] == f;
    }
    forall f: ImageColorFormat ensures f in ImageColorFormatOrder {
      match f
      case Binary => assert ImageColorFormatOrder[0] == f;
      case GrayScale => assert ImageColorFormatOrder[1] == f;
      case Full => assert ImageColorFormatOrder[2] == f;
    }
    forall f: CodelineFormat ensures f in CodelineFormatOrder {
      match f
      case CMC7 => assert CodelineFormatOrder[0] == f;
      case E13B => assert CodelineFormatOrder[1] == f;
      case OCR => assert CodelineFormatOrder[2] == f;
    }
    forall f: ImageSource ensures f in ImageSourceOrder {
      match f
      case ImageFront => assert ImageSourceOrder[0] == f;
      case ImageBack => assert ImageSourceOrder[1] == f;
      case CodeLine => assert ImageSourceOrder[2] == f;
    }
  }

  /** The device, form and control records lose no reported flag. */
  lemma PrinterFlagsRoundTrip(c: PrinterCaps)
    ensures FlagsOf(PrinterTypeOrder, PrinterRecordOf(c).types) == c.types
    ensures FlagsOf(ResolutionOrder, PrinterRecordOf(c).resolutions) == c.resolutions
    ensures FlagsOf(ReadFormOrder, PrinterRecordOf(c).readForms) == c.readForms
    ensures FlagsOf(WriteFormOrder, PrinterRecordOf(c).writeForms) == c.writeForms
    ensures FlagsOf(ExtentOrder, PrinterRecordOf(c).extents) == c.extents
    ensures FlagsOf(ControlOrder, PrinterRecordOf(c).controls) == c.controls
    ensures FlagsOf(PaperSourceOrder, PrinterRecordOf(c).paperSources.sources) == c.paperSources
  {
    FormOrdersNameEveryFlag();
    DeviceOrdersNameEveryFlag();
    FlagBitsComplete(PrinterTypeOrder, c.types);
    FlagBitsComplete(ResolutionOrder, c.resolutions);
    FlagBitsComplete(ReadFormOrder, c.readForms);
    FlagBitsComplete(WriteFormOrder, c.writeForms);
    FlagBitsComplete(ExtentOrder, c.extents);
    FlagBitsComplete(ControlOrder, c.controls);
    FlagBitsComplete(PaperSourceOrder, c.paperSources);
  }

  /** The image records lose no reported flag. */
  lemma ImageFlagsRoundTrip(c: PrinterCaps)
    ensures FlagsOf(ImageTypeOrder, PrinterRecordOf(c).imageTypes) == c.imageTypes
    ensures FlagsOf(ImageColorFormatOrder, PrinterRecordOf(c).frontImageColorFormats) == c.frontImageColorFormats
    ensures FlagsOf(ImageColorFormatOrder, PrinterRecordOf(c).backImageColorFormats) == c.backImageColorFormats
    ensures FlagsOf(CodelineFormatOrder, PrinterRecordOf(c).codelineFormats) == c.codelineFormats
    ensures FlagsOf(ImageSourceOrder, PrinterRecordOf(c).imageSourceTypes) == c.imageSourceTypes
  {
    ImageOrdersNameEveryFlag();
    FlagBitsComplete(ImageTypeOrder, c.imageTypes);
    FlagBitsComplete(ImageColorFormatOrder, c.frontImageColorFormats);
    FlagBitsComplete(ImageColorFormatOrder, c.backImageColorFormats);
    FlagBitsComplete(CodelineFormatOrder, c.codelineFormats);
    FlagBitsComplete(ImageSourceOrder, c.imageSourceTypes);
  }
}
