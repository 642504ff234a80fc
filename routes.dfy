/** The upload endpoint `POST /files/upload`: the content-type and size checks, the
    extraction pipeline (text extraction, structured-data generation, schema validation)
    and the mapping of the exception a stage raises to an HTTP status and detail. The three
    stages are parameters: each either returns a value or raises an exception. */
module Routes {
  import opened Wrappers
  import opened Transactions

  newtype byte = x: int | 0 <= x < 256

  const PdfContentType := "application/pdf"
  const MaxSize: nat := 16 * 1024 * 1024

  const InvalidTypeDetail := "invalid file type. only PDF is supported"
  const TooLargeDetail := "file size exceeds limit"
  const ParsePrefix := "error parsing file: "
  const ExtractionPrefix := "error extracting data: "
  const InternalPrefix := "internal server error: "

  /** The exception classes the handler tells apart; `message` is `str(e)`. */
  datatype Exception =
    | PDFParserError(message: string)
    | AIExtractionError(message: string)
    | SchemaValidationError(message: string)
    | OtherException(message: string)

  /** What a stage does: return a value or raise. */
  datatype Outcome<+T> = Returned(value: T) | Raised(exc: Exception)

  datatype Response = Ok(statement: BankStatement) | HttpError(status: int, detail: string)

  datatype Stage = ExtractText | GenerateData | ValidateSchema

  /** The three `except` clauses, tried in order; SchemaValidationError is not an
      AIExtractionError, so it falls through to the last one. */
  function ErrorResponse(e: Exception): (r: Response)
    ensures r.HttpError?
    ensures r.status == 400 <==> e.PDFParserError?
    ensures r.status == 422 <==> e.AIExtractionError?
    ensures r.status == 500 <==> e.SchemaValidationError? || e.OtherException?
    ensures e.PDFParserError? ==> r.detail == ParsePrefix + e.message
    ensures e.AIExtractionError? ==> r.detail == ExtractionPrefix + e.message
    ensures e.SchemaValidationError? || e.OtherException? ==> r.detail == InternalPrefix + e.message
  {
    match e
    case PDFParserError(m) => HttpError(400, ParsePrefix + m)
    case AIExtractionError(m) => HttpError(422, ExtractionPrefix + m)
    case _ => HttpError(500, InternalPrefix + e.message)
  }

  /** The body of the `try`: extract, then generate from the text, then validate the data. */
  function RunPipeline<D>(
    contents: seq<byte>,
    extract: seq<byte> -> Outcome<string>,
    generate: string -> Outcome<D>,
    validate: D -> Outcome<BankStatement>): (o: Outcome<BankStatement>)
    ensures o.Returned? <==>
      && extract(contents).Returned?
      && generate(extract(contents).value).Returned?
      && validate(generate(extract(contents).value).value).Returned?
    ensures o.Returned? ==> o.value == validate(generate(extract(contents).value).value).value
    ensures extract(contents).Raised? ==> o == Raised(extract(contents).exc)
    ensures extract(contents).Returned? && generate(extract(contents).value).Raised? ==>
      o == Raised(generate(extract(contents).value).exc)
    ensures extract(contents).Returned? && generate(extract(contents).value).Returned? ==>
      o == validate(generate(extract(contents).value).value)
  {
    match extract(contents)
    case Raised(e) => Raised(e)
    case Returned(text) =>
      match generate(text)
      case Raised(e) => Raised(e)
      case Returned(data) => validate(data)
  }

  /** The stages that start running, in the order they start. */
  function StagesRun<D>(
    contents: seq<byte>,
    extract: seq<byte> -> Outcome<string>,
    generate: string -> Outcome<D>): (stages: seq<Stage>)
    ensures 1 <= |stages| <= 3 && stages == [ExtractText, GenerateData, ValidateSchema][..|stages|]
    ensures |stages| >= 2 <==> extract(contents).Returned?
    ensures |stages| == 3 <==>
      extract(contents).Returned? && generate(extract(contents).value).Returned?
  {
    match extract(contents)
    case Raised(_) => [ExtractText]
    case Returned(text) =>
      match generate(text)
      case Raised(_) => [ExtractText, GenerateData]
      case Returned(_) => [ExtractText, GenerateData, ValidateSchema]
  }

  /** `create_upload_file` as a function of the upload's content type and bytes. */
  function CreateUploadFileResponse<D>(
    contentType: string,
    contents: seq<byte>,
    extract: seq<byte> -> Outcome<string>,
    generate: string -> Outcome<D>,
    validate: D -> Outcome<BankStatement>): (r: Response)
    ensures contentType != PdfContentType ==> r == HttpError(400, InvalidTypeDetail)
    ensures contentType == PdfContentType && |contents| > MaxSize ==> r == HttpError(400, TooLargeDetail)
    ensures r.Ok? <==>
      contentType == PdfContentType && |contents| <= MaxSize
      && RunPipeline(contents, extract, generate, validate).Returned?
    ensures r.Ok? ==> r.statement == RunPipeline(contents, extract, generate, validate).value
    ensures r.HttpError? ==> r.status in {400, 422, 500}
  {
    if contentType != PdfContentType then HttpError(400, InvalidTypeDetail)
    else if |contents| > MaxSize then HttpError(400, TooLargeDetail)
    else
      match RunPipeline(contents, extract, generate, validate)
      case Returned(statement) => Ok(statement)
      case Raised(e) => ErrorResponse(e)
  }

  /** The content-type check comes first: a non-PDF upload gets the same answer whatever
      its bytes and whatever the stages would do. */
  lemma ContentTypeCheckedFirst<D>(
    contentType: string,
    contents1: seq<byte>, extract1: seq<byte> -> Outcome<string>,
    generate1: string -> Outcome<D>, validate1: D -> Outcome<BankStatement>,
    contents2: seq<byte>, extract2: seq<byte> -> Outcome<string>,
    generate2: string -> Outcome<D>, validate2: D -> Outcome<BankStatement>)
    requires contentType != PdfContentType
    ensures CreateUploadFileResponse(contentType, contents1, extract1, generate1, validate1)
         == CreateUploadFileResponse(contentType, contents2, extract2, generate2, validate2)
  {
  }

  /** The size check comes before the pipeline: an oversize PDF gets the same answer
      whatever the stages would do. */
  lemma SizeCheckedBeforePipeline<D>(
    contents: seq<byte>,
    extract1: seq<byte> -> Outcome<string>, generate1: string -> Outcome<D>, validate1: D -> Outcome<BankStatement>,
    extract2: seq<byte> -> Outcome<string>, generate2: string -> Outcome<D>, validate2: D -> Outcome<BankStatement>)
    requires |contents| > MaxSize
    ensures CreateUploadFileResponse(PdfContentType, contents, extract1, generate1, validate1)
         == CreateUploadFileResponse(PdfContentType, contents, extract2, generate2, validate2)
  {
  }

  /** The limit is inclusive: a PDF of exactly 16 MiB passes the size check, one byte more does not. */
  lemma SizeLimitBoundary<D>(
    contents: seq<byte>,
    extract: seq<byte> -> Outcome<string>, generate: string -> Outcome<D>, validate: D -> Outcome<BankStatement>)
    requires |contents| == 16777216 || |contents| == 16777217
    ensures CreateUploadFileResponse(PdfContentType, contents, extract, generate, validate) == HttpError(400, TooLargeDetail)
      <==> |contents| == 16777217
  {
    var r := CreateUploadFileResponse(PdfContentType, contents, extract, generate, validate);
    if |contents| == 16777216 && r.HttpError? {
      match RunPipeline(contents, extract, generate, validate)
      case Raised(e) => DetailsDistinguishCauses(e);
    }
  }

  /** What a client can tell from an error response alone. */
  datatype Diagnosis =
    | WrongType
    | TooLarge
    | ParseFailed(message: string)
    | ExtractionFailed(message: string)
    | InternalFailure(message: string)
    | Unrecognised

  predicate HasPrefix(s: string, prefix: string) {
    |prefix| <= |s| && s[..|prefix|] == prefix
  }

  /** Reads an error response back into its cause. */
  function Diagnose(status: int, detail: string): Diagnosis
  {
    if status == 400 && detail == InvalidTypeDetail then WrongType
    else if status == 400 && detail == TooLargeDetail then TooLarge
    else if status == 400 && HasPrefix(detail, ParsePrefix) then ParseFailed(detail[|ParsePrefix|..])
    else if status == 422 && HasPrefix(detail, ExtractionPrefix) then ExtractionFailed(detail[|ExtractionPrefix|..])
    else if status == 500 && HasPrefix(detail, InternalPrefix) then InternalFailure(detail[|InternalPrefix|..])
    else Unrecognised
  }

  /** The detail of a pipeline error never collides with the two early rejections, and
      status and detail together give back the exception's group and its message. */
  lemma DetailsDistinguishCauses(e: Exception)
    ensures var r := ErrorResponse(e);
      Diagnose(r.status, r.detail) ==
        match e
        case PDFParserError(m) => ParseFailed(m)
        case AIExtractionError(m) => ExtractionFailed(m)
        case _ => InternalFailure(e.message)
  {
    var r := ErrorResponse(e);
    match e
    case PDFParserError(m) =>
      assert r.detail[..|ParsePrefix|] == ParsePrefix;
      assert r.detail[|ParsePrefix|..] == m;
      assert r.detail != InvalidTypeDetail by { assert r.detail[0] != InvalidTypeDetail[0]; }
      assert r.detail != TooLargeDetail by { assert r.detail[1] != TooLargeDetail[1]; }
    case AIExtractionError(m) =>
      assert r.detail[..|ExtractionPrefix|] == ExtractionPrefix;
      assert r.detail[|ExtractionPrefix|..] == m;
    case _ =>
      assert r.detail[..|InternalPrefix|] == InternalPrefix;
      assert r.detail[|InternalPrefix|..] == e.message;
  }

  /** Every response of the endpoint reads back as its cause. */
  lemma ResponseDiagnosis<D>(
    contentType: string, contents: seq<byte>,
    extract: seq<byte> -> Outcome<string>, generate: string -> Outcome<D>, validate: D -> Outcome<BankStatement>)
    ensures var r := CreateUploadFileResponse(contentType, contents, extract, generate, validate);
      r.HttpError? ==>
        Diagnose(r.status, r.detail) ==
          if contentType != PdfContentType then WrongType
          else if |contents| > MaxSize then TooLarge
          else match RunPipeline(contents, extract, generate, validate).exc
            case PDFParserError(m) => ParseFailed(m)
            case AIExtractionError(m) => ExtractionFailed(m)
            case e => InternalFailure(e.message)
  {
    if contentType == PdfContentType && |contents| <= MaxSize {
      match RunPipeline(contents, extract, generate, validate)
      case Raised(e) => DetailsDistinguishCauses(e);
      case Returned(_) =>
    }
  }

  /** The uploaded file as the handler sees it: its declared content type, the bytes it
      would read, and whether it has been read and closed. */
  class UploadFile {
    const contentType: string
    const spooled: seq<byte>
    var read: bool
    var closed: bool

    constructor (contentType: string, spooled: seq<byte>)
      ensures this.contentType == contentType && this.spooled == spooled
      ensures !read && !closed
    {
      this.contentType := contentType;
      this.spooled := spooled;
      read := false;
      closed := false;
    }

    /** `await file.read()` */
    method Read() returns (contents: seq<byte>)
      modifies this
      ensures contents == spooled
      ensures read && closed == old(closed)
    {
      read := true;
      contents := spooled;
    }

    /** `await file.close()` */
    method Close()
      modifies this
      ensures closed && read == old(read)
    {
      closed := true;
    }
  }

  /** `create_upload_file`, step by step: returns the response and the stages that ran. */
  method CreateUploadFile<D>(
    file: UploadFile,
    extract: seq<byte> -> Outcome<string>,
    generate: string -> Outcome<D>,
    validate: D -> Outcome<BankStatement>) returns (r: Response, stages: seq<Stage>)
    modifies file
    ensures r == CreateUploadFileResponse(file.contentType, file.spooled, extract, generate, validate)
    ensures file.read == (old(file.read) || file.contentType == PdfContentType)
    ensures file.closed == (old(file.closed) || (file.contentType == PdfContentType && |file.spooled| <= MaxSize))
    ensures file.contentType != PdfContentType || |file.spooled| > MaxSize ==> stages == []
    ensures file.contentType == PdfContentType && |file.spooled| <= MaxSize ==>
      stages == StagesRun(file.spooled, extract, generate)
  {
    stages := [];
    if file.contentType != PdfContentType {
      return HttpError(400, InvalidTypeDetail), stages;
    }
    var contents := file.Read();
    if |contents| > MaxSize {
      return HttpError(400, TooLargeDetail), stages;
    }
    // try
    var raised: Option<Exception> := None;
    stages := stages + [ExtractText];
    var text := extract(contents);
    if text.Raised? {
      raised := Some(text.exc);
    } else {
      stages := stages + [GenerateData];
      var data := generate(text.value);
      if data.Raised? {
        raised := Some(data.exc);
      } else {
        stages := stages + [ValidateSchema];
        var statement := validate(data.value);
        if statement.Raised? {
          raised := Some(statement.exc);
        } else {
          r := Ok(statement.value);
        }
      }
    }
    // except
    if raised.Some? {
      r := ErrorResponse(raised.value);
    }
    // finally
    file.Close();
  }
}
