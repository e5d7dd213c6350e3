/** The input panel: a product photo or a product link, sent to the
    text-generation service. The panel owns only its own fields; everything
    else it does is a call to one of the three callbacks its parent passes
    in, recorded here in order. */
module InputTabs {
  import opened Wrappers
  import opened JsText
  import opened Types
  import opened DataUrl
  import opened Content

  /** `InputMode` */
  datatype InputMode = ImageMode | UrlMode | CameraMode

  /** One callback call: `setIsLoading`, `onGeneration` or `onError`. */
  datatype Emit = SetLoading(loading: bool) | Generation(content: GeneratedContent) | Error(message: string)

  /** The chosen file: its size in bytes, what the file reader produces
      for it, and the object URL of the preview. */
  datatype FileInfo = FileInfo(size: nat, dataUrl: string, objectUrl: string)

  const MaxImageBytes: nat := 4 * 1024 * 1024
  const TooLargeMessage: string := "O arquivo de imagem é muito grande. O limite é 4MB."
  const BlankUrlMessage: string := "Por favor, insira um link válido."
  const UnknownErrorMessage: string := "Ocorreu um erro desconhecido."

  /** `resetState`: an empty record, then an empty error. */
  function ResetEvents(): (r: seq<Emit>)
    ensures |r| == 2 && r[0].Generation? && !HasContent(r[0].content) && r[1] == Error("")
  {
    [Generation(InitialContent()), Error("")]
  }

  /** The calls that start a request: loading on, then the reset. */
  function StartEvents(): (r: seq<Emit>)
    ensures |r| == 3 && r[0] == SetLoading(true) && r[1..] == ResetEvents()
  {
    [SetLoading(true)] + ResetEvents()
  }

  /** The calls that end a request: the record or the message, then loading off. */
  function SettleEvents(outcome: Outcome<GeneratedContent>): (r: seq<Emit>)
    ensures |r| == 2 && r[1] == SetLoading(false)
    ensures outcome.Ok? ==> r[0] == Generation(outcome.value)
    ensures outcome.Fail? ==> r[0] == Error(MessageOr(outcome.message, UnknownErrorMessage)) && r[0].message != ""
  {
    match outcome
    case Ok(content) => [Generation(content), SetLoading(false)]
    case Fail(message) => [Error(MessageOr(message, UnknownErrorMessage)), SetLoading(false)]
  }

  /** `fileToBase64`: the data URL split into payload and MIME type. */
  function FilePayload(file: FileInfo): (r: InlineData)
    ensures r.base64.Some? <==> Includes(file.dataUrl, Base64Marker)
  {
    var parts := SplitDataUrl(file.dataUrl);
    InlineData(parts.base64, parts.mimeType)
  }

  /** A file whose reader output is a well-formed data URL is sent with its
      own MIME type and payload. */
  lemma FilePayloadOfDataUrl(size: nat, mimeType: string, base64: string, objectUrl: string)
    requires PlainMime(mimeType) && NoSemicolon(base64)
    ensures FilePayload(FileInfo(size, MakeDataUrl(mimeType, base64), objectUrl)) == InlineData(Some(base64), Some(mimeType))
  {
    SplitMakeDataUrl(mimeType, base64);
  }

  class InputPanel {
    var mode: InputMode
    var productUrl: string
    var imagePreview: Option<string>
    /** The callback calls made so far, oldest first. */
    var emitted: seq<Emit>

    constructor()
      ensures mode == ImageMode && productUrl == "" && imagePreview.None? && emitted == []
    {
      mode, productUrl, imagePreview, emitted := ImageMode, "", None, [];
    }

    method SetMode(m: InputMode)
      modifies this
      ensures mode == m && productUrl == old(productUrl) && imagePreview == old(imagePreview) && emitted == old(emitted)
    {
      mode := m;
    }

    method EditUrl(url: string)
      modifies this
      ensures productUrl == url && mode == old(mode) && imagePreview == old(imagePreview) && emitted == old(emitted)
    {
      productUrl := url;
    }

    /** `handleImageUpload` up to the service call: nothing without a file,
        an error for a file over 4 MB, otherwise the preview, the start
        calls and the payload to send. */
    method StartImageUpload(file: Option<FileInfo>) returns (payload: Option<InlineData>)
      modifies this
      ensures mode == old(mode) && productUrl == old(productUrl)
      ensures payload.Some? <==> file.Some? && file.value.size <= MaxImageBytes
      ensures file.None? ==> emitted == old(emitted) && imagePreview == old(imagePreview)
      ensures file.Some? && file.value.size > MaxImageBytes ==>
                emitted == old(emitted) + [Error(TooLargeMessage)] && imagePreview == old(imagePreview)
      ensures payload.Some? ==>
                payload.value == FilePayload(file.value) && imagePreview == Some(file.value.objectUrl) &&
                emitted == old(emitted) + StartEvents()
    {
      if file.None? {
        return None;
      }
      var f := file.value;
      if f.size > 4 * 1024 * 1024 {
        emitted := emitted + [Error(TooLargeMessage)];
        return None;
      }
      imagePreview := Some(f.objectUrl);
      emitted := emitted + [SetLoading(true)];
      emitted := emitted + [Generation(InitialContent())];
      emitted := emitted + [Error("")];
      payload := Some(FilePayload(f));
    }

    /** `handleUrlSubmit` up to the service call: a blank link is refused,
        otherwise the start calls are made and the link is sent as typed. */
    method StartUrlSubmit() returns (url: Option<string>)
      modifies this
      ensures mode == old(mode) && productUrl == old(productUrl) && imagePreview == old(imagePreview)
      ensures url.None? <==> IsBlank(productUrl)
      ensures url.None? ==> emitted == old(emitted) + [Error(BlankUrlMessage)]
      ensures url.Some? ==> url.value == productUrl && emitted == old(emitted) + StartEvents()
    {
      if IsBlank(productUrl) {
        emitted := emitted + [Error(BlankUrlMessage)];
        return None;
      }
      emitted := emitted + [SetLoading(true)];
      emitted := emitted + [Generation(InitialContent())];
      emitted := emitted + [Error("")];
      url := Some(productUrl);
    }

    /** Both handlers after the call; a failed file read arrives as a
        failure without a message. */
    method Settle(outcome: Outcome<GeneratedContent>)
      modifies this
      ensures mode == old(mode) && productUrl == old(productUrl) && imagePreview == old(imagePreview)
      ensures emitted == old(emitted) + SettleEvents(outcome)
    {
      match outcome {
        case Ok(content) =>
          emitted := emitted + [Generation(content)];
        case Fail(message) =>
          emitted := emitted + [Error(if message != "" then message else UnknownErrorMessage)];
      }
      emitted := emitted + [SetLoading(false)];
    }
  }
}
