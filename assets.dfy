/** Image requests to the generation service: the edit model that returns
    at most one image per call (used with a reference image), the batch
    image model that returns many images per call, and the small builders
    around them. */
module Assets {
  import opened Wrappers
  import opened Types

  /** A part of a request: text, or an inline image. */
  datatype RequestPart = TextPart(text: string) | ImagePart(image: InlineData)

  /** A part of an edit-model reply: text, or an inline image's base64 data. */
  datatype ResponsePart = ReplyText(text: string) | ReplyImage(data: string)

  /** A request to the edit model: model name and parts. */
  datatype EditRequest = EditRequest(model: string, parts: seq<RequestPart>)

  /** A request to the batch image model. */
  datatype ImagesRequest = ImagesRequest(model: string, prompt: string, numberOfImages: nat,
                                         outputMimeType: string, aspectRatio: string)

  /** One generated image of a batch reply; `image` or its bytes may be missing. */
  datatype BatchImage = BatchImage(imageBytes: Option<string>)
  datatype BatchEntry = BatchEntry(image: Option<BatchImage>)
  datatype ImagesResponse = ImagesResponse(generatedImages: Option<seq<BatchEntry>>)

  /** The requests one operation sent, in order. */
  datatype Request = Edit(edit: EditRequest) | Images(images: ImagesRequest)

  const EditModel: string := "gemini-2.5-flash-image"
  const ImagesModel: string := "imagen-4.0-generate-001"

  predicate IsImage(p: ResponsePart)
  {
    p.ReplyImage?
  }

  /** The data of the first inline image of a reply, if there is one. */
  function FirstInline(parts: seq<ResponsePart>): (r: Option<string>)
    ensures r.None? <==> forall i :: 0 <= i < |parts| ==> !IsImage(parts[i])
  {
    if parts == [] then None
    else if parts[0].ReplyImage? then Some(parts[0].data)
    else FirstInline(parts[1..])
  }

  /** What `FirstInline` finds is an image of the reply, with no image before it. */
  lemma {:induction false} FirstInlineIsFirstImage(parts: seq<ResponsePart>)
    ensures FirstInline(parts).Some? ==>
      exists i :: 0 <= i < |parts| && parts[i] == ReplyImage(FirstInline(parts).value) &&
                  forall j :: 0 <= j < i ==> !IsImage(parts[j])
  {
    if parts != [] && !parts[0].ReplyImage? && FirstInline(parts).Some? {
      var rest := parts[1..];
      FirstInlineIsFirstImage(rest);
      var i :| 0 <= i < |rest| && rest[i] == ReplyImage(FirstInline(rest).value) &&
               forall j :: 0 <= j < i ==> !IsImage(rest[j]);
      assert parts[i + 1] == ReplyImage(FirstInline(parts).value);
      assert forall j :: 0 <= j < i + 1 ==> !IsImage(parts[j]) by {
        forall j | 0 <= j < i + 1 ensures !IsImage(parts[j]) {
          if j > 0 { assert parts[j] == rest[j - 1]; }
        }
      }
    } else if parts != [] && parts[0].ReplyImage? {
      assert parts[0] == ReplyImage(FirstInline(parts).value);
    }
  }

  /** The `for (const part of ...parts) if (part.inlineData) return part.inlineData.data;` loop. */
  method FindFirstInline(parts: seq<ResponsePart>) returns (r: Option<string>)
    ensures r == FirstInline(parts)
    ensures r.Some? ==> exists i :: 0 <= i < |parts| && parts[i] == ReplyImage(r.value) &&
                                    forall j :: 0 <= j < i ==> !IsImage(parts[j])
  {
    FirstInlineIsFirstImage(parts);
    for k := 0 to |parts|
      invariant forall j :: 0 <= j < k ==> !IsImage(parts[j])
      invariant FirstInline(parts) == FirstInline(parts[k..])
    {
      if parts[k].ReplyImage? {
        return Some(parts[k].data);
      }
      assert parts[k..][1..] == parts[k + 1..];
    }
    return None;
  }

  const VisualErrorMessage: string := "Falha ao gerar a mídia visual. Tente novamente."

  /** `generateVisualContent`: one edit request with the product image and
      the prompt; the first inline image of the reply, or the fixed error. */
  method GenerateVisualContent(base64: Option<string>, mimeType: Option<string>, prompt: string,
                               call: EditRequest -> Outcome<seq<ResponsePart>>)
    returns (request: EditRequest, r: Outcome<string>)
    ensures request == EditRequest(EditModel, [ImagePart(InlineData(base64, mimeType)), TextPart(prompt)])
    ensures r.Ok? <==> call(request).Ok? && FirstInline(call(request).value).Some?
    ensures r.Ok? ==> r.value == FirstInline(call(request).value).value
    ensures r.Fail? ==> r.message == VisualErrorMessage
  {
    request := EditRequest(EditModel, [ImagePart(InlineData(base64, mimeType)), TextPart(prompt)]);
    var response := call(request);
    if response.Fail? {
      return request, Fail(VisualErrorMessage);
    }
    var found := FindFirstInline(response.value);
    if found.None? {
      return request, Fail(VisualErrorMessage);
    }
    r := Ok(found.value);
  }

  /** `` `Estilo ${style}. ${prompt}` `` */
  function StyledPrompt(style: string, prompt: string): string
  {
    "Estilo " + style + ". " + prompt
  }

  const AssetsErrorMessage: string := "Falha ao gerar os assets visuais. Tente um prompt diferente."

  /** A batch reply mapped to `img.image.imageBytes`: an entry without
      `image`, or a reply without `generatedImages`, makes the mapping throw. */
  function BatchResult(response: Outcome<ImagesResponse>): (r: Outcome<seq<Option<string>>>)
    ensures r.Fail? ==> r.message == AssetsErrorMessage
    ensures r.Ok? <==> response.Ok? && response.value.generatedImages.Some? &&
                       forall i :: 0 <= i < |response.value.generatedImages.value| ==>
                         response.value.generatedImages.value[i].image.Some?
    ensures r.Ok? ==> |r.value| == |response.value.generatedImages.value| &&
                      forall i :: 0 <= i < |r.value| ==>
                        r.value[i] == response.value.generatedImages.value[i].image.value.imageBytes
  {
    if response.Fail? || response.value.generatedImages.None? then Fail(AssetsErrorMessage)
    else
      var entries := response.value.generatedImages.value;
      if forall i :: 0 <= i < |entries| ==> entries[i].image.Some? then
        Ok(seq(|entries|, i requires 0 <= i < |entries| => entries[i].image.value.imageBytes))
      else Fail(AssetsErrorMessage)
  }

  /** Outcome of one edit call reduced to its slot: the first inline image,
      or `null` when the call failed or returned no image. */
  function SlotOf(response: Outcome<seq<ResponsePart>>): Option<string>
  {
    match response
    case Fail(_) => None
    case Ok(parts) => FirstInline(parts)
  }

  /** What `generateAssets` sent and how it settled. */
  datatype AssetRun = AssetRun(requests: seq<Request>, result: Outcome<seq<Option<string>>>)

  /** `generateAssets`. With a reference image: `count` independent edit
      calls, each failure caught as `null`, collected in call order. Without
      one: a single batch request for `count` images, all or nothing.
      `editCall(request, i)` is the reply to the i-th call. */
  function GenerateAssets(prompt: string, style: string, referenceImage: Option<InlineData>,
                          count: nat, aspectRatio: string,
                          editCall: (EditRequest, nat) -> Outcome<seq<ResponsePart>>,
                          imagesCall: ImagesRequest -> Outcome<ImagesResponse>): AssetRun
  {
    var fullPrompt := StyledPrompt(style, prompt);
    match referenceImage
    case Some(ref) =>
      var request := EditRequest(EditModel, [ImagePart(ref), TextPart(fullPrompt)]);
      AssetRun(seq(count, _ => Edit(request)),
               Ok(seq(count, i requires 0 <= i < count => SlotOf(editCall(request, i as nat)))))
    case None =>
      var request := ImagesRequest(ImagesModel, fullPrompt, count, "image/png", aspectRatio);
      AssetRun([Images(request)], BatchResult(imagesCall(request)))
  }

  /** With a reference image every one of the `count` calls gets the same
      request (the image, then the styled prompt), the run never fails, and
      slot i holds call i's first inline image or `null`, whatever the other
      calls did. */
  lemma GenerateAssetsWithReference(prompt: string, style: string, ref: InlineData,
                                    count: nat, aspectRatio: string,
                                    editCall: (EditRequest, nat) -> Outcome<seq<ResponsePart>>,
                                    imagesCall: ImagesRequest -> Outcome<ImagesResponse>)
    ensures var run := GenerateAssets(prompt, style, Some(ref), count, aspectRatio, editCall, imagesCall);
      var request := EditRequest(EditModel, [ImagePart(ref), TextPart("Estilo " + style + ". " + prompt)]);
      && |run.requests| == count
      && (forall i :: 0 <= i < count ==> run.requests[i] == Edit(request))
      && run.result.Ok? && |run.result.value| == count
      && (forall i :: 0 <= i < count ==>
            (run.result.value[i].None? <==> editCall(request, i).Fail? ||
                                            forall j :: 0 <= j < |editCall(request, i).value| ==> !IsImage(editCall(request, i).value[j])))
      && (forall i :: 0 <= i < count && editCall(request, i).Ok? ==>
            run.result.value[i] == FirstInline(editCall(request, i).value))
      && (forall i :: 0 <= i < count && run.result.value[i].Some? ==>
            editCall(request, i).Ok? && ReplyImage(run.result.value[i].value) in editCall(request, i).value)
  {
    var run := GenerateAssets(prompt, style, Some(ref), count, aspectRatio, editCall, imagesCall);
    var request := EditRequest(EditModel, [ImagePart(ref), TextPart("Estilo " + style + ". " + prompt)]);
    forall i | 0 <= i < count && run.result.value[i].Some?
      ensures editCall(request, i).Ok? && ReplyImage(run.result.value[i].value) in editCall(request, i).value
    {
      assert run.result.value[i] == SlotOf(editCall(request, i));
      FirstInlineIsFirstImage(editCall(request, i).value);
    }
  }

  /** Without a reference image exactly one batch request for `count` images
      is sent, and the run yields the returned images in returned order, or
      the fixed error: never a list of `null`s. */
  lemma GenerateAssetsWithoutReference(prompt: string, style: string,
                                       count: nat, aspectRatio: string,
                                       editCall: (EditRequest, nat) -> Outcome<seq<ResponsePart>>,
                                       imagesCall: ImagesRequest -> Outcome<ImagesResponse>)
    ensures var run := GenerateAssets(prompt, style, None, count, aspectRatio, editCall, imagesCall);
      var request := ImagesRequest(ImagesModel, "Estilo " + style + ". " + prompt, count, "image/png", aspectRatio);
      && run.requests == [Images(request)]
      && (run.result.Fail? ==> run.result.message == AssetsErrorMessage)
      && (imagesCall(request).Fail? ==> run.result.Fail?)
      && (run.result.Ok? <==>
            imagesCall(request).Ok? && imagesCall(request).value.generatedImages.Some? &&
            forall i :: 0 <= i < |imagesCall(request).value.generatedImages.value| ==>
              imagesCall(request).value.generatedImages.value[i].image.Some?)
      && (run.result.Ok? ==>
            |run.result.value| == |imagesCall(request).value.generatedImages.value| &&
            forall i :: 0 <= i < |run.result.value| ==>
              run.result.value[i] == imagesCall(request).value.generatedImages.value[i].image.value.imageBytes)
  {
  }

  const LogoPrefix: string := "Um logo vetorial, minimalista, com design flat, centrado em um fundo branco sólido para: "
  const BannerPrefix: string := "Um banner promocional para web, com iluminação cinematográfica, alta resolução, 4k. O banner é sobre: "

  /** `generateLogos`: ten square assets. */
  function GenerateLogos(prompt: string, style: string, referenceImage: Option<InlineData>,
                         editCall: (EditRequest, nat) -> Outcome<seq<ResponsePart>>,
                         imagesCall: ImagesRequest -> Outcome<ImagesResponse>): AssetRun
  {
    GenerateAssets(LogoPrefix + prompt, style, referenceImage, 10, "1:1", editCall, imagesCall)
  }

  /** `generateBanners`: ten wide assets. */
  function GenerateBanners(prompt: string, style: string, referenceImage: Option<InlineData>,
                           editCall: (EditRequest, nat) -> Outcome<seq<ResponsePart>>,
                           imagesCall: ImagesRequest -> Outcome<ImagesResponse>): AssetRun
  {
    GenerateAssets(BannerPrefix + prompt, style, referenceImage, 10, "16:9", editCall, imagesCall)
  }

  /** Logos and banners: ten edit calls with a reference image, otherwise one
      batch request for ten images at 1:1 (logos) or 16:9 (banners); the
      prompt is the style sentence followed by the fixed description and the
      user's prompt. */
  lemma LogoAndBannerRequests(prompt: string, style: string, referenceImage: Option<InlineData>,
                              editCall: (EditRequest, nat) -> Outcome<seq<ResponsePart>>,
                              imagesCall: ImagesRequest -> Outcome<ImagesResponse>)
    ensures var logos := GenerateLogos(prompt, style, referenceImage, editCall, imagesCall);
      var banners := GenerateBanners(prompt, style, referenceImage, editCall, imagesCall);
      && (referenceImage.Some? ==>
            (|logos.requests| == 10 && |banners.requests| == 10 &&
             logos.requests[0].edit.parts[1] == TextPart("Estilo " + style + ". " + LogoPrefix + prompt) &&
             banners.requests[0].edit.parts[1] == TextPart("Estilo " + style + ". " + BannerPrefix + prompt)))
      && (referenceImage.None? ==>
            logos.requests == [Images(ImagesRequest(ImagesModel, "Estilo " + style + ". " + LogoPrefix + prompt, 10, "image/png", "1:1"))] &&
            banners.requests == [Images(ImagesRequest(ImagesModel, "Estilo " + style + ". " + BannerPrefix + prompt, 10, "image/png", "16:9"))])
  {
    assert StyledPrompt(style, LogoPrefix + prompt) == "Estilo " + style + ". " + LogoPrefix + prompt;
    assert StyledPrompt(style, BannerPrefix + prompt) == "Estilo " + style + ". " + BannerPrefix + prompt;
  }

  /** `generateImageAssets`: one batch request for `count` PNG images with
      the prompt as given (no style sentence); the returned images in
      returned order, or the fixed error. */
  function GenerateImageAssets(prompt: string, count: nat, aspectRatio: string,
                               imagesCall: ImagesRequest -> Outcome<ImagesResponse>): (r: AssetRun)
    ensures var request := ImagesRequest(ImagesModel, prompt, count, "image/png", aspectRatio);
      var reply := imagesCall(request);
      && r.requests == [Images(request)]
      && (r.result.Fail? ==> r.result.message == AssetsErrorMessage)
      && (r.result.Ok? <==>
            reply.Ok? && reply.value.generatedImages.Some? &&
            forall i :: 0 <= i < |reply.value.generatedImages.value| ==>
              reply.value.generatedImages.value[i].image.Some?)
      && (r.result.Ok? ==>
            |r.result.value| == |reply.value.generatedImages.value| &&
            forall i :: 0 <= i < |r.result.value| ==>
              r.result.value[i] == reply.value.generatedImages.value[i].image.value.imageBytes)
  {
    var request := ImagesRequest(ImagesModel, prompt, count, "image/png", aspectRatio);
    AssetRun([Images(request)], BatchResult(imagesCall(request)))
  }
}
