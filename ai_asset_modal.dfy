/** The modal that asks the batch image model for six candidate app icons or
    backgrounds and hands the chosen one back as a data URL. */
module AiAssetModal {
  import opened Wrappers
  import opened JsText
  import opened Types
  import opened DataUrl
  import opened Ui
  import opened Assets

  /** What the modal is asked to generate. */
  datatype AssetKind = AppIcon | CustomBackground

  const BlankPromptMessage: string := "Por favor, digite uma descrição."
  const AssetCount: nat := 6
  const PngMime: string := "image/png"

  /** `config[assetType].promptPrefix` */
  function PromptPrefix(kind: AssetKind): string
  {
    match kind
    case AppIcon => "minimalist vector app icon, flat design, centered on a solid white background, for: "
    case CustomBackground => "beautiful abstract phone wallpaper, subtle, high resolution, 4k, cinematic lighting, related to: "
  }

  /** `config[assetType].aspect` */
  function AspectClass(kind: AssetKind): string
  {
    match kind
    case AppIcon => "aspect-square"
    case CustomBackground => "aspect-[9/16]"
  }

  /** `config.aspect === 'aspect-square' ? '1:1' : '9:16'` */
  function AspectRatio(kind: AssetKind): string
  {
    if AspectClass(kind) == "aspect-square" then "1:1" else "9:16"
  }

  /** Icons are requested square and backgrounds portrait. */
  lemma AspectRatioOfKind(kind: AssetKind)
    ensures AspectRatio(kind) == if kind == AppIcon then "1:1" else "9:16"
  {
    if kind == CustomBackground {
      assert AspectClass(kind)[7] != "aspect-square"[7];
    }
  }

  /** `if (!isOpen || !assetType) return null;`: the modal, and with it
      every handler, exists only while open and given a kind. */
  predicate Renders(isOpen: bool, assetType: Option<AssetKind>)
  {
    isOpen && assetType.Some?
  }

  /** The arguments handed to `generateImageAssets`. */
  datatype AssetCall = AssetCall(prompt: string, count: nat, aspectRatio: string)

  /** The asset handed to `onSelect`. */
  function SelectedAsset(base64: string): (r: ReferenceImage)
    ensures r.base64 == Some(base64) && r.mimeType == Some(PngMime)
  {
    ReferenceImage(Some(base64), Some(PngMime), MakeDataUrl(PngMime, base64))
  }

  /** The data URL of a selected asset splits back into the same payload and
      MIME type, as the components that receive it later do. */
  lemma SelectedAssetSplitsBack(base64: string)
    requires NoSemicolon(base64)
    ensures ReferenceFromDataUrl(SelectedAsset(base64).dataUrl).Payload() == SelectedAsset(base64).Payload()
  {
    assert PlainMime(PngMime) by {
      assert forall i :: 0 <= i < |PngMime| ==> PngMime[i] in {'i', 'm', 'a', 'g', 'e', '/', 'p', 'n'};
    }
    ReferenceFromDataUrlRoundTrip(PngMime, base64);
  }

  /** The modal's state: the prompt, the loading flag, the error and the slots. */
  datatype ModalState = ModalState(prompt: string, isLoading: bool, error: Option<string>, assets: seq<Slot>)

  /** While loading, the grid holds the six placeholders. */
  predicate ModalInvariant(s: ModalState)
  {
    s.isLoading ==> s.assets == LoadingSlots(AssetCount)
  }

  /** `handleGenerate` up to the call: a blank prompt only sets the error;
      otherwise six placeholders and the call for the kind's prefix plus the
      prompt, six images, at the kind's aspect ratio. */
  function StartModal(s: ModalState, kind: AssetKind): (r: (ModalState, Option<AssetCall>))
    ensures IsBlank(s.prompt) ==> r.1.None? && r.0 == s.(error := Some(BlankPromptMessage))
    ensures !IsBlank(s.prompt) ==>
              r.1 == Some(AssetCall(PromptPrefix(kind) + s.prompt, AssetCount, AspectRatio(kind))) &&
              r.0 == s.(isLoading := true, error := None, assets := LoadingSlots(AssetCount))
    ensures ModalInvariant(s) ==> ModalInvariant(r.0)
  {
    if IsBlank(s.prompt) then (s.(error := Some(BlankPromptMessage)), None)
    else
      var aspectRatio := if AspectClass(kind) == "aspect-square" then "1:1" else "9:16";
      (s.(isLoading := true, error := None, assets := LoadingSlots(AssetCount)),
       Some(AssetCall(PromptPrefix(kind) + s.prompt, AssetCount, aspectRatio)))
  }

  /** `handleGenerate` after the call: the images, or the bare message and
      no images; loading always ends. */
  function SettleModal(s: ModalState, outcome: Outcome<seq<Slot>>): (r: ModalState)
    ensures !r.isLoading && ModalInvariant(r) && r.prompt == s.prompt
    ensures outcome.Ok? ==> r.assets == outcome.value && r.error == s.error
    ensures outcome.Fail? ==> r.assets == [] && r.error == Some(outcome.message)
  {
    match outcome
    case Ok(result) => s.(isLoading := false, assets := result)
    case Fail(message) => s.(isLoading := false, error := Some(message), assets := [])
  }

  /** Settling a started modal with a batch reply. */
  lemma SettleWithBatch(started: ModalState, reply: Outcome<ImagesResponse>)
    requires started.error.None?
    ensures var settled := SettleModal(started, BatchResult(reply));
      if reply.Ok? && reply.value.generatedImages.Some? &&
         forall i :: 0 <= i < |reply.value.generatedImages.value| ==>
           reply.value.generatedImages.value[i].image.Some?
      then settled.error.None? &&
           |settled.assets| == |reply.value.generatedImages.value| &&
           forall i :: 0 <= i < |settled.assets| ==>
             settled.assets[i] == reply.value.generatedImages.value[i].image.value.imageBytes
      else settled.assets == [] && settled.error == Some(AssetsErrorMessage)
  {
  }

  /** The whole generate click against the batch image service: one request
      for six PNG images with the kind's prefix and aspect ratio; the slots
      end up as the returned images in returned order with no error, or empty
      with the service's message; loading ends either way. */
  lemma ModalHandlerOutcome(s: ModalState, kind: AssetKind,
                            imagesCall: ImagesRequest -> Outcome<ImagesResponse>)
    ensures var (started, call) := StartModal(s, kind);
      call.Some? ==>
        var request := ImagesRequest(ImagesModel, PromptPrefix(kind) + s.prompt, 6, "image/png", AspectRatio(kind));
        var reply := imagesCall(request);
        var run := GenerateImageAssets(call.value.prompt, call.value.count, call.value.aspectRatio, imagesCall);
        var settled := SettleModal(started, run.result);
        && run.requests == [Images(request)]
        && !settled.isLoading && settled.prompt == s.prompt
        && (if reply.Ok? && reply.value.generatedImages.Some? &&
               forall i :: 0 <= i < |reply.value.generatedImages.value| ==>
                 reply.value.generatedImages.value[i].image.Some?
            then settled.error.None? &&
                 |settled.assets| == |reply.value.generatedImages.value| &&
                 forall i :: 0 <= i < |settled.assets| ==>
                   settled.assets[i] == reply.value.generatedImages.value[i].image.value.imageBytes
            else settled.assets == [] && settled.error == Some(AssetsErrorMessage))
    ensures StartModal(s, kind).1.None? ==> StartModal(s, kind).0.assets == s.assets
  {
    var (started, call) := StartModal(s, kind);
    if call.Some? {
      var request := ImagesRequest(ImagesModel, PromptPrefix(kind) + s.prompt, 6, "image/png", AspectRatio(kind));
      assert call.value == AssetCall(request.prompt, 6, request.aspectRatio);
      var run := GenerateImageAssets(request.prompt, 6, request.aspectRatio, imagesCall);
      assert run.requests == [Images(request)];
      assert run.result == BatchResult(imagesCall(request));
      SettleWithBatch(started, imagesCall(request));
    }
  }

  class AiAssetGeneratorModal {
    var prompt: string
    var isLoading: bool
    var error: Option<string>
    var assets: seq<Slot>

    function State(): ModalState
      reads this
    {
      ModalState(prompt, isLoading, error, assets)
    }

    predicate Valid()
      reads this
    {
      ModalInvariant(State())
    }

    constructor()
      ensures Valid() && State() == ModalState("", false, None, [])
    {
      prompt, isLoading, error, assets := "", false, None, [];
    }

    method EditPrompt(text: string)
      requires Valid()
      modifies this
      ensures Valid() && State() == old(State()).(prompt := text)
    {
      prompt := text;
    }

    /** `handleGenerate` up to the call; the handler exists only while the
        modal is drawn, so the asset kind is known. */
    method Start(isOpen: bool, assetType: Option<AssetKind>) returns (call: Option<AssetCall>)
      requires Valid() && Renders(isOpen, assetType)
      modifies this
      ensures Valid()
      ensures (State(), call) == StartModal(old(State()), assetType.value)
    {
      if IsBlank(prompt) {
        error := Some(BlankPromptMessage);
        return None;
      }
      isLoading := true;
      error := None;
      assets := LoadingSlots(AssetCount);
      var kind := assetType.value;
      var fullPrompt := PromptPrefix(kind) + prompt;
      var aspectRatio := if AspectClass(kind) == "aspect-square" then "1:1" else "9:16";
      call := Some(AssetCall(fullPrompt, AssetCount, aspectRatio));
    }

    /** `handleGenerate` after the call. */
    method Settle(outcome: Outcome<seq<Slot>>)
      requires Valid()
      modifies this
      ensures Valid() && State() == SettleModal(old(State()), outcome)
    {
      match outcome {
        case Ok(result) =>
          assets := result;
        case Fail(message) =>
          error := Some(message);
          assets := [];
      }
      isLoading := false;
    }

    /** `handleSelectAsset`, reachable only from a slot drawn as a picture:
        the chosen image goes out as a PNG data URL and the modal is cleared
        for next time. */
    method SelectAsset(i: nat) returns (selected: ReferenceImage)
      requires Valid() && i < |assets| && ViewOf(assets[i]).Picture?
      modifies this
      ensures Valid() && !isLoading
      ensures selected == SelectedAsset(old(assets)[i].value)
      ensures prompt == "" && assets == [] && error.None?
    {
      LoadingSlotsAreLoading(AssetCount);
      var base64 := assets[i].value;
      selected := ReferenceImage(Some(base64), Some(PngMime), MakeDataUrl(PngMime, base64));
      prompt := "";
      assets := [];
      error := None;
    }
  }
}
