/** The branding panel shown under the generated content: a prompt, an
    optional reference image, and three groups of results (four logos,
    Shopee banners and Facebook banners) produced by one service call. */
module Branding {
  import opened Wrappers
  import opened JsText
  import opened Types
  import opened Ui

  const BlankPromptMessage: string := "Por favor, forneça uma descrição para a sua marca."
  const ReadErrorMessage: string := "Falha ao ler o arquivo de imagem de referência."
  const BrandingFallback: string := "Ocorreu um erro desconhecido ao gerar o conteúdo de branding."

  /** The three result groups. */
  datatype BrandingAssets = BrandingAssets(logos: seq<Slot>, shopeeBanners: seq<Slot>, facebookBanners: seq<Slot>)

  /** The arguments handed to `generateBrandingAssets`. */
  datatype BrandingCall = BrandingCall(prompt: string, referenceImage: Option<ReferenceImage>)

  /** The placeholders shown while the call runs: four logos, and two of each
      banner only when there is a reference image. */
  function Placeholders(referenceImage: Option<ReferenceImage>): (r: BrandingAssets)
    ensures |r.logos| == 4 && AllLoading(r.logos)
    ensures |r.shopeeBanners| == |r.facebookBanners| == if referenceImage.Some? then 2 else 0
    ensures AllLoading(r.shopeeBanners) && AllLoading(r.facebookBanners)
  {
    var banners := if referenceImage.Some? then LoadingSlots(2) else [];
    BrandingAssets(LoadingSlots(4), banners, banners)
  }

  /** The groups that are drawn: a group shows only when its list is non-empty. */
  datatype VisibleGroups = VisibleGroups(logos: Option<seq<SlotView>>, shopee: Option<seq<SlotView>>,
                                         facebook: Option<seq<SlotView>>)

  function Groups(assets: Option<BrandingAssets>): (r: VisibleGroups)
    ensures assets.None? ==> r == VisibleGroups(None, None, None)
    ensures assets.Some? ==> (r.logos.Some? <==> assets.value.logos != [])
    ensures assets.Some? ==> (r.shopee.Some? <==> assets.value.shopeeBanners != [])
    ensures assets.Some? ==> (r.facebook.Some? <==> assets.value.facebookBanners != [])
  {
    match assets
    case None => VisibleGroups(None, None, None)
    case Some(a) => VisibleGroups(AssetGrid(a.logos), AssetGrid(a.shopeeBanners), AssetGrid(a.facebookBanners))
  }

  /** While the call runs, the logo group shows four spinners and the banner
      groups show exactly when a reference image was given. */
  lemma PlaceholderGroups(referenceImage: Option<ReferenceImage>)
    ensures var g := Groups(Some(Placeholders(referenceImage)));
      && g.logos.Some? && |g.logos.value| == 4
      && (forall i :: 0 <= i < 4 ==> g.logos.value[i] == Spinner)
      && (g.shopee.Some? <==> referenceImage.Some?)
      && (g.facebook.Some? <==> referenceImage.Some?)
  {
  }

  class BrandingGenerator {
    var prompt: string
    var referenceImage: Option<ReferenceImage>
    var isLoading: bool
    var error: Option<string>
    var generatedAssets: Option<BrandingAssets>

    /** While loading, the logo group holds the four placeholders. */
    predicate Valid()
      reads this
    {
      isLoading ==> generatedAssets.Some? && |generatedAssets.value.logos| == 4 && AllLoading(generatedAssets.value.logos)
    }

    constructor(prompt: string)
      ensures Valid()
      ensures this.prompt == prompt && referenceImage.None? && !isLoading && error.None? && generatedAssets.None?
    {
      this.prompt := prompt;
      referenceImage, isLoading, error, generatedAssets := None, false, None, None;
    }

    /** `setPrompt` from the text box. */
    method EditPrompt(text: string)
      requires Valid()
      modifies this
      ensures Valid() && prompt == text
      ensures referenceImage == old(referenceImage) && isLoading == old(isLoading)
      ensures error == old(error) && generatedAssets == old(generatedAssets)
    {
      prompt := text;
    }

    /** `handleImageUpload`: the reader's data URL split into payload and MIME type. */
    method SetReference(dataUrl: string)
      requires Valid()
      modifies this
      ensures Valid() && referenceImage == Some(ReferenceFromDataUrl(dataUrl))
      ensures prompt == old(prompt) && isLoading == old(isLoading)
      ensures error == old(error) && generatedAssets == old(generatedAssets)
    {
      referenceImage := Some(ReferenceFromDataUrl(dataUrl));
    }

    /** The reader's `onerror`. */
    method ReadFailed()
      requires Valid()
      modifies this
      ensures Valid() && error == Some(ReadErrorMessage)
      ensures prompt == old(prompt) && referenceImage == old(referenceImage)
      ensures isLoading == old(isLoading) && generatedAssets == old(generatedAssets)
    {
      error := Some(ReadErrorMessage);
    }

    /** `handleGenerate` up to the service call. */
    method Start() returns (call: Option<BrandingCall>)
      requires Valid()
      modifies this
      ensures Valid() && prompt == old(prompt) && referenceImage == old(referenceImage)
      ensures IsBlank(prompt) ==>
                call.None? && error == Some(BlankPromptMessage) &&
                isLoading == old(isLoading) && generatedAssets == old(generatedAssets)
      ensures !IsBlank(prompt) ==>
                call == Some(BrandingCall(prompt, referenceImage)) && isLoading && error.None? &&
                generatedAssets == Some(Placeholders(referenceImage))
    {
      if IsBlank(prompt) {
        error := Some(BlankPromptMessage);
        return None;
      }
      isLoading := true;
      error := None;
      var banners := if referenceImage.Some? then LoadingSlots(2) else [];
      generatedAssets := Some(BrandingAssets(LoadingSlots(4), banners, banners));
      call := Some(BrandingCall(prompt, referenceImage));
    }

    /** `handleGenerate` after the call: the result, or the message (or the
        fallback) with no assets at all; loading always ends. */
    method Settle(outcome: Outcome<BrandingAssets>)
      requires Valid()
      modifies this
      ensures Valid() && !isLoading && prompt == old(prompt) && referenceImage == old(referenceImage)
      ensures outcome.Ok? ==> generatedAssets == Some(outcome.value) && error == old(error)
      ensures outcome.Fail? ==>
                generatedAssets.None? && error == Some(MessageOr(outcome.message, BrandingFallback)) &&
                Groups(generatedAssets) == VisibleGroups(None, None, None)
    {
      match outcome {
        case Ok(assets) =>
          generatedAssets := Some(assets);
        case Fail(message) =>
          error := Some(MessageOr(message, BrandingFallback));
          generatedAssets := None;
      }
      isLoading := false;
    }
  }
}
