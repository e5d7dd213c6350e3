/** The logo and banner studio: two tabs, each with its prompt, style,
    optional reference image, ten result slots, a generating flag and an
    error, driven by start/settle handlers around the asset service. */
module BrandIdentity {
  import opened Wrappers
  import opened JsText
  import opened Types
  import opened Ui
  import opened Assets

  datatype Tab = LogoTab | BannerTab

  const BlankPromptMessage: string := "Por favor, forneça uma descrição para a sua marca."
  const LogoFallback: string := "Ocorreu um erro desconhecido ao gerar os logos."
  const BannerFallback: string := "Ocorreu um erro desconhecido ao gerar os banners."
  const ReadErrorMessage: string := "Falha ao ler o arquivo de imagem."
  const SlotCount: nat := 10

  /** The state one tab owns. */
  datatype TabState = TabState(prompt: string, style: string, generating: bool, error: Option<string>,
                               slots: seq<Slot>, reference: Option<ReferenceImage>)

  /** The arguments handed to `generateLogos` / `generateBanners`. */
  datatype AssetCall = AssetCall(prompt: string, style: string, referenceImage: Option<ReferenceImage>)

  /** While a tab is generating, its slots are the ten placeholders. */
  predicate TabInvariant(t: TabState)
  {
    t.generating ==> t.slots == LoadingSlots(SlotCount)
  }

  /** The start half of a handler: a blank prompt only sets the error;
      otherwise the error clears, the flag rises and ten placeholders appear. */
  function StartTab(t: TabState): (r: (TabState, Option<AssetCall>))
    ensures IsBlank(t.prompt) ==> r.1.None? && r.0 == t.(error := Some(BlankPromptMessage))
    ensures !IsBlank(t.prompt) ==>
              r.1 == Some(AssetCall(t.prompt, t.style, t.reference)) &&
              r.0 == t.(generating := true, error := None, slots := LoadingSlots(SlotCount))
    ensures TabInvariant(t) ==> TabInvariant(r.0)
  {
    if IsBlank(t.prompt) then (t.(error := Some(BlankPromptMessage)), None)
    else (t.(generating := true, error := None, slots := LoadingSlots(SlotCount)),
          Some(AssetCall(t.prompt, t.style, t.reference)))
  }

  /** The settle half: the result replaces the slots, or the message (or the
      fallback) becomes the error and the slots empty; the flag always drops. */
  function SettleTab(t: TabState, outcome: Outcome<seq<Slot>>, fallback: string): (r: TabState)
    ensures !r.generating && TabInvariant(r)
    ensures outcome.Ok? ==> r == t.(generating := false, slots := outcome.value)
    ensures outcome.Fail? ==>
              r == t.(generating := false, slots := [], error := Some(MessageOr(outcome.message, fallback)))
  {
    match outcome
    case Ok(assets) => t.(generating := false, slots := assets)
    case Fail(message) => t.(generating := false, slots := [], error := Some(MessageOr(message, fallback)))
  }

  class BrandIdentityGenerator {
    var activeTab: Tab

    var logoPrompt: string
    var logoStyle: string
    var isGeneratingLogos: bool
    var logosError: Option<string>
    var generatedLogos: seq<Slot>
    var logoReferenceImage: Option<ReferenceImage>

    var bannerPrompt: string
    var bannerStyle: string
    var isGeneratingBanners: bool
    var bannersError: Option<string>
    var generatedBanners: seq<Slot>
    var bannerReferenceImage: Option<ReferenceImage>

    function Logos(): TabState
      reads this
    {
      TabState(logoPrompt, logoStyle, isGeneratingLogos, logosError, generatedLogos, logoReferenceImage)
    }

    function Banners(): TabState
      reads this
    {
      TabState(bannerPrompt, bannerStyle, isGeneratingBanners, bannersError, generatedBanners, bannerReferenceImage)
    }

    predicate Valid()
      reads this
    {
      TabInvariant(Logos()) && TabInvariant(Banners())
    }

    method SetLogos(t: TabState)
      modifies this
      ensures Logos() == t && Banners() == old(Banners()) && activeTab == old(activeTab)
    {
      logoPrompt, logoStyle, isGeneratingLogos := t.prompt, t.style, t.generating;
      logosError, generatedLogos, logoReferenceImage := t.error, t.slots, t.reference;
    }

    method SetBanners(t: TabState)
      modifies this
      ensures Banners() == t && Logos() == old(Logos()) && activeTab == old(activeTab)
    {
      bannerPrompt, bannerStyle, isGeneratingBanners := t.prompt, t.style, t.generating;
      bannersError, generatedBanners, bannerReferenceImage := t.error, t.slots, t.reference;
    }

    constructor()
      ensures Valid() && activeTab == LogoTab
      ensures Logos() == TabState("", "Padrão", false, None, [], None)
      ensures Banners() == TabState("", "Padrão", false, None, [], None)
    {
      activeTab := LogoTab;
      logoPrompt, logoStyle, isGeneratingLogos := "", "Padrão", false;
      logosError, generatedLogos, logoReferenceImage := None, [], None;
      bannerPrompt, bannerStyle, isGeneratingBanners := "", "Padrão", false;
      bannersError, generatedBanners, bannerReferenceImage := None, [], None;
    }

    method SelectTab(tab: Tab)
      modifies this
      ensures activeTab == tab && Logos() == old(Logos()) && Banners() == old(Banners())
    {
      activeTab := tab;
    }

    /** Typing in a tab's prompt box or choosing its style. */
    method Edit(tab: Tab, prompt: string, style: string)
      requires Valid()
      modifies this
      ensures Valid() && activeTab == old(activeTab)
      ensures tab == LogoTab ==> Logos() == old(Logos()).(prompt := prompt, style := style) && Banners() == old(Banners())
      ensures tab == BannerTab ==> Banners() == old(Banners()).(prompt := prompt, style := style) && Logos() == old(Logos())
    {
      if tab == LogoTab {
        SetLogos(Logos().(prompt := prompt, style := style));
      } else {
        SetBanners(Banners().(prompt := prompt, style := style));
      }
    }

    /** `handleImageUpload` / `handleCapture`: the image becomes the
        reference of the active tab only. */
    method SetReference(dataUrl: string)
      requires Valid()
      modifies this
      ensures Valid() && activeTab == old(activeTab)
      ensures activeTab == LogoTab ==>
                Logos() == old(Logos()).(reference := Some(ReferenceFromDataUrl(dataUrl))) && Banners() == old(Banners())
      ensures activeTab == BannerTab ==>
                Banners() == old(Banners()).(reference := Some(ReferenceFromDataUrl(dataUrl))) && Logos() == old(Logos())
    {
      var image := ReferenceFromDataUrl(dataUrl);
      if activeTab == LogoTab {
        logoReferenceImage := Some(image);
      } else {
        bannerReferenceImage := Some(image);
      }
    }

    /** The reader's `onerror`: the active tab reports the failure. */
    method ReadFailed()
      requires Valid()
      modifies this
      ensures Valid() && activeTab == old(activeTab)
      ensures activeTab == LogoTab ==>
                Logos() == old(Logos()).(error := Some(ReadErrorMessage)) && Banners() == old(Banners())
      ensures activeTab == BannerTab ==>
                Banners() == old(Banners()).(error := Some(ReadErrorMessage)) && Logos() == old(Logos())
    {
      if activeTab == LogoTab {
        logosError := Some(ReadErrorMessage);
      } else {
        bannersError := Some(ReadErrorMessage);
      }
    }

    /** The × on a reference image. */
    method RemoveReference(tab: Tab)
      requires Valid()
      modifies this
      ensures Valid() && activeTab == old(activeTab)
      ensures tab == LogoTab ==> Logos() == old(Logos()).(reference := None) && Banners() == old(Banners())
      ensures tab == BannerTab ==> Banners() == old(Banners()).(reference := None) && Logos() == old(Logos())
    {
      if tab == LogoTab {
        logoReferenceImage := None;
      } else {
        bannerReferenceImage := None;
      }
    }

    /** `handleGenerateLogos` up to the service call. */
    method StartLogos() returns (call: Option<AssetCall>)
      requires Valid()
      modifies this
      ensures Valid() && activeTab == old(activeTab) && Banners() == old(Banners())
      ensures (Logos(), call) == StartTab(old(Logos()))
    {
      if IsBlank(logoPrompt) {
        logosError := Some(BlankPromptMessage);
        return None;
      }
      isGeneratingLogos := true;
      logosError := None;
      generatedLogos := LoadingSlots(SlotCount);
      call := Some(AssetCall(logoPrompt, logoStyle, logoReferenceImage));
    }

    /** `handleGenerateLogos` after the service settles. */
    method SettleLogos(outcome: Outcome<seq<Slot>>)
      requires Valid()
      modifies this
      ensures Valid() && activeTab == old(activeTab) && Banners() == old(Banners())
      ensures Logos() == SettleTab(old(Logos()), outcome, LogoFallback)
    {
      match outcome {
        case Ok(assets) =>
          generatedLogos := assets;
        case Fail(message) =>
          logosError := Some(MessageOr(message, LogoFallback));
          generatedLogos := [];
      }
      isGeneratingLogos := false;
    }

    /** `handleGenerateBanners` up to the service call. */
    method StartBanners() returns (call: Option<AssetCall>)
      requires Valid()
      modifies this
      ensures Valid() && activeTab == old(activeTab) && Logos() == old(Logos())
      ensures (Banners(), call) == StartTab(old(Banners()))
    {
      if IsBlank(bannerPrompt) {
        bannersError := Some(BlankPromptMessage);
        return None;
      }
      isGeneratingBanners := true;
      bannersError := None;
      generatedBanners := LoadingSlots(SlotCount);
      call := Some(AssetCall(bannerPrompt, bannerStyle, bannerReferenceImage));
    }

    /** `handleGenerateBanners` after the service settles. */
    method SettleBanners(outcome: Outcome<seq<Slot>>)
      requires Valid()
      modifies this
      ensures Valid() && activeTab == old(activeTab) && Logos() == old(Logos())
      ensures Banners() == SettleTab(old(Banners()), outcome, BannerFallback)
    {
      match outcome {
        case Ok(assets) =>
          generatedBanners := assets;
        case Fail(message) =>
          bannersError := Some(MessageOr(message, BannerFallback));
          generatedBanners := [];
      }
      isGeneratingBanners := false;
    }
  }

  /** The reference image as the service reads it. */
  function PayloadOf(reference: Option<ReferenceImage>): Option<InlineData>
  {
    match reference
    case None => None
    case Some(image) => Some(image.Payload())
  }

  /** The whole logo handler against the service: with a reference image the
      tab ends with exactly ten slots and no error; without one it ends with
      the returned images and no error, or with no slots and the service's
      own message (so the fallback text never shows); a blank prompt leaves
      the slots alone. */
  lemma LogoHandlerOutcome(t: TabState,
                           editCall: (EditRequest, nat) -> Outcome<seq<ResponsePart>>,
                           imagesCall: ImagesRequest -> Outcome<ImagesResponse>)
    ensures var (started, call) := StartTab(t);
      call.Some? ==>
        var run := GenerateLogos(call.value.prompt, call.value.style, PayloadOf(call.value.referenceImage), editCall, imagesCall);
        var settled := SettleTab(started, run.result, LogoFallback);
        && !settled.generating
        && (t.reference.Some? ==> |settled.slots| == SlotCount && settled.error.None?)
        && (t.reference.None? ==>
              (settled.error.None? && run.result.Ok? && settled.slots == run.result.value) ||
              (settled.error == Some(AssetsErrorMessage) && settled.slots == []))
    ensures StartTab(t).1.None? ==> StartTab(t).0.slots == t.slots
  {
    var (started, call) := StartTab(t);
    if call.Some? {
      var prompt := LogoPrefix + call.value.prompt;
      match PayloadOf(call.value.referenceImage) {
        case Some(ref) =>
          GenerateAssetsWithReference(prompt, call.value.style, ref, 10, "1:1", editCall, imagesCall);
        case None =>
          GenerateAssetsWithoutReference(prompt, call.value.style, 10, "1:1", editCall, imagesCall);
      }
    }
  }
}
