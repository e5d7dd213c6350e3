/** The product-media panel: one image record per image type, each started
    and settled on its own by a call to the edit model with the product
    photo, and a download name per card. */
module ProductMedia {
  import opened Wrappers
  import opened JsText
  import opened Types

  /** A record never shows an image and an error at once. */
  predicate NeverBoth(image: GeneratedImage)
  {
    !(image.base64.Some? && image.error.Some?)
  }

  /** Every image type has a record, and none holds both an image and an error. */
  predicate WellFormed(images: map<ImageType, GeneratedImage>)
  {
    images.Keys == AllImageTypes && forall t :: t in images ==> NeverBoth(images[t])
  }

  /** The arguments handed to `generateVisualContent`. */
  datatype VisualCall = VisualCall(base64: Option<string>, mimeType: Option<string>, prompt: string)

  /** The record a settled call leaves: the image, or the rejection's message. */
  function Settled(outcome: Outcome<string>): (r: GeneratedImage)
    ensures !r.isLoading && NeverBoth(r)
    ensures outcome.Ok? ==> r.base64 == Some(outcome.value) && r.error.None?
    ensures outcome.Fail? ==> r.base64.None? && r.error == Some(outcome.message)
  {
    match outcome
    case Ok(data) => GeneratedImage(Some(data), false, None)
    case Fail(message) => GeneratedImage(None, false, Some(message))
  }

  const Pending: GeneratedImage := GeneratedImage(None, true, None)

  class ProductMediaGenerator {
    const sourceImage: InlineData
    var generatedImages: map<ImageType, GeneratedImage>

    predicate Valid()
      reads this
    {
      WellFormed(generatedImages)
    }

    constructor(sourceImage: InlineData)
      ensures Valid() && this.sourceImage == sourceImage
      ensures generatedImages == InitialImages()
    {
      this.sourceImage := sourceImage;
      generatedImages := InitialImages();
    }

    /** `handleGenerateProductImage` up to the call: only the record of
        `imageType` changes, to loading without image or error. */
    method Start(imageType: ImageType, prompt: string) returns (call: VisualCall)
      requires Valid()
      modifies this
      ensures Valid()
      ensures generatedImages == old(generatedImages)[imageType := Pending]
      ensures call == VisualCall(sourceImage.base64, sourceImage.mimeType, prompt)
    {
      generatedImages := generatedImages[imageType := GeneratedImage(None, true, None)];
      call := VisualCall(sourceImage.base64, sourceImage.mimeType, prompt);
    }

    /** `handleGenerateProductImage` after the call: only the record of
        `imageType` changes, to the image or to the rejection's message. */
    method Settle(imageType: ImageType, outcome: Outcome<string>)
      requires Valid()
      modifies this
      ensures Valid()
      ensures generatedImages == old(generatedImages)[imageType := Settled(outcome)]
    {
      match outcome {
        case Ok(data) =>
          generatedImages := generatedImages[imageType := GeneratedImage(Some(data), false, None)];
        case Fail(message) =>
          generatedImages := generatedImages[imageType := GeneratedImage(None, false, Some(message))];
      }
    }
  }

  /** A transition on one image type leaves every other record as it was. */
  lemma OnlyThatRecordChanges(images: map<ImageType, GeneratedImage>, imageType: ImageType,
                              record: GeneratedImage, other: ImageType)
    requires WellFormed(images) && other != imageType
    ensures other in images[imageType := record]
    ensures images[imageType := record][other] == images[other]
  {
  }

  /** `` `${title.replace(/\s+/g, '_')}.png` `` */
  function DownloadName(title: string): (r: string)
    ensures |r| >= 4 && r[|r| - 4..] == ".png"
    ensures forall i :: 0 <= i < |r| ==> !IsJsSpace(r[i])
  {
    var stem := CollapseSpaces(title);
    var r := stem + ".png";
    assert r[|r| - 4..] == ".png";
    assert !IsJsSpace('.') && !IsJsSpace('p') && !IsJsSpace('n') && !IsJsSpace('g');
    assert forall i :: |stem| <= i < |r| ==> r[i] in {'.', 'p', 'n', 'g'};
    r
  }

  /** Two words separated by any run of whitespace download as `first_second.png`. */
  lemma DownloadNameOfTwoWords(first: string, gap: string, second: string)
    requires gap != [] && AllSpace(gap)
    requires forall i :: 0 <= i < |first| ==> !IsJsSpace(first[i])
    requires forall i :: 0 <= i < |second| ==> !IsJsSpace(second[i])
    ensures DownloadName(first + gap + second) == first + "_" + second + ".png"
  {
    CollapseSpacesRun(first, gap, second);
    CollapseSpacesIdentity(second);
  }
}
