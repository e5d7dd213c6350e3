/** The page shell: the state the input panel's callbacks update, the
    branding prompt derived from the first generated title, and when the
    branding section is shown. */
module App {
  import opened Wrappers
  import opened JsText
  import opened Types
  import opened Content
  import opened InputTabs

  // ---------------------------------------------------------------------
  // Template-literal conversion of a JSON value

  /** `${v}` for a parsed JSON value. Numbers are modelled as integers. */
  function TemplateString(v: Json): string
    decreases v, 0
  {
    match v
    case JNull => "null"
    case JBool(b) => if b then "true" else "false"
    case JNumber(n) => IntString(n)
    case JString(s) => s
    case JArray(items) => JoinedItems(items)
    case JObject(_) => "[object Object]"
  }

  function IntString(n: int): string
  {
    if n < 0 then "-" + NatToString(-n) else NatToString(n)
  }

  /** `Array.prototype.join(",")`: `null` items become empty. */
  function JoinedItems(items: seq<Json>): string
    decreases items, 2
  {
    if |items| == 0 then ""
    else if |items| == 1 then ItemString(items[0])
    else JoinedItems(items[..|items| - 1]) + "," + ItemString(items[|items| - 1])
  }

  function ItemString(v: Json): string
    decreases v, 1
  {
    if v.JNull? then "" else TemplateString(v)
  }

  /** A string prints as itself and a one-item array as its item, so a
      title that the schema describes (a string) appears verbatim; `null`
      prints as "null" on its own but as nothing inside an array. */
  lemma TemplateStringFacts(s: string, v: Json)
    ensures TemplateString(JString(s)) == s
    ensures TemplateString(JArray([JString(s)])) == s
    ensures TemplateString(JNull) == "null" && TemplateString(JArray([JNull])) == ""
    ensures !v.JNull? ==> TemplateString(JArray([v])) == TemplateString(v)
  {
    assert JoinedItems([JString(s)]) == ItemString(JString(s));
    assert JoinedItems([JNull]) == ItemString(JNull);
    assert JoinedItems([v]) == ItemString(v);
  }

  /** A number prints back to a string that reads as the same number:
      different integers render differently. */
  lemma IntStringInjective(m: int, n: int)
    requires IntString(m) == IntString(n)
    ensures m == n
  {
    if m < 0 && n < 0 {
      assert NatToString(-m) == IntString(m)[1..] == NatToString(-n);
      NatToStringInjective(-m, -n);
    } else if m >= 0 && n >= 0 {
      NatToStringInjective(m, n);
    } else {
      var neg := if m < 0 then m else n;
      var pos := if m < 0 then n else m;
      DigitsNoMinus(pos);
    }
  }

  /** Every character NatToString produces is a digit. */
  lemma {:induction false} DigitsNoMinus(n: nat)
    ensures NatToString(n)[0] != '-'
    decreases n
  {
    if n >= 10 {
      DigitsNoMinus(n / 10);
    }
  }

  // ---------------------------------------------------------------------
  // Page state

  const BrandPrefix: string := "Uma marca para: "

  /** `brandingPrompt` for a newly generated record: built from the first
      title, or empty when there are no titles. */
  function BrandingPromptFor(titles: seq<Json>): (r: string)
    ensures titles == [] ==> r == ""
    ensures titles != [] ==> r == BrandPrefix + TemplateString(titles[0])
  {
    if |titles| > 0 then BrandPrefix + TemplateString(titles[0]) else ""
  }

  /** The page's state as a value. */
  datatype PageState = PageState(
    isLoading: bool,
    content: GeneratedContent,
    error: Option<string>,
    sourceImage: Option<InlineData>,
    brandingPrompt: string,
    images: map<ImageType, GeneratedImage>)

  const InitialPage: PageState := PageState(false, InitialContent(), None, None, "", InitialImages())

  /** Every record the page holds has a titles list. */
  predicate Titled(content: GeneratedContent)
  {
    Titles in content.lists
  }

  predicate Deliverable(e: Emit)
  {
    e.Generation? ==> Titled(e.content)
  }

  /** `setIsLoading`, `handleGeneration` or `handleError`. */
  function Step(s: PageState, e: Emit): (r: PageState)
    requires Deliverable(e)
    ensures r.sourceImage == (if e.Error? then None else s.sourceImage)
    ensures e.Generation? ==> r.content == e.content && r.error.None? && r.images == InitialImages() &&
                              r.brandingPrompt == BrandingPromptFor(e.content.lists[Titles]) && r.isLoading == s.isLoading
    ensures e.Error? ==> r.content == InitialContent() && r.error == Some(e.message) &&
                         r.brandingPrompt == s.brandingPrompt && r.images == s.images && r.isLoading == s.isLoading
    ensures e.SetLoading? ==> r == s.(isLoading := e.loading)
  {
    match e
    case SetLoading(b) => s.(isLoading := b)
    case Generation(c) =>
      s.(content := c, brandingPrompt := BrandingPromptFor(c.lists[Titles]), images := InitialImages(), error := None)
    case Error(m) => s.(error := Some(m), content := InitialContent(), sourceImage := None)
  }

  /** Callbacks applied in order. */
  function Run(s: PageState, es: seq<Emit>): PageState
    requires forall i :: 0 <= i < |es| ==> Deliverable(es[i])
    decreases |es|
  {
    if es == [] then s else Run(Step(s, es[0]), es[1..])
  }

  /** `hasContent && !isLoading && !error`: the branding section is shown. */
  predicate ShowBranding(s: PageState)
  {
    HasContent(s.content) && !s.isLoading && !Truthy(s.error)
  }

  lemma {:induction false} RunAppend(s: PageState, a: seq<Emit>, b: seq<Emit>)
    requires forall i :: 0 <= i < |a| ==> Deliverable(a[i])
    requires forall i :: 0 <= i < |b| ==> Deliverable(b[i])
    ensures forall i :: 0 <= i < |a + b| ==> Deliverable((a + b)[i])
    ensures Run(s, a + b) == Run(Run(s, a), b)
    decreases |a|
  {
    if a == [] {
      assert a + b == b;
    } else {
      assert (a + b)[0] == a[0];
      assert (a + b)[1..] == a[1..] + b;
      RunAppend(Step(s, a[0]), a[1..], b);
    }
  }

  /** Starting a request, by image or by link, empties the record, clears
      the images' source, shows the spinner and hides the branding section;
      the error slot holds the empty string, which the page treats as no
      error. */
  lemma StartHidesBranding(s: PageState)
    ensures forall i :: 0 <= i < |StartEvents()| ==> Deliverable(StartEvents()[i])
    ensures Run(s, StartEvents()) == s.(isLoading := true, content := InitialContent(), error := Some(""),
                                        sourceImage := None, brandingPrompt := "", images := InitialImages())
    ensures !ShowBranding(Run(s, StartEvents()))
  {
    var es := StartEvents();
    assert es == [SetLoading(true), Generation(InitialContent()), Error("")];
    assert Titles in DeclaredCategories;
    assert Run(s, es) == Step(Step(Step(s, es[0]), es[1]), es[2]) by {
      assert es[1..][1..][1..] == [];
    }
  }

  /** After a request ends, the branding section is shown exactly when the
      new record has content; a failure empties the record and shows the
      message, which is never empty. */
  lemma SettleShowsBranding(s: PageState, outcome: Outcome<GeneratedContent>)
    requires outcome.Ok? ==> Titled(outcome.value)
    ensures forall i :: 0 <= i < |SettleEvents(outcome)| ==> Deliverable(SettleEvents(outcome)[i])
    ensures ShowBranding(Run(s, SettleEvents(outcome))) <==> outcome.Ok? && HasContent(outcome.value)
    ensures outcome.Ok? ==> Run(s, SettleEvents(outcome)).brandingPrompt == BrandingPromptFor(outcome.value.lists[Titles])
    ensures outcome.Fail? ==> Truthy(Run(s, SettleEvents(outcome)).error)
  {
    var es := SettleEvents(outcome);
    var s1 := Step(s, es[0]);
    assert Run(s, es) == Run(s1, es[1..]);
    assert es[1..][0] == es[1] && es[1..][1..] == [];
    assert Run(s1, es[1..]) == Run(Step(s1, es[1]), []);
  }

  /** None of the input panel's callbacks ever provides a source image, so
      once it is gone it stays gone. */
  lemma {:induction false} SourceImageNeverSet(s: PageState, es: seq<Emit>)
    requires forall i :: 0 <= i < |es| ==> Deliverable(es[i])
    requires s.sourceImage.None?
    ensures Run(s, es).sourceImage.None?
    decreases |es|
  {
    if es != [] {
      SourceImageNeverSet(Step(s, es[0]), es[1..]);
    }
  }

  // ---------------------------------------------------------------------
  // The component

  class Page {
    var isLoading: bool
    var generatedContent: GeneratedContent
    var error: Option<string>
    var sourceImage: Option<InlineData>
    var brandingPrompt: string
    var generatedImages: map<ImageType, GeneratedImage>

    function State(): PageState
      reads this
    {
      PageState(isLoading, generatedContent, error, sourceImage, brandingPrompt, generatedImages)
    }

    /** A titles list is always there to read, and every image type has its record. */
    predicate Valid()
      reads this
    {
      Titled(generatedContent) && generatedImages.Keys == AllImageTypes
    }

    constructor()
      ensures Valid() && State() == InitialPage
    {
      isLoading := false;
      generatedContent := InitialContent();
      error := None;
      sourceImage := None;
      brandingPrompt := "";
      generatedImages := InitialImages();
      assert Titles in DeclaredCategories;
    }

    method SetIsLoading(loading: bool)
      requires Valid()
      modifies this
      ensures Valid() && State() == Step(old(State()), SetLoading(loading))
    {
      isLoading := loading;
    }

    /** `handleGeneration` */
    method HandleGeneration(content: GeneratedContent)
      requires Valid() && Titled(content)
      modifies this
      ensures Valid() && State() == Step(old(State()), Generation(content))
    {
      generatedContent := content;
      if |content.lists[Titles]| > 0 {
        brandingPrompt := BrandPrefix + TemplateString(content.lists[Titles][0]);
      } else {
        brandingPrompt := "";
      }
      generatedImages := InitialImages();
      error := None;
    }

    /** `handleError` */
    method HandleError(message: string)
      requires Valid()
      modifies this
      ensures Valid() && State() == Step(old(State()), Error(message))
    {
      error := Some(message);
      generatedContent := InitialContent();
      sourceImage := None;
      assert Titles in DeclaredCategories;
    }

    /** `handleSourceImage` */
    method HandleSourceImage(data: Option<InlineData>)
      requires Valid()
      modifies this
      ensures Valid() && State() == old(State()).(sourceImage := data)
    {
      sourceImage := data;
    }
  }
}
