/** Turning the service's JSON reply into the record of marketing content
    lists, and the two text-generation entry points (from an image, from a
    URL) that wrap it. */
module Content {
  import opened Wrappers
  import opened JsText
  import opened Types

  /** A value produced by `JSON.parse`. Numbers are kept as integers. */
  datatype Json =
    | JNull
    | JBool(b: bool)
    | JNumber(n: int)
    | JString(s: string)
    | JArray(items: seq<Json>)
    | JObject(fields: map<string, Json>)

  /** The 29 content categories read from the reply, in the parser's order. */
  datatype Category =
    | Titles | Descriptions | ProductPricing | Tags | Hashtags
    | SocialMediaPosts | ShortVideoScripts | FictionalTestimonials | SocialMediaBios
    | LongTailKeywords | MetaTagsAndAltTexts | BlogArticles | BuyingGuides | Faqs
    | PromotionalPhrases | MarketingEmails | PriceVariations | DiscountCoupons | CountdownPromos
    | PopupCopies | AdCopies | Ctas | WelcomeEmails | Slogans | ViralHooks
    | LandingPageCopies | CompetitorComparisons | InteractiveQuizzes | ChatbotScripts

  /** The JSON property name of a category. */
  function Key(c: Category): string
  {
    match c
    case Titles => "titles"
    case Descriptions => "descriptions"
    case ProductPricing => "productPricing"
    case Tags => "tags"
    case Hashtags => "hashtags"
    case SocialMediaPosts => "socialMediaPosts"
    case ShortVideoScripts => "shortVideoScripts"
    case FictionalTestimonials => "fictionalTestimonials"
    case SocialMediaBios => "socialMediaBios"
    case LongTailKeywords => "longTailKeywords"
    case MetaTagsAndAltTexts => "metaTagsAndAltTexts"
    case BlogArticles => "blogArticles"
    case BuyingGuides => "buyingGuides"
    case Faqs => "faqs"
    case PromotionalPhrases => "promotionalPhrases"
    case MarketingEmails => "marketingEmails"
    case PriceVariations => "priceVariations"
    case DiscountCoupons => "discountCoupons"
    case CountdownPromos => "countdownPromos"
    case PopupCopies => "popupCopies"
    case AdCopies => "adCopies"
    case Ctas => "ctas"
    case WelcomeEmails => "welcomeEmails"
    case Slogans => "slogans"
    case ViralHooks => "viralHooks"
    case LandingPageCopies => "landingPageCopies"
    case CompetitorComparisons => "competitorComparisons"
    case InteractiveQuizzes => "interactiveQuizzes"
    case ChatbotScripts => "chatbotScripts"
  }

  const AllCategories: set<Category> := set c: Category | true

  /** The six categories the parser fills that the declared content type lacks. */
  const UndeclaredCategories: set<Category> := {SocialMediaBios, AdCopies, Ctas, WelcomeEmails, Slogans, ViralHooks}

  /** The 23 categories of the declared content type. */
  const DeclaredCategories: set<Category> := AllCategories - UndeclaredCategories

  /** The category a JSON property name stands for, if any (looked up by
      length first, then by name). */
  function CategoryOf(key: string): Option<Category>
  {
    if |key| == 4 then CategoryOfLength4(key)
    else if |key| == 6 then CategoryOfLength6(key)
    else if |key| == 7 then CategoryOfLength7(key)
    else if |key| == 8 then CategoryOfLength8(key)
    else if |key| == 10 then CategoryOfLength10(key)
    else if |key| == 11 then CategoryOfLength11(key)
    else if |key| == 12 then CategoryOfLength12(key)
    else if |key| == 13 then CategoryOfLength13(key)
    else if |key| == 14 then CategoryOfLength14(key)
    else if |key| == 15 then CategoryOfLength15(key)
    else if |key| == 16 then CategoryOfLength16(key)
    else if |key| == 17 then CategoryOfLength17(key)
    else if |key| == 18 then CategoryOfLength18(key)
    else if |key| == 19 then CategoryOfLength19(key)
    else if |key| == 21 then CategoryOfLength21(key)
    else None
  }

  function CategoryOfLength4(key: string): Option<Category>
  {
    if key == "tags" then Some(Tags)
    else if key == "faqs" then Some(Faqs)
    else if key == "ctas" then Some(Ctas)
    else None
  }

  function CategoryOfLength6(key: string): Option<Category>
  {
    if key == "titles" then Some(Titles)
    else None
  }

  function CategoryOfLength7(key: string): Option<Category>
  {
    if key == "slogans" then Some(Slogans)
    else None
  }

  function CategoryOfLength8(key: string): Option<Category>
  {
    if key == "hashtags" then Some(Hashtags)
    else if key == "adCopies" then Some(AdCopies)
    else None
  }

  function CategoryOfLength10(key: string): Option<Category>
  {
    if key == "viralHooks" then Some(ViralHooks)
    else None
  }

  function CategoryOfLength11(key: string): Option<Category>
  {
    if key == "popupCopies" then Some(PopupCopies)
    else None
  }

  function CategoryOfLength12(key: string): Option<Category>
  {
    if key == "descriptions" then Some(Descriptions)
    else if key == "blogArticles" then Some(BlogArticles)
    else if key == "buyingGuides" then Some(BuyingGuides)
    else None
  }

  function CategoryOfLength13(key: string): Option<Category>
  {
    if key == "welcomeEmails" then Some(WelcomeEmails)
    else None
  }

  function CategoryOfLength14(key: string): Option<Category>
  {
    if key == "productPricing" then Some(ProductPricing)
    else if key == "chatbotScripts" then Some(ChatbotScripts)
    else None
  }

  function CategoryOfLength15(key: string): Option<Category>
  {
    if key == "socialMediaBios" then Some(SocialMediaBios)
    else if key == "marketingEmails" then Some(MarketingEmails)
    else if key == "priceVariations" then Some(PriceVariations)
    else if key == "discountCoupons" then Some(DiscountCoupons)
    else if key == "countdownPromos" then Some(CountdownPromos)
    else None
  }

  function CategoryOfLength16(key: string): Option<Category>
  {
    if key == "socialMediaPosts" then Some(SocialMediaPosts)
    else if key == "longTailKeywords" then Some(LongTailKeywords)
    else None
  }

  function CategoryOfLength17(key: string): Option<Category>
  {
    if key == "shortVideoScripts" then Some(ShortVideoScripts)
    else if key == "landingPageCopies" then Some(LandingPageCopies)
    else None
  }

  function CategoryOfLength18(key: string): Option<Category>
  {
    if key == "promotionalPhrases" then Some(PromotionalPhrases)
    else if key == "interactiveQuizzes" then Some(InteractiveQuizzes)
    else None
  }

  function CategoryOfLength19(key: string): Option<Category>
  {
    if key == "metaTagsAndAltTexts" then Some(MetaTagsAndAltTexts)
    else None
  }

  function CategoryOfLength21(key: string): Option<Category>
  {
    if key == "fictionalTestimonials" then Some(FictionalTestimonials)
    else if key == "competitorComparisons" then Some(CompetitorComparisons)
    else None
  }

  /** Every category has its own property name: reading the name back gives
      the category, so no two categories share a name. */
  lemma KeyNamesCategory(c: Category)
    ensures c in AllCategories
    ensures CategoryOf(Key(c)) == Some(c)
  {
    if c in {Titles, Descriptions, ProductPricing, Tags, Hashtags, SocialMediaPosts, ShortVideoScripts, FictionalTestimonials, SocialMediaBios, LongTailKeywords} {
      KeyNamesCategory1(c);
    }     else if c in {MetaTagsAndAltTexts, BlogArticles, BuyingGuides, Faqs, PromotionalPhrases, MarketingEmails, PriceVariations, DiscountCoupons, CountdownPromos, PopupCopies} {
      KeyNamesCategory2(c);
    }     else if c in {AdCopies, Ctas, WelcomeEmails, Slogans, ViralHooks, LandingPageCopies, CompetitorComparisons, InteractiveQuizzes, ChatbotScripts} {
      KeyNamesCategory3(c);
    }
  }

  lemma KeyNamesCategory1(c: Category)
    requires c in {Titles, Descriptions, ProductPricing, Tags, Hashtags, SocialMediaPosts, ShortVideoScripts, FictionalTestimonials, SocialMediaBios, LongTailKeywords}
    ensures CategoryOf(Key(c)) == Some(c)
  {
  }

  lemma KeyNamesCategory2(c: Category)
    requires c in {MetaTagsAndAltTexts, BlogArticles, BuyingGuides, Faqs, PromotionalPhrases, MarketingEmails, PriceVariations, DiscountCoupons, CountdownPromos, PopupCopies}
    ensures CategoryOf(Key(c)) == Some(c)
  {
  }

  lemma KeyNamesCategory3(c: Category)
    requires c in {AdCopies, Ctas, WelcomeEmails, Slogans, ViralHooks, LandingPageCopies, CompetitorComparisons, InteractiveQuizzes, ChatbotScripts}
    ensures CategoryOf(Key(c)) == Some(c)
  {
  }

  lemma KeyInjective(a: Category, b: Category)
    ensures Key(a) == Key(b) ==> a == b
  {
    KeyNamesCategory(a);
    KeyNamesCategory(b);
  }

  /** The generated content record: the category lists present in the
      object (29 after parsing, the 23 declared ones in the initial state)
      and the grounding chunks. Elements are kept as the reply had them. */
  datatype GeneratedContent = GeneratedContent(lists: map<Category, seq<Json>>, groundingChunks: seq<Json>)

  /** `parsed.<key>`: reading a property of a non-null value. */
  function Property(v: Json, key: string): Option<Json>
    requires !v.JNull?
  {
    match v
    case JObject(fields) => if key in fields then Some(fields[key]) else None
    case _ => None
  }

  /** `Array.isArray(x) ? x : []` */
  function ArrayOrEmpty(x: Option<Json>): seq<Json>
  {
    match x
    case Some(JArray(items)) => items
    case _ => []
  }

  /** Whether property `key` of `v` holds an array. */
  predicate HasArray(v: Json, key: string)
    requires !v.JNull?
  {
    Property(v, key).Some? && Property(v, key).value.JArray?
  }

  const ParseErrorMessage: string := "A resposta da IA não estava no formato JSON esperado. Tente novamente."

  /** `parseJsonResponse`, given the result of `JSON.parse` (`None` when it
      threw). Reading a property of `null` throws too, so a `null` reply is
      rejected with the same message. */
  function ParseJsonResponse(parsed: Option<Json>): (r: Outcome<GeneratedContent>)
    ensures r.Fail? <==> parsed.None? || parsed.value.JNull?
    ensures r.Fail? ==> r.message == ParseErrorMessage
    ensures r.Ok? ==> r.value.lists.Keys == AllCategories && r.value.groundingChunks == []
    ensures r.Ok? ==> forall c :: c in AllCategories ==>
      (HasArray(parsed.value, Key(c)) ==> r.value.lists[c] == Property(parsed.value, Key(c)).value.items) &&
      (!HasArray(parsed.value, Key(c)) ==> r.value.lists[c] == [])
  {
    match parsed
    case None => Fail(ParseErrorMessage)
    case Some(v) =>
      if v.JNull? then Fail(ParseErrorMessage)
      else Ok(GeneratedContent(map c | c in AllCategories :: ArrayOrEmpty(Property(v, Key(c))), []))
  }

  /** The reply `contentGenerationSchema` describes: an object with one
      array per category present in `content`. */
  function SchemaReply(lists: map<Category, seq<Json>>): Json
  {
    JObject(map k | k in KeyNames() && CategoryOf(k).Some? && CategoryOf(k).value in lists
                  :: JArray(lists[CategoryOf(k).value]))
  }

  function KeyNames(): set<string>
  {
    set c | c in AllCategories :: Key(c)
  }

  /** A reply that follows the schema is kept exactly, list by list. */
  lemma SchemaReplyRoundTrip(lists: map<Category, seq<Json>>)
    requires lists.Keys == AllCategories
    ensures ParseJsonResponse(Some(SchemaReply(lists))) == Ok(GeneratedContent(lists, []))
  {
    var v := SchemaReply(lists);
    forall c | c in AllCategories ensures Property(v, Key(c)) == Some(JArray(lists[c])) {
      KeyNamesCategory(c);
      assert Key(c) in KeyNames();
    }
    var r := ParseJsonResponse(Some(v));
    assert r.value.lists == lists;
  }

  /** A reply whose JSON is an array, a string, a number or a boolean yields
      only empty lists. */
  lemma NonObjectReplyIsEmpty(v: Json)
    requires !v.JNull? && !v.JObject?
    ensures ParseJsonResponse(Some(v)).Ok?
    ensures forall c :: c in AllCategories ==> ParseJsonResponse(Some(v)).value.lists[c] == []
  {
  }

  /** `hasContent`: some array-valued field of the record (any category
      list, or the grounding chunks) is non-empty. */
  predicate HasContent(content: GeneratedContent)
  {
    (exists c :: c in content.lists && content.lists[c] != []) || content.groundingChunks != []
  }

  /** `initialContentState`: the 23 declared lists, all empty, and no grounding chunks. */
  function InitialContent(): (r: GeneratedContent)
    ensures r.lists.Keys == DeclaredCategories
    ensures !HasContent(r)
  {
    GeneratedContent(map c | c in DeclaredCategories :: [], [])
  }

  /** A parsed reply has content exactly when one of its category properties
      holds a non-empty array. */
  lemma HasContentAfterParse(v: Json)
    requires !v.JNull?
    ensures HasContent(ParseJsonResponse(Some(v)).value) <==>
      exists c :: c in AllCategories && HasArray(v, Key(c)) && Property(v, Key(c)).value.items != []
  {
  }

  /** The model's answer to a text-generation request: its text and, when
      present, its candidates with their grounding metadata. */
  datatype GroundingMetadata = GroundingMetadata(groundingChunks: Option<seq<Json>>)
  datatype Candidate = Candidate(groundingMetadata: Option<GroundingMetadata>)
  datatype TextResponse = TextResponse(text: string, candidates: Option<seq<Candidate>>)

  const ImageErrorMessage: string := "Falha ao gerar conteúdo a partir da imagem. Verifique o console para mais detalhes."
  const UrlErrorMessage: string := "Falha ao gerar conteúdo a partir do link. A URL pode estar inacessível ou o conteúdo pode ser inválido."

  /** `generateContentFromImage`: one request with the image and the
      instruction; any failure, the parser's included, is reported with the
      wrapper's own message. */
  function ContentFromImage(response: Outcome<TextResponse>, jsonParse: string -> Option<Json>): (r: Outcome<GeneratedContent>)
    ensures r.Fail? ==> r.message == ImageErrorMessage
    ensures r.Ok? <==> response.Ok? && ParseJsonResponse(jsonParse(response.value.text)).Ok?
    ensures r.Ok? ==> r == ParseJsonResponse(jsonParse(response.value.text))
  {
    match response
    case Fail(_) => Fail(ImageErrorMessage)
    case Ok(resp) =>
      match ParseJsonResponse(jsonParse(resp.text))
      case Fail(_) => Fail(ImageErrorMessage)
      case Ok(content) => Ok(content)
  }

  /** The grounding chunks the URL path copies into the record:
      `candidates[0].groundingMetadata?.groundingChunks`, or nothing. An empty
      candidate list makes `candidates[0].groundingMetadata` throw. */
  function FirstCandidateChunks(candidates: Option<seq<Candidate>>): Outcome<Option<seq<Json>>>
  {
    match candidates
    case None => Ok(None)
    case Some(cs) =>
      if cs == [] then Fail("")
      else match cs[0].groundingMetadata
        case None => Ok(None)
        case Some(m) => Ok(m.groundingChunks)
  }

  function ChunksOrEmpty(chunks: Option<seq<Json>>): seq<Json>
  {
    match chunks
    case Some(cs) => cs
    case None => []
  }

  /** `generateContentFromUrl`: as for the image, plus the grounding chunks
      of the first candidate replacing the parser's empty list when present. */
  function ContentFromUrl(response: Outcome<TextResponse>, jsonParse: string -> Option<Json>): (r: Outcome<GeneratedContent>)
    ensures r.Fail? ==> r.message == UrlErrorMessage
    ensures r.Ok? <==> (response.Ok? && ParseJsonResponse(jsonParse(response.value.text)).Ok? &&
                        FirstCandidateChunks(response.value.candidates).Ok?)
    ensures r.Ok? ==> r.value.lists == ParseJsonResponse(jsonParse(response.value.text)).value.lists
    ensures r.Ok? ==> r.value.groundingChunks == ChunksOrEmpty(FirstCandidateChunks(response.value.candidates).value)
  {
    match response
    case Fail(_) => Fail(UrlErrorMessage)
    case Ok(resp) =>
      match ParseJsonResponse(jsonParse(resp.text))
      case Fail(_) => Fail(UrlErrorMessage)
      case Ok(content) =>
        match FirstCandidateChunks(resp.candidates)
        case Fail(_) => Fail(UrlErrorMessage)
        case Ok(None) => Ok(content)
        case Ok(Some(chunks)) => Ok(content.(groundingChunks := chunks))
  }
}
