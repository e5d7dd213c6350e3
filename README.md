# MEGAPOST, modelled in Dafny

MEGAPOST is a browser app that turns a product photo or a product link into
a marketing campaign. It uses Google's Gemini models to produce:

- text: 29 lists of titles, descriptions, hashtags and similar copy;
- product images, logos and banners;
- mock-up phone screens showing sale notifications.

This project models the part of the app that has logic beyond rendering:

- **The service layer** (`services/geminiService.ts`):
  - coercing the model's JSON reply into the fixed record of category lists;
  - the image and URL wrappers around that coercion;
  - the search for the first inline image in a reply;
  - the asset fan-out, with one call per slot when there is a reference image and one batch call otherwise;
  - the logo and banner presets and the batch call for modal assets;
  - the device-frame sentence, the notification HTML prompt, the part list, and the notification-screen call.
- **The state machines of the React components.** Each is a class whose fields are the component's state, with one method per handler. Handlers with an `await` are split into a `Start` half (up to the call) and a `Settle` half (the outcome of the call).
  - `App.tsx`: generation and error reset, the branding prompt, and when the branding section is shown.
  - `InputTabs.tsx`: the file-size and blank-link gates, the data-URL split, `resetState`, and the order of the callback calls.
  - `BrandIdentityGenerator.tsx`: two tabs of ten slots each, reference images, and download names.
  - `BrandingGenerator.tsx`: the 4/2/2 placeholders and which groups are shown.
  - `ProductMediaGenerator.tsx`: one record per image type, where a transition changes only its own key.
  - `AiAssetGeneratorModal.tsx`: six slots, the prompt prefixes, the aspect mapping, and selection.
  - `NotificationGenerator.tsx`: the notification queue, icons and background, the device cut-outs, the four-newest preview, and the download.

Service calls and `JSON.parse` are parameters (functions from a request to
an `Outcome`). A settled promise is `Ok(value)` or `Fail(message)`.
JavaScript's `x || fallback` on a message is `MessageOr`, and truthiness of
`string | null` is `Truthy`.

Files:

- `wrappers.dfy`: Option, Outcome and JS truthiness.
- `js_text.dfy`: JS string operations: `trim`, `includes`, `split`, `replace(/\s+/g, '_')`, number printing, `map(...).join('')`.
- `data_url.dfy`: data URLs.
- `types.dfy`: the datatypes of `types.ts`.
- `content.dfy`: text content.
- `assets.dfy`: image requests.
- `notification_service.dfy`: the notification-screen request.
- `ui.dfy`: slot views, download names and reference images, shared by the components.
- One file per component.

## Model

| member | source | states |
|---|---|---|
| Content.ParseJsonResponse | services/geminiService.ts:52-93 | fails with the one fixed message exactly when the text does not parse or parses to `null`; otherwise all 29 categories are present, each is the reply's property when that is an array and `[]` otherwise, and the grounding chunks are empty |
| Content.SchemaReplyRoundTrip | services/geminiService.ts:8-50 | a reply shaped like the response schema (one array per category) is kept list for list |
| Content.NonObjectReplyIsEmpty | services/geminiService.ts:56-86 | a reply that is an array, string, number or boolean parses to all-empty lists |
| Content.KeyInjective | services/geminiService.ts:57-85 | the 29 property names are pairwise distinct, so each category reads its own property |
| Content.KeyNamesCategory | services/geminiService.ts:57-85 | every category's property name maps back to that category |
| Content.HasContentAfterParse | services/geminiService.ts:52-93 | a parsed record has content exactly when some category property of the reply is a non-empty array |
| Content.InitialContent | App.tsx:7-42 | the initial record has exactly the 23 declared lists, all empty, and `hasContent` is false for it |
| Content.ContentFromImage | services/geminiService.ts:96-121 | succeeds exactly when the call succeeds and its text parses, with the parsed record; every failure carries the image wrapper's message |
| Content.ContentFromUrl | services/geminiService.ts:123-149 | as for the image, plus: the grounding chunks are the first candidate's when present and `[]` otherwise; an empty candidate list fails; failures carry the URL wrapper's message |
| Assets.FirstInline | services/geminiService.ts:168-173 | no image is found exactly when no part of the reply is an image |
| Assets.FirstInlineIsFirstImage | services/geminiService.ts:168-173 | a found image is the data of an image part with no image part before it |
| Assets.FindFirstInline | services/geminiService.ts:355-360 | the loop returns the same as the first-image search, and any result it returns is an image part's data |
| Assets.GenerateVisualContent | services/geminiService.ts:151-179 | sends the image then the prompt to the edit model; the result is the first image of the reply, and a failed call or a reply without an image fails with the visual-media message |
| Assets.BatchResult | services/geminiService.ts:225-242 | the batch result succeeds exactly when the call succeeds and returns a list, and is that list's image bytes in order; any failure carries the assets message |
| Assets.GenerateAssetsWithReference | services/geminiService.ts:193-221 | with a reference image: exactly `count` single-image requests, each with the reference then `Estilo <style>. <prompt>`; the result never fails; slot i is null exactly when call i failed or returned no image, and for a successful call it is that reply's first inline image |
| Assets.GenerateAssetsWithoutReference | services/geminiService.ts:225-242 | without one: a single batch request for `count` PNG images at the given aspect ratio; it succeeds exactly when the call succeeds with a list whose every entry has an image, and then slot i is entry i's bytes; otherwise it fails with the assets message |
| Assets.GenerateImageAssets | services/geminiService.ts:257-275 | one batch request for `count` PNG images with the prompt as given; it succeeds exactly when the call returns a list whose every entry has an image, with entry i's bytes in slot i; otherwise it fails with the assets message |
| Assets.LogoAndBannerRequests | services/geminiService.ts:246-254 | logos ask for 10 square images and banners for 10 at 16:9, each with the style prefix, then its own preset, then the user's prompt |
| NotificationService.DeviceFramePromptFacts | services/geminiService.ts:289-300 | the framed sentence depends on the device and tells devices apart; the other two kinds ignore it; the three kinds give three different sentences |
| NotificationService.NotificationsHtmlInOrder | services/geminiService.ts:303-319 | the notifications HTML is one block per notification, concatenated in queue order |
| NotificationService.AssembleParts | services/geminiService.ts:332-344 | the parts are the text and the background, followed by the icon label and the icon only when there is an icon; image parts sit only at odd positions |
| NotificationService.GenerateSingleNotificationImage | services/geminiService.ts:329-366 | the request goes to the edit model with those parts (text, background, then label and icon when there is an icon); the result is the reply's first inline image, and a failed call or a reply without an image gives the notification-image message |
| DataUrl.SplitDataUrl | components/InputTabs.tsx:29-31 | the payload is present exactly when the URL contains `;base64,`; neither piece contains a separator |
| DataUrl.SplitMakeDataUrl | components/InputTabs.tsx:29-31 | splitting `data:<mime>;base64,<payload>` gives back the MIME type and the payload |
| InputTabs.FilePayload | components/InputTabs.tsx:24-35 | a file is sent with a payload exactly when its reader output contains `;base64,` |
| InputTabs.FilePayloadOfDataUrl | components/InputTabs.tsx:24-35 | a well-formed data URL is sent with its own MIME type and payload |
| InputTabs.ResetEvents | components/InputTabs.tsx:44-53 | the reset emits a record without content, then an empty error |
| InputTabs.StartEvents | components/InputTabs.tsx:65-66 | a request starts by turning loading on, then resetting |
| InputTabs.SettleEvents | components/InputTabs.tsx:69-77 | a request ends with the record or a non-empty message (the fallback stands in for an empty one), then turns loading off |
| InputTabs.InputPanel.StartImageUpload | components/InputTabs.tsx:55-78 | no file changes nothing; a file over 4 MiB only reports the size error; otherwise the preview is set, the start calls are made and the split payload is sent |
| InputTabs.InputPanel.StartUrlSubmit | components/InputTabs.tsx:80-99 | a blank link only reports its error; otherwise the start calls are made and the link is sent as typed |
| InputTabs.InputPanel.Settle | components/InputTabs.tsx:69-77 | appends the settle calls for the outcome; nothing else changes |
| App.Step | App.tsx:97-132 | a generation stores the record, derives the branding prompt, resets all image records and clears the error; an error stores the message, restores the initial record and drops the source image; loading changes only the flag |
| App.BrandingPromptFor | App.tsx:99-103 | `Uma marca para: ` followed by the first title, or empty when there are no titles |
| App.TemplateStringFacts | App.tsx:100 | a title that is a string appears in the prompt verbatim; a one-item array prints as its item; `null` prints as `null`, but as nothing inside an array |
| App.IntStringInjective | App.tsx:100 | distinct integer titles render differently |
| App.StartHidesBranding | App.tsx:97-132 | the calls that start a request leave the page loading, with an empty record, no images' source, no branding prompt and fresh image records, and hide the branding section |
| App.SettleShowsBranding | App.tsx:209 | after a request ends, the branding section is shown exactly when the new record has content; a failure leaves a truthy error |
| App.SourceImageNeverSet | App.tsx:134-136 | no callback of the input panel supplies a source image, so once it is absent it stays absent |
| App.Page.HandleGeneration | App.tsx:97-126 | the page's new state is the generation step of its old state |
| App.Page.HandleError | App.tsx:128-132 | the page's new state is the error step of its old state |
| App.Page.constructor | App.tsx:60-94 | not loading, the initial record, no error, no source image, no branding prompt, every image type in its initial state |
| Types.InitialImages | components/ProductMediaGenerator.tsx:100-107 | every one of the 19 image types is present, each in the initial state |
| ProductMedia.Settled | components/ProductMediaGenerator.tsx:113-116 | a settled record is not loading and never holds both an image and an error; it holds the image on success and the message on failure |
| ProductMedia.ProductMediaGenerator.Start | components/ProductMediaGenerator.tsx:109-112 | only the chosen type's record becomes pending, and the source image is sent with the prompt |
| ProductMedia.ProductMediaGenerator.Settle | components/ProductMediaGenerator.tsx:113-116 | only the chosen type's record becomes the settled record; the record invariant is kept |
| ProductMedia.OnlyThatRecordChanges | components/ProductMediaGenerator.tsx:110-116 | every other image type keeps its previous record |
| ProductMedia.DownloadName | components/ProductMediaGenerator.tsx:35 | the name ends in `.png` and contains no whitespace |
| ProductMedia.DownloadNameOfTwoWords | components/ProductMediaGenerator.tsx:35 | a whitespace run between two words becomes a single `_` |
| Ui.LoadingSlotsAreLoading | components/BrandIdentityGenerator.tsx:154 | `Array(n).fill('loading')` is n placeholders |
| Ui.ViewOf | components/BrandIdentityGenerator.tsx:43-50 | a slot shows a spinner exactly for `'loading'`, a picture of its data exactly for another non-empty string, and "Falha" exactly for null or `''` |
| Ui.AssetGrid | components/BrandIdentityGenerator.tsx:31-32 | the grid is drawn exactly when the list is non-empty, with one view per slot |
| Ui.AssetGridViews | components/BrandIdentityGenerator.tsx:41-50 | slot i shows a picture exactly when it holds a non-empty string other than the placeholder; a list of placeholders shows only spinners |
| Ui.Head | components/BrandIdentityGenerator.tsx:46 | `substring(0, n)` is the prefix of length min(n, length) |
| Ui.AssetFileNamesDistinct | components/BrandIdentityGenerator.tsx:46 | the download names of one grid end in `.png`, and different slots get different names |
| Ui.ReferenceFromDataUrl | components/BrandIdentityGenerator.tsx:119-124 | the stored image keeps the data URL and has a payload exactly when the URL contains `;base64,` |
| Ui.ReferenceFromDataUrlRoundTrip | components/BrandIdentityGenerator.tsx:119-124 | a reader's data URL gives back the file's MIME type and payload |
| BrandIdentity.StartTab | components/BrandIdentityGenerator.tsx:150-156 | a blank prompt only sets the error and makes no call; otherwise the tab is generating with no error and exactly 10 placeholders, and the call carries the prompt, the style and the reference payload |
| BrandIdentity.SettleTab | components/BrandIdentityGenerator.tsx:156-162 | generation stops; success puts the result in the slots; failure empties them and shows the message or the fallback |
| BrandIdentity.BrandIdentityGenerator.StartLogos | components/BrandIdentityGenerator.tsx:150-156 | the logo tab moves as the start of a tab and the banner tab is untouched |
| BrandIdentity.BrandIdentityGenerator.SettleLogos | components/BrandIdentityGenerator.tsx:156-162 | the logo tab settles as a tab and the banner tab is untouched |
| BrandIdentity.BrandIdentityGenerator.StartBanners | components/BrandIdentityGenerator.tsx:165-171 | the banner tab moves as the start of a tab and the logo tab is untouched |
| BrandIdentity.BrandIdentityGenerator.SettleBanners | components/BrandIdentityGenerator.tsx:171-177 | the banner tab settles as a tab and the logo tab is untouched |
| BrandIdentity.BrandIdentityGenerator.SetReference | components/BrandIdentityGenerator.tsx:114-125 | the split data URL is stored for the active tab only |
| BrandIdentity.BrandIdentityGenerator.ReadFailed | components/BrandIdentityGenerator.tsx:126-129 | a failed read sets the active tab's error only |
| BrandIdentity.BrandIdentityGenerator.RemoveReference | components/BrandIdentityGenerator.tsx:254 | removing clears that tab's reference only |
| BrandIdentity.BrandIdentityGenerator.constructor | components/BrandIdentityGenerator.tsx:59-76 | the logo tab is active; both tabs have an empty prompt, the "Padrão" style, no error, no slots and no reference |
| BrandIdentity.LogoHandlerOutcome | components/BrandIdentityGenerator.tsx:150-162 | through the real service: with a reference image the logo tab ends with 10 slots and no error; without one it ends with the returned images, or with the assets message and no slots, so the fallback never shows; a blank prompt leaves the slots alone |
| Branding.Placeholders | components/BrandingGenerator.tsx:52-56 | four placeholder logos, and two placeholder banners of each kind when there is a reference image, none otherwise |
| Branding.Groups | components/BrandingGenerator.tsx:129-180 | nothing is drawn without assets; each group is drawn exactly when its list is non-empty |
| Branding.PlaceholderGroups | components/BrandingGenerator.tsx:52-56 | during a request the logos are always drawn, and the banner groups exactly when there is a reference image |
| Branding.BrandingGenerator.Start | components/BrandingGenerator.tsx:45-57 | a blank prompt only sets the error; otherwise loading starts, the error clears, the placeholders appear and the prompt and reference are sent |
| Branding.BrandingGenerator.Settle | components/BrandingGenerator.tsx:58-67 | loading stops; success stores the assets; failure drops them and shows the message or the fallback |
| Branding.BrandingGenerator.SetReference | components/BrandingGenerator.tsx:28-39 | the split data URL becomes the reference image |
| Branding.BrandingGenerator.ReadFailed | components/BrandingGenerator.tsx:40-42 | a failed read sets the reference-image error |
| AiAssetModal.AspectRatioOfKind | components/AiAssetGeneratorModal.tsx:54 | icons are requested at 1:1 and backgrounds at 9:16 |
| AiAssetModal.SelectedAsset | components/AiAssetGeneratorModal.tsx:66-73 | the chosen asset carries the given payload and `image/png` |
| AiAssetModal.SelectedAssetSplitsBack | components/AiAssetGeneratorModal.tsx:66-73 | the emitted data URL splits back into the same payload and MIME type |
| AiAssetModal.StartModal | components/AiAssetGeneratorModal.tsx:42-55 | a blank prompt only sets the error; otherwise loading starts with no error and 6 placeholders, and the call is the kind's prefix plus the prompt, 6 images, the kind's aspect ratio; the placeholder invariant is kept |
| AiAssetModal.SettleModal | components/AiAssetGeneratorModal.tsx:56-63 | loading stops; success stores the slots and keeps the error; failure empties them and shows the bare message |
| AiAssetModal.ModalHandlerOutcome | components/AiAssetGeneratorModal.tsx:42-63 | a generate click sends one batch request for 6 PNG images with the kind's prefix and aspect ratio; the modal ends with the returned images in order and no error, or with no slots and the assets message |
| AiAssetModal.AiAssetGeneratorModal.Start | components/AiAssetGeneratorModal.tsx:23-55 | callable only while the modal is drawn (open, with a kind); the new state and the call are exactly `StartModal`'s |
| AiAssetModal.AiAssetGeneratorModal.Settle | components/AiAssetGeneratorModal.tsx:56-63 | the new state is exactly `SettleModal`'s |
| AiAssetModal.AiAssetGeneratorModal.SelectAsset | components/AiAssetGeneratorModal.tsx:66-76 | only a slot showing a picture can be chosen, so the modal is not loading; the chosen asset is that slot's data as a PNG data URL, then prompt, slots and error are cleared |
| NotificationGenerator.AccentColorsDistinct | components/NotificationGenerator.tsx:12-18 | the five event kinds have five different colours |
| NotificationGenerator.BuiltInIcon.Svg | components/NotificationGenerator.tsx:27-35 | the option value is empty exactly for "Nenhum" |
| NotificationGenerator.Queued | components/NotificationGenerator.tsx:74-78 | a new notification is Pix, has no payment logo, and takes its event kind's colour |
| NotificationGenerator.WithoutIndexCuts | components/NotificationGenerator.tsx:198 | filtering out index i removes exactly that element and keeps the rest in order; an index past the end changes nothing |
| NotificationGenerator.Newest | components/NotificationGenerator.tsx:317 | `slice(-4)` is the last min(4, n) notifications, a suffix of the queue |
| NotificationGenerator.NewestAfterAdd | components/NotificationGenerator.tsx:317 | a newly added notification is shown last, and with four or more queued the oldest shown one drops out |
| NotificationGenerator.StylesFor | components/NotificationGenerator.tsx:276-280 | no cut-out is drawn unless the preview is framed and has a device; then a notch exactly for an iPhone that is not an SE, a dynamic island exactly for an iPhone 15, a punch hole exactly for a Samsung or Google device |
| NotificationGenerator.MenuDeviceStyles | components/NotificationGenerator.tsx:20-24 | over the menu's naming scheme: every Samsung and Google model gets a punch hole, every iPhone 15 a dynamic island, and the iPhone SE no notch |
| NotificationGenerator.DefaultDeviceStyles | components/NotificationGenerator.tsx:276-280 | the default iPhone 15 Pro gets a notch and a dynamic island and no punch hole |
| NotificationGenerator.NotificationEditor.constructor | components/NotificationGenerator.tsx:49-66 | the defaults: empty queue, "Venda Aprovada" with its product, the default value, client and device, the up-arrow icon, no custom assets, nothing pending |
| NotificationGenerator.NotificationEditor.SetEventType | components/NotificationGenerator.tsx:69-72 | choosing a different event kind resets the product to that kind's default; choosing the current one changes nothing |
| NotificationGenerator.NotificationEditor.AddNotification | components/NotificationGenerator.tsx:74-80 | exactly one notification is appended, built from the form; earlier ones are unchanged |
| NotificationGenerator.NotificationEditor.RemoveAt | components/NotificationGenerator.tsx:198 | the queue loses exactly its i-th entry, or is unchanged for an index past the end |
| NotificationGenerator.NotificationEditor.ClearQueue | components/NotificationGenerator.tsx:192 | the queue is empty |
| NotificationGenerator.NotificationEditor.SelectBuiltInIcon | components/NotificationGenerator.tsx:220 | the chosen built-in icon replaces any custom one |
| NotificationGenerator.NotificationEditor.OpenAiModal | components/NotificationGenerator.tsx:225 | the modal opens for an app icon, so it is drawn |
| NotificationGenerator.NotificationEditor.AiAssetSelect | components/NotificationGenerator.tsx:94-100 | an app icon from the modal becomes the custom icon and clears the built-in one; the modal closes either way |
| NotificationGenerator.NotificationEditor.UploadAppIcon | components/NotificationGenerator.tsx:82-92 | the uploaded file's split data URL becomes the custom icon |
| NotificationGenerator.NotificationEditor.UploadBackground | components/NotificationGenerator.tsx:82-92 | the uploaded file's split data URL becomes the custom background |
| NotificationGenerator.NotificationEditor.CurrentAppIcon | components/NotificationGenerator.tsx:153 | the custom icon's URL wins; otherwise the built-in SVG as a data URL; no icon exactly when neither is set |
| NotificationGenerator.NotificationEditor.CurrentBgUrl | components/NotificationGenerator.tsx:154 | the custom background's URL wins; otherwise the default PNG's data URL |
| NotificationGenerator.NotificationEditor.Payload | components/NotificationGenerator.tsx:111-121 | a download sends the queue, the status bar, the device and the frame type; the custom icon's payload exactly when there is one (never the built-in SVG); the custom background's payload when there is one, otherwise the default |
| NotificationGenerator.NotificationEditor.StartDownload | components/NotificationGenerator.tsx:102-119 | an empty queue sets the error and sends nothing; otherwise the spinner starts for that preview, the error clears and the payload is sent |
| NotificationGenerator.NotificationEditor.SettleDownload | components/NotificationGenerator.tsx:145-150 | the spinner stops; a failure shows the message or the fallback |
| NotificationGenerator.IconPrecedence | components/NotificationGenerator.tsx:153 | with no custom icon, "Nenhum" shows no icon and any other built-in icon shows its SVG |
| NotificationGenerator.DefaultBackgroundRoundTrip | components/NotificationGenerator.tsx:37-40 | the default background's data URL splits back into the payload a download sends |
| NotificationGenerator.SentBackgroundIsPreviewed | components/NotificationGenerator.tsx:154 | the background a download sends is the one the preview shows: the default, or an uploaded image with a non-empty data URL |
| JsText.BlankIffAllSpace | components/InputTabs.tsx:82 | `!s.trim()` holds exactly when every character is JavaScript whitespace |
| JsText.CollapseSpacesRun | components/ProductMediaGenerator.tsx:35 | a whitespace run between text becomes one `_` |
| JsText.NatToStringInjective | components/BrandIdentityGenerator.tsx:46 | different numbers render differently |
| JsText.JoinMapInOrder | services/geminiService.ts:303-319 | `map(f).join('')` is the pieces before, the piece of the element, and the pieces after |
| Wrappers.MessageOr | components/BrandIdentityGenerator.tsx:160 | `message \|\| fallback`: the message unless it is empty |

## Left out

- The Gemini SDK and `JSON.parse` are not modelled. Each call and each parse is a function parameter. The schema, the prompt texts of the text requests, the model's own behaviour and the `console` logging are outside the model.
- The reply parts model an inline image as always carrying its data. `part.inlineData` with an empty `data` string is not distinguished.
- `response.candidates[0].content.parts` throwing when there are no candidates is folded into a failed call.
- JSON numbers are integers in the model. Floating-point printing of a numeric title is not modelled.
- Strings are sequences of code points. JavaScript's UTF-16 length and `substring` on surrogate pairs are not modelled.
- `Promise.all` is a sequential map over slot indices. Interleavings of overlapping requests are not modelled: two downloads at once, or a second generation while one is pending.
- Browser I/O is not modelled:
  - the file reader is its data URL, and a read error is a separate handler;
  - the camera, the canvas PNG-to-JPEG conversion, download links and the clipboard;
  - `setTimeout`, which is a separate method;
  - `toLocaleTimeString`, which is the `time` parameter;
  - `btoa`, which is a function parameter;
  - object URLs, which are a field of the file.
- `generateBrandingAssets` is imported by `components/BrandingGenerator.tsx` but defined in no file of the repository. BrandingGenerator therefore receives its outcome as a parameter.
- Presentation is not modelled: JSX, CSS classes, titles and placeholders, and `ResultDisplay`, `ShowcaseGallery` and `CompletionModal`. The prompt texts of the product-image cards in `components/ProductMediaGenerator.tsx` are also left out; the prompt is a parameter.
- `getDeviceFramePrompt`'s `default: return ''` cannot be reached: the frame type is a three-valued datatype, as its TypeScript type is.
- The JPEG file name per preview is written down (`JpgName`), but the download itself is not modelled.
- `StatusBarData` is imported from `types.ts` but not defined there. Its shape, time, signal and battery, is taken from its use.
- `App.tsx` passes props that the child components do not declare. Each component is modelled as its own file declares it. The mismatches have three consequences:
  - `InputTabs` never calls `onSourceImageReady`, so no source image ever reaches the page. `App.SourceImageNeverSet` records this.
  - `BrandingGenerator` is mounted with `initialPrompt`/`sourceImage`, but it declares `prompt`/`setPrompt`. Inside the app its `prompt` is therefore undefined, and `handleGenerate` throws at `prompt.trim()` (components/BrandingGenerator.tsx:46) before changing any state. The `Branding` module models the component with a prompt supplied, a flow the app as wired never runs.
  - `setGeneratedImages` is handed to `ResultDisplay`, which does not declare it (components/ResultDisplay.tsx:4-8). Nothing in the app calls it, so the page's image records change only through the reset in `handleGeneration`. `ProductMediaGenerator` keeps a record of its own. The page has no method for that setter.
- The input panel's camera mode exists in the type but no handler selects it.
- The menu of built-in icons lists all seven entries of `components/NotificationGenerator.tsx`. `SelectDevice` accepts any string, not only the models of the device menu.
- A text-section parser (delimited markers, ordinal stripping, hashtag prefixing, question/answer pairing) is not modelled, because no file of the repository has one.
- Per-slot error messages, padding of short batches and stale-result discarding are not modelled for the same reason.
