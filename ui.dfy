/** Pieces the React components share: the `'loading'` placeholder in a
    slot list, how a slot is drawn, download names, and reference images
    read from data URLs. */
module Ui {
  import opened Wrappers
  import opened JsText
  import opened Types
  import opened DataUrl

  /** A slot of an asset list is `string | null`; the placeholder is the string `'loading'`. */
  type Slot = Option<string>

  const LoadingMarker: string := "loading"

  /** `Array(n).fill('loading')` */
  function LoadingSlots(n: nat): (r: seq<Slot>)
    ensures |r| == n
  {
    seq(n, _ => Some(LoadingMarker))
  }

  predicate AllLoading(slots: seq<Slot>)
  {
    forall i :: 0 <= i < |slots| ==> slots[i] == Some(LoadingMarker)
  }

  lemma LoadingSlotsAreLoading(n: nat)
    ensures AllLoading(LoadingSlots(n))
  {
  }

  /** What a slot shows: a spinner, the image, or "Falha". */
  datatype SlotView = Spinner | Picture(data: string) | Failed

  /** `asset === 'loading' ? <Loader/> : asset ? <img/> : "Falha"` */
  function ViewOf(slot: Slot): (v: SlotView)
    ensures v == Spinner <==> slot == Some(LoadingMarker)
    ensures v.Picture? <==> Truthy(slot) && slot != Some(LoadingMarker)
    ensures v.Picture? ==> v.data == slot.value
    ensures v == Failed <==> !Truthy(slot)
  {
    if slot == Some(LoadingMarker) then Spinner
    else if Truthy(slot) then Picture(slot.value)
    else Failed
  }

  /** `AssetGrid`: nothing for an empty list, otherwise one view per slot. */
  function AssetGrid(assets: seq<Slot>): (r: Option<seq<SlotView>>)
    ensures r.None? <==> assets == []
    ensures r.Some? ==> |r.value| == |assets|
  {
    if assets == [] then None else Some(seq(|assets|, i requires 0 <= i < |assets| => ViewOf(assets[i])))
  }

  /** Slot i of a grid shows a picture exactly when that slot holds a
      non-empty string other than the placeholder, and a list of
      placeholders shows only spinners. */
  lemma AssetGridViews(assets: seq<Slot>, i: nat)
    requires i < |assets|
    ensures AssetGrid(assets).Some?
    ensures AssetGrid(assets).value[i].Picture? <==> Truthy(assets[i]) && assets[i] != Some(LoadingMarker)
    ensures AllLoading(assets) ==> AssetGrid(assets).value[i] == Spinner
  {
  }

  /** `s.substring(0, n)` */
  function Head(s: string, n: nat): (r: string)
    ensures |r| == if |s| < n then |s| else n
    ensures r <= s
  {
    if |s| < n then s else s[..n]
  }

  /** `` `${kind}_${prompt.substring(0,10)}_${index + 1}.png` `` */
  function AssetFileName(kind: string, prompt: string, index: nat): string
  {
    kind + "_" + Head(prompt, 10) + "_" + NatToString(index + 1) + ".png"
  }

  /** Slots of one grid download under different names, each ending in `.png`. */
  lemma AssetFileNamesDistinct(kind: string, prompt: string, i: nat, j: nat)
    ensures AssetFileName(kind, prompt, i)[|AssetFileName(kind, prompt, i)| - 4..] == ".png"
    ensures i != j ==> AssetFileName(kind, prompt, i) != AssetFileName(kind, prompt, j)
  {
    var a := kind + "_" + Head(prompt, 10) + "_";
    var x, y := NatToString(i + 1), NatToString(j + 1);
    var ni, nj := AssetFileName(kind, prompt, i), AssetFileName(kind, prompt, j);
    assert ni == a + x + ".png" && nj == a + y + ".png";
    if ni == nj {
      assert |x| == |y|;
      assert ni[|a|..|a| + |x|] == x;
      assert nj[|a|..|a| + |y|] == y;
      NatToStringInjective(i + 1, j + 1);
    }
  }

  /** An image read from a data URL: the pieces of the split and the URL itself. */
  function ReferenceFromDataUrl(dataUrl: string): (r: ReferenceImage)
    ensures r.dataUrl == dataUrl
    ensures r.base64.Some? <==> Includes(dataUrl, Base64Marker)
  {
    var parts := SplitDataUrl(dataUrl);
    ReferenceImage(parts.base64, parts.mimeType, dataUrl)
  }

  /** A reader's data URL gives back the file's MIME type and payload. */
  lemma ReferenceFromDataUrlRoundTrip(mimeType: string, base64: string)
    requires PlainMime(mimeType) && NoSemicolon(base64)
    ensures ReferenceFromDataUrl(MakeDataUrl(mimeType, base64)).Payload() == InlineData(Some(base64), Some(mimeType))
  {
    SplitMakeDataUrl(mimeType, base64);
  }
}
