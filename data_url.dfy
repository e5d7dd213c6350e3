/** Data URLs as the components build and take them apart: a reader's
    `data:<mime>;base64,<payload>` is split at `;base64,` and its first
    piece again at `:`. */
module DataUrl {
  import opened Wrappers
  import opened JsText

  const Base64Marker: string := ";base64,"

  /** What the split yields; either piece is `undefined` when its separator is missing. */
  datatype DataUrlParts = DataUrlParts(mimeType: Option<string>, base64: Option<string>)

  /** `const [mimeTypePart, base64Part] = dataUrl.split(';base64,');
      const mimeType = mimeTypePart.split(':')[1];` */
  function SplitDataUrl(dataUrl: string): (r: DataUrlParts)
    ensures r.base64.Some? <==> Includes(dataUrl, Base64Marker)
    ensures r.base64.Some? ==> !Includes(r.base64.value, Base64Marker)
    ensures r.mimeType.Some? ==> !Includes(r.mimeType.value, ":")
  {
    var mimeTypePart := SplitFirst(dataUrl, Base64Marker);
    var r := DataUrlParts(SplitSecond(mimeTypePart, ":"), SplitSecond(dataUrl, Base64Marker));
    SplitSecondHasNoSeparator(dataUrl, Base64Marker);
    SplitSecondHasNoSeparator(mimeTypePart, ":");
    r
  }

  /** `` `data:${mimeType};base64,${base64}` `` */
  function MakeDataUrl(mimeType: string, base64: string): string
  {
    "data:" + mimeType + Base64Marker + base64
  }

  /** A base64 payload (alphabet A-Z a-z 0-9 + / =) and a MIME type without
      parameters never contain ';', and a MIME type never contains ':'. */
  predicate PlainMime(mimeType: string)
  {
    forall i :: 0 <= i < |mimeType| ==> mimeType[i] != ';' && mimeType[i] != ':'
  }

  predicate NoSemicolon(s: string)
  {
    forall i :: 0 <= i < |s| ==> s[i] != ';'
  }

  /** Building a data URL and splitting it gives back the MIME type and the payload. */
  lemma {:induction false} SplitMakeDataUrl(mimeType: string, base64: string)
    requires PlainMime(mimeType) && NoSemicolon(base64)
    ensures SplitDataUrl(MakeDataUrl(mimeType, base64)) == DataUrlParts(Some(mimeType), Some(base64))
  {
    var url := MakeDataUrl(mimeType, base64);
    var p := 5 + |mimeType|;
    assert url[..p] == "data:" + mimeType;
    assert url[p..p + 8] == Base64Marker;
    assert url[p + 8..] == base64;
    forall j | 0 <= j < p ensures url[j] != ';' {
      if j >= 5 { assert url[j] == mimeType[j - 5]; }
    }
    forall j | 0 <= j < p ensures !OccursAt(url, Base64Marker, j) {
      assert url[j..j + 8][0] == url[j];
    }
    IndexFromIs(url, Base64Marker, 0, p);
    forall j | p + 8 <= j < |url| ensures url[j] != Base64Marker[0] {
      assert url[j] == base64[j - (p + 8)];
    }
    IndexFromAbsent(url, Base64Marker, p + 8);
    assert SplitFirst(url, Base64Marker) == "data:" + mimeType;
    assert SplitSecond(url, Base64Marker) == Some(base64);
    var head := "data:" + mimeType;
    assert OccursAt(head, ":", 4);
    forall j | 0 <= j < 4 ensures !OccursAt(head, ":", j) {
      assert head[j..j + 1][0] == head[j];
    }
    IndexFromIs(head, ":", 0, 4);
    forall j | 5 <= j < |head| ensures head[j] != ":"[0] {
      assert head[j] == mimeType[j - 5];
    }
    IndexFromAbsent(head, ":", 5);
    assert head[5..] == mimeType;
  }
}
