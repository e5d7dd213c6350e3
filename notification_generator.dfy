/** The notification-screen editor: a queue of notifications built from an
    editor form, a choice of device frame, app icon and background, three
    simulator previews, and the download that asks the service for a
    rendered screen. */
module NotificationGenerator {
  import opened Wrappers
  import opened JsText
  import opened Types
  import opened DataUrl
  import opened Ui
  import opened AiAssetModal
  import opened NotificationService

  // ---------------------------------------------------------------------
  // Defaults

  const DefaultStatusBar: StatusBar := StatusBar("14:27", "wifi", "86%")
  const DefaultValue: string := "R$ 1.297,00"
  const DefaultClient: string := "João da Silva"
  const DefaultDevice: string := DeviceModel + DeviceFinish
  const DeviceModel: string := "iPhone 15 Pro"
  const DeviceFinish: string := " (Titânio Natural)"
  const PixMethod: string := "pix"

  /** `eventConfigs[e].accentColor` */
  function AccentColor(e: EventType): string
  {
    match e
    case VendaAprovada => "#22c55e"
    case PixGerado => "#3b82f6"
    case PedidoEnviado => "#f97316"
    case VendaCancelada => "#ef4444"
    case PixExpirado => "#6b7280"
  }

  /** `eventConfigs[e].defaultProduct` */
  function DefaultProduct(e: EventType): string
  {
    match e
    case VendaAprovada => "Curso de Marketing Digital"
    case PixGerado => "E-book 'Vendas Online'"
    case PedidoEnviado => "Kit de Ferramentas Essenciais"
    case VendaCancelada => "Mentoria Individual"
    case PixExpirado => "Template Exclusivo"
  }

  /** Each event kind has its own colour, so a queued notification's colour
      tells its kind. */
  lemma AccentColorsDistinct(e1: EventType, e2: EventType)
    ensures AccentColor(e1) == AccentColor(e2) ==> e1 == e2
  {
    if e1 != e2 {
      assert AccentColor(e1)[|AccentColor(e1)| - 1] != AccentColor(e2)[|AccentColor(e2)| - 1] ||
             AccentColor(e1)[|AccentColor(e1)| - 2] != AccentColor(e2)[|AccentColor(e2)| - 2];
    }
  }

  // The built-in app icons: one stroke colour and one drawing each, inside
  // the same SVG frame.
  const SvgOpen: string := "<svg xmlns=\"http://www.w3.org/2000/svg\" viewBox=\"0 0 24 24\" "
  const SvgStroke: string := "fill=\"none\" stroke=\""
  const SvgStyle: string := "\" stroke-width=\"2\" stroke-linecap=\"round\" stroke-linejoin=\"round\">"
  const SvgClose: string := "</svg>"
  const CartWheels: string := "<circle cx=\"9\" cy=\"21\" r=\"1\"/><circle cx=\"20\" cy=\"21\" r=\"1\"/>"
  const CartBody: string := "<path d=\"M1 1h4l2.68 13.39a2 2 0 002 1.61h9.72a2 2 0 002-1.61L23 6H6\"/>"
  const BellBody: string := "<path d=\"M18 8A6 6 0 006 8c0 7-3 9-3 9h18s-3-2-3-9"
  const BellClapper: string := "M13.73 21a2 2 0 01-3.46 0\"/>"

  /** The entries of the app-icon selector. */
  datatype BuiltInIcon = NoIcon | ArrowUp | ArrowDown | Checkmark | Cross | Cart | Bell
  {
    function Stroke(): string
    {
      match this
      case ArrowUp => "#22c55e"
      case Checkmark => "#22c55e"
      case ArrowDown => "#ef4444"
      case Cross => "#ef4444"
      case _ => "currentColor"
    }

    function Drawing(): string
    {
      match this
      case NoIcon => ""
      case ArrowUp => "<path d=\"M12 5v14m-7-7l7-7 7 7\"/>"
      case ArrowDown => "<path d=\"M12 19V5m-7 7l7 7 7-7\"/>"
      case Checkmark => "<path d=\"M20 6L9 17l-5-5\"/>"
      case Cross => "<path d=\"M18 6L6 18M6 6l12 12\"/>"
      case Cart => CartWheels + CartBody
      case Bell => BellBody + BellClapper
    }

    /** The option's value: empty for "Nenhum", otherwise the icon's SVG. */
    function Svg(): (r: string)
      ensures r == "" <==> this == NoIcon
    {
      if this == NoIcon then "" else SvgOpen + SvgStroke + Stroke() + SvgStyle + Drawing() + SvgClose
    }
  }

  const DefaultBgBase64: string := Bg0 + Bg1 + Bg2 + Bg3
  const Bg0: string := "iVBORw0KGgoAAAANSUhEUgAA"
  const Bg1: string := "AAEAAAABCAYAAAAfFcSJAAAA"
  const Bg2: string := "DUlEQVR42mN8/+F9PQAI8wNP"
  const Bg3: string := "vd7POQAAAABJRU5ErkJggg=="
  const DefaultBgMime: string := "image/png"
  const DefaultBg: InlineData := InlineData(Some(DefaultBgBase64), Some(DefaultBgMime))

  const EmptyQueueMessage: string := "Adicione pelo menos uma notificação à fila antes de baixar."
  const DownloadFallback: string := "Ocorreu um erro desconhecido."
  const SvgDataPrefix: string := "data:image/svg+xml;base64,"

  /** The notification the editor form adds to the queue. */
  function Queued(eventType: EventType, value: string, product: string, time: string, client: string): (n: NotificationData)
    ensures WellQueued(n) && n.eventType == eventType
  {
    NotificationData(eventType, value, product, time, client, PixMethod, "", AccentColor(eventType))
  }

  /** What the form always fills in by itself: Pix, no payment logo, and the
      colour of the event kind. */
  predicate WellQueued(n: NotificationData)
  {
    n.paymentMethod == PixMethod && n.paymentLogoSvg == "" && n.accentColor == AccentColor(n.eventType)
  }

  // ---------------------------------------------------------------------
  // Queue removal

  /** `s.filter((_, idx) => idx !== i)`, scanning from index `idx`. */
  function KeepOthers<T>(s: seq<T>, i: nat, idx: nat): seq<T>
    decreases |s|
  {
    if s == [] then []
    else (if idx != i then [s[0]] else []) + KeepOthers(s[1..], i, idx + 1)
  }

  function WithoutIndex<T>(s: seq<T>, i: nat): seq<T>
  {
    KeepOthers(s, i, 0)
  }

  lemma {:induction false} KeepOthersCuts<T>(s: seq<T>, i: nat, idx: nat)
    ensures idx <= i < idx + |s| ==> KeepOthers(s, i, idx) == s[..i - idx] + s[i - idx + 1..]
    ensures !(idx <= i < idx + |s|) ==> KeepOthers(s, i, idx) == s
    decreases |s|
  {
    if s != [] {
      KeepOthersCuts(s[1..], i, idx + 1);
      if idx == i {
        assert KeepOthers(s[1..], i, idx + 1) == s[1..];
      } else if idx < i < idx + |s| {
        assert s[1..][..i - idx - 1] == s[1..i - idx];
        assert s[1..][i - idx - 1 + 1..] == s[i - idx + 1..];
        assert [s[0]] + s[1..i - idx] == s[..i - idx];
      } else {
        assert [s[0]] + s[1..] == s;
      }
    }
  }

  /** Removing the row at `i` takes out exactly that notification and keeps
      the others in order; an index past the end changes nothing. */
  lemma WithoutIndexCuts<T>(s: seq<T>, i: nat)
    ensures i < |s| ==> WithoutIndex(s, i) == s[..i] + s[i + 1..]
    ensures i >= |s| ==> WithoutIndex(s, i) == s
  {
    KeepOthersCuts(s, i, 0);
  }

  // ---------------------------------------------------------------------
  // Previews

  /** `notifications.slice(-4)`: the screen shows the four newest. */
  function Newest(ns: seq<NotificationData>): (r: seq<NotificationData>)
    ensures |r| == if |ns| < 4 then |ns| else 4
    ensures ns == ns[..|ns| - |r|] + r
  {
    if |ns| <= 4 then ns else ns[|ns| - 4..]
  }

  /** Adding a notification puts it last on the screen. */
  lemma NewestAfterAdd(ns: seq<NotificationData>, n: NotificationData)
    ensures Newest(ns + [n])[|Newest(ns + [n])| - 1] == n
    ensures |ns| >= 4 ==> Newest(ns + [n]) == Newest(ns)[1..] + [n]
  {
  }

  /** The cut-outs a framed preview draws for its device. */
  datatype DeviceStyles = DeviceStyles(notch: bool, dynamicIsland: bool, punchHole: bool)

  /** `deviceSpecificStyles`; only the framed preview is given a device. */
  function StylesFor(frameType: FrameType, device: Option<string>): (r: DeviceStyles)
    ensures frameType != Framed || device.None? ==> r == DeviceStyles(false, false, false)
    ensures frameType == Framed && device.Some? ==>
              && (r.notch <==> Includes(device.value, "iPhone") && !Includes(device.value, "SE"))
              && (r.dynamicIsland <==> Includes(device.value, "iPhone 15"))
              && (r.punchHole <==> Includes(device.value, "Samsung") || Includes(device.value, "Google"))
  {
    if frameType == Framed && device.Some? then
      var d := device.value;
      DeviceStyles(Includes(d, "iPhone") && !Includes(d, "SE"),
                   Includes(d, "iPhone 15"),
                   Includes(d, "Samsung") || Includes(d, "Google"))
    else DeviceStyles(false, false, false)
  }

  /** The device menu names each model after its brand: every Samsung and
      Google model is drawn with a punch hole, every iPhone 15 with a
      dynamic island, and the iPhone SE without a notch. */
  lemma MenuDeviceStyles(model: string)
    ensures StylesFor(Framed, Some("Samsung " + model)).punchHole
    ensures StylesFor(Framed, Some("Google " + model)).punchHole
    ensures StylesFor(Framed, Some("iPhone 15" + model)).dynamicIsland
    ensures StylesFor(Framed, Some("iPhone 15" + model)).notch <==> !Includes("iPhone 15" + model, "SE")
    ensures !StylesFor(Framed, Some("iPhone SE" + model)).notch
  {
    var samsung, google := "Samsung " + model, "Google " + model;
    assert samsung[..7] == "Samsung";
    IncludesAt(samsung, "Samsung", 0);
    assert google[..6] == "Google";
    IncludesAt(google, "Google", 0);
    var i15, se := "iPhone 15" + model, "iPhone SE" + model;
    assert i15[..9] == "iPhone 15" && i15[..6] == "iPhone";
    IncludesAt(i15, "iPhone 15", 0);
    IncludesAt(i15, "iPhone", 0);
    assert se[7..9] == "SE";
    IncludesAt(se, "SE", 7);
  }

  /** `c` appears nowhere in `s`. */
  predicate Lacks(s: string, c: char)
  {
    forall j :: 0 <= j < |s| ==> s[j] != c
  }

  lemma LacksAppend(a: string, b: string, c: char)
    requires Lacks(a, c) && Lacks(b, c)
    ensures Lacks(a + b, c)
  {
  }

  lemma DefaultDeviceLacks()
    ensures Lacks(DefaultDevice, 'S') && Lacks(DefaultDevice, 'G')
  {
    assert Lacks(DeviceModel, 'S') && Lacks(DeviceModel, 'G');
    assert Lacks(DeviceFinish, 'S') && Lacks(DeviceFinish, 'G');
    LacksAppend(DeviceModel, DeviceFinish, 'S');
    LacksAppend(DeviceModel, DeviceFinish, 'G');
  }

  lemma DefaultDeviceIsIPhone15()
    ensures Includes(DefaultDevice, "iPhone") && Includes(DefaultDevice, "iPhone 15")
  {
    var d := DefaultDevice;
    assert d[..6] == DeviceModel[..6] == "iPhone";
    assert d[..9] == DeviceModel[..9] == "iPhone 15";
    IndexFromIs(d, "iPhone", 0, 0);
    IndexFromIs(d, "iPhone 15", 0, 0);
  }

  /** The default device, an iPhone 15 Pro, is drawn with a notch and a
      dynamic island and without a punch hole. */
  lemma DefaultDeviceStyles()
    ensures StylesFor(Framed, Some(DefaultDevice)) == DeviceStyles(true, true, false)
  {
    DefaultDeviceIsIPhone15();
    DefaultDeviceLacks();
    IndexFromAbsent(DefaultDevice, "SE", 0);
    IndexFromAbsent(DefaultDevice, "Samsung", 0);
    IndexFromAbsent(DefaultDevice, "Google", 0);
  }

  /** A JPEG file name per preview: `notificacao_${type}.jpg`. */
  function JpgName(frameType: FrameType): string
  {
    "notificacao_" + (match frameType
                      case Framed => "framed"
                      case Frameless => "frameless"
                      case Square => "square") + ".jpg"
  }

  // ---------------------------------------------------------------------
  // The component

  class NotificationEditor {
    var notifications: seq<NotificationData>
    var eventType: EventType
    var value: string
    var product: string
    var client: string
    var deviceFrame: string
    const statusBar: StatusBar
    var customAppIcon: Option<ReferenceImage>
    var defaultAppIcon: string
    var customBg: Option<ReferenceImage>
    var isAiModalOpen: bool
    var assetTypeToGenerate: Option<AssetKind>
    var downloadingSimulator: Option<FrameType>
    var downloadError: Option<string>

    /** Every queued notification was made by the form, and the modal is only
        ever asked for app icons. */
    predicate Valid()
      reads this
    {
      (forall i :: 0 <= i < |notifications| ==> WellQueued(notifications[i])) &&
      assetTypeToGenerate != Some(CustomBackground)
    }

    constructor()
      ensures Valid() && notifications == [] && eventType == VendaAprovada
      ensures value == DefaultValue && product == DefaultProduct(VendaAprovada) && client == DefaultClient
      ensures deviceFrame == DefaultDevice && statusBar == DefaultStatusBar
      ensures customAppIcon.None? && defaultAppIcon == ArrowUp.Svg() && customBg.None?
      ensures !isAiModalOpen && assetTypeToGenerate.None? && downloadingSimulator.None? && downloadError.None?
    {
      notifications := [];
      eventType := VendaAprovada;
      value := DefaultValue;
      product := DefaultProduct(VendaAprovada);
      client := DefaultClient;
      deviceFrame := DefaultDevice;
      statusBar := DefaultStatusBar;
      customAppIcon := None;
      defaultAppIcon := ArrowUp.Svg();
      customBg := None;
      isAiModalOpen := false;
      assetTypeToGenerate := None;
      downloadingSimulator := None;
      downloadError := None;
    }

    /** Choosing an event kind. The effect that resets the product to the
        kind's default runs only when the kind actually changes. */
    method SetEventType(e: EventType)
      requires Valid()
      modifies this
      ensures Valid() && eventType == e
      ensures product == if e == old(eventType) then old(product) else DefaultProduct(e)
      ensures notifications == old(notifications) && value == old(value) && client == old(client)
    {
      if e != eventType {
        eventType := e;
        product := DefaultProduct(e);
      }
    }

    /** Typing in the form's value, product and client fields. */
    method EditForm(newValue: string, newProduct: string, newClient: string)
      requires Valid()
      modifies this
      ensures Valid() && value == newValue && product == newProduct && client == newClient
      ensures notifications == old(notifications) && eventType == old(eventType)
    {
      value, product, client := newValue, newProduct, newClient;
    }

    /** `handleAddNotification`; `time` is the clock reading formatted as
        hours and minutes. */
    method AddNotification(time: string)
      requires Valid()
      modifies this
      ensures Valid()
      ensures notifications == old(notifications) + [Queued(eventType, value, product, time, client)]
      ensures eventType == old(eventType) && value == old(value) && product == old(product) && client == old(client)
    {
      notifications := notifications + [Queued(eventType, value, product, time, client)];
    }

    /** The "×" of row `i`. */
    method RemoveAt(i: nat)
      requires Valid()
      modifies this
      ensures Valid()
      ensures i < |old(notifications)| ==> notifications == old(notifications)[..i] + old(notifications)[i + 1..]
      ensures i >= |old(notifications)| ==> notifications == old(notifications)
    {
      WithoutIndexCuts(notifications, i);
      notifications := WithoutIndex(notifications, i);
    }

    /** "Limpar" */
    method ClearQueue()
      requires Valid()
      modifies this
      ensures Valid() && notifications == []
      ensures customAppIcon == old(customAppIcon) && customBg == old(customBg) && deviceFrame == old(deviceFrame)
    {
      notifications := [];
    }

    method SelectDevice(device: string)
      requires Valid()
      modifies this
      ensures Valid() && deviceFrame == device && notifications == old(notifications)
    {
      deviceFrame := device;
    }

    /** Picking a built-in icon drops any custom one. */
    method SelectBuiltInIcon(icon: BuiltInIcon)
      requires Valid()
      modifies this
      ensures Valid() && defaultAppIcon == icon.Svg() && customAppIcon.None?
      ensures customBg == old(customBg) && notifications == old(notifications)
    {
      defaultAppIcon := icon.Svg();
      customAppIcon := None;
    }

    /** The "IA" button next to the icon selector. */
    method OpenAiModal()
      requires Valid()
      modifies this
      ensures Valid() && isAiModalOpen && assetTypeToGenerate == Some(AppIcon)
      ensures Renders(isAiModalOpen, assetTypeToGenerate)
      ensures customAppIcon == old(customAppIcon) && defaultAppIcon == old(defaultAppIcon)
    {
      assetTypeToGenerate := Some(AppIcon);
      isAiModalOpen := true;
    }

    method CloseAiModal()
      requires Valid()
      modifies this
      ensures Valid() && !isAiModalOpen && assetTypeToGenerate == old(assetTypeToGenerate)
      ensures customAppIcon == old(customAppIcon) && defaultAppIcon == old(defaultAppIcon)
    {
      isAiModalOpen := false;
    }

    /** `handleAiAssetSelect`: an app icon replaces the built-in one; the
        modal closes either way. */
    method AiAssetSelect(data: ReferenceImage)
      requires Valid()
      modifies this
      ensures Valid() && !isAiModalOpen
      ensures old(assetTypeToGenerate) == Some(AppIcon) ==> customAppIcon == Some(data) && defaultAppIcon == ""
      ensures old(assetTypeToGenerate) != Some(AppIcon) ==>
                customAppIcon == old(customAppIcon) && defaultAppIcon == old(defaultAppIcon)
      ensures customBg == old(customBg) && notifications == old(notifications)
    {
      if assetTypeToGenerate == Some(AppIcon) {
        customAppIcon := Some(data);
        defaultAppIcon := "";
      }
      isAiModalOpen := false;
    }

    /** The upload button for the icon: it also marks the asset kind, then
        the file reader's data URL becomes the custom icon. */
    method UploadAppIcon(dataUrl: string)
      requires Valid()
      modifies this
      ensures Valid() && assetTypeToGenerate == Some(AppIcon)
      ensures customAppIcon == Some(ReferenceFromDataUrl(dataUrl)) && defaultAppIcon == old(defaultAppIcon)
      ensures customBg == old(customBg) && notifications == old(notifications)
    {
      assetTypeToGenerate := Some(AppIcon);
      customAppIcon := Some(ReferenceFromDataUrl(dataUrl));
    }

    method UploadBackground(dataUrl: string)
      requires Valid()
      modifies this
      ensures Valid() && customBg == Some(ReferenceFromDataUrl(dataUrl))
      ensures customAppIcon == old(customAppIcon) && defaultAppIcon == old(defaultAppIcon)
      ensures notifications == old(notifications)
    {
      customBg := Some(ReferenceFromDataUrl(dataUrl));
    }

    /** `currentAppIcon`; `btoa` is the browser's base64 encoder. */
    function CurrentAppIcon(btoa: string -> string): (r: Option<string>)
      reads this
      ensures customAppIcon.Some? && customAppIcon.value.dataUrl != "" ==> r == Some(customAppIcon.value.dataUrl)
      ensures r.None? <==> (customAppIcon.None? || customAppIcon.value.dataUrl == "") && defaultAppIcon == ""
    {
      if customAppIcon.Some? && customAppIcon.value.dataUrl != "" then Some(customAppIcon.value.dataUrl)
      else if defaultAppIcon != "" then Some(SvgDataPrefix + btoa(defaultAppIcon))
      else None
    }

    /** `currentBgUrl` */
    function CurrentBgUrl(): (r: string)
      reads this
      ensures customBg.Some? && customBg.value.dataUrl != "" ==> r == customBg.value.dataUrl
      ensures customBg.None? ==> r == MakeDataUrl(DefaultBgMime, DefaultBgBase64)
    {
      if customBg.Some? && customBg.value.dataUrl != "" then customBg.value.dataUrl
      else "data:image/png;base64," + DefaultBgBase64
    }

    /** The screen payload a download sends: the custom background when
        there is one, otherwise the one-pixel default, and the custom icon
        only (a built-in SVG icon is not sent). */
    function Payload(frameType: FrameType): (p: NotificationPayload)
      reads this
      ensures p.notifications == notifications && p.frameType == frameType && p.deviceFrame == deviceFrame
      ensures p.statusBar == statusBar
      ensures p.appIcon.Some? <==> customAppIcon.Some?
      ensures customAppIcon.Some? ==> p.appIcon == Some(customAppIcon.value.Payload())
      ensures customBg.Some? ==> p.background == customBg.value.Payload()
      ensures customBg.None? ==> p.background == DefaultBg
    {
      NotificationPayload(
        notifications, statusBar,
        if customAppIcon.Some? then Some(customAppIcon.value.Payload()) else None,
        if customBg.Some? then customBg.value.Payload() else DefaultBg,
        deviceFrame, frameType)
    }

    /** `handleDownloadSimulator` up to the service call. */
    method StartDownload(frameType: FrameType) returns (payload: Option<NotificationPayload>)
      requires Valid()
      modifies this
      ensures Valid() && notifications == old(notifications) && customAppIcon == old(customAppIcon) && customBg == old(customBg)
      ensures payload.None? <==> notifications == []
      ensures payload.None? ==> downloadError == Some(EmptyQueueMessage) && downloadingSimulator == old(downloadingSimulator)
      ensures payload.Some? ==>
                payload.value == Payload(frameType) && downloadingSimulator == Some(frameType) && downloadError.None?
    {
      if |notifications| == 0 {
        downloadError := Some(EmptyQueueMessage);
        return None;
      }
      downloadingSimulator := Some(frameType);
      downloadError := None;
      var appIcon := if customAppIcon.Some? then Some(customAppIcon.value.Payload()) else None;
      var background := if customBg.Some? then customBg.value.Payload() else DefaultBg;
      payload := Some(NotificationPayload(notifications, statusBar, appIcon, background, deviceFrame, frameType));
    }

    /** The timer that clears the empty-queue message three seconds later. */
    method ExpireDownloadError()
      requires Valid()
      modifies this
      ensures Valid() && downloadError.None? && downloadingSimulator == old(downloadingSimulator)
      ensures notifications == old(notifications)
    {
      downloadError := None;
    }

    /** `handleDownloadSimulator` after the call: the image is handed to the
        browser on success (not modelled), the message or the fallback is
        shown on failure, and the spinner always stops. */
    method SettleDownload(outcome: Outcome<string>)
      requires Valid()
      modifies this
      ensures Valid() && downloadingSimulator.None? && notifications == old(notifications)
      ensures outcome.Ok? ==> downloadError == old(downloadError)
      ensures outcome.Fail? ==> downloadError == Some(MessageOr(outcome.message, DownloadFallback))
    {
      if outcome.Fail? {
        downloadError := Some(MessageOr(outcome.message, DownloadFallback));
      }
      downloadingSimulator := None;
    }
  }

  /** The built-in icon is shown exactly until a custom icon arrives; "Nenhum"
      with no custom icon shows no icon at all. */
  lemma IconPrecedence(g: NotificationEditor, btoa: string -> string)
    ensures g.customAppIcon.None? && g.defaultAppIcon == NoIcon.Svg() ==> g.CurrentAppIcon(btoa).None?
    ensures g.customAppIcon.None? && g.defaultAppIcon != "" ==>
              g.CurrentAppIcon(btoa) == Some(SvgDataPrefix + btoa(g.defaultAppIcon))
  {
  }

  /** The default background's data URL splits back into the payload that a
      download sends in its place. */
  lemma DefaultBackgroundRoundTrip()
    ensures ReferenceFromDataUrl(MakeDataUrl(DefaultBgMime, DefaultBgBase64)).Payload() == DefaultBg
  {
    assert PlainMime(DefaultBgMime) by {
      assert forall i :: 0 <= i < |DefaultBgMime| ==> DefaultBgMime[i] in {'i', 'm', 'a', 'g', 'e', '/', 'p', 'n'};
    }
    assert NoSemicolon(DefaultBgBase64) by {
      assert Lacks(Bg0, ';') && Lacks(Bg1, ';') && Lacks(Bg2, ';') && Lacks(Bg3, ';');
      LacksAppend(Bg0, Bg1, ';');
      LacksAppend(Bg0 + Bg1, Bg2, ';');
      LacksAppend(Bg0 + Bg1 + Bg2, Bg3, ';');
    }
    ReferenceFromDataUrlRoundTrip(DefaultBgMime, DefaultBgBase64);
  }

  /** The background a download sends is the one the preview shows: the
      default image, or an uploaded image whose data URL is not empty. */
  lemma SentBackgroundIsPreviewed(e: NotificationEditor, frameType: FrameType)
    ensures e.customBg.None? ==>
              ReferenceFromDataUrl(e.CurrentBgUrl()).Payload() == e.Payload(frameType).background
    ensures e.customBg.Some? && e.customBg.value.dataUrl != "" &&
            e.customBg.value == ReferenceFromDataUrl(e.customBg.value.dataUrl) ==>
              ReferenceFromDataUrl(e.CurrentBgUrl()).Payload() == e.Payload(frameType).background
  {
    if e.customBg.None? {
      DefaultBackgroundRoundTrip();
    }
  }
}
