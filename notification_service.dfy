/** The notification-screen request: the text prompt built from the queued
    notifications and the status bar, the device-frame sentence, the part
    list sent to the edit model, and the call that returns one image. */
module NotificationService {
  import opened Wrappers
  import opened JsText
  import opened Types
  import opened Assets

  /** The three simulator previews a screen can be generated for. */
  datatype FrameType = Framed | Frameless | Square

  /** What the notification screen is generated from. */
  datatype NotificationPayload = NotificationPayload(
    notifications: seq<NotificationData>,
    statusBar: StatusBar,
    appIcon: Option<InlineData>,
    background: InlineData,
    deviceFrame: string,
    frameType: FrameType)

  const FramedPrefix: string := "A tela deve ser renderizada dentro de um mockup fotorrealista de um '"
  const FramedSuffix: string := "'."
  const FramelessPrompt: string := "A imagem deve ser apenas a tela, com cantos levemente arredondados, como um print de tela."
  const SquarePrompt: string := "A imagem deve ser apenas a tela, com cantos retos (90 graus), sem nenhuma moldura."

  /** `getDeviceFramePrompt` */
  function DeviceFramePrompt(frameType: FrameType, deviceFrame: string): string
  {
    match frameType
    case Framed => FramedPrefix + deviceFrame + FramedSuffix
    case Frameless => FramelessPrompt
    case Square => SquarePrompt
  }

  /** Only the framed sentence depends on the device, and it names the device
      so that two different devices never give the same sentence; the three
      kinds of sentence are told apart by their text. */
  lemma DeviceFramePromptFacts(frameType: FrameType, d1: string, d2: string)
    ensures frameType != Framed ==> DeviceFramePrompt(frameType, d1) == DeviceFramePrompt(frameType, d2)
    ensures frameType == Framed && DeviceFramePrompt(frameType, d1) == DeviceFramePrompt(frameType, d2) ==> d1 == d2
    ensures DeviceFramePrompt(Framed, d1) != DeviceFramePrompt(Frameless, d2)
    ensures DeviceFramePrompt(Framed, d1) != DeviceFramePrompt(Square, d2)
    ensures DeviceFramePrompt(Frameless, d1) != DeviceFramePrompt(Square, d2)
  {
    var p1 := DeviceFramePrompt(Framed, d1);
    var p2 := DeviceFramePrompt(Framed, d2);
    if p1 == p2 {
      assert |d1| == |d2|;
      assert p1[|FramedPrefix|..|FramedPrefix| + |d1|] == d1;
      assert p2[|FramedPrefix|..|FramedPrefix| + |d2|] == d2;
    }
    assert p1[|p1| - 2] == '\'';
    assert FramelessPrompt[|FramelessPrompt| - 2] == 'a' && SquarePrompt[|SquarePrompt| - 2] == 'a';
    assert |FramelessPrompt| == 90 && |SquarePrompt| == 82;
  }

  // The notification block template, in pieces of at most one source line.
  const Block0: string := "\n        <div class=\"notification\" style=\"background-color: rgba(40, "
  const Block1: string := "40, 40, 0.8); backdrop-filter: blur(10px); border-radius: 20px; "
  const Block2: string := "padding: 15px; margin-bottom: 10px; "
  const Block3: string := "border: 1px solid rgba(80, 80, 80, 0.5);\">\n"
  const Block4: string := "            <div class=\"header\" style=\"display: flex; "
  const Block5: string := "justify-content: space-between; align-items: center; "
  const Block6: string := "margin-bottom: 8px;\">\n"
  const Block7: string := "                <div style=\"display: flex; align-items: center;\">\n"
  const Block8: string := "                    <span style=\"font-size: 15px; font-weight: 600; "
  const Block9: string := "color: white; margin-left: 8px;\">Minha Loja</span>\n"
  const Block10: string := "                </div>\n"
  const Block11: string := "                <span style=\"font-size: 15px; color: #BBB;\">"
  const Block12: string := "</span>\n            </div>\n"
  const Block13: string := "            <div class=\"content\" style=\"display: flex; "
  const Block14: string := "justify-content: space-between; align-items: flex-start; "
  const Block15: string := "margin-bottom: 8px;\">\n"
  const Block16: string := "                <span style=\"font-size: 17px; font-weight: bold; "
  const Block17: string := "color: white;\">"
  const Block18: string := "</span>\n"
  const Block19: string := "                <span style=\"font-size: 17px; font-weight: bold; color: "
  const Block20: string := ";\">"
  const Block21: string := "</span>\n            </div>\n"
  const Block22: string := "            <div class=\"details\" style=\"font-size: 15px; color: #DDD;\">\n"
  const Block23: string := "                Produto: "
  const Block24: string := " | Cliente: "
  const Block25: string := "\n            </div>\n        </div>\n    "

  /** The HTML block of one notification: time, event label, value in the
      accent colour, product and client. */
  function NotificationBlock(n: NotificationData): string
  {
    Block0 + Block1 + Block2 + Block3 + Block4 + Block5 + Block6 + Block7 + Block8 + Block9 + Block10 +
    Block11 + n.time + Block12 + Block13 + Block14 + Block15 + Block16 + Block17 + n.eventType.Label() +
    Block18 + Block19 + n.accentColor + Block20 + n.value + Block21 + Block22 + Block23 + n.product +
    Block24 + n.client + Block25
  }

  /** `notifications.map(n => ...).join('')` */
  function NotificationsHtml(ns: seq<NotificationData>): string
  {
    JoinMap(ns, NotificationBlock)
  }

  /** One block per notification, in queue order: the block of a notification
      sits between the blocks of those queued before it and those after it. */
  lemma NotificationsHtmlInOrder(before: seq<NotificationData>, n: NotificationData,
                                 after: seq<NotificationData>)
    ensures NotificationsHtml(before + [n] + after) ==
            NotificationsHtml(before) + NotificationBlock(n) + NotificationsHtml(after)
  {
    JoinMapInOrder(before, n, after, NotificationBlock);
  }

  // The base prompt template, in pieces of at most one source line.
  const Base0: string := "\n        Gere uma imagem fotorrealista de uma tela de celular "
  const Base1: string := "(proporção 9:19.5).\n        A barra de status no topo deve mostrar \""
  const Base2: string := "\" à esquerda, e ícones de "
  const Base3: string := " e bateria com "
  const Base4: string := " à direita.\n"
  const Base5: string := "        Abaixo da barra de status, renderize as seguintes notificações, "
  const Base6: string := "usando este HTML como guia para o conteúdo e estilo. O app icon deve "
  const Base7: string := "ser exibido à esquerda do nome da loja no cabeçalho de cada "
  const Base8: string := "notificação.\n        "
  const Base9: string := "\n    "

  /** The instructions before the notification HTML: the status bar's time,
      signal and battery. */
  function BaseHead(statusBar: StatusBar): string
  {
    Base0 + Base1 + statusBar.time + Base2 + statusBar.signal + Base3 + statusBar.battery +
    Base4 + Base5 + Base6 + Base7 + Base8
  }

  /** `buildBasePrompt` */
  function BuildBasePrompt(ns: seq<NotificationData>, statusBar: StatusBar): string
  {
    BaseHead(statusBar) + NotificationsHtml(ns) + Base9
  }

  const PromptIndent: string := "\n            "
  const PromptClose: string := "\n        "

  /** The text of the first part: base prompt, then the device-frame sentence. */
  function PromptText(payload: NotificationPayload): string
  {
    PromptIndent + BuildBasePrompt(payload.notifications, payload.statusBar) +
    PromptIndent + DeviceFramePrompt(payload.frameType, payload.deviceFrame) + PromptClose
  }

  const AppIconLabel: string := "Use esta imagem como o ícone do aplicativo:"

  /** The part list, built with `push`: the prompt text, the background, and,
      only when there is an app icon, its label followed by the icon. */
  method AssembleParts(payload: NotificationPayload) returns (parts: seq<RequestPart>)
    ensures |parts| == if payload.appIcon.Some? then 4 else 2
    ensures parts[0] == TextPart(PromptText(payload))
    ensures parts[1] == ImagePart(payload.background)
    ensures payload.appIcon.Some? ==>
              parts[2] == TextPart(AppIconLabel) && parts[3] == ImagePart(payload.appIcon.value)
    ensures forall i :: 0 <= i < |parts| && parts[i].ImagePart? ==> i % 2 == 1
  {
    parts := [];
    parts := parts + [TextPart(PromptText(payload))];
    parts := parts + [ImagePart(payload.background)];
    if payload.appIcon.Some? {
      parts := parts + [TextPart(AppIconLabel)];
      parts := parts + [ImagePart(payload.appIcon.value)];
    }
  }

  const NotificationErrorMessage: string := "Falha ao gerar a imagem da notificação. Tente novamente."

  /** `generateSingleNotificationImage`: one edit request with the assembled
      parts; the first inline image of the reply, or the fixed error when the
      call fails or the reply has no image. */
  method GenerateSingleNotificationImage(payload: NotificationPayload,
                                         call: EditRequest -> Outcome<seq<ResponsePart>>)
    returns (request: EditRequest, r: Outcome<string>)
    ensures request.model == EditModel
    ensures |request.parts| == if payload.appIcon.Some? then 4 else 2
    ensures request.parts[0] == TextPart(PromptText(payload)) && request.parts[1] == ImagePart(payload.background)
    ensures payload.appIcon.Some? ==>
              request.parts[2] == TextPart(AppIconLabel) && request.parts[3] == ImagePart(payload.appIcon.value)
    ensures r.Ok? <==> call(request).Ok? && FirstInline(call(request).value).Some?
    ensures r.Ok? ==> r.value == FirstInline(call(request).value).value
    ensures r.Ok? ==> ReplyImage(r.value) in call(request).value
    ensures r.Fail? ==> r.message == NotificationErrorMessage
  {
    var parts := AssembleParts(payload);
    request := EditRequest(EditModel, parts);
    var response := call(request);
    if response.Fail? {
      return request, Fail(NotificationErrorMessage);
    }
    var found := FindFirstInline(response.value);
    if found.None? {
      return request, Fail(NotificationErrorMessage);
    }
    r := Ok(found.value);
  }
}
