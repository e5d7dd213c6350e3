/** The records and enumerations shared by the service and the components. */
module Types {
  import opened Wrappers

  /** The 19 kinds of product image the application can request. */
  datatype ImageType =
    | WhiteBackground | InstagramPostPromo | FacebookPostAd | InstagramStoryPromo
    | MockupWithModelLifestyle | MockupWithModelProfessional | MockupProductFocused | MockupCloseUp
    | BannerPromoCoupon | BannerSeasonalBf | BannerFacebookCover | TemplateInstagramPost
    | TemplateInstagramStory | VerticalTiktokReels | VerticalWhatsappStatus
    | Effect3dShadow | EffectFloating
    | InfographicBenefits | YoutubeThumbnail

  const AllImageTypes: set<ImageType> := set t: ImageType | true

  lemma AllImageTypesComplete(t: ImageType)
    ensures t in AllImageTypes
  {
  }

  /** The display state of one product image. */
  datatype GeneratedImage = GeneratedImage(base64: Option<string>, isLoading: bool, error: Option<string>)

  /** `{ base64: null, isLoading: false, error: null }` */
  const InitialImageState: GeneratedImage := GeneratedImage(None, false, None)

  /** One record per image type, every one in the initial state. */
  function InitialImages(): (m: map<ImageType, GeneratedImage>)
    ensures m.Keys == AllImageTypes
    ensures forall t :: t in m ==> m[t] == InitialImageState
  {
    map t | t in AllImageTypes :: InitialImageState
  }

  /** The five kinds of sales event a notification can announce. */
  datatype EventType = VendaAprovada | PixGerado | PedidoEnviado | VendaCancelada | PixExpirado
  {
    /** The label shown on the notification. */
    function Label(): string
    {
      match this
      case VendaAprovada => "Venda Aprovada"
      case PixGerado => "Pix Gerado"
      case PedidoEnviado => "Pedido Enviado"
      case VendaCancelada => "Venda Cancelada"
      case PixExpirado => "Pix Expirado"
    }
  }

  /** A queued notification; `accentColor` is added by the generator on top
      of the declared fields. */
  datatype NotificationData = NotificationData(
    eventType: EventType,
    value: string,
    product: string,
    time: string,
    client: string,
    paymentMethod: string,
    paymentLogoSvg: string,
    accentColor: string)

  /** The phone status bar drawn above the notifications. */
  datatype StatusBar = StatusBar(time: string, signal: string, battery: string)

  /** An image handed to the service: base64 payload and MIME type, either of
      which is `undefined` when it came from a data URL without its separator. */
  datatype InlineData = InlineData(base64: Option<string>, mimeType: Option<string>)

  /** A reference image kept by a component: the split pieces and the data URL itself. */
  datatype ReferenceImage = ReferenceImage(base64: Option<string>, mimeType: Option<string>, dataUrl: string)
  {
    function Payload(): InlineData
    {
      InlineData(base64, mimeType)
    }
  }
}
