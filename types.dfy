/** The records of a profile card (types.ts) and the JavaScript notion of
    truthiness that the components apply to optional strings. */
module Types {

  /** An optional value: `undefined`/`null` is None. */
  datatype Option<+T> = None | Some(value: T)

  /** JavaScript truthiness of an optional string: `undefined`, `null` and
      the empty string are falsy, every other string is truthy. */
  predicate Truthy(s: Option<string>) {
    s.Some? && s.value != ""
  }

  /** The two content languages. */
  datatype Language = Vi | En

  /** Labels of the quotation-request form. */
  datatype ConsultationFormTrans = ConsultationFormTrans(
    title: string,
    goodsType: string,
    pol: string,
    pod: string,
    volume: string,
    submit: string,
    alertCopied: string)

  /** The text of a card in one language. */
  datatype Translation = Translation(
    title: string,
    subtitle: string,
    description: seq<string>,
    consultButton: string,
    roles: seq<string>,
    saveContact: string,
    share: string,
    scanQr: string,
    close: string,
    consultationForm: ConsultationFormTrans,
    projectsTitle: string,
    backToProjects: string)

  /** A button of the social grid; `href` and `qrImage` are both optional. */
  datatype SocialLink = SocialLink(
    id: string,
    iconUrl: string,
    labelText: string,  // `label` (a reserved word in Dafny)
    href: Option<string>,
    qrImage: Option<string>,
    isAction: Option<bool>)

  datatype Project = Project(
    id: string,
    title: string,
    thumbnail: string,
    description: string,
    images: seq<string>)

  /** Both language entries are always present. */
  datatype ContentData = ContentData(vi: Translation, en: Translation)
  {
    /** `content[lang]` */
    function Get(lang: Language): Translation {
      match lang
      case Vi => vi
      case En => en
    }
  }

  datatype Assets = Assets(
    avatar: string,
    avatarQr: string,
    cover: string,
    roleIcon: string,
    flagVi: Option<string>,
    flagEn: Option<string>)

  datatype QrImages = QrImages(
    main: string,
    wechat: Option<string>,
    vcb: Option<string>,
    whatsapp: Option<string>)

  /** One card's complete record, the unit of storage. */
  datatype UserProfile = UserProfile(
    id: string,
    name: string,
    assets: Assets,
    qrImages: QrImages,
    socialLinks: seq<SocialLink>,
    projects: seq<Project>,
    content: ContentData,
    zaloContact: string,
    phoneContact: string)

  /** No two profiles of the list share an id (what the collection is meant
      to keep; nothing in the code enforces it). */
  ghost predicate UniqueIds(ps: seq<UserProfile>) {
    forall i, j :: 0 <= i < j < |ps| ==> ps[i].id != ps[j].id
  }

  /** Some profile of the list has the given id. */
  ghost predicate HasId(ps: seq<UserProfile>, id: string) {
    exists i :: 0 <= i < |ps| && ps[i].id == id
  }
}
