/** The record and list transforms behind the admin editor (Admin.tsx):
    the spread updates of a draft (updateForm, updateContent, updateAsset),
    the new-card template (handleCreateNew), the upsert of handleSave and the
    filter of handleDelete. Each field update is given as a lens: reading
    back the written field yields the written value, and every other field
    reads as before. */
module ProfileEditor {
  import opened Types
  import opened Constants
  import opened Text

  // ---------------------------------------------------------------------
  // Top-level fields of a profile (updateForm)
  // ---------------------------------------------------------------------

  datatype ProfileKey =
    | IdKey | NameKey | AssetsKey | QrImagesKey | SocialLinksKey
    | ProjectsKey | ContentKey | ZaloContactKey | PhoneContactKey

  /** A top-level field together with a value for it. */
  datatype ProfileValue =
    | IdValue(string)
    | NameValue(string)
    | AssetsValue(Assets)
    | QrImagesValue(QrImages)
    | SocialLinksValue(seq<SocialLink>)
    | ProjectsValue(seq<Project>)
    | ContentValue(ContentData)
    | ZaloContactValue(string)
    | PhoneContactValue(string)
  {
    function Key(): ProfileKey {
      match this
      case IdValue(_) => IdKey
      case NameValue(_) => NameKey
      case AssetsValue(_) => AssetsKey
      case QrImagesValue(_) => QrImagesKey
      case SocialLinksValue(_) => SocialLinksKey
      case ProjectsValue(_) => ProjectsKey
      case ContentValue(_) => ContentKey
      case ZaloContactValue(_) => ZaloContactKey
      case PhoneContactValue(_) => PhoneContactKey
    }
  }

  /** `p[k]`, tagged with its field. */
  function FieldOf(p: UserProfile, k: ProfileKey): (v: ProfileValue)
    ensures v.Key() == k
  {
    match k
    case IdKey => IdValue(p.id)
    case NameKey => NameValue(p.name)
    case AssetsKey => AssetsValue(p.assets)
    case QrImagesKey => QrImagesValue(p.qrImages)
    case SocialLinksKey => SocialLinksValue(p.socialLinks)
    case ProjectsKey => ProjectsValue(p.projects)
    case ContentKey => ContentValue(p.content)
    case ZaloContactKey => ZaloContactValue(p.zaloContact)
    case PhoneContactKey => PhoneContactValue(p.phoneContact)
  }

  /** updateForm(field, value): `{ ...prev, [field]: value }`. */
  function UpdateForm(p: UserProfile, v: ProfileValue): (r: UserProfile)
    ensures FieldOf(r, v.Key()) == v
    ensures forall k :: k != v.Key() ==> FieldOf(r, k) == FieldOf(p, k)
  {
    match v
    case IdValue(x) => p.(id := x)
    case NameValue(x) => p.(name := x)
    case AssetsValue(x) => p.(assets := x)
    case QrImagesValue(x) => p.(qrImages := x)
    case SocialLinksValue(x) => p.(socialLinks := x)
    case ProjectsValue(x) => p.(projects := x)
    case ContentValue(x) => p.(content := x)
    case ZaloContactValue(x) => p.(zaloContact := x)
    case PhoneContactValue(x) => p.(phoneContact := x)
  }

  /** Two profiles that agree on every top-level field are equal, so the
      frame stated by UpdateForm pins its result down completely. */
  lemma ProfileFieldsDetermine(a: UserProfile, b: UserProfile)
    requires forall k :: FieldOf(a, k) == FieldOf(b, k)
    ensures a == b
  {
    assert FieldOf(a, IdKey) == FieldOf(b, IdKey);
    assert FieldOf(a, NameKey) == FieldOf(b, NameKey);
    assert FieldOf(a, AssetsKey) == FieldOf(b, AssetsKey);
    assert FieldOf(a, QrImagesKey) == FieldOf(b, QrImagesKey);
    assert FieldOf(a, SocialLinksKey) == FieldOf(b, SocialLinksKey);
    assert FieldOf(a, ProjectsKey) == FieldOf(b, ProjectsKey);
    assert FieldOf(a, ContentKey) == FieldOf(b, ContentKey);
    assert FieldOf(a, ZaloContactKey) == FieldOf(b, ZaloContactKey);
    assert FieldOf(a, PhoneContactKey) == FieldOf(b, PhoneContactKey);
  }

  /** Writing back a field's own value changes nothing. */
  lemma UpdateFormOwnValue(p: UserProfile, k: ProfileKey)
    ensures UpdateForm(p, FieldOf(p, k)) == p
  {
    var r := UpdateForm(p, FieldOf(p, k));
    forall j ensures FieldOf(r, j) == FieldOf(p, j) {
    }
    ProfileFieldsDetermine(r, p);
  }

  /** A second write to the same field overrides the first. */
  lemma UpdateFormOverwrites(p: UserProfile, v: ProfileValue, w: ProfileValue)
    requires v.Key() == w.Key()
    ensures UpdateForm(UpdateForm(p, v), w) == UpdateForm(p, w)
  {
    var a, b := UpdateForm(UpdateForm(p, v), w), UpdateForm(p, w);
    forall j ensures FieldOf(a, j) == FieldOf(b, j) {
    }
    ProfileFieldsDetermine(a, b);
  }

  // ---------------------------------------------------------------------
  // Fields of one language's content (updateContent)
  // ---------------------------------------------------------------------

  datatype TranslationKey =
    | TitleKey | SubtitleKey | DescriptionKey | ConsultButtonKey | RolesKey
    | SaveContactKey | ShareKey | ScanQrKey | CloseKey | ConsultationFormKey
    | ProjectsTitleKey | BackToProjectsKey

  datatype TranslationValue =
    | TitleValue(string)
    | SubtitleValue(string)
    | DescriptionValue(seq<string>)
    | ConsultButtonValue(string)
    | RolesValue(seq<string>)
    | SaveContactValue(string)
    | ShareValue(string)
    | ScanQrValue(string)
    | CloseValue(string)
    | ConsultationFormValue(ConsultationFormTrans)
    | ProjectsTitleValue(string)
    | BackToProjectsValue(string)
  {
    function Key(): TranslationKey {
      match this
      case TitleValue(_) => TitleKey
      case SubtitleValue(_) => SubtitleKey
      case DescriptionValue(_) => DescriptionKey
      case ConsultButtonValue(_) => ConsultButtonKey
      case RolesValue(_) => RolesKey
      case SaveContactValue(_) => SaveContactKey
      case ShareValue(_) => ShareKey
      case ScanQrValue(_) => ScanQrKey
      case CloseValue(_) => CloseKey
      case ConsultationFormValue(_) => ConsultationFormKey
      case ProjectsTitleValue(_) => ProjectsTitleKey
      case BackToProjectsValue(_) => BackToProjectsKey
    }
  }

  /** `t[k]`, tagged with its field. */
  function TranslationFieldOf(t: Translation, k: TranslationKey): (v: TranslationValue)
    ensures v.Key() == k
  {
    match k
    case TitleKey => TitleValue(t.title)
    case SubtitleKey => SubtitleValue(t.subtitle)
    case DescriptionKey => DescriptionValue(t.description)
    case ConsultButtonKey => ConsultButtonValue(t.consultButton)
    case RolesKey => RolesValue(t.roles)
    case SaveContactKey => SaveContactValue(t.saveContact)
    case ShareKey => ShareValue(t.share)
    case ScanQrKey => ScanQrValue(t.scanQr)
    case CloseKey => CloseValue(t.close)
    case ConsultationFormKey => ConsultationFormValue(t.consultationForm)
    case ProjectsTitleKey => ProjectsTitleValue(t.projectsTitle)
    case BackToProjectsKey => BackToProjectsValue(t.backToProjects)
  }

  /** `{ ...t, [field]: value }` */
  function SetTranslationField(t: Translation, v: TranslationValue): (r: Translation)
    ensures TranslationFieldOf(r, v.Key()) == v
    ensures forall k :: k != v.Key() ==> TranslationFieldOf(r, k) == TranslationFieldOf(t, k)
  {
    match v
    case TitleValue(x) => t.(title := x)
    case SubtitleValue(x) => t.(subtitle := x)
    case DescriptionValue(x) => t.(description := x)
    case ConsultButtonValue(x) => t.(consultButton := x)
    case RolesValue(x) => t.(roles := x)
    case SaveContactValue(x) => t.(saveContact := x)
    case ShareValue(x) => t.(share := x)
    case ScanQrValue(x) => t.(scanQr := x)
    case CloseValue(x) => t.(close := x)
    case ConsultationFormValue(x) => t.(consultationForm := x)
    case ProjectsTitleValue(x) => t.(projectsTitle := x)
    case BackToProjectsValue(x) => t.(backToProjects := x)
  }

  /** Two translations that agree on every field are equal. */
  lemma TranslationFieldsDetermine(a: Translation, b: Translation)
    requires forall k :: TranslationFieldOf(a, k) == TranslationFieldOf(b, k)
    ensures a == b
  {
    assert TranslationFieldOf(a, TitleKey) == TranslationFieldOf(b, TitleKey);
    assert TranslationFieldOf(a, SubtitleKey) == TranslationFieldOf(b, SubtitleKey);
    assert TranslationFieldOf(a, DescriptionKey) == TranslationFieldOf(b, DescriptionKey);
    assert TranslationFieldOf(a, ConsultButtonKey) == TranslationFieldOf(b, ConsultButtonKey);
    assert TranslationFieldOf(a, RolesKey) == TranslationFieldOf(b, RolesKey);
    assert TranslationFieldOf(a, SaveContactKey) == TranslationFieldOf(b, SaveContactKey);
    assert TranslationFieldOf(a, ShareKey) == TranslationFieldOf(b, ShareKey);
    assert TranslationFieldOf(a, ScanQrKey) == TranslationFieldOf(b, ScanQrKey);
    assert TranslationFieldOf(a, CloseKey) == TranslationFieldOf(b, CloseKey);
    assert TranslationFieldOf(a, ConsultationFormKey) == TranslationFieldOf(b, ConsultationFormKey);
    assert TranslationFieldOf(a, ProjectsTitleKey) == TranslationFieldOf(b, ProjectsTitleKey);
    assert TranslationFieldOf(a, BackToProjectsKey) == TranslationFieldOf(b, BackToProjectsKey);
  }

  /** The language that is not `lang`. */
  function OtherLanguage(lang: Language): (o: Language)
    ensures o != lang
  {
    match lang
    case Vi => En
    case En => Vi
  }

  /** `{ ...content, [lang]: t }` */
  function SetLanguage(c: ContentData, lang: Language, t: Translation): (r: ContentData)
    ensures r.Get(lang) == t
    ensures r.Get(OtherLanguage(lang)) == c.Get(OtherLanguage(lang))
  {
    match lang
    case Vi => c.(vi := t)
    case En => c.(en := t)
  }

  /** updateContent(lang, field, value): only `content[lang][field]` changes;
      the other language, the other fields of `lang` and every other
      top-level field keep their values. */
  function UpdateContent(p: UserProfile, lang: Language, v: TranslationValue): (r: UserProfile)
    ensures TranslationFieldOf(r.content.Get(lang), v.Key()) == v
    ensures forall k :: k != v.Key() ==>
      TranslationFieldOf(r.content.Get(lang), k) == TranslationFieldOf(p.content.Get(lang), k)
    ensures r.content.Get(OtherLanguage(lang)) == p.content.Get(OtherLanguage(lang))
    ensures forall k :: k != ContentKey ==> FieldOf(r, k) == FieldOf(p, k)
  {
    UpdateForm(p, ContentValue(SetLanguage(p.content, lang, SetTranslationField(p.content.Get(lang), v))))
  }

  // ---------------------------------------------------------------------
  // Image assets (updateAsset)
  // ---------------------------------------------------------------------

  datatype AssetKey = AvatarKey | AvatarQrKey | CoverKey | RoleIconKey | FlagViKey | FlagEnKey

  /** `assets[k]`; the two flags are optional. */
  function AssetOf(a: Assets, k: AssetKey): Option<string> {
    match k
    case AvatarKey => Some(a.avatar)
    case AvatarQrKey => Some(a.avatarQr)
    case CoverKey => Some(a.cover)
    case RoleIconKey => Some(a.roleIcon)
    case FlagViKey => a.flagVi
    case FlagEnKey => a.flagEn
  }

  /** updateAsset(field, value): only `assets[field]` changes, to `value`. */
  function UpdateAsset(p: UserProfile, k: AssetKey, value: string): (r: UserProfile)
    ensures AssetOf(r.assets, k) == Some(value)
    ensures forall j :: j != k ==> AssetOf(r.assets, j) == AssetOf(p.assets, j)
    ensures forall j :: j != AssetsKey ==> FieldOf(r, j) == FieldOf(p, j)
  {
    var a := p.assets;
    var a' := match k
      case AvatarKey => a.(avatar := value)
      case AvatarQrKey => a.(avatarQr := value)
      case CoverKey => a.(cover := value)
      case RoleIconKey => a.(roleIcon := value)
      case FlagViKey => a.(flagVi := Some(value))
      case FlagEnKey => a.(flagEn := Some(value));
    UpdateForm(p, AssetsValue(a'))
  }

  // ---------------------------------------------------------------------
  // Description textarea: lines joined by '\n', edits split on '\n'
  // ---------------------------------------------------------------------

  /** The text the description textarea shows for `lang`. */
  function DescriptionText(p: UserProfile, lang: Language): string {
    Join(p.content.Get(lang).description)
  }

  /** The onChange of the description textarea. */
  function EditDescription(p: UserProfile, lang: Language, text: string): (r: UserProfile)
    ensures r.content.Get(lang).description == Split(text)
    ensures r.content.Get(OtherLanguage(lang)) == p.content.Get(OtherLanguage(lang))
  {
    UpdateContent(p, lang, DescriptionValue(Split(text)))
  }

  /** Whatever is typed, the textarea then shows exactly that text. */
  lemma EditedDescriptionShowsText(p: UserProfile, lang: Language, text: string)
    ensures DescriptionText(EditDescription(p, lang, text), lang) == text
  {
    JoinSplit(text);
  }

  /** Submitting the text as shown gives back the same lines, provided there
      is at least one line and no line contains a newline. */
  lemma DescriptionRoundTrip(p: UserProfile, lang: Language)
    requires |p.content.Get(lang).description| >= 1
    requires forall i :: 0 <= i < |p.content.Get(lang).description| ==>
      '\n' !in p.content.Get(lang).description[i]
    ensures EditDescription(p, lang, DescriptionText(p, lang)) == p
  {
    var t := p.content.Get(lang);
    SplitJoin(t.description);
    var r := EditDescription(p, lang, DescriptionText(p, lang));
    forall k ensures TranslationFieldOf(r.content.Get(lang), k) == TranslationFieldOf(t, k) {
    }
    TranslationFieldsDetermine(r.content.Get(lang), t);
    assert r.content == p.content by {
      assert r.content.Get(lang) == p.content.Get(lang);
      assert r.content.Get(OtherLanguage(lang)) == p.content.Get(OtherLanguage(lang));
      match lang
      case Vi =>
      case En =>
    }
    forall k ensures FieldOf(r, k) == FieldOf(p, k) {
    }
    ProfileFieldsDetermine(r, p);
  }

  // ---------------------------------------------------------------------
  // New card (handleCreateNew)
  // ---------------------------------------------------------------------

  const NewUserName: string := "New User"
  const NewUserViTitle: string := "Tên Mới"

  /** The draft of a new card: the default profile with a fresh id, the
      placeholder name and the placeholder Vietnamese title; the English
      content and everything else are the default's. */
  function NewDraft(freshId: string): (r: UserProfile)
    ensures r.id == freshId && r.name == NewUserName
    ensures r.content.vi.title == NewUserViTitle
    ensures r.content.en == DefaultProfile.content.en
    ensures forall k :: k != TitleKey ==>
      TranslationFieldOf(r.content.vi, k) == TranslationFieldOf(DefaultProfile.content.vi, k)
    ensures forall k :: k !in {IdKey, NameKey, ContentKey} ==> FieldOf(r, k) == FieldOf(DefaultProfile, k)
  {
    var d := DefaultProfile;
    d.(id := freshId, name := NewUserName,
       content := d.content.(vi := d.content.vi.(title := NewUserViTitle)))
  }

  // ---------------------------------------------------------------------
  // The collection: some / map-or-append (handleSave), filter (handleDelete)
  // ---------------------------------------------------------------------

  /** `profiles.some(p => p.id === id)` */
  function AnyWithId(ps: seq<UserProfile>, id: string): (b: bool)
    ensures b <==> HasId(ps, id)
  {
    if ps == [] then false
    else ps[0].id == id || AnyWithId(ps[1..], id)
  }

  /** `profiles.map(p => p.id === d.id ? d : p)`: every entry with the
      draft's id becomes the draft, every other entry stays in place. */
  function ReplaceById(ps: seq<UserProfile>, d: UserProfile): (r: seq<UserProfile>)
    ensures |r| == |ps|
    ensures forall i :: 0 <= i < |ps| && ps[i].id == d.id ==> r[i] == d
    ensures forall i :: 0 <= i < |ps| && ps[i].id != d.id ==> r[i] == ps[i]
  {
    if ps == [] then []
    else [if ps[0].id == d.id then d else ps[0]] + ReplaceById(ps[1..], d)
  }

  /** handleSave's new list: replace in place when the id is present,
      otherwise append the draft as the last entry. */
  function Upsert(ps: seq<UserProfile>, d: UserProfile): (r: seq<UserProfile>)
    ensures HasId(ps, d.id) ==> |r| == |ps|
    ensures HasId(ps, d.id) ==> forall i :: 0 <= i < |ps| ==>
      r[i] == (if ps[i].id == d.id then d else ps[i])
    ensures !HasId(ps, d.id) ==> |r| == |ps| + 1 && r[..|ps|] == ps && r[|ps|] == d
  {
    if AnyWithId(ps, d.id) then ReplaceById(ps, d) else ps + [d]
  }

  /** `profiles.filter(p => p.id !== id)` */
  function RemoveById(ps: seq<UserProfile>, id: string): (r: seq<UserProfile>)
    ensures |r| <= |ps|
    ensures forall p :: p in r <==> p in ps && p.id != id
    ensures !HasId(ps, id) ==> r == ps
  {
    if ps == [] then []
    else if ps[0].id == id then RemoveById(ps[1..], id)
    else [ps[0]] + RemoveById(ps[1..], id)
  }

  /** `a` is `b` with some entries dropped, the rest in their order. */
  ghost predicate IsSubsequence(a: seq<UserProfile>, b: seq<UserProfile>)
    decreases |b|
  {
    if a == [] then true
    else if b == [] then false
    else (a[0] == b[0] && IsSubsequence(a[1..], b[1..])) || IsSubsequence(a, b[1..])
  }

  /** Deleting keeps the remaining entries in their original relative order. */
  lemma {:induction false} RemoveByIdKeepsOrder(ps: seq<UserProfile>, id: string)
    ensures IsSubsequence(RemoveById(ps, id), ps)
  {
    if ps != [] {
      RemoveByIdKeepsOrder(ps[1..], id);
      var rest := RemoveById(ps[1..], id);
      if ps[0].id != id {
        assert RemoveById(ps, id) == [ps[0]] + rest;
        assert ([ps[0]] + rest)[1..] == rest;
      }
    }
  }

  /** Number of entries with the given id. */
  function CountId(ps: seq<UserProfile>, id: string): nat {
    if ps == [] then 0 else (if ps[0].id == id then 1 else 0) + CountId(ps[1..], id)
  }

  /** Deleting drops exactly the entries with that id. */
  lemma {:induction false} RemoveByIdLength(ps: seq<UserProfile>, id: string)
    ensures |RemoveById(ps, id)| == |ps| - CountId(ps, id)
  {
    if ps != [] {
      RemoveByIdLength(ps[1..], id);
    }
  }

  /** With unique ids an id occurs at most once. */
  lemma {:induction false} UniqueCountAtMostOne(ps: seq<UserProfile>, id: string)
    requires UniqueIds(ps)
    ensures CountId(ps, id) <= 1
    ensures HasId(ps, id) ==> CountId(ps, id) == 1
  {
    if ps != [] {
      UniqueCountAtMostOne(ps[1..], id);
      if ps[0].id == id {
        assert !HasId(ps[1..], id) by {
          forall i | 0 <= i < |ps[1..]| ensures ps[1..][i].id != id {
            assert ps[1..][i] == ps[i + 1];
          }
        }
        NoIdCountZero(ps[1..], id);
      } else if HasId(ps, id) {
        var i :| 0 <= i < |ps| && ps[i].id == id;
        assert ps[1..][i - 1].id == id;
      }
    }
  }

  lemma {:induction false} NoIdCountZero(ps: seq<UserProfile>, id: string)
    requires !HasId(ps, id)
    ensures CountId(ps, id) == 0
  {
    if ps != [] {
      assert !HasId(ps[1..], id) by {
        forall i | 0 <= i < |ps[1..]| ensures ps[1..][i].id != id {
          assert ps[1..][i] == ps[i + 1];
        }
      }
      NoIdCountZero(ps[1..], id);
    }
  }

  /** In a collection with unique ids, deleting a present id shortens it
      by exactly one; an absent id leaves it unchanged. */
  lemma RemovePresentIdShortensByOne(ps: seq<UserProfile>, id: string)
    requires UniqueIds(ps)
    ensures |RemoveById(ps, id)| == if HasId(ps, id) then |ps| - 1 else |ps|
    ensures !HasId(RemoveById(ps, id), id)
  {
    RemoveByIdLength(ps, id);
    UniqueCountAtMostOne(ps, id);
  }

  /** Saving keeps ids unique. */
  lemma UpsertKeepsUniqueIds(ps: seq<UserProfile>, d: UserProfile)
    requires UniqueIds(ps)
    ensures UniqueIds(Upsert(ps, d))
  {
  }

  /** Deleting keeps ids unique. */
  lemma {:induction false} RemoveByIdKeepsUniqueIds(ps: seq<UserProfile>, id: string)
    requires UniqueIds(ps)
    ensures UniqueIds(RemoveById(ps, id))
  {
    if ps != [] {
      assert UniqueIds(ps[1..]) by {
        forall i, j | 0 <= i < j < |ps[1..]| ensures ps[1..][i].id != ps[1..][j].id {
          assert ps[1..][i] == ps[i + 1] && ps[1..][j] == ps[j + 1];
        }
      }
      RemoveByIdKeepsUniqueIds(ps[1..], id);
      var rest := RemoveById(ps[1..], id);
      if ps[0].id != id {
        forall q | q in rest ensures q.id != ps[0].id {
          var k :| 0 <= k < |ps[1..]| && ps[1..][k] == q;
          assert ps[k + 1] == q;
        }
        var r := [ps[0]] + rest;
        forall i, j | 0 <= i < j < |r| ensures r[i].id != r[j].id {
          if i == 0 {
            assert r[j] == rest[j - 1] && rest[j - 1] in rest;
          } else {
            assert r[i] == rest[i - 1] && r[j] == rest[j - 1];
          }
        }
      }
    }
  }

  /** Creating a card and saving it appends the new draft when its id is
      not yet used: the list grows by one and keeps its earlier entries. */
  lemma CreateThenSaveAppends(ps: seq<UserProfile>, freshId: string)
    requires !HasId(ps, freshId)
    ensures Upsert(ps, NewDraft(freshId)) == ps + [NewDraft(freshId)]
  {
    var d := NewDraft(freshId);
    var r := Upsert(ps, d);
    assert r == r[..|ps|] + [r[|ps|]];
  }

  /** Editing one field of a stored card and saving replaces that card in
      place: same length, the card at `i` reads the new value in that field
      and its old values elsewhere, every other card is unchanged. */
  lemma EditThenSaveReplaces(ps: seq<UserProfile>, i: nat, v: ProfileValue)
    requires UniqueIds(ps) && i < |ps|
    requires v.Key() != IdKey
    ensures var r := Upsert(ps, UpdateForm(ps[i], v));
      && |r| == |ps|
      && FieldOf(r[i], v.Key()) == v
      && (forall k :: k != v.Key() ==> FieldOf(r[i], k) == FieldOf(ps[i], k))
      && (forall j :: 0 <= j < |ps| && j != i ==> r[j] == ps[j])
  {
    var d := UpdateForm(ps[i], v);
    assert FieldOf(d, IdKey) == FieldOf(ps[i], IdKey);
    assert HasId(ps, d.id);
  }
}
