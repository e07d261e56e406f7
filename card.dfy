/** The card page (App.tsx): its interaction state (language, tab, selected
    project, the QR viewer's record, the scanner and quotation dialogs), the
    social-link dispatch, the wiring of the QR viewer's scan button to the
    scanner, and the text of the downloadable vCard. Opening a URL in a new
    window is recorded as an event in `windowsOpened`. */
module Card {
  import opened Types
  import opened Text
  import ImageModal
  import Consultation

  datatype Tab = Home | Projects

  /** What the main area shows. */
  datatype Screen = HomeScreen | ProjectListScreen | ProjectDetailScreen(project: Project)

  /** The outcome of clicking a social link. */
  datatype SocialAction = ShowQr(image: string, title: string) | OpenUrl(url: string) | NoAction

  /** handleSocialClick's decision: a truthy `qrImage` wins over `href`. */
  function SocialActionOf(link: SocialLink): (a: SocialAction)
    ensures a.ShowQr? <==> Truthy(link.qrImage)
    ensures a.ShowQr? ==> a.image == link.qrImage.value && a.title == link.labelText
    ensures a.OpenUrl? <==> !Truthy(link.qrImage) && Truthy(link.href)
    ensures a.OpenUrl? ==> a.url == link.href.value
    ensures a.NoAction? <==> !Truthy(link.qrImage) && !Truthy(link.href)
  {
    if Truthy(link.qrImage) then ShowQr(link.qrImage.value, link.labelText)
    else if Truthy(link.href) then OpenUrl(link.href.value)
    else NoAction
  }

  const CallScheme: string := "tel:"
  const ZaloPrefix: string := "https://zalo.me/"

  /** The call button's link. */
  function CallLink(data: UserProfile): (link: string)
    ensures |link| == |CallScheme| + |data.phoneContact|
    ensures link[..|CallScheme|] == CallScheme && link[|CallScheme|..] == data.phoneContact
  {
    CallScheme + data.phoneContact
  }

  /** The chat link handed to the quotation form. */
  function ZaloLink(data: UserProfile): (link: string)
    ensures |link| == |ZaloPrefix| + |data.zaloContact|
    ensures link[..|ZaloPrefix|] == ZaloPrefix && link[|ZaloPrefix|..] == data.zaloContact
  {
    ZaloPrefix + data.zaloContact
  }

  /** Different numbers give different links: the number can be read back. */
  lemma LinksDetermineContacts(a: UserProfile, b: UserProfile)
    ensures CallLink(a) == CallLink(b) ==> a.phoneContact == b.phoneContact
    ensures ZaloLink(a) == ZaloLink(b) ==> a.zaloContact == b.zaloContact
  {
    if CallLink(a) == CallLink(b) {
      assert CallLink(a)[|CallScheme|..] == CallLink(b)[|CallScheme|..];
    }
    if ZaloLink(a) == ZaloLink(b) {
      assert ZaloLink(a)[|ZaloPrefix|..] == ZaloLink(b)[|ZaloPrefix|..];
    }
  }

  // ---------------------------------------------------------------------
  // vCard 3.0 text (downloadVCard)
  // ---------------------------------------------------------------------

  /** `data.content.vi.description[1]` in a template: a missing second line
      reads as the text "undefined". */
  function NoteText(data: UserProfile): string {
    var d := data.content.vi.description;
    if |d| > 1 then d[1] else "undefined"
  }

  /** The lines of the vCard, in order (vCard 3.0, RFC 2426: BEGIN, VERSION,
      FN, N, TEL, EMAIL, ORG, TITLE, URL, NOTE, END), with no escaping of
      the values. */
  function VCardLines(data: UserProfile): seq<string> {
    [ "BEGIN:VCARD",
      "VERSION:3.0",
      "FN:" + data.content.en.title,
      "N:" + data.content.en.title + ";;;;",
      "TEL;TYPE=CELL:" + data.phoneContact,
      "EMAIL:contact@longhoanglogistics.com",
      "ORG:Long Hoang Logistics",
      "TITLE:" + data.content.en.subtitle,
      "URL:https://www.longhoanglogistics.com",
      "NOTE:" + NoteText(data),
      "END:VCARD" ]
  }

  /** The template literal before `.trim()`: a leading newline and a
      trailing newline plus the indentation of the closing backtick. */
  function VCardTemplate(data: UserProfile): string {
    "\n" + Join(VCardLines(data)) + "\n    "
  }

  /** The downloaded vCard text. */
  function VCard(data: UserProfile): string {
    Trim(VCardTemplate(data))
  }

  /** A join of at least three lines opening with BEGIN and VERSION is that
      header followed by the join of the rest. */
  lemma JoinAfterHeader(lines: seq<string>)
    requires |lines| >= 3 && lines[0] == "BEGIN:VCARD" && lines[1] == "VERSION:3.0"
    ensures Join(lines) == "BEGIN:VCARD\nVERSION:3.0\n" + Join(lines[2..])
  {
    var rest := Join(lines[2..]);
    assert Join(lines[1..]) == lines[1] + "\n" + rest;
  }

  /** The template's padding is white space around visible ends, so trimming
      removes exactly the padding. */
  lemma PaddedTrims(body: string)
    requires body != [] && body[0] == 'B' && body[|body| - 1] == 'D'
    ensures Trim("\n" + body + "\n    ") == body
  {
    TrimPadded("\n", body, "\n    ");
  }

  /** Trimming removes exactly the template's padding: the vCard is its
      lines joined by newlines, starting with the BEGIN and VERSION lines
      and ending with END. */
  lemma VCardIsItsLines(data: UserProfile)
    ensures VCard(data) == Join(VCardLines(data))
    ensures VCard(data) == "BEGIN:VCARD\nVERSION:3.0\n" + Join(VCardLines(data)[2..])
    ensures |VCard(data)| >= 9 && VCard(data)[|VCard(data)| - 9..] == "END:VCARD"
  {
    var lines := VCardLines(data);
    var body := Join(lines);
    JoinAfterHeader(lines);
    JoinEndsWithLast(lines);
    PaddedTrims(body);
  }

  /** When no value contains a newline, splitting the vCard on newlines
      gives back its eleven properties: FN and N carry the English title,
      TEL the phone number, TITLE the English subtitle and NOTE the second
      Vietnamese description line (or "undefined"). */
  lemma VCardProperties(data: UserProfile)
    requires '\n' !in data.content.en.title && '\n' !in data.content.en.subtitle
    requires '\n' !in data.phoneContact && '\n' !in NoteText(data)
    ensures var props := Split(VCard(data));
      && |props| == 11
      && props[0] == "BEGIN:VCARD" && props[1] == "VERSION:3.0"
      && props[2] == "FN:" + data.content.en.title
      && props[3] == "N:" + data.content.en.title + ";;;;"
      && props[4] == "TEL;TYPE=CELL:" + data.phoneContact
      && props[5] == "EMAIL:contact@longhoanglogistics.com"
      && props[6] == "ORG:Long Hoang Logistics"
      && props[7] == "TITLE:" + data.content.en.subtitle
      && props[8] == "URL:https://www.longhoanglogistics.com"
      && props[9] == "NOTE:" + NoteText(data)
      && props[10] == "END:VCARD"
  {
    VCardIsItsLines(data);
    VCardLinesNewlineFree(data);
    SplitJoin(VCardLines(data));
  }

  /** The fixed lines hold no newline, so the lines are newline-free as
      soon as the inserted values are. */
  lemma VCardLinesNewlineFree(data: UserProfile)
    requires '\n' !in data.content.en.title && '\n' !in data.content.en.subtitle
    requires '\n' !in data.phoneContact && '\n' !in NoteText(data)
    ensures forall i :: 0 <= i < |VCardLines(data)| ==> '\n' !in VCardLines(data)[i]
  {
    var lines := VCardLines(data);
    VCardShortLinesNewlineFree();
    VCardEmailLineNewlineFree();
    VCardUrlLineNewlineFree();
    assert '\n' !in lines[2] && '\n' !in lines[3] && '\n' !in lines[4];
    assert '\n' !in lines[7] && '\n' !in lines[9];
  }

  /** The company's fixed lines, checked one literal at a time. */
  lemma VCardShortLinesNewlineFree()
    ensures '\n' !in "BEGIN:VCARD" && '\n' !in "VERSION:3.0" && '\n' !in "END:VCARD"
    ensures '\n' !in "ORG:Long Hoang Logistics"
  {
  }

  lemma VCardEmailLineNewlineFree()
    ensures '\n' !in "EMAIL:contact@longhoanglogistics.com"
  {
  }

  lemma VCardUrlLineNewlineFree()
    ensures '\n' !in "URL:https://www.longhoanglogistics.com"
  {
  }

  // ---------------------------------------------------------------------
  // The page's state
  // ---------------------------------------------------------------------

  class CardApp {
    const data: UserProfile
    var lang: Language
    var activeTab: Tab
    var selectedProject: Option<Project>
    var qrModalOpen: bool
    var activeQrUrl: Option<string>
    var activeQrTitle: string
    var activeQrDesc: Option<string>
    var activeQrScanEnabled: bool
    var scannerOpen: bool
    var consultationOpen: bool
    /** The quotation form's state, which lives as long as the page. */
    const quote: Consultation.QuoteForm
    /** URLs opened in a new window, oldest first. */
    var windowsOpened: seq<string>

    /** The initial state of the page. */
    constructor (data: UserProfile)
      ensures this.data == data && lang == Vi && activeTab == Home && selectedProject == None
      ensures !qrModalOpen && activeQrUrl == None && activeQrTitle == "" && activeQrDesc == None
      ensures activeQrScanEnabled && !scannerOpen && !consultationOpen && windowsOpened == []
      ensures fresh(quote) && Valid()
      ensures quote.formData == Consultation.EmptyForm && !quote.isCopied
      ensures quote.pendingRedirects == 0 && quote.windowsOpened == []
    {
      this.data := data;
      lang := Vi;
      activeTab := Home;
      selectedProject := None;
      qrModalOpen := false;
      activeQrUrl := None;
      activeQrTitle := "";
      activeQrDesc := None;
      activeQrScanEnabled := true;
      scannerOpen := false;
      consultationOpen := false;
      windowsOpened := [];
      quote := new Consultation.QuoteForm(ZaloLink(data));
    }

    /** The quotation form chats on the card's own Zalo number and keeps
        its own invariant. */
    predicate Valid()
      reads this, quote
    {
      quote.zaloLink == ZaloLink(data) && quote.Valid()
    }

    /** `t`: the content in the current language. */
    function T(): Translation
      reads this
    {
      data.content.Get(lang)
    }

    /** What the main area shows: the home face, or the projects list, or
        the selected project's detail. */
    function CurrentScreen(): (s: Screen)
      reads this
      ensures s == HomeScreen <==> activeTab == Home
      ensures s.ProjectDetailScreen? <==> activeTab != Home && selectedProject.Some?
      ensures s.ProjectDetailScreen? ==> s.project == selectedProject.value
    {
      if activeTab == Home then HomeScreen
      else if selectedProject.Some? then ProjectDetailScreen(selectedProject.value)
      else ProjectListScreen
    }

    method SwitchLang(l: Language)
      modifies this`lang
      ensures lang == l
    {
      lang := l;
    }

    /** handleOpenQr: records the viewer's image, title, description and
        scan switch (on unless told otherwise) and opens the viewer. */
    method OpenQr(url: string, title: string, desc: Option<string> := None, enableScan: bool := true)
      modifies this`activeQrUrl, this`activeQrTitle, this`activeQrDesc,
               this`activeQrScanEnabled, this`qrModalOpen
      ensures activeQrUrl == Some(url) && activeQrTitle == title && activeQrDesc == desc
      ensures activeQrScanEnabled == enableScan && qrModalOpen
    {
      activeQrUrl := Some(url);
      activeQrTitle := title;
      activeQrDesc := desc;
      activeQrScanEnabled := enableScan;
      qrModalOpen := true;
    }

    /** handleSocialClick: a QR image opens the viewer titled with the
        link's label, scan enabled, and opens no window; otherwise a link
        target is opened in a new window and the viewer's state is untouched; a link with
        neither changes nothing. */
    method SocialClick(link: SocialLink)
      modifies this`activeQrUrl, this`activeQrTitle, this`activeQrDesc,
               this`activeQrScanEnabled, this`qrModalOpen, this`windowsOpened
      ensures Truthy(link.qrImage) ==>
        && activeQrUrl == link.qrImage && activeQrTitle == link.labelText && activeQrDesc == None
        && activeQrScanEnabled && qrModalOpen && windowsOpened == old(windowsOpened)
      ensures !Truthy(link.qrImage) && Truthy(link.href) ==>
        && windowsOpened == old(windowsOpened) + [link.href.value]
        && ViewerUnchanged()
      ensures !Truthy(link.qrImage) && !Truthy(link.href) ==>
        windowsOpened == old(windowsOpened) && ViewerUnchanged()
    {
      match SocialActionOf(link)
      case ShowQr(image, title) => OpenQr(image, title);
      case OpenUrl(url) => windowsOpened := windowsOpened + [url];
      case NoAction =>
    }

    /** The QR viewer's record is as it was before the call. */
    twostate predicate ViewerUnchanged()
      reads this
    {
      && activeQrUrl == old(activeQrUrl) && activeQrTitle == old(activeQrTitle)
      && activeQrDesc == old(activeQrDesc) && activeQrScanEnabled == old(activeQrScanEnabled)
      && qrModalOpen == old(qrModalOpen)
    }

    /** A click on the avatar: the avatar picture with the current title, an
        empty description and no scan button. */
    method AvatarClick()
      modifies this`activeQrUrl, this`activeQrTitle, this`activeQrDesc,
               this`activeQrScanEnabled, this`qrModalOpen
      ensures activeQrUrl == Some(data.assets.avatar) && activeQrTitle == T().title
      ensures activeQrDesc == Some("") && !activeQrScanEnabled && qrModalOpen
      ensures !ViewerProps().hasScanAction
    {
      OpenQr(data.assets.avatar, T().title, Some(""), false);
    }

    /** The small QR button next to the avatar. */
    method PersonalQrClick()
      modifies this`activeQrUrl, this`activeQrTitle, this`activeQrDesc,
               this`activeQrScanEnabled, this`qrModalOpen
      ensures activeQrUrl == Some(data.qrImages.main) && activeQrTitle == "Personal QR"
      ensures activeQrDesc == None && activeQrScanEnabled && qrModalOpen
    {
      OpenQr(data.qrImages.main, "Personal QR");
    }

    /** The Home tab: back to the home face, forgetting the selected project. */
    method SelectHomeTab()
      modifies this`activeTab, this`selectedProject
      ensures activeTab == Home && selectedProject == None
      ensures CurrentScreen() == HomeScreen
    {
      activeTab := Home;
      selectedProject := None;
    }

    /** The Projects tab: only the tab changes, so a project selected before
        is shown again. */
    method SelectProjectsTab()
      modifies this`activeTab
      ensures activeTab == Projects
      ensures CurrentScreen() == if selectedProject.Some? then ProjectDetailScreen(selectedProject.value)
                                 else ProjectListScreen
    {
      activeTab := Projects;
    }

    /** A project card of the list. */
    method SelectProject(p: Project)
      modifies this`selectedProject
      ensures selectedProject == Some(p)
    {
      selectedProject := Some(p);
    }

    /** The detail view's back button. */
    method BackToProjects()
      modifies this`selectedProject
      ensures selectedProject == None
    {
      selectedProject := None;
    }

    method OpenConsultation()
      modifies this`consultationOpen
      ensures consultationOpen
    {
      consultationOpen := true;
    }

    method CloseConsultation()
      modifies this`consultationOpen
      ensures !consultationOpen
    {
      consultationOpen := false;
    }

    /** The quotation dialog as rendered: hidden while closed, labelled in
        the current language. */
    function QuoteView(): (r: Option<Consultation.FormView>)
      reads this, quote
      ensures r.None? <==> !consultationOpen
      ensures r.Some? ==> r.value.title == T().consultationForm.title && r.value.values == quote.formData
      ensures r.Some? ==> (r.value.notice.Some? <==> quote.isCopied)
      ensures r.Some? && quote.isCopied ==> r.value.notice == Some(T().consultationForm.alertCopied)
      ensures r.Some? ==> r.value.submitLabel == T().consultationForm.submit
    {
      quote.View(consultationOpen, T().consultationForm)
    }

    /** Submitting the quotation form: the message carries the labels of
        the current language and the chat opened is the card's Zalo link. */
    method SubmitQuote(clipboardWorks: bool) returns (copied: Option<string>)
      requires Valid()
      modifies quote`isCopied, quote`pendingRedirects, quote`windowsOpened
      ensures Valid()
      ensures quote.formData == old(quote.formData)
      ensures Consultation.Complete(quote.formData) && clipboardWorks ==>
        copied == Some(Consultation.Message(T().consultationForm, quote.formData)) && quote.isCopied &&
        quote.pendingRedirects == old(quote.pendingRedirects) + 1 && quote.windowsOpened == old(quote.windowsOpened)
      ensures Consultation.Complete(quote.formData) && !clipboardWorks ==>
        copied == None && quote.isCopied == old(quote.isCopied) &&
        quote.pendingRedirects == old(quote.pendingRedirects) &&
        quote.windowsOpened == old(quote.windowsOpened) + [ZaloLink(data)]
      ensures !Consultation.Complete(quote.formData) ==>
        copied == None && quote.isCopied == old(quote.isCopied) &&
        quote.pendingRedirects == old(quote.pendingRedirects) && quote.windowsOpened == old(quote.windowsOpened)
    {
      copied := quote.Submit(T().consultationForm, clipboardWorks);
    }

    method CloseScanner()
      modifies this`scannerOpen
      ensures !scannerOpen
    {
      scannerOpen := false;
    }

    /** The props the page passes to the QR viewer: `onScanClick` is only
        supplied while scanning is enabled. */
    function ViewerProps(): (p: ImageModal.Props)
      reads this
      ensures p.isOpen == qrModalOpen && p.imageUrl == activeQrUrl
      ensures p.hasScanAction == activeQrScanEnabled
      ensures p.title == Some(activeQrTitle) && p.description == activeQrDesc
    {
      ImageModal.Props(qrModalOpen, activeQrUrl, activeQrScanEnabled, Some(activeQrTitle), activeQrDesc)
    }

    /** The page's handler for one viewer callback. */
    method RunViewerCallback(c: ImageModal.Callback)
      requires c == ImageModal.OnScanClick ==> activeQrScanEnabled
      modifies this`qrModalOpen, this`scannerOpen
      ensures c == ImageModal.OnClose ==> !qrModalOpen && scannerOpen == old(scannerOpen)
      ensures c == ImageModal.OnScanClick ==> scannerOpen && qrModalOpen == old(qrModalOpen)
    {
      match c
      case OnClose => qrModalOpen := false;
      case OnScanClick => scannerOpen := true;
    }

    /** The viewer's close button or backdrop. */
    method CloseViewer()
      modifies this`qrModalOpen, this`scannerOpen
      ensures !qrModalOpen && scannerOpen == old(scannerOpen)
    {
      RunViewerCallback(ImageModal.OnClose);
    }

    /** The viewer's scan button (present only when scanning is enabled):
        the viewer is closed first, then the scanner opens. */
    method ScanFromViewer()
      requires ImageModal.Render(ViewerProps()).Some?
      requires ImageModal.Render(ViewerProps()).value.scanButton
      modifies this`qrModalOpen, this`scannerOpen
      ensures !qrModalOpen && scannerOpen
      ensures ImageModal.Render(ViewerProps()).None?
    {
      var calls := ImageModal.ScanButtonCalls(ViewerProps());
      RunViewerCallback(calls[0]);
      RunViewerCallback(calls[1]);
    }
  }
}
