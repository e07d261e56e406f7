# NCV digital business card — Dafny model

NCV is a single-page web app that shows a company employee's digital
business card. It has a card page with contact links, QR codes, sample
projects, a downloadable vCard and a quotation request form. An admin page
creates, edits and deletes cards. The cards live as one JSON list in the
browser's key-value store under the key `ncv_cards_db`. A card is opened
with `?id=<card id>`, and `?admin=true` opens the admin page.

This project models the logic of that app and proves properties of it:

| module | file | models |
|---|---|---|
| `Types` | `types.dfy` | the records of `types.ts`, optional values, JavaScript truthiness of strings |
| `Constants` | `constants.dfy` | the bundled default card `DEFAULT_PROFILE` (`constants.ts`) |
| `Text` | `text.dfy` | JavaScript `join('\n')`, `split('\n')` and `trim()` |
| `Store` | `store.dfy` | the key-value store and the admin loader/saver (`getProfiles`, `saveProfiles`) |
| `ProfileEditor` | `profile_editor.dfy` | the pure record and list transforms of the admin editor |
| `Admin` | `admin.dfy` | the admin component's state (`profiles`, `editingId`, `editForm`) and its handlers |
| `Resolver` | `resolver.dfy` | the root component: admin flag, id lookup, default fallback, page title |
| `Card` | `card.dfy` | the card page's state, the social-link dispatch, the QR viewer wiring and the vCard text |
| `ImageModal` | `image_modal.dfy` | the QR viewer's display rules and its scan button |
| `Consultation` | `consultation.dfy` | the quotation form: its fields, the message and the submit branches |

State that the components change in place is a Dafny `class` whose methods
have `modifies` clauses: `Store.Storage`, `Admin.AdminPanel`,
`Resolver.Root`, `Card.CardApp` and `Consultation.QuoteForm`. Each method
states its whole new state: every field in its `modifies` clause is given
its new value, and the clause leaves every other field unchanged. Pure transforms are functions, and lemmas
relate them. Each field-level edit is stated as a lens: the written field
reads back the written value, and every other field reads as before.

JavaScript truthiness is explicit (`Types.Truthy`): an empty string counts
as absent. So an empty `editingId` shows the list, `?id=` with an empty
value shows the default card, and an empty `qrImage` falls through to the
link's `href`.

Browser effects are parameters or recorded events:

- The fresh id of a new card (a timestamp) is a parameter.
- The user's answer to the delete confirmation is a parameter.
- Whether the clipboard write succeeds is a parameter.
- A redirect timer firing is its own method.
- Opening a URL in a new window appends it to a `windowsOpened` list.

## Model

| member | source | states |
|---|---|---|
| Store.Storage.constructor | Admin.tsx:10-21 | the model's stand-in for the browser's existing `localStorage`, which `getItem`/`setItem` read and write: the store starts with exactly the given contents |
| Store.Storage.GetItem | Admin.tsx:10 | a key reads as absent exactly when the key is not in the store; otherwise it reads the stored list |
| Store.Storage.SetItem | Admin.tsx:21 | writing a key replaces that key's value and leaves every other key alone |
| Store.GetProfiles | Admin.tsx:9-18 | an absent collection is seeded: `[DEFAULT_PROFILE]` is written and returned; a present one, even an empty list, is returned as stored with no write; afterwards the store holds what was returned |
| Store.SaveProfiles | Admin.tsx:20-22 | the stored collection becomes exactly the given list; other keys are unchanged |
| Store.LoadTwice | Admin.tsx:9-18 | loading is idempotent: a second load returns the same list as the first; the first load seeds an empty store with the default card, and returns a present collection unchanged without writing |
| ProfileEditor.FieldOf | types.ts:51-73 | reading a top-level field yields a value tagged with that field |
| ProfileEditor.UpdateForm | Admin.tsx:76-78 | `updateForm` sets the named top-level field to the value; every other top-level field is unchanged |
| ProfileEditor.ProfileFieldsDetermine | types.ts:51-73 | two profiles that agree on every top-level field are equal, so the frame of `UpdateForm` fixes its result |
| ProfileEditor.UpdateFormOwnValue | Admin.tsx:76-78 | writing back a field's own value changes nothing |
| ProfileEditor.UpdateFormOverwrites | Admin.tsx:76-78 | a second write to the same field overrides the first |
| ProfileEditor.TranslationFieldOf | types.ts:13-26 | reading a field of one language's content yields a value tagged with that field |
| ProfileEditor.SetTranslationField | Admin.tsx:85-88 | `{ ...content[lang], [field]: value }` sets that field and keeps the other fields of the language |
| ProfileEditor.TranslationFieldsDetermine | types.ts:13-26 | two translations that agree on every field are equal |
| ProfileEditor.OtherLanguage | types.ts:1 | the other language differs from the given one |
| ProfileEditor.SetLanguage | Admin.tsx:83-89 | `{ ...content, [lang]: t }` sets that language and keeps the other one |
| ProfileEditor.UpdateContent | Admin.tsx:80-91 | `updateContent` changes only `content[lang][field]`: the field reads the new value, the other fields of that language, the other language and every other top-level field are unchanged |
| ProfileEditor.UpdateAsset | Admin.tsx:93-98 | `updateAsset` changes only `assets[field]` to the value; the other assets and every other top-level field are unchanged |
| ProfileEditor.EditDescription | Admin.tsx:166-167 | the description textarea's edit stores the text split on newlines, in the edited language only |
| ProfileEditor.DescriptionText | Admin.tsx:166 | the textarea text of a language's description (its lines joined by newlines); `ProfileEditor.EditedDescriptionShowsText` and `ProfileEditor.DescriptionRoundTrip` state that it and the edit undo each other |
| ProfileEditor.EditedDescriptionShowsText | Admin.tsx:166-167 | after an edit the textarea shows exactly the typed text |
| ProfileEditor.DescriptionRoundTrip | Admin.tsx:191-192 | submitting the shown text unchanged gives back the same profile, when the description has at least one line and no line holds a newline |
| ProfileEditor.NewDraft | Admin.tsx:35-44 | the new draft is the default card except for the fresh id, the name "New User" and the Vietnamese title "Tên Mới"; the English content and every other field are the default's |
| ProfileEditor.AnyWithId | Admin.tsx:64 | `profiles.some(p => p.id === id)` holds exactly when some entry has that id |
| ProfileEditor.ReplaceById | Admin.tsx:65 | the mapped list has the same length; every entry with the draft's id becomes the draft and every other entry keeps its value and position |
| ProfileEditor.Upsert | Admin.tsx:63-68 | with the id present, the list keeps its length and each entry with that id becomes the draft; with the id absent, the draft is appended as the last entry and the earlier entries are unchanged |
| ProfileEditor.RemoveById | Admin.tsx:56 | the filter keeps exactly the entries whose id differs; an unknown id leaves the list unchanged |
| ProfileEditor.RemoveByIdKeepsOrder | Admin.tsx:56 | the remaining entries keep their original relative order |
| ProfileEditor.RemoveByIdLength | Admin.tsx:56 | the filter drops exactly as many entries as carry the id |
| ProfileEditor.UniqueCountAtMostOne | Admin.tsx:56 | with unique ids an id occurs at most once, and exactly once when present |
| ProfileEditor.NoIdCountZero | Admin.tsx:56 | an absent id occurs zero times |
| ProfileEditor.RemovePresentIdShortensByOne | Admin.tsx:54-60 | with unique ids, deleting a present id shortens the list by one, an absent id leaves the length alone, and the id is gone afterwards |
| ProfileEditor.UpsertKeepsUniqueIds | Admin.tsx:62-68 | saving keeps ids unique |
| ProfileEditor.RemoveByIdKeepsUniqueIds | Admin.tsx:54-60 | deleting keeps ids unique |
| ProfileEditor.CreateThenSaveAppends | Admin.tsx:35-47 | saving a new draft whose id is unused appends it to the list |
| ProfileEditor.EditThenSaveReplaces | Admin.tsx:62-78 | editing one non-id field of a stored card and saving replaces that card in place; the other cards are unchanged |
| Admin.AdminPanel.constructor | Admin.tsx:25-29 | the panel starts with an empty list, no editing id and the default card as the draft |
| Types.Truthy | Admin.tsx:100 | JavaScript truthiness of an optional string: present and non-empty; its consequences are stated by `Admin.AdminPanel.CurrentScreen`, `Resolver.Resolve` and `Card.SocialActionOf` |
| Admin.AdminPanel.CurrentScreen | Admin.tsx:100 | the editor is shown exactly when `editingId` is truthy; null or empty shows the list |
| Admin.AdminPanel.Mount | Admin.tsx:31-33 | the mount effect loads the collection as `getProfiles` does, seeding an absent store; the draft and editing id are unchanged |
| Admin.AdminPanel.CreateNew | Admin.tsx:35-47 | the draft becomes the new-card template and editing starts on its id; the list and the store are untouched |
| Admin.AdminPanel.Edit | Admin.tsx:49-52 | the draft becomes the chosen card and editing starts on its id; the list is untouched |
| Admin.AdminPanel.Delete | Admin.tsx:54-60 | when confirmed, every entry with the id is removed and the result persisted; when not confirmed nothing changes |
| Admin.AdminPanel.Save | Admin.tsx:62-73 | the list becomes the upsert of the draft, the store holds exactly the new list, and editing ends so the list is shown |
| Admin.AdminPanel.Back | Admin.tsx:105 | the back button ends editing and leaves the list unchanged |
| Admin.AdminPanel.SetFormField | Admin.tsx:121-129 | an input of the editor applies `updateForm` to the draft |
| Admin.AdminPanel.SetContentField | Admin.tsx:157-186 | an input of the editor applies `updateContent` to the draft |
| Admin.AdminPanel.SetAsset | Admin.tsx:140-144 | an input of the editor applies `updateAsset` to the draft |
| Admin.AdminPanel.SetDescription | Admin.tsx:166-167 | the description textarea's edit; afterwards it shows the typed text |
| Admin.CreateRenameSave | Admin.tsx:35-73 | create, rename and save appends exactly the renamed new card to the list, writes that list under the store key and nothing else, keeps the renamed draft and returns to the list |
| Resolver.FindById | index.tsx:40 | `profiles.find` finds a card exactly when one has the id, and returns the first such card |
| Resolver.Resolve | index.tsx:25-45 | `admin=true` selects the admin view and its title, with no lookup; otherwise the card view; a stored card is selected exactly when the id is truthy, the store holds a collection and some entry has the id; a selected card comes from the store, has the id and gives the page its Vietnamese title; otherwise the title is left alone |
| Resolver.CardOf | index.tsx:15 | the card shown is the selected one, else the initial default card |
| Resolver.Render | index.tsx:52-56 | the admin view renders the admin page; otherwise the card page with the resolved card |
| Resolver.AdminIgnoresStore | index.tsx:28-31 | in admin mode the stored collection plays no part and the admin page is rendered |
| Resolver.ResolveStoredCard | index.tsx:35-44 | with unique ids, `?id=` of a stored card selects that card and sets its Vietnamese title |
| Resolver.ResolveFirstMatch | index.tsx:40 | with duplicate ids, the first stored card with the id is selected |
| Resolver.ResolveFallsBackToDefault | index.tsx:15 | with no id, an empty id, no stored collection or no match, the default card is shown and the title is left alone |
| Resolver.SaveThenResolve | index.tsx:35-44 | a card the admin panel saved with a non-empty id is what `?id=` then selects |
| Resolver.DeleteThenResolve | index.tsx:35-45 | after deleting an id, `?id=` of it shows the default card |
| Resolver.Root.constructor | index.tsx:14-15 | the root starts in card view with the default card |
| Resolver.Root.Mount | index.tsx:17-46 | the effect applies the resolution: view, card and page title change as `Resolve` says, and the store is never written |
| Resolver.Root.Page | index.tsx:52-56 | the admin view renders the admin page; otherwise the card page with the current card |
| Resolver.LoadPage | index.tsx:13-56 | loading the page gives the resolved view, the selected card or else the default card, and the resolved title or else the host page's title; it renders the resolution of the query against the store and the root's own effect writes nothing to the store; in admin view the admin panel then mounts (`Admin.AdminPanel.Mount`) and seeds an absent key |
| Card.SocialActionOf | App.tsx:45-51 | a truthy `qrImage` shows that QR titled with the link's label; otherwise a truthy `href` is opened; otherwise nothing happens |
| Card.CallLink | App.tsx:124 | the call link is `tel:` followed by the phone number |
| Card.ZaloLink | App.tsx:382 | the chat link is `https://zalo.me/` followed by the Zalo number |
| Card.LinksDetermineContacts | App.tsx:124 | equal call links mean equal phone numbers, and equal chat links mean equal Zalo numbers |
| Card.JoinAfterHeader | App.tsx:55-56 | a join of lines starting with BEGIN and VERSION is that header followed by the rest |
| Card.PaddedTrims | App.tsx:54-66 | trimming the template removes exactly its leading newline and trailing indentation |
| Card.NoteText | App.tsx:64 | the NOTE value: the second Vietnamese description line, or the text `undefined` when there is none; `Card.VCardProperties` states where it appears |
| Card.VCard | App.tsx:54-66 | the trimmed vCard template; `Card.VCardIsItsLines` and `Card.VCardProperties` state its lines |
| Card.VCardIsItsLines | App.tsx:54-66 | the vCard is its eleven lines joined by newlines; it starts with `BEGIN:VCARD` and `VERSION:3.0` and ends with `END:VCARD` |
| Card.VCardLinesNewlineFree | App.tsx:55-65 | no vCard line holds a newline when the inserted values do not |
| Card.VCardProperties | App.tsx:54-66 | splitting the vCard on newlines gives its eleven properties: FN the English title, N the English title followed by `;;;;`, TEL the phone number, TITLE the English subtitle, EMAIL, ORG and URL the company's fixed values, NOTE the second Vietnamese description line |
| Card.CardApp.constructor | App.tsx:16-33 | the page starts in Vietnamese on the home tab with no project, the viewer closed with scan enabled, the dialogs closed, and an empty quotation form wired to the card's Zalo link, with the notice off, no redirect pending and no chat window opened |
| Card.CardApp.CurrentScreen | App.tsx:208-356 | the home tab shows the home face; the projects tab shows the selected project's detail, or the list when none is selected |
| Card.CardApp.SwitchLang | App.tsx:35 | switching language sets the language |
| Card.CardApp.OpenQr | App.tsx:37-43 | `handleOpenQr` records url, title, description and scan switch (on by default) and opens the viewer |
| Card.CardApp.SocialClick | App.tsx:45-51 | a QR image opens the viewer with that image, the label as title and scan on, and opens no window; otherwise an `href` opens a window and the viewer's state is unchanged; a link with neither changes nothing |
| Card.CardApp.AvatarClick | App.tsx:103 | the avatar opens the viewer on the avatar picture with the current title, an empty description and scan off, so the viewer gets no scan action |
| Card.CardApp.PersonalQrClick | App.tsx:108 | the QR button opens the viewer on the main QR titled "Personal QR" with scan on |
| Card.CardApp.SelectHomeTab | App.tsx:300-303 | the Home tab sets the tab to home and clears the selected project |
| Card.CardApp.SelectProjectsTab | App.tsx:312 | the Projects tab changes only the tab, so a project selected before is shown again |
| Card.CardApp.SelectProject | App.tsx:260 | choosing a project selects it |
| Card.CardApp.BackToProjects | App.tsx:213 | the detail view's back button clears the selected project |
| Card.CardApp.OpenConsultation | App.tsx:160 | the consult button opens the quotation dialog |
| Card.CardApp.CloseConsultation | App.tsx:380 | closing the quotation dialog |
| Card.CardApp.CloseScanner | App.tsx:374 | closing the scanner |
| Card.CardApp.QuoteView | App.tsx:378-383 | the quotation dialog is rendered exactly while it is open, with the form's values and the current language's title and submit label; the copied notice, in that language, shows exactly while the form is in its copied state |
| Card.CardApp.SubmitQuote | App.tsx:381-382 | an incomplete form changes nothing; a complete one with a working clipboard copies the message in the current language's labels, sets the copied notice and schedules one redirect; without a clipboard it opens the card's Zalo link at once; the form's values are unchanged |
| Card.CardApp.ViewerProps | App.tsx:363-370 | the viewer gets the recorded image, title and description, and a scan action exactly while scanning is enabled |
| Card.CardApp.RunViewerCallback | App.tsx:366-367 | the viewer's close callback closes it; its scan callback opens the scanner |
| Card.CardApp.CloseViewer | App.tsx:366 | closing the viewer leaves the scanner as it was |
| Card.CardApp.ScanFromViewer | components/ImageModal.tsx:74-79 | the scan button, present only with scanning enabled, leaves the viewer closed and the scanner open |
| ImageModal.Render | components/ImageModal.tsx:14-79 | nothing is rendered when closed or without an image URL; the header is the title, or "QR Code" when it is missing or empty; the description paragraph is hidden exactly when the description is empty; its text is the description or the default caption when the description is missing; the scan button is present exactly when a scan callback is supplied |
| ImageModal.ScanButtonCalls | components/ImageModal.tsx:76-79 | the scan button calls `onClose` and then `onScanClick` |
| Consultation.WithField | components/ConsultationModal.tsx:23-25 | `handleChange` sets the named field and leaves the other three unchanged |
| Consultation.FieldsDetermineForm | components/ConsultationModal.tsx:13-18 | two forms with the same four fields are equal |
| Consultation.Complete | components/ConsultationModal.tsx:82 | the four `required` inputs all hold text; `Consultation.CompleteIsEveryField` states it field by field |
| Consultation.CompleteIsEveryField | components/ConsultationModal.tsx:82 | the form can be submitted exactly when none of the four required fields is empty |
| Consultation.FillingTheForm | components/ConsultationModal.tsx:13-25 | typing a value into each field of the empty form gives those values, submittable exactly when none is empty |
| Consultation.Message | components/ConsultationModal.tsx:30-39 | the trimmed quotation message; `Consultation.MessageIsItsLines`, `Consultation.SplitMessage` and `Consultation.MessageDeterminesForm` state its lines and that it determines the form |
| Consultation.MessageIsItsLines | components/ConsultationModal.tsx:30-39 | the trimmed message is its eight lines joined by newlines, from the heading to the closing line |
| Consultation.EntryNewlineFree | components/ConsultationModal.tsx:33-36 | a field line holds a newline only where its label or value does |
| Consultation.SplitMessage | components/ConsultationModal.tsx:30-39 | with single-line labels and values, the message splits into the heading, a rule, the goods type, POL, POD and volume lines, a rule and the closing line, in that order |
| Consultation.EntryValue | components/ConsultationModal.tsx:33-36 | a field line's value is what follows its label |
| Consultation.MessageDeterminesForm | components/ConsultationModal.tsx:30-39 | with single-line labels and values, the message determines the four values |
| Consultation.QuoteForm.constructor | components/ConsultationModal.tsx:13-19 | the form starts with all four fields empty, the notice off and nothing opened |
| Consultation.QuoteForm.View | components/ConsultationModal.tsx:21 | nothing is rendered while closed; when open the title, values and submit label are shown, and the "copied" notice exactly while `isCopied` holds |
| Consultation.QuoteForm.HandleChange | components/ConsultationModal.tsx:23-25 | an input's change sets that field only |
| Consultation.QuoteForm.Submit | components/ConsultationModal.tsx:27-56 | an incomplete form is not submitted; on a successful copy the message is on the clipboard, the notice turns on and a redirect is pending; on a failed copy the chat opens at once and the notice is unchanged; the notice is only on while a redirect is pending, and only the chat link is ever opened |
| Consultation.QuoteForm.TimerFires | components/ConsultationModal.tsx:46-50 | when the delay ends the chat opens and the notice turns off |
| Consultation.SubmitAndWait | components/ConsultationModal.tsx:40-55 | whether or not the copy works, a complete submission ends with the chat opened exactly once, the notice off, no redirect pending and the form's values unchanged |
| Text.Split | Admin.tsx:167 | `split('\n')` gives one more piece than there are newlines, and no piece holds a newline |
| Text.Join | Admin.tsx:166 | `join('\n')`; `Text.JoinSplit` and `Text.SplitJoin` state that it and `Text.Split` undo each other |
| Text.JoinSplit | Admin.tsx:166-167 | joining the pieces of a split gives back the text |
| Text.SplitJoin | Admin.tsx:166-167 | splitting a join of one or more newline-free lines gives back the lines |
| Text.EmptyLinesRoundTrip | Admin.tsx:166-167 | an empty description comes back as one empty line |
| Text.TrimStart | App.tsx:66 | `trim` drops exactly the leading white space |
| Text.TrimEnd | App.tsx:66 | `trim` drops exactly the trailing white space |
| Text.Trim | App.tsx:66 | `trim()`, the composition of `Text.TrimStart` and `Text.TrimEnd`, whose contracts state what each drops; `Text.TrimPadded` states the result on padded text |
| Text.TrimPadded | App.tsx:54-66 | trimming white-space padding around text with visible ends gives back that text |

## Left out

- Storage: the browser's `localStorage` and the JSON encoding are not modelled. The store holds decoded lists, so the JSON round trip is taken to be lossless.
- Corrupt JSON in the store throws in the app. The app does not handle it, so the model does not either.
- An empty string stored under the key is falsy and would be reseeded. The model's store holds lists only, so this case is not represented.
- The fresh id of a new card (`Date.now()`) is a parameter of `Admin.AdminPanel.CreateNew`.
- `window.confirm`, `alert`, `window.open`, `navigator.share` and `navigator.clipboard` are parameters or events. A confirmation is a boolean, a clipboard write's success is a boolean, and an opened window is an entry in `windowsOpened`.
- `setTimeout` timing is left out. A pending redirect is a counter, and the timer firing is the method `Consultation.QuoteForm.TimerFires`.
- Resolver.LoadPage: it covers the root component's construction and mount effect only. In admin view the child admin panel then mounts; that is `Admin.AdminPanel.Mount`, which seeds an absent store key, and the two are not composed into one method.
- The loader's fade-out and removal at mount (index.tsx:18-23) are left out.
- The root error fallback (index.tsx:49, 58-73) is left out.
- The QR scanner dialog (components/QRScannerModal.tsx) uses the camera. It is not part of this model, beyond its open flag.
- The image download in the viewer (`fetch`, Blob, object URLs, and the fallback window) is left out.
- The vCard download itself (Blob, anchor click, file name) is left out. Only the vCard text is modelled.
- `handleShare` (App.tsx:77-92) only calls browser APIs and is left out.
- The JSX layout, CSS classes and animations are left out.
- React batches state updates asynchronously. Each handler is modelled as one atomic state change, which matches the state after the batch.
- The editor's updaters take untyped field names. Here the field and its value are one typed datatype, so a value can never be stored under a field of another type.

Three details where the code differs from a natural reading of the app's
description:

- Only an absent key is reseeded. A stored empty list (`[]`) is truthy, so the admin page then shows an empty list.
- A delete removes every card with the id, not just one.
- `?id=` with an empty value shows the default card, because an empty string is falsy.
