/** The quotation request form (components/ConsultationModal.tsx): four
    required text fields, a message built from them, copied to the clipboard,
    and a Zalo chat opened in a new window — after a one-second notice when
    the copy succeeds, at once when it fails. The component's state lives
    while the page does; closing the dialog only stops rendering it. */
module Consultation {
  import opened Types
  import opened Text

  /** The form's values. */
  datatype FormData = FormData(goodsType: string, pol: string, pod: string, volume: string)

  /** The `name` attributes of the four inputs. */
  datatype FormField = GoodsType | Pol | Pod | Volume

  const EmptyForm: FormData := FormData("", "", "", "")

  function FieldValue(f: FormData, k: FormField): string {
    match k
    case GoodsType => f.goodsType
    case Pol => f.pol
    case Pod => f.pod
    case Volume => f.volume
  }

  /** handleChange: `{ ...formData, [name]: value }`. */
  function WithField(f: FormData, k: FormField, v: string): (r: FormData)
    ensures FieldValue(r, k) == v
    ensures forall k' :: k' != k ==> FieldValue(r, k') == FieldValue(f, k')
  {
    match k
    case GoodsType => f.(goodsType := v)
    case Pol => f.(pol := v)
    case Pod => f.(pod := v)
    case Volume => f.(volume := v)
  }

  /** A form is its four fields. */
  lemma FieldsDetermineForm(a: FormData, b: FormData)
    requires forall k :: FieldValue(a, k) == FieldValue(b, k)
    ensures a == b
  {
    assert FieldValue(a, GoodsType) == FieldValue(b, GoodsType);
    assert FieldValue(a, Pol) == FieldValue(b, Pol);
    assert FieldValue(a, Pod) == FieldValue(b, Pod);
    assert FieldValue(a, Volume) == FieldValue(b, Volume);
  }

  /** Every input carries `required`: the browser submits the form only when
      no field is empty (white space alone is accepted). */
  predicate Complete(f: FormData) {
    f.goodsType != "" && f.pol != "" && f.pod != "" && f.volume != ""
  }

  lemma CompleteIsEveryField(f: FormData)
    ensures Complete(f) <==> forall k :: FieldValue(f, k) != ""
  {
    if !Complete(f) {
      assert FieldValue(f, GoodsType) == "" || FieldValue(f, Pol) == "" ||
             FieldValue(f, Pod) == "" || FieldValue(f, Volume) == "";
    }
  }

  /** Typing a value into each input, starting from the empty form, gives a
      form that can be submitted exactly when no value typed is empty. */
  lemma FillingTheForm(a: string, b: string, c: string, d: string)
    ensures var f := WithField(WithField(WithField(WithField(EmptyForm, GoodsType, a), Pol, b), Pod, c), Volume, d);
      f == FormData(a, b, c, d) && (Complete(f) <==> a != "" && b != "" && c != "" && d != "")
  {
    var f := WithField(WithField(WithField(WithField(EmptyForm, GoodsType, a), Pol, b), Pod, c), Volume, d);
    FieldsDetermineForm(f, FormData(a, b, c, d));
  }

  // ---------------------------------------------------------------------
  // The message
  // ---------------------------------------------------------------------

  const Heading: string := "📢 *YÊU CẦU BÁO GIÁ (QUOTATION REQUEST)*"
  const Rule: string := "---------------------------"
  const Closing: string := "Mong nhận được phản hồi sớm!"

  /** One line of the message: an icon, the field's translated label in
      bold (WhatsApp/Zalo `*…*` markup) and the value as typed. */
  function Entry(icon: char, labelText: string, value: string): string {
    [icon] + " *" + labelText + ":* " + value
  }

  /** The message's lines, in order. */
  function MessageLines(t: ConsultationFormTrans, f: FormData): seq<string> {
    [ Heading,
      Rule,
      Entry('\U{1F4E6}', t.goodsType, f.goodsType),
      Entry('\U{1F6A9}', t.pol, f.pol),
      Entry('\U{1F3C1}', t.pod, f.pod),
      Entry('\U{1F4CA}', t.volume, f.volume),
      Rule,
      Closing ]
  }

  /** The template literal, trimmed. */
  function Message(t: ConsultationFormTrans, f: FormData): string {
    Trim("\n" + Join(MessageLines(t, f)) + "\n    ")
  }

  /** Trimming removes exactly the template's padding: the message is its
      lines joined by newlines, from the heading to the closing line. */
  lemma MessageIsItsLines(t: ConsultationFormTrans, f: FormData)
    ensures Message(t, f) == Join(MessageLines(t, f))
    ensures |Heading| <= |Message(t, f)| && Message(t, f)[..|Heading|] == Heading
    ensures |Closing| <= |Message(t, f)| && Message(t, f)[|Message(t, f)| - |Closing|..] == Closing
  {
    var lines := MessageLines(t, f);
    var body := Join(lines);
    JoinStartsWithFirst(lines);
    JoinEndsWithLast(lines);
    assert body[0] == Heading[0] == '\U{1F4E2}';
    assert body[|body| - 1] == Closing[|Closing| - 1] == '!';
    TrimPadded("\n", body, "\n    ");
  }

  lemma HeadingNewlineFree()
    ensures '\n' !in Heading
  {
  }

  lemma RuleAndClosingNewlineFree()
    ensures '\n' !in Rule && '\n' !in Closing
  {
  }

  /** An entry holds a newline only where its label or value does. */
  lemma EntryNewlineFree(icon: char, labelText: string, value: string)
    requires icon != '\n' && '\n' !in labelText && '\n' !in value
    ensures '\n' !in Entry(icon, labelText, value)
  {
    var e := Entry(icon, labelText, value);
    assert e == [icon] + " *" + labelText + ":* " + value;
    forall i | 0 <= i < |e| ensures e[i] != '\n' {
      if i < 3 {
      } else if i < 3 + |labelText| {
        assert e[i] == labelText[i - 3];
      } else if i < 3 + |labelText| + 3 {
      } else {
        assert e[i] == value[i - 6 - |labelText|];
      }
    }
  }

  /** No label and no value holds a newline. */
  predicate SingleLine(t: ConsultationFormTrans, f: FormData) {
    '\n' !in t.goodsType && '\n' !in t.pol && '\n' !in t.pod && '\n' !in t.volume &&
    '\n' !in f.goodsType && '\n' !in f.pol && '\n' !in f.pod && '\n' !in f.volume
  }

  /** When no label or value holds a newline, the message splits back into
      its eight lines. */
  lemma SplitMessage(t: ConsultationFormTrans, f: FormData)
    requires SingleLine(t, f)
    ensures Split(Message(t, f)) == MessageLines(t, f)
  {
    var lines := MessageLines(t, f);
    MessageIsItsLines(t, f);
    HeadingNewlineFree();
    RuleAndClosingNewlineFree();
    EntryNewlineFree('\U{1F4E6}', t.goodsType, f.goodsType);
    EntryNewlineFree('\U{1F6A9}', t.pol, f.pol);
    EntryNewlineFree('\U{1F3C1}', t.pod, f.pod);
    EntryNewlineFree('\U{1F4CA}', t.volume, f.volume);
    assert forall i :: 0 <= i < |lines| ==> '\n' !in lines[i];
    SplitJoin(lines);
  }

  /** The value is what follows the label on its line. */
  lemma EntryValue(icon: char, labelText: string, value: string)
    ensures var e := Entry(icon, labelText, value);
      |labelText| + 6 <= |e| && e[|labelText| + 6..] == value
  {
    var e := Entry(icon, labelText, value);
    assert e == ([icon] + " *" + labelText + ":* ") + value;
  }

  /** With single-line labels and values, the message determines the form:
      each value can be read back from the message. */
  lemma {:induction false} MessageDeterminesForm(t: ConsultationFormTrans, f1: FormData, f2: FormData)
    requires SingleLine(t, f1) && SingleLine(t, f2)
    requires Message(t, f1) == Message(t, f2)
    ensures f1 == f2
  {
    SplitMessage(t, f1);
    SplitMessage(t, f2);
    var l1, l2 := MessageLines(t, f1), MessageLines(t, f2);
    assert l1[2] == l2[2] && l1[3] == l2[3] && l1[4] == l2[4] && l1[5] == l2[5];
    EntryValue('\U{1F4E6}', t.goodsType, f1.goodsType);
    EntryValue('\U{1F4E6}', t.goodsType, f2.goodsType);
    EntryValue('\U{1F6A9}', t.pol, f1.pol);
    EntryValue('\U{1F6A9}', t.pol, f2.pol);
    EntryValue('\U{1F3C1}', t.pod, f1.pod);
    EntryValue('\U{1F3C1}', t.pod, f2.pod);
    EntryValue('\U{1F4CA}', t.volume, f1.volume);
    EntryValue('\U{1F4CA}', t.volume, f2.volume);
  }

  // ---------------------------------------------------------------------
  // The component's state
  // ---------------------------------------------------------------------

  /** What the open dialog shows: the title, the four inputs' values, the
      "copied" notice when it is on, and the submit button's text. */
  datatype FormView = FormView(title: string, values: FormData, notice: Option<string>, submitLabel: string)

  /** The form's state. Its labels come in as props on every render, in
      the page's current language, so they are parameters here. */
  class QuoteForm {
    const zaloLink: string
    var formData: FormData
    var isCopied: bool
    /** Redirect timers started and not yet fired. */
    var pendingRedirects: nat
    /** URLs opened in a new window, oldest first. */
    var windowsOpened: seq<string>

    /** The notice is on only while a redirect is pending, and the only
        window the form ever opens is the Zalo chat. */
    predicate Valid()
      reads this
    {
      (isCopied ==> pendingRedirects > 0) &&
      forall i :: 0 <= i < |windowsOpened| ==> windowsOpened[i] == zaloLink
    }

    constructor (zaloLink: string)
      ensures this.zaloLink == zaloLink
      ensures formData == EmptyForm && !isCopied && pendingRedirects == 0 && windowsOpened == []
      ensures Valid()
    {
      this.zaloLink := zaloLink;
      formData := EmptyForm;
      isCopied := false;
      pendingRedirects := 0;
      windowsOpened := [];
    }

    /** The render: nothing while the dialog is closed; the notice is the
        translated "copied" text. */
    function View(isOpen: bool, t: ConsultationFormTrans): (r: Option<FormView>)
      reads this
      ensures r.None? <==> !isOpen
      ensures r.Some? ==> r.value.values == formData && r.value.title == t.title
      ensures r.Some? ==> (r.value.notice.Some? <==> isCopied)
      ensures r.Some? && isCopied ==> r.value.notice == Some(t.alertCopied)
      ensures r.Some? ==> r.value.submitLabel == t.submit
    {
      if !isOpen then None
      else
        var notice := if isCopied then Some(t.alertCopied) else None;
        Some(FormView(t.title, formData, notice, t.submit))
    }

    /** An input's change event. */
    method HandleChange(k: FormField, v: string)
      modifies this`formData
      ensures formData == WithField(old(formData), k, v)
      ensures FieldValue(formData, k) == v
    {
      formData := WithField(formData, k, v);
    }

    /** A submit attempt, with whether the clipboard write succeeds as a
        parameter. It returns the text placed on the clipboard. An
        incomplete form is not submitted. A successful copy turns the notice
        on and starts the redirect timer; a failed one opens the chat at
        once. */
    method Submit(t: ConsultationFormTrans, clipboardWorks: bool) returns (copied: Option<string>)
      requires Valid()
      modifies this`isCopied, this`pendingRedirects, this`windowsOpened
      ensures Valid()
      ensures !Complete(formData) ==>
        copied == None && isCopied == old(isCopied) &&
        pendingRedirects == old(pendingRedirects) && windowsOpened == old(windowsOpened)
      ensures Complete(formData) && clipboardWorks ==>
        copied == Some(Message(t, formData)) && isCopied &&
        pendingRedirects == old(pendingRedirects) + 1 && windowsOpened == old(windowsOpened)
      ensures Complete(formData) && !clipboardWorks ==>
        copied == None && isCopied == old(isCopied) &&
        pendingRedirects == old(pendingRedirects) && windowsOpened == old(windowsOpened) + [zaloLink]
    {
      if !Complete(formData) {
        return None;
      }
      var message := Message(t, formData);
      if clipboardWorks {
        copied := Some(message);
        isCopied := true;
        pendingRedirects := pendingRedirects + 1;
      } else {
        copied := None;
        windowsOpened := windowsOpened + [zaloLink];
      }
    }

    /** A redirect timer fires: the chat opens and the notice goes off. */
    method TimerFires()
      requires Valid() && pendingRedirects > 0
      modifies this`isCopied, this`pendingRedirects, this`windowsOpened
      ensures Valid()
      ensures windowsOpened == old(windowsOpened) + [zaloLink]
      ensures !isCopied && pendingRedirects == old(pendingRedirects) - 1
    {
      windowsOpened := windowsOpened + [zaloLink];
      isCopied := false;
      pendingRedirects := pendingRedirects - 1;
    }
  }

  /** A complete form submitted with no redirect pending, then left until
      any timer has fired: whether or not the copy worked, the chat has been
      opened exactly once and the notice is off. */
  method SubmitAndWait(form: QuoteForm, t: ConsultationFormTrans, clipboardWorks: bool) returns (copied: Option<string>)
    requires form.Valid() && Complete(form.formData) && form.pendingRedirects == 0
    modifies form`isCopied, form`pendingRedirects, form`windowsOpened
    ensures form.Valid()
    ensures form.formData == old(form.formData)
    ensures form.windowsOpened == old(form.windowsOpened) + [form.zaloLink]
    ensures !form.isCopied && form.pendingRedirects == 0
    ensures copied.Some? <==> clipboardWorks
    ensures clipboardWorks ==> copied == Some(Message(t, form.formData))
  {
    copied := form.Submit(t, clipboardWorks);
    if form.pendingRedirects > 0 {
      form.TimerFires();
    }
  }
}
