/** The QR/image viewer (components/ImageModal.tsx): what it shows is a
    function of its props alone. The download button's fetch and file save
    are not modelled; its clicks that reach the parent are the two
    callbacks, and the scan button calls them close-first. */
module ImageModal {
  import opened Types

  /** The props: `hasScanAction` says whether `onScanClick` was supplied. */
  datatype Props = Props(
    isOpen: bool,
    imageUrl: Option<string>,
    hasScanAction: bool,
    title: Option<string>,
    description: Option<string>)

  /** What is rendered: header text, image, the description paragraph (None:
      not rendered) and whether the scan button is there. */
  datatype Shown = Shown(header: string, image: string, caption: Option<string>, scanButton: bool)

  /** The parent callbacks a click can trigger. */
  datatype Callback = OnClose | OnScanClick

  const DefaultHeader: string := "QR Code"
  const DefaultCaption: string := "Quét mã này để kết nối"

  /** The component's render: nothing when closed or without an image URL. */
  function Render(p: Props): (r: Option<Shown>)
    ensures r.None? <==> !p.isOpen || !Truthy(p.imageUrl)
    ensures r.Some? ==> r.value.image == p.imageUrl.value
    ensures r.Some? ==> r.value.header != ""
    ensures r.Some? && Truthy(p.title) ==> r.value.header == p.title.value
    ensures r.Some? && !Truthy(p.title) ==> r.value.header == DefaultHeader
    ensures r.Some? ==> (r.value.caption.None? <==> p.description == Some(""))
    ensures r.Some? && p.description.None? ==> r.value.caption == Some(DefaultCaption)
    ensures r.Some? && Truthy(p.description) ==> r.value.caption == p.description
    ensures r.Some? ==> (r.value.scanButton <==> p.hasScanAction)
  {
    if !p.isOpen || !Truthy(p.imageUrl) then None
    else
      var header := if Truthy(p.title) then p.title.value else DefaultHeader;
      var caption :=
        if p.description.None? || p.description.value != "" then
          Some(if Truthy(p.description) then p.description.value else DefaultCaption)
        else None;
      Some(Shown(header, p.imageUrl.value, caption, p.hasScanAction))
  }

  /** The scan button's handler: `onClose()` then `onScanClick()`. It exists
      only when the scan button is rendered. */
  function ScanButtonCalls(p: Props): (calls: seq<Callback>)
    requires Render(p).Some? && Render(p).value.scanButton
    ensures |calls| == 2 && calls[0] == OnClose && calls[1] == OnScanClick
  {
    [OnClose, OnScanClick]
  }
}
