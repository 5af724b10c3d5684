/** View-level logic that every step of the codelab repeats in the same words:
    the expand button's label, the visibility of the controls while the product
    loads, and the size and place of the purchase popup. */
module Views {
  import opened Platform

  /** The two string resources the expand button can show. */
  datatype Label = ButtonExpand | ButtonCollapse

  /** The label for a description that is (or is not) expanded: the button
      offers the opposite action. */
  function ExpandButtonText(expanded: bool): (r: Label)
    ensures r == ButtonCollapse <==> expanded
    ensures r == ButtonExpand <==> !expanded
  {
    if expanded then ButtonCollapse else ButtonExpand
  }

  /** Visibility of the loading spinner, the purchase button and the expand button. */
  datatype Visibility = Visibility(progressVisible: bool, purchaseVisible: bool, expandVisible: bool)

  /** updateControlVisibility: while there is no product the spinner shows and
      both buttons hide, and the other way round once it is there. */
  function ControlVisibility(showControls: bool): (v: Visibility)
    ensures v.purchaseVisible == showControls && v.expandVisible == showControls
    ensures v.progressVisible != v.purchaseVisible
  {
    Visibility(!showControls, showControls, showControls)
  }

  /** Offset and length of the popup along one axis of the window. */
  datatype Span = Span(offset: int, size: int)

  /** One axis of showPurchaseDialog: the popup takes half the window's extent
      and is placed at `extent / 2 - size / 2`, with Kotlin's Int division. On a
      window of non-negative extent it lies inside the window, and the margins
      on its two sides differ by at most one pixel. No intermediate value
      leaves the Int range. */
  function CentredHalf(extent: int): (s: Span)
    requires IsInt(extent)
    ensures IsInt(s.offset) && IsInt(s.size)
    ensures 0 <= extent ==> 2 * s.size <= extent <= 2 * s.size + 1
    ensures 0 <= extent ==> 0 <= s.offset && s.offset + s.size <= extent
    ensures 0 <= extent ==> -1 <= s.offset - (extent - s.offset - s.size) <= 1
  {
    var size := Half(extent);
    Span(Half(extent) - Half(size), size)
  }

  /** Where the purchase popup is shown and how large it is. */
  datatype PopupPlacement = PopupPlacement(horizontal: Span, vertical: Span)

  /** showPurchaseDialog's geometry for a window of the given pixel size: half
      the window in each direction, centred, and inside the window. */
  function PurchasePopup(screenWidthPx: int, screenHeightPx: int): (p: PopupPlacement)
    requires IsInt(screenWidthPx) && IsInt(screenHeightPx)
    ensures 0 <= screenWidthPx ==> 0 <= p.horizontal.offset && p.horizontal.offset + p.horizontal.size <= screenWidthPx
    ensures 0 <= screenHeightPx ==> 0 <= p.vertical.offset && p.vertical.offset + p.vertical.size <= screenHeightPx
    ensures 0 <= screenWidthPx ==> 2 * p.horizontal.size <= screenWidthPx <= 2 * p.horizontal.size + 1
    ensures 0 <= screenHeightPx ==> 2 * p.vertical.size <= screenHeightPx <= 2 * p.vertical.size + 1
  {
    PopupPlacement(CentredHalf(screenWidthPx), CentredHalf(screenHeightPx))
  }
}
