/** The complete MainActivity, without animation: the list arrangement is
    chosen once, in onCreate, from the orientation and from whether the window
    is narrower than 600dp. */
module Complete {
  import opened Platform
  import opened Views
  import Step05

  /** `screenWidthDp < 600`: exactly the windows for which step05 picks a
      default (not large) constraint set. */
  function IsSmall(config: Configuration): (r: bool)
    ensures r <==> !(config.screenWidthDp >= Step05.LargeWidthDp)
  {
    config.screenWidthDp < 600
  }

  /** The reviews list: a two-column grid exactly in landscape, otherwise a
      vertical list. */
  function ReviewsArrangement(isLandscape: bool): (a: Arrangement)
    ensures a == Grid(2) <==> isLandscape
    ensures a == LinearVertical <==> !isLandscape
  {
    if isLandscape then Grid(2) else LinearVertical
  }

  /** The suggestions list: a horizontal list whenever the window is small,
      whatever the orientation; otherwise a grid of 3 in landscape and of 2 in
      portrait. */
  function SuggestionsArrangement(isSmall: bool, isLandscape: bool): (a: Arrangement)
    ensures a == LinearHorizontal <==> isSmall
    ensures !isSmall ==> a == Grid(if isLandscape then 3 else 2)
  {
    if isSmall then LinearHorizontal
    else if isLandscape then Grid(3)
    else Grid(2)
  }

  /** The small windows are exactly those for which step05 picks a default
      constraint set. */
  lemma IsSmallComplementsLarge(config: Configuration)
    ensures IsSmall(config) <==>
      Step05.SelectConstraintSet(config) in {Step05.ConstraintSetDefault, Step05.ConstraintSetDefaultLand}
  {
  }

  /** For every configuration, the arrangement chosen here is the one step05
      applies when the transition to the constraint set its selector picks
      completes. */
  lemma AgreesWithStep05(config: Configuration)
    ensures Step05.TransitionArrangement(Step05.SelectConstraintSet(config))
      == Some(ListArrangement(
           ReviewsArrangement(IsLandscape(config)),
           SuggestionsArrangement(IsSmall(config), IsLandscape(config))))
  {
  }

  class MainActivity {
    /** The layout managers of the reviews and suggestions lists. */
    var reviewsLayout: Arrangement
    var suggestedLayout: Arrangement
    var controls: Visibility

    /** onCreate: both lists are arranged for the configuration the activity
        is created with. */
    constructor (config: Configuration, layoutControls: Visibility)
      ensures controls == layoutControls
      ensures reviewsLayout == ReviewsArrangement(IsLandscape(config))
      ensures suggestedLayout == SuggestionsArrangement(IsSmall(config), IsLandscape(config))
      ensures Step05.TransitionArrangement(Step05.SelectConstraintSet(config))
        == Some(ListArrangement(reviewsLayout, suggestedLayout))
    {
      controls := layoutControls;
      var isLandscape := config.orientation == Landscape;
      var isSmall := config.screenWidthDp < 600;
      reviewsLayout := if isLandscape then Grid(2) else LinearVertical;
      if isSmall {
        suggestedLayout := LinearHorizontal;
      } else if isLandscape {
        suggestedLayout := Grid(3);
      } else {
        suggestedLayout := Grid(2);
      }
      AgreesWithStep05(config);
    }

    /** showPurchaseDialog: the same geometry as step05. */
    method ShowPurchaseDialog(screenWidthPx: int, screenHeightPx: int) returns (shown: PopupPlacement)
      requires IsInt(screenWidthPx) && IsInt(screenHeightPx)
      ensures shown == PurchasePopup(screenWidthPx, screenHeightPx)
      ensures 0 <= screenWidthPx ==> 2 * shown.horizontal.size <= screenWidthPx <= 2 * shown.horizontal.size + 1
      ensures 0 <= screenHeightPx ==> 2 * shown.vertical.size <= screenHeightPx <= 2 * shown.vertical.size + 1
    {
      var popupWidthPx := Half(screenWidthPx);
      var popupHeightPx := Half(screenHeightPx);
      var popupX := Half(screenWidthPx) - Half(popupWidthPx);
      var popupY := Half(screenHeightPx) - Half(popupHeightPx);
      shown := PopupPlacement(Span(popupX, popupWidthPx), Span(popupY, popupHeightPx));
    }

    /** updateControlVisibility */
    method UpdateControlVisibility(showControls: bool)
      modifies this`controls
      ensures controls == ControlVisibility(showControls)
    {
      controls := Visibility(!showControls, showControls, showControls);
    }
  }
}
