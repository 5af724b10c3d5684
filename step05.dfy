/** The finished MainActivity driven by MotionLayout: the configuration picks
    one of four constraint sets from the window width and orientation, and
    when the transition to a set completes both lists are rearranged for it. */
module Step05 {
  import opened Platform
  import opened Views
  import Step04

  /** The ids a transition can complete at: the four constraint sets of the
      motion scene, and any other id. */
  datatype StateId =
    | ConstraintSetDefault
    | ConstraintSetDefaultLand
    | ConstraintSetLarge
    | ConstraintSetLargeLand
    | OtherState(id: int)

  /** The smallest width, in dp, that gets a large constraint set. */
  const LargeWidthDp: int := 600

  /** configurationUpdate's choice: a large set exactly when the width is at
      least 600dp (600 itself included), its landscape variant exactly when
      the orientation is landscape; always one of the four sets. */
  function SelectConstraintSet(config: Configuration): (id: StateId)
    ensures !id.OtherState?
    ensures id in {ConstraintSetLarge, ConstraintSetLargeLand} <==> config.screenWidthDp >= LargeWidthDp
    ensures id in {ConstraintSetDefaultLand, ConstraintSetLargeLand} <==> IsLandscape(config)
  {
    var isLandscape := IsLandscape(config);
    if config.screenWidthDp >= LargeWidthDp then
      (if isLandscape then ConstraintSetLargeLand else ConstraintSetLarge)
    else
      (if isLandscape then ConstraintSetDefaultLand else ConstraintSetDefault)
  }

  /** The choice at the boundary and on either side of it. */
  lemma SelectorExamples()
    ensures SelectConstraintSet(Configuration(Portrait, 400, 700)) == ConstraintSetDefault
    ensures SelectConstraintSet(Configuration(Landscape, 600, 400)) == ConstraintSetLargeLand
    ensures SelectConstraintSet(Configuration(Landscape, 599, 400)) == ConstraintSetDefaultLand
    ensures SelectConstraintSet(Configuration(Undefined, 600, 400)) == ConstraintSetLarge
  {
  }

  /** The transition listener's table: the arrangement of the two lists for
      each constraint set, nothing for any other id. Reviews are a two-column
      grid exactly in the landscape sets; suggestions are a horizontal list
      exactly in the default sets, a grid of 2 in large and of 3 in large_land. */
  function TransitionArrangement(currentId: StateId): (r: Option<ListArrangement>)
    ensures r.None? <==> currentId.OtherState?
    ensures r.Some? ==> (r.value.reviews == Grid(2) <==> currentId in {ConstraintSetDefaultLand, ConstraintSetLargeLand})
    ensures r.Some? ==> (r.value.reviews == LinearVertical <==> currentId in {ConstraintSetDefault, ConstraintSetLarge})
    ensures r.Some? ==> (r.value.suggestions == LinearHorizontal <==> currentId in {ConstraintSetDefault, ConstraintSetDefaultLand})
    ensures r.Some? && currentId == ConstraintSetLarge ==> r.value.suggestions == Grid(2)
    ensures r.Some? && currentId == ConstraintSetLargeLand ==> r.value.suggestions == Grid(3)
  {
    match currentId
    case ConstraintSetDefault => Some(ListArrangement(LinearVertical, LinearHorizontal))
    case ConstraintSetDefaultLand => Some(ListArrangement(Grid(2), LinearHorizontal))
    case ConstraintSetLarge => Some(ListArrangement(LinearVertical, Grid(2)))
    case ConstraintSetLargeLand => Some(ListArrangement(Grid(2), Grid(3)))
    case OtherState(_) => None
  }

  /** The step04 layout that plays the part of each constraint set. */
  function Step04Layout(currentId: StateId): Step04.LayoutId
  {
    match currentId
    case ConstraintSetDefault => Step04.ActivityMain
    case ConstraintSetDefaultLand => Step04.ActivityMainLand
    case ConstraintSetLarge => Step04.ActivityMainW400
    case ConstraintSetLargeLand => Step04.ActivityMainW600Land
    case OtherState(id) => Step04.OtherLayout(id)
  }

  /** The table is the one step04's preLayoutChange applies, set for layout:
      default for activity_main, default_land for _land, large for _w400 and
      large_land for _w600_land, and no change for any other id in both. */
  lemma TableMatchesStep04(currentId: StateId)
    ensures TransitionArrangement(currentId) == Step04.LayoutArrangement(Step04Layout(currentId))
  {
  }

  class MainActivity {
    /** The constraint set motionMain was last asked to transition to. */
    var requestedState: Option<StateId>
    /** The layout managers of recyclerReviews and recyclerSuggested (None:
        whatever the layout declares). */
    var reviewsLayout: Option<Arrangement>
    var suggestedLayout: Option<Arrangement>
    var controls: Visibility

    /** onCreate: on first load the constraint set of the current
        configuration is requested. */
    constructor (config: Configuration, layoutControls: Visibility)
      ensures requestedState == Some(SelectConstraintSet(config))
      ensures reviewsLayout.None? && suggestedLayout.None? && controls == layoutControls
    {
      requestedState := None;
      reviewsLayout, suggestedLayout := None, None;
      controls := layoutControls;
      new;
      ConfigurationUpdate(config);
    }

    /** onConfigurationChanged: every later configuration is applied the same way. */
    method OnConfigurationChanged(newConfig: Configuration)
      modifies this`requestedState
      ensures requestedState == Some(SelectConstraintSet(newConfig))
    {
      ConfigurationUpdate(newConfig);
    }

    /** configurationUpdate: transitionToState with the selected constraint set. */
    method ConfigurationUpdate(config: Configuration)
      modifies this`requestedState
      ensures requestedState == Some(SelectConstraintSet(config))
    {
      var isLandscape := config.orientation == Landscape;
      var constraintSetResId;
      if config.screenWidthDp >= LargeWidthDp {
        constraintSetResId := if isLandscape then ConstraintSetLargeLand else ConstraintSetLarge;
      } else {
        constraintSetResId := if isLandscape then ConstraintSetDefaultLand else ConstraintSetDefault;
      }
      requestedState := Some(constraintSetResId);
    }

    /** onTransitionCompleted: both lists are rearranged for a known
        constraint set; for any other id they stay as they are. */
    method OnTransitionCompleted(currentId: StateId)
      modifies this`reviewsLayout, this`suggestedLayout
      ensures TransitionArrangement(currentId).Some? ==>
        && reviewsLayout == Some(TransitionArrangement(currentId).value.reviews)
        && suggestedLayout == Some(TransitionArrangement(currentId).value.suggestions)
      ensures TransitionArrangement(currentId).None? ==>
        reviewsLayout == old(reviewsLayout) && suggestedLayout == old(suggestedLayout)
    {
      match currentId {
        case ConstraintSetDefault =>
          reviewsLayout := Some(LinearVertical);
          suggestedLayout := Some(LinearHorizontal);
        case ConstraintSetDefaultLand =>
          reviewsLayout := Some(Grid(2));
          suggestedLayout := Some(LinearHorizontal);
        case ConstraintSetLarge =>
          reviewsLayout := Some(LinearVertical);
          suggestedLayout := Some(Grid(2));
        case ConstraintSetLargeLand =>
          reviewsLayout := Some(Grid(2));
          suggestedLayout := Some(Grid(3));
        case OtherState(_) =>
      }
    }

    /** showPurchaseDialog: the popup is shown where PurchasePopup places it:
        on a window of non-negative size, half the window in each direction
        and inside it. */
    method ShowPurchaseDialog(screenWidthPx: int, screenHeightPx: int) returns (shown: PopupPlacement)
      requires IsInt(screenWidthPx) && IsInt(screenHeightPx)
      ensures shown == PurchasePopup(screenWidthPx, screenHeightPx)
      ensures 0 <= screenWidthPx ==>
        0 <= shown.horizontal.offset && shown.horizontal.offset + shown.horizontal.size <= screenWidthPx
      ensures 0 <= screenHeightPx ==>
        0 <= shown.vertical.offset && shown.vertical.offset + shown.vertical.size <= screenHeightPx
    {
      var popupWidthPx := Half(screenWidthPx);
      var popupHeightPx := Half(screenHeightPx);
      var popupX := Half(screenWidthPx) - Half(popupWidthPx);
      var popupY := Half(screenHeightPx) - Half(popupHeightPx);
      shown := PopupPlacement(Span(popupX, popupWidthPx), Span(popupY, popupHeightPx));
    }

    /** updateControlVisibility */
    method UpdateControlVisibility(showControls: bool)
      modifies this`controls
      ensures controls == ControlVisibility(showControls)
    {
      controls := Visibility(!showControls, showControls, showControls);
    }
  }

  /** A configuration change followed by the completion of the transition it
      requested leaves the lists arranged as the table says for the set the
      selector picked. */
  method ChangeConfiguration(activity: MainActivity, newConfig: Configuration)
    modifies activity`requestedState, activity`reviewsLayout, activity`suggestedLayout
    ensures activity.requestedState == Some(SelectConstraintSet(newConfig))
    ensures activity.reviewsLayout == Some(TransitionArrangement(SelectConstraintSet(newConfig)).value.reviews)
    ensures activity.suggestedLayout == Some(TransitionArrangement(SelectConstraintSet(newConfig)).value.suggestions)
  {
    activity.OnConfigurationChanged(newConfig);
    activity.OnTransitionCompleted(activity.requestedState.value);
  }
}
