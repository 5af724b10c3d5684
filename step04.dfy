/** MainActivity animated with ConstraintLayout states: a configuration
    change asks the layout for the portrait or landscape state, and the
    layout's change listener rearranges the two lists before the change and
    re-applies the controls' visibility after it. Which layout resource a
    state and a width resolve to is declared in XML that is not part of this
    model, so layout ids arrive here as inputs. */
module Step04 {
  import opened Platform
  import opened Views
  import opened ViewModel
  import opened SavedState

  /** The layout resources the change listener knows, and any other id. */
  datatype LayoutId = ActivityMain | ActivityMainLand | ActivityMainW400 | ActivityMainW600Land | OtherLayout(id: int)

  /** preLayoutChange's table: the list arrangement for each known layout;
      nothing for any other id. Reviews are a two-column grid exactly in the
      landscape layouts, suggestions a horizontal list exactly in the two
      narrow ones, a grid of 2 in the w400 layout and of 3 in w600_land. */
  function LayoutArrangement(layoutId: LayoutId): (r: Option<ListArrangement>)
    ensures r.None? <==> layoutId.OtherLayout?
    ensures r.Some? ==> (r.value.reviews == Grid(2) <==> layoutId in {ActivityMainLand, ActivityMainW600Land})
    ensures r.Some? ==> (r.value.reviews == LinearVertical <==> layoutId in {ActivityMain, ActivityMainW400})
    ensures r.Some? ==> (r.value.suggestions == LinearHorizontal <==> layoutId in {ActivityMain, ActivityMainLand})
    ensures r.Some? && layoutId == ActivityMainW400 ==> r.value.suggestions == Grid(2)
    ensures r.Some? && layoutId == ActivityMainW600Land ==> r.value.suggestions == Grid(3)
  {
    match layoutId
    case ActivityMain => Some(ListArrangement(LinearVertical, LinearHorizontal))
    case ActivityMainLand => Some(ListArrangement(Grid(2), LinearHorizontal))
    case ActivityMainW400 => Some(ListArrangement(LinearVertical, Grid(2)))
    case ActivityMainW600Land => Some(ListArrangement(Grid(2), Grid(3)))
    case OtherLayout(_) => None
  }

  /** The two states the layout is asked for. */
  datatype ConstraintStateId = ConstraintStateLandscape | ConstraintStatePortrait

  /** A call of setState: the state id and the screen size it is resolved with. */
  datatype StateRequest = StateRequest(stateId: ConstraintStateId, widthDp: int, heightDp: int)

  /** configurationUpdate: the landscape state exactly when the orientation
      is landscape, with the width and height passed through unchanged. */
  function ConfigurationRequest(config: Configuration): (r: StateRequest)
    ensures r.stateId == ConstraintStateLandscape <==> config.orientation == Landscape
    ensures r.stateId == ConstraintStatePortrait <==> config.orientation != Landscape
    ensures r.widthDp == config.screenWidthDp && r.heightDp == config.screenHeightDp
  {
    if config.orientation == Landscape then
      StateRequest(ConstraintStateLandscape, config.screenWidthDp, config.screenHeightDp)
    else
      StateRequest(ConstraintStatePortrait, config.screenWidthDp, config.screenHeightDp)
  }

  class MainActivity {
    var viewModel: MainViewModel
    /** The last state constraintMain was asked for. */
    var requestedState: Option<StateRequest>
    /** The layout managers of recyclerReviews and recyclerSuggested (None:
        whatever the layout declares). */
    var reviewsLayout: Option<Arrangement>
    var suggestedLayout: Option<Arrangement>
    var controls: Visibility

    /** onCreate: restores the flag from the saved bundle, if any, and asks
        for the state of the current configuration. */
    constructor (vm: MainViewModel, savedInstanceState: Bundle?, config: Configuration, layoutControls: Visibility)
      requires vm.Valid()
      modifies vm
      ensures viewModel == vm && vm.Valid()
      ensures vm.isDescriptionExpanded == RestoredExpanded(EntriesOf(savedInstanceState), old(vm.isDescriptionExpanded))
      ensures vm.appData == old(vm.appData) && vm.appDataPublished == old(vm.appDataPublished)
      ensures requestedState == Some(ConfigurationRequest(config))
      ensures reviewsLayout.None? && suggestedLayout.None? && controls == layoutControls
    {
      viewModel := vm;
      requestedState := None;
      reviewsLayout, suggestedLayout := None, None;
      controls := layoutControls;
      new;
      if savedInstanceState != null {
        vm.RestoreDescriptionExpanded(GetBoolean(savedInstanceState.entries, KEY_EXPANDED));
      }
      ConfigurationUpdate(config);
    }

    /** preLayoutChange: rearranges both lists for a known layout and leaves
        them as they are for any other (the `when` has no else branch). */
    method PreLayoutChange(layoutId: LayoutId)
      modifies this`reviewsLayout, this`suggestedLayout
      ensures LayoutArrangement(layoutId).Some? ==>
        && reviewsLayout == Some(LayoutArrangement(layoutId).value.reviews)
        && suggestedLayout == Some(LayoutArrangement(layoutId).value.suggestions)
      ensures LayoutArrangement(layoutId).None? ==>
        reviewsLayout == old(reviewsLayout) && suggestedLayout == old(suggestedLayout)
    {
      match layoutId {
        case ActivityMain =>
          reviewsLayout := Some(LinearVertical);
          suggestedLayout := Some(LinearHorizontal);
        case ActivityMainLand =>
          reviewsLayout := Some(Grid(2));
          suggestedLayout := Some(LinearHorizontal);
        case ActivityMainW400 =>
          reviewsLayout := Some(LinearVertical);
          suggestedLayout := Some(Grid(2));
        case ActivityMainW600Land =>
          reviewsLayout := Some(Grid(2));
          suggestedLayout := Some(Grid(3));
        case OtherLayout(_) =>
      }
    }

    /** postLayoutChange: the new constraint set carries its own visibility,
        so the controls are re-bound to showControls when it has a value, and
        left alone when it has none. */
    method PostLayoutChange()
      requires viewModel.Valid()
      modifies this`controls
      ensures viewModel.Ui().showControls.Some? ==> controls == ControlVisibility(viewModel.Ui().showControls.value)
      ensures viewModel.Ui().showControls.None? ==> controls == old(controls)
    {
      var showControls := viewModel.Ui().showControls;
      if showControls.Some? {
        UpdateControlVisibility(showControls.value);
      }
    }

    /** onSaveInstanceState */
    method OnSaveInstanceState(outState: Bundle)
      modifies outState
      ensures outState.entries == SaveExpanded(old(outState.entries), viewModel.isDescriptionExpanded)
    {
      if viewModel.isDescriptionExpanded.Some? {
        outState.PutBoolean(KEY_EXPANDED, viewModel.isDescriptionExpanded.value);
      }
    }

    /** onConfigurationChanged */
    method OnConfigurationChanged(newConfig: Configuration)
      modifies this`requestedState
      ensures requestedState == Some(ConfigurationRequest(newConfig))
    {
      ConfigurationUpdate(newConfig);
    }

    /** configurationUpdate: asks constraintMain for the state of the configuration. */
    method ConfigurationUpdate(configuration: Configuration)
      modifies this`requestedState
      ensures requestedState == Some(ConfigurationRequest(configuration))
    {
      if configuration.orientation == Landscape {
        requestedState := Some(StateRequest(ConstraintStateLandscape, configuration.screenWidthDp, configuration.screenHeightDp));
      } else {
        requestedState := Some(StateRequest(ConstraintStatePortrait, configuration.screenWidthDp, configuration.screenHeightDp));
      }
    }

    /** updateControlVisibility */
    method UpdateControlVisibility(showControls: bool)
      modifies this`controls
      ensures controls == ControlVisibility(showControls)
    {
      controls := Visibility(!showControls, showControls, showControls);
    }
  }
}
