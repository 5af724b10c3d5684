/** MainActivity once the state has moved into MainViewModel: the activity
    saves the expanded flag into its instance state and restores it into the
    view model when it is created again. */
module Step02 {
  import opened Platform
  import opened Views
  import opened ViewModel
  import opened SavedState

  class MainActivity {
    var viewModel: MainViewModel
    var controls: Visibility

    /** onCreate with the view model the provider hands out (the one kept
        across a rotation, or a fresh one after the process died), the saved
        bundle if any, and the visibility the inflated layout declares. The
        flag is restored from the bundle only when there is one. */
    constructor (vm: MainViewModel, savedInstanceState: Bundle?, layoutControls: Visibility)
      requires vm.Valid()
      modifies vm
      ensures viewModel == vm && vm.Valid()
      ensures vm.isDescriptionExpanded == RestoredExpanded(EntriesOf(savedInstanceState), old(vm.isDescriptionExpanded))
      ensures savedInstanceState == null ==> vm.isDescriptionExpanded == old(vm.isDescriptionExpanded)
      ensures vm.appData == old(vm.appData) && vm.appDataPublished == old(vm.appDataPublished)
      ensures controls == layoutControls
    {
      viewModel := vm;
      controls := layoutControls;
      new;
      if savedInstanceState != null {
        vm.RestoreDescriptionExpanded(GetBoolean(savedInstanceState.entries, KEY_EXPANDED));
      }
    }

    /** onSaveInstanceState: KEY_EXPANDED is written exactly when the view
        model's flag has a value, and holds that value. */
    method OnSaveInstanceState(outState: Bundle)
      modifies outState
      ensures outState.entries == SaveExpanded(old(outState.entries), viewModel.isDescriptionExpanded)
    {
      if viewModel.isDescriptionExpanded.Some? {
        outState.PutBoolean(KEY_EXPANDED, viewModel.isDescriptionExpanded.value);
      }
    }

    /** updateControlVisibility */
    method UpdateControlVisibility(showControls: bool)
      modifies this`controls
      ensures controls == ControlVisibility(showControls)
    {
      controls := Visibility(!showControls, showControls, showControls);
    }
  }

  /** Saving the instance state and recreating the activity from it: the
      recreated view model (the same one, or a fresh one) ends with the flag
      the old one had, or, when it had none and the bundle starts without
      KEY_EXPANDED, with false. */
  method SaveAndRecreate(activity: MainActivity, outState: Bundle, vm: MainViewModel, layoutControls: Visibility)
    returns (recreated: MainActivity)
    requires vm.Valid()
    modifies outState, vm
    ensures outState.entries == SaveExpanded(old(outState.entries), old(activity.viewModel.isDescriptionExpanded))
    ensures recreated.viewModel == vm && vm.Valid()
    ensures vm.appData == old(vm.appData) && vm.appDataPublished == old(vm.appDataPublished)
    ensures old(activity.viewModel.isDescriptionExpanded).Some? ==>
      vm.isDescriptionExpanded == old(activity.viewModel.isDescriptionExpanded)
    ensures old(activity.viewModel.isDescriptionExpanded).None? && KEY_EXPANDED !in old(outState.entries) ==>
      vm.isDescriptionExpanded == Some(false)
  {
    ghost var expanded := activity.viewModel.isDescriptionExpanded;
    activity.OnSaveInstanceState(outState);
    recreated := new MainActivity(vm, outState, layoutControls);
    SaveRestoreRoundTrip(old(outState.entries), expanded, old(vm.isDescriptionExpanded), vm.appDataPublished, vm.appData);
  }
}
