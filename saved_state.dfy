/** The save/restore contract of the expanded flag across activity
    recreation: onSaveInstanceState writes the view model's flag under
    KEY_EXPANDED, and onCreate hands `getBoolean(KEY_EXPANDED)` of the saved
    bundle, when there is one, to restoreDescriptionExpanded. */
module SavedState {
  import opened Platform
  import opened Data
  import opened ViewModel

  const KEY_EXPANDED: string := "KEY_EXPANDED"

  /** The bundle after onSaveInstanceState: KEY_EXPANDED holds the flag when
      the flag has a value; an unset flag leaves the bundle as it was. No other
      entry changes. */
  function SaveExpanded(outState: map<string, bool>, expanded: Option<bool>): (saved: map<string, bool>)
    ensures expanded.Some? ==> KEY_EXPANDED in saved && saved[KEY_EXPANDED] == expanded.value
    ensures expanded.None? ==> saved == outState
    ensures saved.Keys == outState.Keys + (if expanded.Some? then {KEY_EXPANDED} else {})
    ensures forall k :: k in outState && k != KEY_EXPANDED ==> saved[k] == outState[k]
  {
    match expanded
    case None => outState
    case Some(v) => outState[KEY_EXPANDED := v]
  }

  /** The flag after onCreate's restore, given the saved bundle (None: the
      activity starts afresh) and the flag of the view model it is handed.
      Without a bundle restoreDescriptionExpanded is not called and the flag
      is untouched; with one it is called with the stored value, or with
      false when the bundle has no KEY_EXPANDED. */
  function RestoredExpanded(savedInstanceState: Option<map<string, bool>>, current: Option<bool>): (r: Option<bool>)
    ensures savedInstanceState.None? ==> r == current
    ensures savedInstanceState.Some? ==> r.Some?
    ensures savedInstanceState.Some? ==>
      (r.value <==> KEY_EXPANDED in savedInstanceState.value && savedInstanceState.value[KEY_EXPANDED])
  {
    match savedInstanceState
    case None => current
    case Some(bundle) => Some(GetBoolean(bundle, KEY_EXPANDED))
  }

  /** Saving and then recreating from that bundle restores a set flag
      exactly, whatever flag the recreated view model had; an unset flag comes
      back as false. Either way the screen shows the same description text as
      before, and when the flag was set it shows the same everything. An
      unset flag needs a bundle without a KEY_EXPANDED entry of its own, as
      the fresh bundle onSaveInstanceState is handed is. */
  lemma SaveRestoreRoundTrip(outState: map<string, bool>, expanded: Option<bool>, current: Option<bool>,
                             appDataPublished: bool, appData: Option<AppData>)
    ensures expanded.Some? ==> RestoredExpanded(Some(SaveExpanded(outState, expanded)), current) == expanded
    ensures expanded.None? && KEY_EXPANDED !in outState ==> RestoredExpanded(Some(SaveExpanded(outState, expanded)), current) == Some(false)
    ensures expanded.Some? ==>
      Render(appDataPublished, appData, RestoredExpanded(Some(SaveExpanded(outState, expanded)), current))
      == Render(appDataPublished, appData, expanded)
    ensures expanded.Some? || KEY_EXPANDED !in outState ==>
      Render(appDataPublished, appData, RestoredExpanded(Some(SaveExpanded(outState, expanded)), current)).descriptionText
      == Render(appDataPublished, appData, expanded).descriptionText
  {
  }
}
