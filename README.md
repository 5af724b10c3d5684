# Resizing codelab: verified model of the screen's state logic

The codelab builds one product screen in several steps. Each step shows a
product with a collapsible description, a list of reviews, a list of
suggested products, a purchase popup, and a spinner while the product loads.
This project models the deterministic logic inside the activities and the
view model, and proves what that logic promises:

- **Expanded description** (`ViewModel`, step03 `MainViewModel`). The flag
  starts unset. Toggling turns unset and false into true, and true into false.
  Restoring sets the flag to exactly the given value. The description text is
  recomputed from the product and the flag on every change of either. Every
  derived value (`showControls`, product name and company, description text,
  button label, reviews) is a function of the view model's state (`Render`).
- **Hand-rolled version** (`Step00`). The activity holds the flag and both
  descriptions itself. It is a class whose invariant says that the expand
  button is visible only once the descriptions are loaded, and that the text
  and label on screen match the flag.
- **Save and restore** (`SavedState`, `Step02`, `Step04`).
  `onSaveInstanceState` writes `KEY_EXPANDED` only when the flag has a value.
  `onCreate` restores it only when there is a saved bundle.
- **Layout selection** (`Step05`, `Step04`, `Complete`). Step05 maps
  orientation and width to one of four constraint sets (600dp and up is
  "large"). A table maps each set to the layout managers of the two lists.
  Step04 uses the same table keyed by layout resource. The complete variant
  computes the arrangement directly, and the model proves that it agrees
  with step05 for every configuration.
- **Popup geometry and control visibility** (`Views`). The popup is half the
  window in each direction, centred with Kotlin's truncating Int division,
  and lies inside the window. The spinner is visible exactly when the buttons
  are not.

Files: `platform.dfy` (Option, Configuration, layout managers, Bundle,
Kotlin Int), `data.dfy`, `views.dfy`, `view_model.dfy`, `saved_state.dfy`,
and one file per activity: `step00.dfy`, `step02.dfy`, `step04.dfy`,
`step05.dfy`, `complete.dfy`.

Two points where the steps differ from one another:

- Step00's flag is a plain `Boolean = false`
  (step00-start/.../MainActivity.kt:30). From step03 on, the flag is a
  `MutableLiveData<Boolean>()` that starts with no value
  (step03-multiplelayouts/.../MainViewModel.kt:40). The model keeps it as
  `Option<bool>`, and `Toggled` turns an unset flag into true.
- `Bundle.getBoolean` returns false for a missing key, and `?.let` runs
  whenever a bundle exists (step02-savedinstance/.../MainActivity.kt:38).
  So a flag that was unset when saved comes back as false, not as unset.
  The text shown is the same either way (`SavedState.SaveRestoreRoundTrip`).

## Model

| member | source | states |
|---|---|---|
| `ViewModel.Toggled` | step03-multiplelayouts/src/main/java/com/google/example/resizecodelab/view/MainViewModel.kt:64-66 | an unset flag toggles to true; a set flag is negated |
| `ViewModel.DetermineDescriptionText` | step03-multiplelayouts/src/main/java/com/google/example/resizecodelab/view/MainViewModel.kt:76-84 | no text without a product; the long description exactly when the flag is true; the short one when it is false or unset |
| `ViewModel.Render` | step03-multiplelayouts/src/main/java/com/google/example/resizecodelab/view/MainViewModel.kt:34-59 | showControls has a value once the source has emitted, and is then true exactly when a description is shown; name, company and reviews are the product's title, developer and reviews; the label exists once the flag does and is "collapse" iff the flag is true; the long text is shown exactly when the label offers to collapse |
| `ViewModel.MainViewModel.constructor` | step03-multiplelayouts/src/main/java/com/google/example/resizecodelab/view/MainViewModel.kt:30-47 | the flag starts unset, no product yet, invariant established |
| `ViewModel.MainViewModel.OnAppDataChanged` | step03-multiplelayouts/src/main/java/com/google/example/resizecodelab/view/MainViewModel.kt:44-45 | a new product recomputes the description text; the flag is unchanged |
| `ViewModel.MainViewModel.ToggleDescriptionExpanded` | step03-multiplelayouts/src/main/java/com/google/example/resizecodelab/view/MainViewModel.kt:64-66 | the flag becomes `Toggled` of the old one; the text is recomputed; the product is unchanged |
| `ViewModel.MainViewModel.RestoreDescriptionExpanded` | step03-multiplelayouts/src/main/java/com/google/example/resizecodelab/view/MainViewModel.kt:72-74 | the flag becomes exactly the argument, whatever it was, so a second call is a no-op; the text is recomputed |
| `ViewModel.MainViewModel.Ui` | step03-multiplelayouts/src/main/java/com/google/example/resizecodelab/view/MainViewModel.kt:44-49 | the exposed description is the mediator's stored value, i.e. it always matches the current product and flag |
| `ViewModel.ToggleTimesParity` | step03-multiplelayouts/src/main/java/com/google/example/resizecodelab/view/MainViewModel.kt:64-66 | after n presses a set flag is unchanged for even n and negated for odd n; an unset flag is true for odd n and false for even n > 0 |
| `ViewModel.ToggleTwiceRestores` | step03-multiplelayouts/src/main/java/com/google/example/resizecodelab/view/MainViewModel.kt:51-66 | two toggles restore a set flag and all derived values; from unset they give false, which shows the same text |
| `Views.ExpandButtonText` | step03-multiplelayouts/src/main/java/com/google/example/resizecodelab/view/MainViewModel.kt:51-57 | the label is "collapse" iff expanded, "expand" otherwise |
| `Views.ControlVisibility` | step05-finished-windowcoordinates/src/main/java/com/google/example/resizecodelab/view/MainActivity.kt:178-182 | both buttons are visible iff showControls; the spinner is visible iff they are not |
| `Views.CentredHalf` | step05-finished-windowcoordinates/src/main/java/com/google/example/resizecodelab/view/MainActivity.kt:150-156 | on one axis the popup is half the extent, starts at offset ≥ 0, ends inside the window, and its two margins differ by at most one pixel; no value leaves the Int range |
| `Views.PurchasePopup` | step05-finished-windowcoordinates/src/main/java/com/google/example/resizecodelab/view/MainActivity.kt:145-161 | the popup is half the window's width and height and lies inside the window |
| `Platform.Half` | step05-finished-windowcoordinates/src/main/java/com/google/example/resizecodelab/view/MainActivity.kt:151-156 | Kotlin's `/ 2`: truncation toward zero on either sign; stays in the Int range |
| `Platform.GetBoolean` | step02-savedinstance/src/main/java/com/google/example/resizecodelab/view/MainActivity.kt:38 | `getBoolean` returns the stored value, or false for a missing key |
| `Platform.EntriesOf` | step02-savedinstance/src/main/java/com/google/example/resizecodelab/view/MainActivity.kt:38 | a null saved bundle has no entries to restore from; a non-null one gives exactly its entries |
| `Platform.Bundle.PutBoolean` | step02-savedinstance/src/main/java/com/google/example/resizecodelab/view/MainActivity.kt:66 | the key maps to the value; other entries are unchanged |
| `SavedState.SaveExpanded` | step02-savedinstance/src/main/java/com/google/example/resizecodelab/view/MainActivity.kt:64-67 | `KEY_EXPANDED` is written iff the flag has a value, and holds exactly that value; no other entry changes |
| `SavedState.RestoredExpanded` | step02-savedinstance/src/main/java/com/google/example/resizecodelab/view/MainActivity.kt:38 | without a bundle the flag is untouched; with one it becomes the stored value, or false when the key is missing |
| `SavedState.SaveRestoreRoundTrip` | step02-savedinstance/src/main/java/com/google/example/resizecodelab/view/MainActivity.kt:38-67 | saving flag v into any bundle and restoring from it gives v back; an unset flag saved into a bundle without `KEY_EXPANDED` comes back false; the shown text is the same in both cases |
| `Step00.DetermineDescriptionText` | step00-start/src/main/java/com/google/example/resizecodelab/view/MainActivity.kt:81-87 | the long description when expanded, the short one otherwise |
| `Step00.AgreesWithViewModel` | step00-start/src/main/java/com/google/example/resizecodelab/view/MainActivity.kt:81-87 | for a set flag, this version shows the same text as the view model |
| `Step00.MainActivity.constructor` | step00-start/src/main/java/com/google/example/resizecodelab/view/MainActivity.kt:30-53 | the flag starts false; `handleReviewsUpdate(null)` hides the buttons and shows the spinner; no description is loaded, and the name, company, description, label and reviews keep the text the layout declares (`None`) |
| `Step00.MainActivity.HandleReviewsUpdate` | step00-start/src/main/java/com/google/example/resizecodelab/view/MainActivity.kt:67-79 | visibility follows whether there is a product; null changes nothing else; a product is shown, its descriptions are stored, and the text for the current flag is displayed |
| `Step00.MainActivity.UpdateControlVisibility` | step00-start/src/main/java/com/google/example/resizecodelab/view/MainActivity.kt:89-93 | visibility becomes `ControlVisibility(showControls)` |
| `Step00.MainActivity.ToggleExpandButton` | step00-start/src/main/java/com/google/example/resizecodelab/view/MainActivity.kt:95-103 | negates the flag; the label becomes "collapse" iff the new flag is true |
| `Step00.MainActivity.UpdateDescription` | step00-start/src/main/java/com/google/example/resizecodelab/view/MainActivity.kt:105-107 | displays the text for the current flag; the lateinit descriptions must be loaded |
| `Step00.MainActivity.OnExpandClicked` | step00-start/src/main/java/com/google/example/resizecodelab/view/MainActivity.kt:47-50 | toggle, then redisplay: the flag is negated, and the label and text match the new flag; the invariant is kept; only the flag, the label and the shown text change |
| `Step00.ClickTwice` | step00-start/src/main/java/com/google/example/resizecodelab/view/MainActivity.kt:95-107 | two clicks restore the flag, the displayed text and any label already set; nothing else changes |
| `Step02.MainActivity.constructor` | step02-savedinstance/src/main/java/com/google/example/resizecodelab/view/MainActivity.kt:30-38 | the view model's flag becomes `RestoredExpanded` of the bundle; it is untouched without a bundle |
| `Step02.MainActivity.OnSaveInstanceState` | step02-savedinstance/src/main/java/com/google/example/resizecodelab/view/MainActivity.kt:64-67 | the bundle becomes `SaveExpanded` of itself and the view model's flag |
| `Step02.MainActivity.UpdateControlVisibility` | step02-savedinstance/src/main/java/com/google/example/resizecodelab/view/MainActivity.kt:69-73 | visibility becomes `ControlVisibility(showControls)` |
| `Step02.SaveAndRecreate` | step02-savedinstance/src/main/java/com/google/example/resizecodelab/view/MainActivity.kt:38-67 | the bundle becomes `SaveExpanded` of its old entries and the flag; recreating with the retained or a fresh view model restores a set flag exactly, and turns an unset one into false when the bundle started without `KEY_EXPANDED`; the view model's product is unchanged |
| `Step04.LayoutArrangement` | step04-animation/src/main/java/com/google/example/resizecodelab/view/MainActivity.kt:53-101 | activity_main gives (vertical, horizontal), _land (grid 2, horizontal), _w400 (vertical, grid 2) and _w600_land (grid 2, grid 3); any other id gives nothing |
| `Step04.ConfigurationRequest` | step04-animation/src/main/java/com/google/example/resizecodelab/view/MainActivity.kt:155-168 | the landscape state iff the orientation is landscape; width and height are passed through unchanged |
| `Step04.MainActivity.constructor` | step04-animation/src/main/java/com/google/example/resizecodelab/view/MainActivity.kt:113-142 | restores the flag from the bundle, if any, and requests the state for the current configuration |
| `Step04.MainActivity.PreLayoutChange` | step04-animation/src/main/java/com/google/example/resizecodelab/view/MainActivity.kt:50-102 | known layouts set both layout managers from the table; other ids leave both unchanged |
| `Step04.MainActivity.PostLayoutChange` | step04-animation/src/main/java/com/google/example/resizecodelab/view/MainActivity.kt:104-109 | visibility is re-applied from showControls when it has a value, and untouched otherwise |
| `Step04.MainActivity.OnSaveInstanceState` | step04-animation/src/main/java/com/google/example/resizecodelab/view/MainActivity.kt:145-148 | the bundle becomes `SaveExpanded` of itself and the flag |
| `Step04.MainActivity.OnConfigurationChanged` | step04-animation/src/main/java/com/google/example/resizecodelab/view/MainActivity.kt:150-153 | requests the state for the new configuration |
| `Step04.MainActivity.ConfigurationUpdate` | step04-animation/src/main/java/com/google/example/resizecodelab/view/MainActivity.kt:155-168 | the last request is `ConfigurationRequest(configuration)` |
| `Step04.MainActivity.UpdateControlVisibility` | step04-animation/src/main/java/com/google/example/resizecodelab/view/MainActivity.kt:170-174 | visibility becomes `ControlVisibility(showControls)` |
| `Step05.SelectConstraintSet` | step05-finished-windowcoordinates/src/main/java/com/google/example/resizecodelab/view/MainActivity.kt:164-174 | always one of the four sets (the test `isLandscape`, line 166, is `Platform.IsLandscape`); a large set iff width ≥ 600 (inclusive); the _land variant iff landscape |
| `Step05.SelectorExamples` | step05-finished-windowcoordinates/src/main/java/com/google/example/resizecodelab/view/MainActivity.kt:167-174 | 400 portrait → default; 600 landscape → large_land; 599 landscape → default_land |
| `Step05.TransitionArrangement` | step05-finished-windowcoordinates/src/main/java/com/google/example/resizecodelab/view/MainActivity.kt:94-123 | default gives (vertical, horizontal), default_land (grid 2, horizontal), large (vertical, grid 2) and large_land (grid 2, grid 3); any other id gives nothing |
| `Step05.TableMatchesStep04` | step05-finished-windowcoordinates/src/main/java/com/google/example/resizecodelab/view/MainActivity.kt:94-123 | this table is step04's table under the renaming default/activity_main, default_land/_land, large/_w400, large_land/_w600_land |
| `Step05.MainActivity.constructor` | step05-finished-windowcoordinates/src/main/java/com/google/example/resizecodelab/view/MainActivity.kt:43-84 | on first creation the selected constraint set is requested |
| `Step05.MainActivity.OnConfigurationChanged` | step05-finished-windowcoordinates/src/main/java/com/google/example/resizecodelab/view/MainActivity.kt:86-89 | every configuration change requests the selected set |
| `Step05.MainActivity.ConfigurationUpdate` | step05-finished-windowcoordinates/src/main/java/com/google/example/resizecodelab/view/MainActivity.kt:164-176 | the requested state is `SelectConstraintSet(config)` |
| `Step05.MainActivity.OnTransitionCompleted` | step05-finished-windowcoordinates/src/main/java/com/google/example/resizecodelab/view/MainActivity.kt:91-126 | known sets set both layout managers from the table; other ids leave both unchanged (the `when` has no else branch) |
| `Step05.MainActivity.ShowPurchaseDialog` | step05-finished-windowcoordinates/src/main/java/com/google/example/resizecodelab/view/MainActivity.kt:145-161 | the popup is placed by `PurchasePopup`, inside a window of non-negative size |
| `Step05.MainActivity.UpdateControlVisibility` | step05-finished-windowcoordinates/src/main/java/com/google/example/resizecodelab/view/MainActivity.kt:178-182 | visibility becomes `ControlVisibility(showControls)` |
| `Step05.ChangeConfiguration` | step05-finished-windowcoordinates/src/main/java/com/google/example/resizecodelab/view/MainActivity.kt:86-123 | a configuration change, then completion at the requested set, arranges the lists as the table says for the selected set; only the request and the two layout managers change |
| `Complete.IsSmall` | complete/src/main/java/com/google/example/resizecodelab/view/MainActivity.kt:55 | small iff not (width ≥ 600): the exact complement of step05's test |
| `Complete.IsSmallComplementsLarge` | complete/src/main/java/com/google/example/resizecodelab/view/MainActivity.kt:55 | small iff step05 selects a default set |
| `Complete.ReviewsArrangement` | complete/src/main/java/com/google/example/resizecodelab/view/MainActivity.kt:59-63 | grid 2 iff landscape, a vertical list otherwise |
| `Complete.SuggestionsArrangement` | complete/src/main/java/com/google/example/resizecodelab/view/MainActivity.kt:70-74 | horizontal iff small, whatever the orientation; otherwise grid 3 in landscape and grid 2 in portrait |
| `Complete.AgreesWithStep05` | complete/src/main/java/com/google/example/resizecodelab/view/MainActivity.kt:54-74 | for every configuration, this arrangement equals step05's table entry for the set step05 selects |
| `Complete.MainActivity.constructor` | complete/src/main/java/com/google/example/resizecodelab/view/MainActivity.kt:54-74 | both lists are arranged for the configuration, agreeing with step05 |
| `Complete.MainActivity.ShowPurchaseDialog` | complete/src/main/java/com/google/example/resizecodelab/view/MainActivity.kt:102-122 | same placement as step05: half size, and inside a window of non-negative size |
| `Complete.MainActivity.UpdateControlVisibility` | complete/src/main/java/com/google/example/resizecodelab/view/MainActivity.kt:124-128 | visibility becomes `ControlVisibility(showControls)` |

## Left out

- LiveData observers and the activity lifecycle are left out. Derived values are functions of the view model's state (`Render`, `MainViewModel.Ui`). The model does not track how step02 to complete copy them into their views. Only step00, which sets its views by hand, keeps the displayed text and label as fields.
- `ViewModelProviders` and `SavedStateVMFactory` are left out. The `KEY_ID` data id they pass has no effect on the modelled logic. The view model an activity receives is a constructor parameter.
- The data provider, `suggestions`, and the review and suggestion adapters are external collaborators whose source is not part of this model. The product arrives through `MainViewModel.OnAppDataChanged` or `Step00.MainActivity.HandleReviewsUpdate`.
- MotionLayout and TransitionManager animation are left out: durations, interpolators, elevation. So is what happens when a configuration change arrives while a transition is still running, which is MotionLayout's own behaviour.
- Step04's ConstraintLayout XML resolves a requested state and size to a layout id. That XML is not part of this model, so `PreLayoutChange` takes the layout id as input. The widths behind `_w400` and `_w600_land` are not modelled.
- PopupWindow and TextView construction, logging, and string and resource lookup are left out. The two button labels are the `Label` datatype.
- Step05 and complete obtain their view model through `SavedStateVMFactory`, whose source is not part of this model. Their activities therefore hold no view model here; only their layout, transition, popup and visibility logic is modelled.
- The visibility an inflated layout declares before any update is a constructor parameter.
- start/src/main/java/com/google/example/resizecodelab/view/MainViewModel.kt is entirely commented out and is not modelled.
- `Step00.MainActivity.UpdateDescription` requires loaded descriptions, and `Step00.MainActivity.OnExpandClicked` requires a visible expand button. In the source, reading a lateinit field before it is set throws, and a click reaches only a visible button. The invariant `Valid` shows that a visible button implies loaded descriptions.
- `Step05.MainActivity.ShowPurchaseDialog` and `Complete.MainActivity.ShowPurchaseDialog` state the in-bounds guarantee only for a window of non-negative size. The display metrics never report a negative size.
