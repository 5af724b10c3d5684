/** MainViewModel: keeps the product and the expanded flag of its description
    across activity recreation, and derives from them everything the screen
    shows. Each LiveData the activities observe is modelled by the value it
    holds: `None` for a LiveData holding nothing (or null). */
module ViewModel {
  import opened Platform
  import opened Data
  import opened Views

  /** The value toggleDescriptionExpanded stores: an unset flag becomes true,
      a set one is negated. */
  function Toggled(expanded: Option<bool>): (r: bool)
    ensures expanded.None? ==> r
    ensures expanded.Some? ==> r == !expanded.value
  {
    expanded != Some(true)
  }

  /** determineDescriptionText: nothing without a product; with one, the long
      description exactly when the flag is true and the short one when it is
      false or still unset. */
  function DetermineDescriptionText(appData: Option<AppData>, expanded: Option<bool>): (r: Option<string>)
    ensures r.Some? <==> appData.Some?
    ensures appData.Some? && expanded == Some(true) ==> r == Some(appData.value.description)
    ensures appData.Some? && expanded != Some(true) ==> r == Some(appData.value.shortDescription)
  {
    match appData
    case None => None
    case Some(data) => Some(if expanded == Some(true) then data.description else data.shortDescription)
  }

  /** The values of the LiveData fields the activities observe. */
  datatype UiState = UiState(
    showControls: Option<bool>,
    productName: Option<string>,
    productCompany: Option<string>,
    descriptionText: Option<string>,
    expandButtonTextResId: Option<Label>,
    reviews: Option<seq<Review>>)

  /** What the view model exposes, given whether the product source has
      emitted yet, the product it emitted and the expanded flag. Once the
      source has emitted, the controls show exactly when there is a
      description to show; the label is there once the flag is, and the text
      shown is the long description exactly when the button offers to
      collapse it. */
  function Render(appDataPublished: bool, appData: Option<AppData>, expanded: Option<bool>): (ui: UiState)
    ensures ui.showControls.Some? <==> appDataPublished
    ensures appDataPublished ==> (ui.showControls == Some(true) <==> ui.descriptionText.Some?)
    ensures ui.productName.Some? <==> appData.Some?
    ensures appData.Some? ==>
      && ui.productName == Some(appData.value.title)
      && ui.productCompany == Some(appData.value.developer)
      && ui.reviews == Some(appData.value.reviews)
    ensures appData.None? ==> ui.productCompany.None? && ui.reviews.None? && ui.descriptionText.None?
    ensures ui.expandButtonTextResId.Some? <==> expanded.Some?
    ensures ui.expandButtonTextResId == Some(ButtonCollapse) <==> expanded == Some(true)
    ensures appData.Some? && ui.expandButtonTextResId == Some(ButtonCollapse) ==>
      ui.descriptionText == Some(appData.value.description)
    ensures appData.Some? && ui.expandButtonTextResId != Some(ButtonCollapse) ==>
      ui.descriptionText == Some(appData.value.shortDescription)
  {
    UiState(
      if appDataPublished then Some(appData.Some?) else None,
      if appData.Some? then Some(appData.value.title) else None,
      if appData.Some? then Some(appData.value.developer) else None,
      DetermineDescriptionText(appData, expanded),
      if expanded.Some? then Some(ExpandButtonText(expanded.value)) else None,
      if appData.Some? then Some(appData.value.reviews) else None)
  }

  class MainViewModel {
    /** The latest product the data source emitted (None: nothing yet, or null). */
    var appData: Option<AppData>
    /** Whether the data source has emitted at all. */
    var appDataPublished: bool
    /** _isDescriptionExpanded: unset until the first toggle or restore. */
    var isDescriptionExpanded: Option<bool>
    /** _descriptionText, the MediatorLiveData fed by both of the above. */
    var descriptionText: Option<string>

    /** The mediator is recomputed on every change of either source, so its
        value is always the text determined by the current product and flag. */
    ghost predicate Valid()
      reads this
    {
      && (appData.Some? ==> appDataPublished)
      && descriptionText == DetermineDescriptionText(appData, isDescriptionExpanded)
    }

    constructor ()
      ensures Valid()
      ensures !appDataPublished && appData == None && isDescriptionExpanded == None
    {
      appData := None;
      appDataPublished := false;
      isDescriptionExpanded := None;
      descriptionText := None;
    }

    /** The product source emits: the mediator recomputes the description. */
    method OnAppDataChanged(data: Option<AppData>)
      requires Valid()
      modifies this
      ensures Valid()
      ensures appDataPublished && appData == data
      ensures isDescriptionExpanded == old(isDescriptionExpanded)
    {
      appData := data;
      appDataPublished := true;
      descriptionText := DetermineDescriptionText(appData, isDescriptionExpanded);
    }

    /** toggleDescriptionExpanded: unset and false become true, true becomes
        false; the description text follows. */
    method ToggleDescriptionExpanded()
      requires Valid()
      modifies this
      ensures Valid()
      ensures isDescriptionExpanded == Some(Toggled(old(isDescriptionExpanded)))
      ensures appData == old(appData) && appDataPublished == old(appDataPublished)
    {
      isDescriptionExpanded := Some(isDescriptionExpanded != Some(true));
      descriptionText := DetermineDescriptionText(appData, isDescriptionExpanded);
    }

    /** restoreDescriptionExpanded: the flag becomes exactly the given value,
        whatever it was, so a second call with the same value changes nothing. */
    method RestoreDescriptionExpanded(isExpanded: bool)
      requires Valid()
      modifies this
      ensures Valid()
      ensures isDescriptionExpanded == Some(isExpanded)
      ensures appData == old(appData) && appDataPublished == old(appDataPublished)
    {
      isDescriptionExpanded := Some(isExpanded);
      descriptionText := DetermineDescriptionText(appData, isDescriptionExpanded);
    }

    /** Everything the view model exposes; its description is the mediator's
        current value. */
    function Ui(): (ui: UiState)
      reads this
      requires Valid()
      ensures ui.descriptionText == descriptionText
      ensures ui.showControls.Some? <==> appDataPublished
    {
      Render(appDataPublished, appData, isDescriptionExpanded)
    }
  }

  /** The flag after the expand button has been pressed n times. */
  function ToggleTimes(expanded: Option<bool>, n: nat): Option<bool>
  {
    if n == 0 then expanded else Some(Toggled(ToggleTimes(expanded, n - 1)))
  }

  /** Pressing the button n times: a set flag is back where it was after an
      even number of presses and negated after an odd one; an unset flag is
      true after an odd number of presses and false after an even, non-zero one. */
  lemma {:induction false} ToggleTimesParity(expanded: Option<bool>, n: nat)
    ensures expanded.Some? ==> ToggleTimes(expanded, n) == Some(if n % 2 == 0 then expanded.value else !expanded.value)
    ensures expanded.None? && n > 0 ==> ToggleTimes(expanded, n) == Some(n % 2 == 1)
  {
    if n > 1 {
      ToggleTimesParity(expanded, n - 1);
    }
  }

  /** Toggling twice restores a set flag and everything derived from it; from
      an unset flag it yields false, which shows the same description text. */
  lemma ToggleTwiceRestores(appDataPublished: bool, appData: Option<AppData>, expanded: Option<bool>)
    ensures expanded.Some? ==> ToggleTimes(expanded, 2) == expanded
    ensures expanded.Some? ==>
      Render(appDataPublished, appData, ToggleTimes(expanded, 2)) == Render(appDataPublished, appData, expanded)
    ensures Render(appDataPublished, appData, ToggleTimes(expanded, 2)).descriptionText
      == Render(appDataPublished, appData, expanded).descriptionText
  {
    ToggleTimesParity(expanded, 2);
  }
}
