/** The first version of MainActivity, before the view model: the activity
    itself holds the expanded flag and the two descriptions, and sets the text
    of its views by hand. */
module Step00 {
  import opened Platform
  import opened Data
  import opened Views
  import ViewModel

  /** determineDescriptionText of this version: the long description when
      expanded, the short one otherwise. */
  function DetermineDescriptionText(isDescriptionExpanded: bool, description: string, shortDescription: string): (r: string)
    ensures isDescriptionExpanded ==> r == description
    ensures !isDescriptionExpanded ==> r == shortDescription
  {
    if isDescriptionExpanded then description else shortDescription
  }

  /** Once the flag has a value, this version shows the same text as the view
      model's determineDescriptionText does for the same product. */
  lemma AgreesWithViewModel(data: AppData, expanded: bool)
    ensures ViewModel.DetermineDescriptionText(Some(data), Some(expanded))
      == Some(DetermineDescriptionText(expanded, data.description, data.shortDescription))
  {
  }

  class MainActivity {
    var isDescriptionExpanded: bool
    /** The lateinit description fields: None until a product arrives. */
    var description: Option<string>
    var shortDescription: Option<string>
    /** Text of textProductName, textProductCompany, textProductDescription and
        buttonExpand (None: still the text the layout declares). */
    var productNameText: Option<string>
    var productCompanyText: Option<string>
    var descriptionShown: Option<string>
    var expandButtonText: Option<Label>
    /** The reviews last handed to the review list's adapter. */
    var reviewsShown: Option<seq<Review>>
    var controls: Visibility

    /** The screen is consistent: the controls follow one showControls value,
        the expand button (the only way to toggle) is visible only once the
        descriptions are loaded, and whatever description and label are shown
        match the flag. */
    ghost predicate Valid()
      reads this
    {
      && controls == ControlVisibility(controls.purchaseVisible)
      && (description.Some? <==> shortDescription.Some?)
      && (controls.expandVisible ==> description.Some?)
      && (description.None? ==> descriptionShown.None?)
      && (description.Some? ==>
            descriptionShown == Some(DetermineDescriptionText(isDescriptionExpanded, description.value, shortDescription.value)))
      && (expandButtonText.Some? ==> expandButtonText == Some(ExpandButtonText(isDescriptionExpanded)))
    }

    /** onCreate: the flag starts false and the default state,
        handleReviewsUpdate(null), hides the controls and shows the spinner. */
    constructor ()
      ensures Valid()
      ensures !isDescriptionExpanded
      ensures controls == ControlVisibility(false)
      ensures controls.progressVisible && !controls.purchaseVisible && !controls.expandVisible
      ensures description.None? && shortDescription.None? && descriptionShown.None?
      ensures productNameText.None? && productCompanyText.None? && reviewsShown.None? && expandButtonText.None?
    {
      isDescriptionExpanded := false;
      description, shortDescription := None, None;
      productNameText, productCompanyText := None, None;
      descriptionShown, expandButtonText, reviewsShown := None, None, None;
      controls := ControlVisibility(false);
      new;
      HandleReviewsUpdate(None);
    }

    /** handleReviewsUpdate: the controls follow whether there is a product.
        Without one nothing else changes; with one its title, developer and
        reviews are shown, its descriptions are stored and the text matching
        the current flag is displayed. */
    method HandleReviewsUpdate(appData: Option<AppData>)
      requires Valid()
      modifies this
      ensures Valid()
      ensures controls == ControlVisibility(appData.Some?)
      ensures isDescriptionExpanded == old(isDescriptionExpanded) && expandButtonText == old(expandButtonText)
      ensures appData.None? ==>
        && description == old(description) && shortDescription == old(shortDescription)
        && descriptionShown == old(descriptionShown)
        && productNameText == old(productNameText) && productCompanyText == old(productCompanyText)
        && reviewsShown == old(reviewsShown)
      ensures appData.Some? ==>
        && productNameText == Some(appData.value.title)
        && productCompanyText == Some(appData.value.developer)
        && reviewsShown == Some(appData.value.reviews)
        && description == Some(appData.value.description)
        && shortDescription == Some(appData.value.shortDescription)
        && descriptionShown == Some(if isDescriptionExpanded then appData.value.description else appData.value.shortDescription)
    {
      UpdateControlVisibility(appData.Some?);
      if appData.Some? {
        var data := appData.value;
        productNameText := Some(data.title);
        productCompanyText := Some(data.developer);
        reviewsShown := Some(data.reviews);
        description := Some(data.description);
        shortDescription := Some(data.shortDescription);
        UpdateDescription();
      }
    }

    /** updateControlVisibility */
    method UpdateControlVisibility(showControls: bool)
      modifies this`controls
      ensures controls == ControlVisibility(showControls)
    {
      controls := Visibility(!showControls, showControls, showControls);
    }

    /** toggleExpandButton: negates the flag and relabels the button; the
        description on screen is not yet updated. */
    method ToggleExpandButton()
      modifies this`isDescriptionExpanded, this`expandButtonText
      ensures isDescriptionExpanded == !old(isDescriptionExpanded)
      ensures expandButtonText == Some(if isDescriptionExpanded then ButtonCollapse else ButtonExpand)
    {
      isDescriptionExpanded := !isDescriptionExpanded;
      if isDescriptionExpanded {
        expandButtonText := Some(ButtonCollapse);
      } else {
        expandButtonText := Some(ButtonExpand);
      }
    }

    /** updateDescription: displays the text for the current flag. The
        descriptions are lateinit, so they must have been loaded. */
    method UpdateDescription()
      requires description.Some? && shortDescription.Some?
      modifies this`descriptionShown
      ensures descriptionShown == Some(if isDescriptionExpanded then description.value else shortDescription.value)
    {
      descriptionShown := Some(DetermineDescriptionText(isDescriptionExpanded, description.value, shortDescription.value));
    }

    /** The expand button's click listener: toggle first, then redisplay, so
        the text shown is the long description exactly when the flag is now
        true. Clicks reach the button only while it is visible. */
    method OnExpandClicked()
      requires Valid() && controls.expandVisible
      modifies this`isDescriptionExpanded, this`expandButtonText, this`descriptionShown
      ensures Valid()
      ensures isDescriptionExpanded == !old(isDescriptionExpanded)
      ensures expandButtonText == Some(ExpandButtonText(isDescriptionExpanded))
      ensures description.Some? && shortDescription.Some?
      ensures descriptionShown == Some(if isDescriptionExpanded then description.value else shortDescription.value)
      ensures description == old(description) && shortDescription == old(shortDescription)
      ensures controls == old(controls)
    {
      ToggleExpandButton();
      UpdateDescription();
    }
  }

  /** Two clicks in a row put the flag, the label (once set) and the
      description on screen back as they were. */
  method ClickTwice(activity: MainActivity)
    requires activity.Valid() && activity.controls.expandVisible
    modifies activity`isDescriptionExpanded, activity`expandButtonText, activity`descriptionShown
    ensures activity.Valid()
    ensures activity.isDescriptionExpanded == old(activity.isDescriptionExpanded)
    ensures activity.descriptionShown == old(activity.descriptionShown)
    ensures activity.expandButtonText == Some(ExpandButtonText(activity.isDescriptionExpanded))
    ensures old(activity.expandButtonText).Some? ==> activity.expandButtonText == old(activity.expandButtonText)
  {
    activity.OnExpandClicked();
    activity.OnExpandClicked();
  }
}
