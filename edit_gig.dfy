/** The page that edits an existing gig (src/pages/EditGig.tsx): the loading of the
    gig into the form, its field rules, and the same list handlers as the create
    page, without the cap on additional images. */
module EditGig {
  import opened Wrappers
  import opened Strings
  import opened Seqs
  import opened Records
  import opened GigForm
  import AddGig

  /** The message the edit form shows under `field`, or `None`. The edit form only
      requires the text fields and bounds the three numbers from below. */
  function EditGigRule(d: GigFormData, field: Field): (err: Option<string>)
  {
    match field
    case Title =>
      if d.title == "" then Some("Title is required") else None
    case Category =>
      if d.category == "" then Some("Category is required") else None
    case ShortTitle =>
      if d.shortTitle == "" then Some("Short title is required") else None
    case Price =>
      if d.price.None? then Some("Price is required")
      else if d.price.value < 1 then Some("Price must be at least $1")
      else None
    case ShortDesc =>
      if d.shortDesc == "" then Some("Short description is required") else None
    case Desc =>
      if d.desc == "" then Some("Description is required") else None
    case DeliveryTime =>
      if d.deliveryTime.None? then Some("Delivery time is required")
      else if d.deliveryTime.value < 1 then Some("Delivery time must be at least 1 day")
      else None
    case RevisionNumber =>
      if d.revisionNumber.None? then Some("Revision number is required")
      else if d.revisionNumber.value < 0 then Some("Revision number must be at least 0")
      else None
  }

  predicate EditGigAccepts(d: GigFormData)
  {
    forall field | field in AllFields :: EditGigRule(d, field).None?
  }

  /** The edit form accepts exactly the values with every text field filled, a price
      of at least 1, a delivery time of at least 1 and a non-negative revision count. */
  lemma EditGigAcceptsIff(d: GigFormData)
    ensures EditGigAccepts(d) <==>
      && d.title != "" && d.category != "" && d.shortTitle != ""
      && d.shortDesc != "" && d.desc != ""
      && d.price.Some? && d.price.value >= 1
      && d.deliveryTime.Some? && d.deliveryTime.value >= 1
      && d.revisionNumber.Some? && d.revisionNumber.value >= 0
  {
    if EditGigAccepts(d) {
      assert EditGigRule(d, Title).None? && EditGigRule(d, Category).None?;
      assert EditGigRule(d, ShortTitle).None? && EditGigRule(d, Price).None?;
      assert EditGigRule(d, ShortDesc).None? && EditGigRule(d, Desc).None?;
      assert EditGigRule(d, DeliveryTime).None? && EditGigRule(d, RevisionNumber).None?;
    }
  }

  /** Everything the create form accepts, the edit form accepts too ... */
  lemma CreateRulesImplyEditRules(d: GigFormData)
    requires AddGig.AddGigAccepts(d)
    ensures EditGigAccepts(d)
  {
    AddGig.AddGigAcceptsIff(d);
    EditGigAcceptsIff(d);
  }

  /** ... but not the other way round: a gig priced at 1 with a one-letter title
      can be saved from the edit page and not created. */
  lemma EditRulesAreWeaker()
    ensures exists d :: EditGigAccepts(d) && !AddGig.AddGigAccepts(d)
  {
    var d := GigFormData("T", "Design", "S", Some(1), "s", "d", Some(1), Some(0));
    EditGigAcceptsIff(d);
    AddGig.AddGigAcceptsIff(d);
    assert EditGigAccepts(d) && !AddGig.AddGigAccepts(d);
  }

  /** The component state of the edit page. */
  class EditGigForm {
    const gigId: string
    var isLoading: bool
    var isLoadingGig: bool
    var values: GigFormData
    var coverImage: string
    var additionalImages: seq<string>
    var features: seq<string>

    /** The page never empties the feature list. */
    ghost predicate Valid()
      reads this
    {
      |features| >= 1
    }

    /** The state before the gig is loaded: the spinner is shown. */
    constructor (id: string)
      ensures Valid()
      ensures gigId == id && !isLoading && isLoadingGig
      ensures values == GigFormData("", "", "", None, "", "", None, None)
      ensures coverImage == "" && additionalImages == [] && features == [""]
    {
      gigId := id;
      isLoading := false;
      isLoadingGig := true;
      values := GigFormData("", "", "", None, "", "", None, None);
      coverImage := "";
      additionalImages := [];
      features := [""];
    }

    predicate CanRemoveFeature()
      reads this
    {
      |features| > 1
    }

    /** The load effect: with a route id, fetch the gig; on success copy its fields
        into the form and its images and features into the editor, with their
        defaults; in every case the spinner then stops. Without a route id nothing
        is fetched and the spinner stays. */
    method FetchGig(response: Outcome<Gig>) returns (requested: bool)
      requires Valid()
      modifies this
      ensures Valid()
      ensures requested <==> gigId != ""
      ensures isLoadingGig == if requested then false else old(isLoadingGig)
      ensures requested && response.Ok? ==>
        && values == LoadedValues(response.payload)
        && coverImage == response.payload.cover
        && additionalImages == ImagesOnLoad(response.payload.images)
        && features == FeaturesOnLoad(response.payload.features)
      ensures !(requested && response.Ok?) ==>
        && values == old(values) && coverImage == old(coverImage)
        && additionalImages == old(additionalImages) && features == old(features)
      ensures isLoading == old(isLoading)
    {
      requested := gigId != "";
      if !requested {
        return;
      }
      if response.Ok? {
        var gig := response.payload;
        values := LoadedValues(gig);
        coverImage := gig.cover;
        additionalImages := ImagesOnLoad(gig.images);
        features := FeaturesOnLoad(gig.features);
      }
      isLoadingGig := false;
    }

    /** The cover upload slot is drawn only while no cover is set. */
    predicate CanUploadCover()
      reads this
    {
      coverImage == ""
    }

    /** `handleImageUpload`; the edit page always offers the upload of another image. */
    method HandleImageUpload(kind: ImageKind, upload: Outcome<string>)
      requires Valid()
      requires kind == Cover ==> CanUploadCover()
      modifies this
      ensures Valid()
      ensures coverImage == if kind == Cover && upload.Ok? then upload.payload else old(coverImage)
      ensures additionalImages ==
        if kind == Additional && upload.Ok? then old(additionalImages) + [upload.payload]
        else old(additionalImages)
      ensures features == old(features) && values == old(values)
      ensures isLoading == old(isLoading) && isLoadingGig == old(isLoadingGig)
    {
      if upload.Ok? {
        if kind == Cover {
          coverImage := upload.payload;
        } else {
          additionalImages := additionalImages + [upload.payload];
        }
      }
    }

    /** `removeImage`: clears the cover, or drops one additional image by position. */
    method RemoveImage(index: int, kind: ImageKind)
      requires Valid()
      modifies this
      ensures Valid()
      ensures coverImage == if kind == Cover then "" else old(coverImage)
      ensures additionalImages ==
        if kind == Additional then WithoutIndex(old(additionalImages), index) else old(additionalImages)
      ensures features == old(features) && values == old(values)
      ensures isLoading == old(isLoading) && isLoadingGig == old(isLoadingGig)
    {
      if kind == Cover {
        coverImage := "";
      } else {
        additionalImages := WithoutIndex(additionalImages, index);
      }
    }

    /** `addFeature`: one more, empty, entry at the end. */
    method AddFeature()
      requires Valid()
      modifies this
      ensures Valid()
      ensures features == old(features) + [""]
      ensures coverImage == old(coverImage) && additionalImages == old(additionalImages)
      ensures values == old(values)
      ensures isLoading == old(isLoading) && isLoadingGig == old(isLoadingGig)
    {
      features := features + [""];
    }

    /** `removeFeature`: drops the entry at `index`, keeping the others in order. */
    method RemoveFeature(index: int)
      requires Valid() && CanRemoveFeature()
      modifies this
      ensures Valid()
      ensures features == WithoutIndex(old(features), index)
      ensures coverImage == old(coverImage) && additionalImages == old(additionalImages)
      ensures values == old(values)
      ensures isLoading == old(isLoading) && isLoadingGig == old(isLoadingGig)
    {
      features := WithoutIndex(features, index);
    }

    /** `updateFeature`: a copy of the list with the entry at `index` replaced. */
    method UpdateFeature(index: int, value: string)
      requires Valid()
      requires 0 <= index < |features|
      modifies this
      ensures Valid()
      ensures features == old(features)[index := value]
      ensures coverImage == old(coverImage) && additionalImages == old(additionalImages)
      ensures values == old(values)
      ensures isLoading == old(isLoading) && isLoadingGig == old(isLoadingGig)
    {
      var newFeatures := features;
      newFeatures := newFeatures[index := value];
      features := newFeatures;
    }

    /** `onSubmit`: without a cover nothing is sent; otherwise the body is sent with
        `PUT /gigs/:id` while loading, and loading ends with either outcome. */
    method OnSubmit(data: GigFormData, put: Outcome<()>)
      returns (sent: Option<GigPayload>, toProfile: bool, ghost loadingAtRequest: bool)
      requires Valid()
      modifies this
      ensures Valid()
      ensures sent.Some? <==> coverImage != ""
      ensures sent.Some? ==> sent.value == Payload(data, coverImage, additionalImages, features)
      ensures sent.Some? ==> loadingAtRequest
      ensures toProfile <==> sent.Some? && put.Ok?
      ensures isLoading == if sent.Some? then false else old(isLoading)
      ensures coverImage == old(coverImage) && additionalImages == old(additionalImages)
      ensures features == old(features) && values == old(values)
      ensures isLoadingGig == old(isLoadingGig)
    {
      if coverImage == "" {
        sent, toProfile := None, false;
        loadingAtRequest := isLoading;
        return;
      }
      isLoading := true;
      var gigData := Payload(data, coverImage, additionalImages, features);
      sent := Some(gigData);
      loadingAtRequest := isLoading;
      toProfile := put.Ok?;
      isLoading := false;
    }

    /** `handleSubmit(onSubmit)` with the edit form's rules. */
    method HandleSubmit(data: GigFormData, put: Outcome<()>) returns (sent: Option<GigPayload>, toProfile: bool)
      requires Valid()
      modifies this
      ensures Valid()
      ensures sent.Some? <==> EditGigAccepts(data) && coverImage != ""
      ensures toProfile <==> sent.Some? && put.Ok?
      ensures sent.Some? ==> sent.value == Payload(data, coverImage, additionalImages, features)
      ensures isLoading == if sent.Some? then false else old(isLoading)
      ensures coverImage == old(coverImage) && additionalImages == old(additionalImages)
      ensures features == old(features) && values == old(values)
      ensures isLoadingGig == old(isLoadingGig)
    {
      if !EditGigAccepts(data) {
        return None, false;
      }
      ghost var during;
      sent, toProfile, during := OnSubmit(data, put);
    }
  }
}
