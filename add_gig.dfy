/** The page that creates a gig (src/pages/AddGig.tsx): the form's field rules and
    the component state its handlers update. */
module AddGig {
  import opened Wrappers
  import opened Strings
  import opened Seqs
  import opened GigForm

  /** The page offers an upload slot for additional images only below this count. */
  const MaxAdditionalImages := 4

  /** The message the form shows under `field`, or `None` when the field passes.
      A required rule fails on an empty value and is checked before the length or
      bound rule of the same field. */
  function AddGigRule(d: GigFormData, field: Field): (err: Option<string>)
  {
    match field
    case Title =>
      if d.title == "" then Some("Title is required")
      else if |d.title| < 10 then Some("Title must be at least 10 characters")
      else None
    case Category =>
      if d.category == "" then Some("Category is required") else None
    case ShortTitle =>
      if d.shortTitle == "" then Some("Short title is required")
      else if |d.shortTitle| > 60 then Some("Short title must be less than 60 characters")
      else None
    case Price =>
      if d.price.None? then Some("Price is required")
      else if d.price.value < 5 then Some("Price must be at least $5")
      else None
    case ShortDesc =>
      if d.shortDesc == "" then Some("Short description is required")
      else if |d.shortDesc| > 200 then Some("Short description must be less than 200 characters")
      else None
    case Desc =>
      if d.desc == "" then Some("Description is required")
      else if |d.desc| < 100 then Some("Description must be at least 100 characters")
      else None
    case DeliveryTime =>
      if d.deliveryTime.None? then Some("Delivery time is required")
      else if d.deliveryTime.value < 1 then Some("Delivery time must be at least 1 day")
      else None
    case RevisionNumber =>
      if d.revisionNumber.None? then Some("Number of revisions is required")
      else if d.revisionNumber.value < 0 then Some("Revisions must be 0 or more")
      else None
  }

  /** The form library calls the submit handler only when no field shows a message. */
  predicate AddGigAccepts(d: GigFormData)
  {
    forall field | field in AllFields :: AddGigRule(d, field).None?
  }

  /** The create form accepts exactly the values meeting all eight rules; a short
      title of exactly 60 characters passes. */
  lemma AddGigAcceptsIff(d: GigFormData)
    ensures AddGigAccepts(d) <==>
      && |d.title| >= 10
      && d.category != ""
      && 1 <= |d.shortTitle| <= 60
      && d.price.Some? && d.price.value >= 5
      && 1 <= |d.shortDesc| <= 200
      && |d.desc| >= 100
      && d.deliveryTime.Some? && d.deliveryTime.value >= 1
      && d.revisionNumber.Some? && d.revisionNumber.value >= 0
  {
    if AddGigAccepts(d) {
      assert AddGigRule(d, Title).None? && AddGigRule(d, Category).None?;
      assert AddGigRule(d, ShortTitle).None? && AddGigRule(d, Price).None?;
      assert AddGigRule(d, ShortDesc).None? && AddGigRule(d, Desc).None?;
      assert AddGigRule(d, DeliveryTime).None? && AddGigRule(d, RevisionNumber).None?;
    }
  }

  /** The component state of the create page. */
  class AddGigForm {
    var isLoading: bool
    var coverImage: string
    var additionalImages: seq<string>
    var features: seq<string>

    /** The page never empties the feature list and never holds more than four
        additional images. */
    ghost predicate Valid()
      reads this
    {
      |features| >= 1 && |additionalImages| <= MaxAdditionalImages
    }

    constructor ()
      ensures Valid()
      ensures !isLoading && coverImage == "" && additionalImages == [] && features == [""]
    {
      isLoading := false;
      coverImage := "";
      additionalImages := [];
      features := [""];
    }

    /** A feature's remove button is drawn only while there are at least two. */
    predicate CanRemoveFeature()
      reads this
    {
      |features| > 1
    }

    /** The cover upload slot is drawn only while no cover is set. */
    predicate CanUploadCover()
      reads this
    {
      coverImage == ""
    }

    /** The upload slot for additional images is drawn only below four. */
    predicate CanUploadAdditional()
      reads this
    {
      |additionalImages| < MaxAdditionalImages
    }

    /** `handleImageUpload`: a successful upload fills the cover or appends to the
        additional images; a failed one changes nothing. */
    method HandleImageUpload(kind: ImageKind, upload: Outcome<string>)
      requires Valid()
      requires kind == Cover ==> CanUploadCover()
      requires kind == Additional ==> CanUploadAdditional()
      modifies this
      ensures Valid()
      ensures coverImage == if kind == Cover && upload.Ok? then upload.payload else old(coverImage)
      ensures additionalImages ==
        if kind == Additional && upload.Ok? then old(additionalImages) + [upload.payload]
        else old(additionalImages)
      ensures features == old(features) && isLoading == old(isLoading)
    {
      if upload.Ok? {
        if kind == Cover {
          coverImage := upload.payload;
        } else {
          additionalImages := additionalImages + [upload.payload];
        }
      }
    }

    /** `removeImage`: clears the cover, or drops one additional image by position. */
    method RemoveImage(index: int, kind: ImageKind)
      requires Valid()
      modifies this
      ensures Valid()
      ensures coverImage == if kind == Cover then "" else old(coverImage)
      ensures additionalImages ==
        if kind == Additional then WithoutIndex(old(additionalImages), index) else old(additionalImages)
      ensures features == old(features) && isLoading == old(isLoading)
    {
      if kind == Cover {
        coverImage := "";
      } else {
        additionalImages := WithoutIndex(additionalImages, index);
      }
    }

    /** `addFeature`: one more, empty, entry at the end. */
    method AddFeature()
      requires Valid()
      modifies this
      ensures Valid()
      ensures features == old(features) + [""]
      ensures coverImage == old(coverImage) && additionalImages == old(additionalImages)
      ensures isLoading == old(isLoading)
    {
      features := features + [""];
    }

    /** `removeFeature`: drops the entry at `index`, keeping the others in order. */
    method RemoveFeature(index: int)
      requires Valid() && CanRemoveFeature()
      modifies this
      ensures Valid()
      ensures features == WithoutIndex(old(features), index)
      ensures coverImage == old(coverImage) && additionalImages == old(additionalImages)
      ensures isLoading == old(isLoading)
    {
      features := WithoutIndex(features, index);
    }

    /** `updateFeature`: a copy of the list with the entry at `index` replaced. */
    method UpdateFeature(index: int, value: string)
      requires Valid()
      requires 0 <= index < |features|
      modifies this
      ensures Valid()
      ensures features == old(features)[index := value]
      ensures coverImage == old(coverImage) && additionalImages == old(additionalImages)
      ensures isLoading == old(isLoading)
    {
      var newFeatures := features;
      newFeatures := newFeatures[index := value];
      features := newFeatures;
    }

    /** `onSubmit`: without a cover nothing is sent and the loading flag is not
        touched; otherwise the body is sent while loading, the page moves to the
        profile when the request succeeds, and loading ends with either outcome. */
    method OnSubmit(data: GigFormData, post: Outcome<()>)
      returns (sent: Option<GigPayload>, toProfile: bool, ghost loadingAtRequest: bool)
      requires Valid()
      modifies this
      ensures Valid()
      ensures sent.Some? <==> coverImage != ""
      ensures sent.Some? ==> sent.value == Payload(data, coverImage, additionalImages, features)
      ensures sent.Some? ==> loadingAtRequest
      ensures toProfile <==> sent.Some? && post.Ok?
      ensures isLoading == if sent.Some? then false else old(isLoading)
      ensures coverImage == old(coverImage) && additionalImages == old(additionalImages)
      ensures features == old(features)
    {
      if coverImage == "" {
        sent, toProfile := None, false;
        loadingAtRequest := isLoading;
        return;
      }
      isLoading := true;
      var gigData := Payload(data, coverImage, additionalImages, features);
      sent := Some(gigData);
      loadingAtRequest := isLoading;
      toProfile := post.Ok?;
      isLoading := false;
    }

    /** `handleSubmit(onSubmit)`: the field rules run first, and the handler is
        called only when they all pass. */
    method HandleSubmit(data: GigFormData, post: Outcome<()>) returns (sent: Option<GigPayload>, toProfile: bool)
      requires Valid()
      modifies this
      ensures Valid()
      ensures sent.Some? <==> AddGigAccepts(data) && coverImage != ""
      ensures toProfile <==> sent.Some? && post.Ok?
      ensures sent.Some? ==> sent.value == Payload(data, coverImage, additionalImages, features)
      ensures isLoading == if sent.Some? then false else old(isLoading)
      ensures coverImage == old(coverImage) && additionalImages == old(additionalImages)
      ensures features == old(features)
    {
      if !AddGigAccepts(data) {
        return None, false;
      }
      ghost var during;
      sent, toProfile, during := OnSubmit(data, post);
    }
  }
}
