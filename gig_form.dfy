/** What the create and edit forms for a gig have in common: the values the form
    library hands to the submit handler, the request body built from them, and the
    list rules for features. */
module GigForm {
  import opened Wrappers
  import opened Strings
  import opened Seqs
  import opened Records

  /** The form's values. A number input left empty is `None`. */
  datatype GigFormData = GigFormData(
    title: string,
    category: string,
    shortTitle: string,
    price: Option<int>,
    shortDesc: string,
    desc: string,
    deliveryTime: Option<int>,
    revisionNumber: Option<int>)

  /** The inputs the form registers, in the order they appear on the page. */
  datatype Field = Title | Category | ShortTitle | Price | ShortDesc | Desc | DeliveryTime | RevisionNumber

  const AllFields: seq<Field> := [Title, Category, ShortTitle, Price, ShortDesc, Desc, DeliveryTime, RevisionNumber]

  /** Which of the two image slots an upload or a removal is for. */
  datatype ImageKind = Cover | Additional

  /** The request body: the form's values, the uploaded cover and images, the features. */
  datatype GigPayload = GigPayload(data: GigFormData, cover: string, images: seq<string>, features: seq<string>)

  /** A feature entry that is not blank once trimmed. */
  predicate NotBlank(f: string)
  {
    !IsBlank(f)
  }

  /** `features.filter((f) => f.trim() !== "")`: exactly the non-blank entries, in order. */
  function NonBlankFeatures(features: seq<string>): (r: seq<string>)
    ensures forall i :: 0 <= i < |r| ==> r[i] in features && !IsBlank(r[i])
    ensures forall i :: 0 <= i < |features| && !IsBlank(features[i]) ==> features[i] in r
    ensures IsSubsequence(r, features)
    ensures forall f | f in features :: multiset(r)[f] == if !IsBlank(f) then multiset(features)[f] else 0
  {
    FilterIsSubsequence(NotBlank, features);
    FilterCounts(NotBlank, features);
    Filter(NotBlank, features)
  }

  /** An entry made only of whitespace never reaches the request, wherever it stands. */
  lemma NonBlankDropsBlank(a: seq<string>, f: string, b: seq<string>)
    requires AllSpace(f)
    ensures NonBlankFeatures(a + [f] + b) == NonBlankFeatures(a + b)
  {
    BlankIffAllSpace(f);
    assert !NotBlank(f);
    assert Filter(NotBlank, [f]) == [] by {
      assert [f][1..] == [];
    }
    FilterAppend(NotBlank, a, [f]);
    FilterAppend(NotBlank, a + [f], b);
    FilterAppend(NotBlank, a, b);
    assert Filter(NotBlank, a + [f]) == Filter(NotBlank, a);
  }

  /** When every entry has text, the request carries the list as it is. */
  lemma NonBlankKeepsFilled(features: seq<string>)
    requires forall i :: 0 <= i < |features| ==> !IsBlank(features[i])
    ensures NonBlankFeatures(features) == features
  {
    FilterAllPass(NotBlank, features);
  }

  /** The body `{...data, cover, images, features: <non-blank features>}`. */
  function Payload(data: GigFormData, cover: string, images: seq<string>, features: seq<string>): (p: GigPayload)
    ensures p.data == data && p.cover == cover && p.images == images
    ensures p.features == NonBlankFeatures(features)
  {
    GigPayload(data, cover, images, NonBlankFeatures(features))
  }

  /** The feature list a loaded gig starts the editor with: its own features when it
      has any, otherwise one empty entry, so the editor never starts empty. */
  function FeaturesOnLoad(features: Option<seq<string>>): (r: seq<string>)
    ensures |r| >= 1
    ensures features.Some? && features.value != [] ==> r == features.value
    ensures features.None? || features.value == [] ==> r == [""]
  {
    if features.Some? && |features.value| > 0 then features.value else [""]
  }

  /** The additional images a loaded gig starts with: `gig.images || []`. */
  function ImagesOnLoad(images: Option<seq<string>>): (r: seq<string>)
    ensures images.Some? ==> r == images.value
    ensures images.None? ==> r == []
  {
    images.GetOr([])
  }

  /** The form values an edit starts from: the fields of the loaded gig. */
  function LoadedValues(g: Gig): (d: GigFormData)
    ensures d.title == g.title && d.shortTitle == g.shortTitle && d.shortDesc == g.shortDesc
    ensures d.desc == g.desc && d.category == g.category
    ensures d.price == Some(g.price) && d.deliveryTime == Some(g.deliveryTime)
    ensures d.revisionNumber == Some(g.revisionNumber)
  {
    GigFormData(g.title, g.category, g.shortTitle, Some(g.price), g.shortDesc, g.desc,
                Some(g.deliveryTime), Some(g.revisionNumber))
  }
}
