/** models/tourModels.js: the tour schema. A document is built from a request
    body by the schema's setters (`trim`) and defaults (arrays default to an
    empty array), validated path by path, and on save given a slug computed
    from its title. */
module TourModel {
  import opened Js
  import opened Slug

  /** A path's value as the document holds it: never set, set to `null`, or
      set to a value. */
  datatype Field<T> = Missing | Null | Given(value: T)

  /** An entry of `page.tourItinerary`. */
  datatype ItineraryDay = ItineraryDay(day: Field<string>, dayImg: Field<string>, schedule: Field<seq<string>>)

  /** `page.detils`. */
  datatype Details = Details(otherInclusions: Field<seq<string>>, exclusions: Field<seq<string>>)

  datatype Page = Page(
    imgLinks: Field<seq<string>>,
    title: Field<string>,
    places: Field<seq<string>>,
    customisable: Field<string>,
    tourItinerary: Field<seq<ItineraryDay>>,
    detils: Details)

  /** A tour document. `days` and `price` are JavaScript numbers. */
  datatype Tour = Tour(
    slug: Field<string>,
    days: Field<real>,
    title: Field<string>,
    places: Field<seq<string>>,
    inclusions: Field<seq<string>>,
    imglink: Field<string>,
    optional: Field<seq<string>>,
    price: Field<real>,
    page: Page)

  // ---------------------------------------------------------------------------
  // Building a document: setters and defaults

  /** The `trim: true` setter: a string is trimmed, anything else is kept. */
  function TrimmedField(f: Field<string>): (r: Field<string>)
    ensures r.Given? <==> f.Given?
    ensures r.Given? ==> r.value == Trim(f.value)
  {
    if f.Given? then Given(Trim(f.value)) else f
  }

  /** An array path that was never set holds an empty array. */
  function ArrayDefault<T>(f: Field<seq<T>>): (r: Field<seq<T>>)
    ensures !r.Missing?
    ensures f.Missing? ==> r == Given([])
    ensures !f.Missing? ==> r == f
  {
    if f.Missing? then Given([]) else f
  }

  function BuildDay(d: ItineraryDay): ItineraryDay {
    ItineraryDay(TrimmedField(d.day), TrimmedField(d.dayImg), ArrayDefault(d.schedule))
  }

  function BuildItinerary(f: Field<seq<ItineraryDay>>): Field<seq<ItineraryDay>> {
    match f
    case Missing => Given([])
    case Null => Null
    case Given(days) => Given(seq(|days|, i requires 0 <= i < |days| => BuildDay(days[i])))
  }

  function BuildPage(p: Page): Page {
    Page(ArrayDefault(p.imgLinks), p.title, ArrayDefault(p.places), p.customisable,
         BuildItinerary(p.tourItinerary),
         Details(ArrayDefault(p.detils.otherInclusions), ArrayDefault(p.detils.exclusions)))
  }

  /** `new Tour(body)`: the trimmed string paths are trimmed and the array
      paths that were not set become empty arrays. */
  function Build(raw: Tour): (doc: Tour)
    ensures doc.title == TrimmedField(raw.title) && doc.imglink == TrimmedField(raw.imglink)
    ensures doc.days == raw.days && doc.price == raw.price && doc.slug == raw.slug
    ensures doc.page.title == raw.page.title && doc.page.customisable == raw.page.customisable
    ensures !doc.places.Missing? && !doc.inclusions.Missing? && !doc.page.places.Missing?
    ensures !doc.page.detils.otherInclusions.Missing? && !doc.page.detils.exclusions.Missing?
  {
    Tour(raw.slug, raw.days, TrimmedField(raw.title), ArrayDefault(raw.places), ArrayDefault(raw.inclusions),
         TrimmedField(raw.imglink), ArrayDefault(raw.optional), raw.price, BuildPage(raw.page))
  }

  /** Building an itinerary entry twice is building it once. */
  lemma BuildDayIdempotent(d: ItineraryDay)
    ensures BuildDay(BuildDay(d)) == BuildDay(d)
  {
    if d.day.Given? { TrimIdempotent(d.day.value); }
    if d.dayImg.Given? { TrimIdempotent(d.dayImg.value); }
  }

  lemma BuildItineraryIdempotent(f: Field<seq<ItineraryDay>>)
    ensures BuildItinerary(BuildItinerary(f)) == BuildItinerary(f)
  {
    if f.Given? {
      var once := BuildItinerary(f).value;
      forall i | 0 <= i < |once|
        ensures BuildDay(once[i]) == once[i]
      {
        BuildDayIdempotent(f.value[i]);
      }
      var twice := BuildItinerary(Given(once)).value;
      assert |twice| == |once|;
      assert forall i :: 0 <= i < |once| ==> twice[i] == BuildDay(once[i]);
      assert twice == once;
    } else if f.Missing? {
      assert BuildItinerary(Given([])).value == [];
    }
  }

  /** Building a document from a document changes nothing: the setters and
      defaults have nothing left to do. */
  lemma BuildIdempotent(raw: Tour)
    ensures Build(Build(raw)) == Build(raw)
  {
    if raw.title.Given? { TrimIdempotent(raw.title.value); }
    if raw.imglink.Given? { TrimIdempotent(raw.imglink.value); }
    BuildItineraryIdempotent(raw.page.tourItinerary);
    assert BuildPage(BuildPage(raw.page)) == BuildPage(raw.page);
  }

  // ---------------------------------------------------------------------------
  // Validation

  /** The paths a validation error can name. */
  datatype Path =
    | Days | Title | Places | Inclusions | Imglink | Price
    | PageTitle | PagePlaces | Customisable | ItineraryDayAt(i: nat) | ScheduleAt(i: nat)
    | OtherInclusions | Exclusions

  /** `required` on a string path: a non-empty string. */
  predicate RequiredString(f: Field<string>) {
    f.Given? && f.value != ""
  }

  /** `required` on a number path: any number. */
  predicate RequiredNumber(f: Field<real>) {
    f.Given?
  }

  /** `required` on an array path: any array, the empty one included. */
  predicate RequiredArray<T>(f: Field<seq<T>>) {
    f.Given?
  }

  const CompletelyCustomisable := "This trip is completely customisable"
  const NotCustomisable := "This trip is not customisable"

  /** `days`: required, `min: 1`. */
  predicate DaysPass(f: Field<real>) {
    RequiredNumber(f) && f.value >= 1.0
  }

  /** `title`: required, `maxlength: 100`, `minlength: 10`, and the custom
      validator `val.length > 10`. */
  predicate TitlePass(f: Field<string>) {
    RequiredString(f) && |f.value| <= 100 && |f.value| >= 10 && |f.value| > 10
  }

  /** `price`: required and the custom validator `val > 1000`. */
  predicate PricePass(f: Field<real>) {
    RequiredNumber(f) && f.value > 1000.0
  }

  /** `page.customisable`: the `enum` validator lets an unset value through
      and otherwise asks for one of the two listed strings. */
  predicate CustomisablePass(f: Field<string>) {
    f.Missing? || (f.Given? && (f.value == CompletelyCustomisable || f.value == NotCustomisable))
  }

  /** Whether the validators of path `p` fail on `doc`. */
  predicate Fails(doc: Tour, p: Path) {
    match p
    case Days => !DaysPass(doc.days)
    case Title => !TitlePass(doc.title)
    case Places => !RequiredArray(doc.places)
    case Inclusions => !RequiredArray(doc.inclusions)
    case Imglink => !RequiredString(doc.imglink)
    case Price => !PricePass(doc.price)
    case PageTitle => !RequiredString(doc.page.title)
    case PagePlaces => !RequiredArray(doc.page.places)
    case Customisable => !CustomisablePass(doc.page.customisable)
    case ItineraryDayAt(i) =>
      var it := doc.page.tourItinerary;
      it.Given? && i < |it.value| && !RequiredString(it.value[i].day)
    case ScheduleAt(i) =>
      var it := doc.page.tourItinerary;
      it.Given? && i < |it.value| && !RequiredArray(it.value[i].schedule)
    case OtherInclusions => !RequiredArray(doc.page.detils.otherInclusions)
    case Exclusions => !RequiredArray(doc.page.detils.exclusions)
  }

  /** The paths outside the itinerary. */
  const FieldPaths: set<Path> :=
    {Days, Title, Places, Inclusions, Imglink, Price, PageTitle, PagePlaces, Customisable, OtherInclusions, Exclusions}

  /** The failing paths of the itinerary entries. */
  function ItineraryErrors(doc: Tour): set<Path> {
    var it := doc.page.tourItinerary;
    var n := if it.Given? then |it.value| else 0;
    (set i: nat | i < n && Fails(doc, ItineraryDayAt(i)) :: ItineraryDayAt(i))
    + (set i: nat | i < n && Fails(doc, ScheduleAt(i)) :: ScheduleAt(i))
  }

  /** The paths whose validators fail, as `validate()` reports them; a tour
      is valid when there are none. */
  function TourErrors(doc: Tour): (errors: set<Path>)
    ensures forall p :: p in errors <==> Fails(doc, p)
  {
    var errors := (set p | p in FieldPaths && Fails(doc, p)) + ItineraryErrors(doc);
    forall p | Fails(doc, p)
      ensures p in errors
    {
      if p.ItineraryDayAt? || p.ScheduleAt? {
        assert p.i < |doc.page.tourItinerary.value|;
      }
    }
    errors
  }

  predicate Valid(doc: Tour) {
    TourErrors(doc) == {}
  }

  // ---------------------------------------------------------------------------
  // The rules, stated on the request body

  /** A price passes exactly when it is given and greater than 1000. */
  lemma PriceValidIff(raw: Tour)
    ensures Price !in TourErrors(Build(raw)) <==> raw.price.Given? && raw.price.value > 1000.0
  {
  }

  /** A title passes exactly when it is given and, once trimmed, is 11 to 100
      characters long: `minlength: 10` is subsumed by the custom `> 10`. */
  lemma TitleValidIff(raw: Tour)
    ensures Title !in TourErrors(Build(raw)) <==> raw.title.Given? && 11 <= |Trim(raw.title.value)| <= 100
  {
  }

  /** `days` passes exactly when it is given and at least 1. */
  lemma DaysValidIff(raw: Tour)
    ensures Days !in TourErrors(Build(raw)) <==> raw.days.Given? && raw.days.value >= 1.0
  {
  }

  /** `page.customisable` passes exactly when it is unset or one of the two
      fixed sentences. */
  lemma CustomisableValidIff(raw: Tour)
    ensures Customisable !in TourErrors(Build(raw)) <==>
      raw.page.customisable.Missing? || (raw.page.customisable.Given? &&
        raw.page.customisable.value in {CompletelyCustomisable, NotCustomisable})
  {
  }

  /** `imglink` passes exactly when it is given and not blank; `page.title`,
      which has no `trim`, passes exactly when it is given and not empty. */
  lemma RequiredStringsIff(raw: Tour)
    ensures Imglink !in TourErrors(Build(raw)) <==> raw.imglink.Given? && Trim(raw.imglink.value) != ""
    ensures PageTitle !in TourErrors(Build(raw)) <==> raw.page.title.Given? && raw.page.title.value != ""
  {
  }

  /** An itinerary entry fails on `day` exactly when its day is unset, `null`
      or blank, and on `schedule` exactly when its schedule is `null`. */
  lemma ItineraryEntryIff(raw: Tour, i: nat)
    requires raw.page.tourItinerary.Given? && i < |raw.page.tourItinerary.value|
    ensures var d := raw.page.tourItinerary.value[i];
      && (ItineraryDayAt(i) in TourErrors(Build(raw)) <==> !d.day.Given? || Trim(d.day.value) == "")
      && (ScheduleAt(i) in TourErrors(Build(raw)) <==> d.schedule.Null?)
  {
    var doc := Build(raw);
    assert doc.page.tourItinerary.value[i] == BuildDay(raw.page.tourItinerary.value[i]);
  }

  /** Every required path is an error when the body sets it to `null`. */
  lemma NullRequiredPathsFail(raw: Tour)
    ensures raw.days.Null? ==> Days in TourErrors(Build(raw))
    ensures raw.title.Null? ==> Title in TourErrors(Build(raw))
    ensures raw.places.Null? ==> Places in TourErrors(Build(raw))
    ensures raw.inclusions.Null? ==> Inclusions in TourErrors(Build(raw))
    ensures raw.imglink.Null? ==> Imglink in TourErrors(Build(raw))
    ensures raw.price.Null? ==> Price in TourErrors(Build(raw))
    ensures raw.page.title.Null? ==> PageTitle in TourErrors(Build(raw))
    ensures raw.page.places.Null? ==> PagePlaces in TourErrors(Build(raw))
    ensures raw.page.detils.otherInclusions.Null? ==> OtherInclusions in TourErrors(Build(raw))
    ensures raw.page.detils.exclusions.Null? ==> Exclusions in TourErrors(Build(raw))
  {
  }

  /** An unset scalar path that is required is an error. */
  lemma MissingRequiredScalarsFail(raw: Tour)
    ensures raw.days.Missing? ==> Days in TourErrors(Build(raw))
    ensures raw.title.Missing? ==> Title in TourErrors(Build(raw))
    ensures raw.imglink.Missing? ==> Imglink in TourErrors(Build(raw))
    ensures raw.price.Missing? ==> Price in TourErrors(Build(raw))
    ensures raw.page.title.Missing? ==> PageTitle in TourErrors(Build(raw))
  {
  }

  /** An unset required array path is NOT an error: it defaults to an empty
      array, which `required` accepts. */
  lemma MissingRequiredArraysPass(raw: Tour)
    ensures raw.places.Missing? ==> Places !in TourErrors(Build(raw))
    ensures raw.inclusions.Missing? ==> Inclusions !in TourErrors(Build(raw))
    ensures raw.page.places.Missing? ==> PagePlaces !in TourErrors(Build(raw))
    ensures raw.page.detils.otherInclusions.Missing? ==> OtherInclusions !in TourErrors(Build(raw))
    ensures raw.page.detils.exclusions.Missing? ==> Exclusions !in TourErrors(Build(raw))
  {
  }

  // ---------------------------------------------------------------------------
  // Saving

  /** A tour document and its copy in the `tours` collection. */
  class TourDocument {
    var data: Tour
    var stored: Option<Tour>

    /** `new Tour(body)`: built, not yet stored. */
    constructor (raw: Tour)
      ensures data == Build(raw) && stored == None
    {
      data := Build(raw);
      stored := None;
    }

    /** `save()`: validation runs first; an invalid document is neither
        changed nor stored. Then the pre-save hook sets `slug` to the
        lower-cased slug of the title, replacing any slug the body gave, and
        the document is stored. */
    method Save() returns (errors: set<Path>)
      modifies this
      ensures errors == TourErrors(old(data))
      ensures errors == {} ==>
        && old(data).title.Given?
        && data == old(data).(slug := Given(Slugify(old(data).title.value)))
        && stored == Some(data)
      ensures errors != {} ==> data == old(data) && stored == old(stored)
    {
      errors := TourErrors(data);
      if errors != {} {
        return;
      }
      assert !Fails(data, Title);
      data := data.(slug := Given(Slugify(data.title.value)));
      stored := Some(data);
    }
  }

  /** No validator looks at `slug`. */
  lemma ErrorsIgnoreSlug(doc: Tour, slug: Field<string>)
    ensures TourErrors(doc.(slug := slug)) == TourErrors(doc)
  {
    forall p
      ensures Fails(doc.(slug := slug), p) == Fails(doc, p)
    {
    }
  }

  /** The slug a saved tour carries is a slug, the tour stays valid, and a
      tour saved again under the same title keeps it. */
  lemma SavedSlugIsStable(doc: Tour)
    requires Valid(doc)
    ensures doc.title.Given?
    ensures var saved := doc.(slug := Given(Slugify(doc.title.value)));
      && IsSlug(saved.slug.value)
      && Valid(saved)
      && saved.(slug := Given(Slugify(saved.title.value))) == saved
  {
    assert !Fails(doc, Title);
    ErrorsIgnoreSlug(doc, Given(Slugify(doc.title.value)));
  }

  /** The slug a saved tour gets is the slug of the title as the request
      gave it: the `trim` setter does not change it. */
  lemma SlugOfGivenTitle(raw: Tour)
    requires raw.title.Given?
    ensures Slugify(Build(raw).title.value) == Slugify(raw.title.value)
  {
    SlugifyIgnoresSurroundingSpace(raw.title.value);
  }
}
