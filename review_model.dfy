/** models/reviewModels.js: the review schema. A review belongs to a user and
    to a tour, and carries an optional rating between 0 and 5. */
module ReviewModel {
  import opened Js

  /** A review document. `user` and `tour` are the ids the references hold;
      `createdAt` is a time in milliseconds. */
  datatype Review = Review(
    title: Option<string>,
    reviewText: Option<string>,
    createdAt: Option<int>,
    rating: Option<real>,
    user: Option<string>,
    tour: Option<string>)

  /** `new Review(body)` at time `now`: `createdAt` defaults to the time the
      document is made; nothing else changes. */
  function NewReview(body: Review, now: int): (doc: Review)
    ensures doc.createdAt.Some?
    ensures body.createdAt.Some? ==> doc == body
    ensures body.createdAt.None? ==> doc == body.(createdAt := Some(now))
  {
    if body.createdAt.None? then body.(createdAt := Some(now)) else body
  }

  /** The paths a validation error can name. */
  datatype ReviewPath = Rating | User | Tour

  /** The paths whose validators fail: `rating` has `min: 0` and `max: 5`,
      which let an unset rating through; `user` and `tour` are required. The
      `validator` key beside them is not a validator option and is ignored. */
  function ReviewErrors(doc: Review): set<ReviewPath> {
    (if doc.rating.None? || (0.0 <= doc.rating.value && doc.rating.value <= 5.0) then {} else {Rating})
    + (if doc.user.Some? then {} else {User})
    + (if doc.tour.Some? then {} else {Tour})
  }

  predicate Valid(doc: Review) {
    ReviewErrors(doc) == {}
  }

  /** A review is valid exactly when it names a user and a tour and its
      rating, if any, lies in [0, 5]; title, text and date do not matter. */
  lemma ValidIff(doc: Review)
    ensures Valid(doc) <==>
      && doc.user.Some? && doc.tour.Some?
      && (doc.rating.Some? ==> 0.0 <= doc.rating.value <= 5.0)
  {
    if Valid(doc) {
      assert User !in ReviewErrors(doc) && Tour !in ReviewErrors(doc) && Rating !in ReviewErrors(doc);
    }
  }

  /** A review without a tour is invalid, whatever else it holds. */
  lemma MissingTourIsInvalid(body: Review, now: int)
    requires body.tour.None?
    ensures !Valid(NewReview(body, now)) && Tour in ReviewErrors(NewReview(body, now))
  {
  }

  /** A review without a user is invalid, whatever else it holds. */
  lemma MissingUserIsInvalid(body: Review, now: int)
    requires body.user.None?
    ensures !Valid(NewReview(body, now)) && User in ReviewErrors(NewReview(body, now))
  {
  }

  /** The date default never decides validity. */
  lemma DefaultDateKeepsValidity(body: Review, now: int)
    ensures Valid(NewReview(body, now)) <==> Valid(body)
  {
  }
}
