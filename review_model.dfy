/** The review schema of models/Review.js. */
module ReviewModel {
  import opened Common

  /** The `min` and `max` of the `rating` path. */
  const MinRating: int := 1
  const MaxRating: int := 5

  /** A stored review; `createdAt` is the timestamp `timestamps: true` sets on the first save. */
  datatype Review = Review(name: string, rating: int, message: string, createdAt: int)

  function CreatedAt(r: Review): int
  {
    r.createdAt
  }

  /** What every stored review satisfies. */
  predicate Valid(r: Review)
  {
    r.name != "" && r.message != "" && MinRating <= r.rating <= MaxRating
  }

  /** `new Review({ name, rating, message })` followed by the validation of `save()`, with
      clock reading `now`: `name` and `message` are required strings, `rating` a required
      number between 1 and 5. */
  function NewReview(name: Option<string>, rating: Option<int>, message: Option<string>, now: int): (r: Option<Review>)
    ensures r.Some? <==> Filled(name) && Filled(message) && rating.Some? && 1 <= rating.value <= 5
    ensures r.Some? ==> Valid(r.value)
    ensures r.Some? ==> r.value == Review(name.value, rating.value, message.value, now)
  {
    if Filled(name) && Filled(message) && rating.Some? && MinRating <= rating.value <= MaxRating then
      Some(Review(name.value, rating.value, message.value, now))
    else None
  }

  /** Every rating the schema admits lies between 1 and 5, and each of 1..5 is admitted. */
  lemma AdmittedRatings(name: string, rating: int, message: string, now: int)
    requires name != "" && message != ""
    ensures NewReview(Some(name), Some(rating), Some(message), now).Some? <==> 1 <= rating <= 5
  {
  }
}
