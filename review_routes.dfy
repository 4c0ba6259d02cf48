/** The review routes of routes/reviews.js over an in-memory collection. */
module ReviewRoutes {
  import opened Common
  import opened ReviewModel
  import Ordering

  const AllFieldsRequiredMessage: string := "All fields are required"
  const ReviewSaveFailedMessage: string := "Review save failed"

  /** The body of POST `/`. */
  datatype ReviewRequest = ReviewRequest(name: Option<string>, rating: Option<int>, message: Option<string>)

  /** `!name || !rating || !message`: some field is falsy. A rating of 0 is falsy. */
  predicate GuardRejects(req: ReviewRequest)
  {
    !Filled(req.name) || !TruthyNumber(req.rating) || !Filled(req.message)
  }

  /** A request the guard lets through has every field, and a rating other than 0; the
      guard does not bound the rating, so the schema alone decides whether it is admitted. */
  lemma GuardThenSchema(req: ReviewRequest, now: int)
    requires !GuardRejects(req)
    ensures req.name.Some? && req.rating.Some? && req.message.Some? && req.rating.value != 0
    ensures NewReview(req.name, req.rating, req.message, now).Some? <==> 1 <= req.rating.value <= 5
  {
  }

  /** The review collection, in insertion order. */
  class ReviewStore {
    var reviews: seq<Review>

    /** Every stored review satisfies the schema, so every rating is between 1 and 5. */
    ghost predicate Valid()
      reads this
    {
      forall i :: 0 <= i < |reviews| ==> ReviewModel.Valid(reviews[i])
    }

    constructor ()
      ensures Valid() && reviews == []
    {
      reviews := [];
    }

    /** POST `/`: 400 "All fields are required" when a field is falsy, 500 "Review save failed"
        when the schema refuses the rating; otherwise the review, carrying exactly the
        submitted fields, is appended and nothing else changes. */
    method Submit(req: ReviewRequest, now: int) returns (reply: Reply<Review>)
      requires Valid()
      modifies this
      ensures Valid()
      ensures GuardRejects(req) ==> reply == Error(400, AllFieldsRequiredMessage) && reviews == old(reviews)
      ensures !GuardRejects(req) && !(MinRating <= req.rating.value <= MaxRating) ==>
        reply == Error(500, ReviewSaveFailedMessage) && reviews == old(reviews)
      ensures !GuardRejects(req) && MinRating <= req.rating.value <= MaxRating ==>
        && reply == Ok(Review(req.name.value, req.rating.value, req.message.value, now))
        && reviews == old(reviews) + [reply.body]
    {
      if GuardRejects(req) {
        return Error(400, AllFieldsRequiredMessage);
      }
      var review := NewReview(req.name, req.rating, req.message, now);
      if review.None? {
        return Error(500, ReviewSaveFailedMessage);
      }
      reviews := reviews + [review.value];
      reply := Ok(review.value);
    }

    /** GET `/`: every review, as often as stored, newest first. */
    method ListNewestFirst() returns (list: seq<Review>)
      ensures multiset(list) == multiset(reviews)
      ensures Ordering.NewestFirst(list, CreatedAt)
    {
      list := Ordering.SortNewestFirst(reviews, CreatedAt);
    }
  }
}
