/**
 * `/api/community/reviews`.  GET lists the newest 50 reviews; POST checks
 * that a reviewer and a rating from 1 to 5 are given and creates the
 * review from the body's five fields.  Neither handler reads the token.
 */
module ReviewsRoute {
  import opened Wrappers
  import opened Http
  import opened Text
  import Seqs

  const MissingFields := HttpError(400, "Missing fields")
  const InvalidRating := HttpError(400, "Invalid rating")

  /** The JSON body; a rating is a whole number here. */
  datatype ReviewBody = ReviewBody(
    reviewer: Option<string>,
    targetUser: Option<string>,
    place: Option<string>,
    rating: Option<int>,
    comment: Option<string>)

  /** What the handler hands to `Review.create`: the body's five fields and nothing else. */
  datatype NewReview = NewReview(
    reviewer: string,
    targetUser: Option<string>,
    place: Option<string>,
    rating: int,
    comment: Option<string>)

  /** A stored review, with the time it was created. */
  datatype Review = Review(fields: NewReview, createdAt: int)

  /**
   * `POST`: the created review, or the error.  `!rating` treats a rating of
   * 0 like a missing one, so it gets "Missing fields" and not "Invalid rating".
   */
  function Post(b: ReviewBody): (r: Result<NewReview, HttpError>)
  {
    if !Truthy(b.reviewer) || !TruthyNum(b.rating) then Err(MissingFields)
    else if b.rating.value < 1 || b.rating.value > 5 then Err(InvalidRating)
    else Ok(NewReview(b.reviewer.value, b.targetUser, b.place, b.rating.value, b.comment))
  }

  /** `POST` on the stored reviews: a created review is appended with the current time. */
  function PostStored(store: seq<Review>, b: ReviewBody, now: int): (Result<NewReview, HttpError>, seq<Review>) {
    match Post(b)
    case Err(e) => (Err(e), store)
    case Ok(n) => (Ok(n), store + [Review(n, now)])
  }

  /** A missing or empty reviewer, and a missing or zero rating, get "Missing fields". */
  lemma PostMissingFields(b: ReviewBody)
    ensures Post(b) == Err(HttpError(400, "Missing fields"))
        <==> !Truthy(b.reviewer) || b.rating.None? || b.rating.value == 0
  {
  }

  /** Past that check, a rating outside 1 to 5 gets "Invalid rating". */
  lemma PostRatingRange(b: ReviewBody)
    requires Truthy(b.reviewer) && b.rating.Some? && b.rating.value != 0
    ensures Post(b) == Err(HttpError(400, "Invalid rating")) <==> b.rating.value < 1 || b.rating.value > 5
  {
  }

  /**
   * A review is created exactly when a reviewer and a rating from 1 to 5
   * are given; it then holds the body's reviewer, target user, place,
   * rating and comment unchanged, and it is stored last.
   */
  lemma PostCreated(store: seq<Review>, b: ReviewBody, now: int)
    ensures PostStored(store, b, now).0.Ok? <==> Truthy(b.reviewer) && b.rating.Some? && 1 <= b.rating.value <= 5
    ensures PostStored(store, b, now).0.Ok? ==>
      var n := PostStored(store, b, now).0.value;
      && Some(n.reviewer) == b.reviewer && n.targetUser == b.targetUser && n.place == b.place
      && Some(n.rating) == b.rating && n.comment == b.comment
      && PostStored(store, b, now).1 == store + [Review(n, now)]
    ensures PostStored(store, b, now).0.Err? ==> PostStored(store, b, now).1 == store
  {
  }

  /** The listing's ceiling on how many reviews it returns. */
  const ListLimit := 50

  /** `GET`: the newest 50 reviews.  `store` is kept in creation order. */
  function List(store: seq<Review>): seq<Review> {
    Seqs.Take(Seqs.Reverse(store), ListLimit)
  }

  predicate ChronologicalOrder(store: seq<Review>) {
    forall i, j :: 0 <= i < j < |store| ==> store[i].createdAt <= store[j].createdAt
  }

  predicate NewestFirst(list: seq<Review>) {
    forall i, j :: 0 <= i < j < |list| ==> list[i].createdAt >= list[j].createdAt
  }

  /** The listing holds at most 50 reviews, the most recently created ones, newest first. */
  lemma ListNewest(store: seq<Review>)
    requires ChronologicalOrder(store)
    ensures var l := List(store);
      && |l| == (if |store| < ListLimit then |store| else ListLimit)
      && (forall k :: 0 <= k < |l| ==> l[k] == store[|store| - 1 - k])
      && NewestFirst(l)
  {
    var r := Seqs.Reverse(store);
    var l := List(store);
    assert l == r[..|l|];
    forall i, j | 0 <= i < j < |l|
      ensures l[i].createdAt >= l[j].createdAt
    {
      assert l[i] == store[|store| - 1 - i] && l[j] == store[|store| - 1 - j];
    }
  }

  /** Creating a review at a time no earlier than the others keeps the store in creation order. */
  lemma PostKeepsOrder(store: seq<Review>, b: ReviewBody, now: int)
    requires ChronologicalOrder(store)
    requires forall k :: 0 <= k < |store| ==> store[k].createdAt <= now
    ensures ChronologicalOrder(PostStored(store, b, now).1)
  {
  }
}
