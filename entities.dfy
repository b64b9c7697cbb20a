/**
 * The entities the core touches, reduced to the fields it reads or writes,
 * and Doctrine's object manager reduced to the log of what was persisted.
 */
module Entities {
  import opened Wrappers
  import Rating

  /** A user account; only the fields the fixtures set. */
  datatype User = User(email: string, plainPassword: string, username: string)

  datatype Tag = Tag(name: string)

  /** A review: its author (absent for the unit test's bare reviews) and its rating. */
  datatype Review = Review(author: Option<User>, rating: int)

  function Ratings(reviews: seq<Review>): (r: seq<int>)
    ensures |r| == |reviews|
  {
    if |reviews| == 0 then [] else Ratings(reviews[..|reviews| - 1]) + [reviews[|reviews| - 1].rating]
  }

  lemma {:induction false} RatingAt(reviews: seq<Review>, k: nat)
    requires k < |reviews|
    ensures Ratings(reviews)[k] == reviews[k].rating
  {
    if k < |reviews| - 1 {
      RatingAt(reviews[..|reviews| - 1], k);
    }
  }

  /** Whether some review in `reviews` was written by `user`, found by a linear scan. */
  function ReviewedBy(reviews: seq<Review>, user: User): (found: bool)
    ensures found <==> exists k :: 0 <= k < |reviews| && reviews[k].author == Some(user)
  {
    if |reviews| == 0 then false
    else reviews[|reviews| - 1].author == Some(user) || ReviewedBy(reviews[..|reviews| - 1], user)
  }

  class VideoGame {
    var title: string
    /** The editorial rating set by the fixtures, distinct from the review average. */
    var rating: int
    var tags: seq<Tag>
    var reviews: seq<Review>
    var averageRating: Option<int>
    var ratingsPerValue: Rating.Histogram

    /** Both cached aggregates agree with the current reviews. */
    predicate AggregatesUpToDate()
      reads this
    {
      && averageRating == Rating.Average(Ratings(reviews))
      && ratingsPerValue == Rating.CountPerValue(Ratings(reviews))
    }

    /** `hasAlreadyReview`: some review on this game has `user` as its author. */
    predicate HasAlreadyReview(user: User)
      reads this
    {
      ReviewedBy(reviews, user)
    }

    constructor ()
      ensures title == "" && rating == 0
      ensures tags == [] && reviews == []
      ensures averageRating == None
      ensures AggregatesUpToDate()
    {
      title := "";
      rating := 0;
      tags := [];
      reviews := [];
      averageRating := None;
      ratingsPerValue := Rating.CountPerValue([]);
    }

    method SetTitle(t: string)
      modifies this
      ensures title == t
      ensures rating == old(rating) && tags == old(tags) && reviews == old(reviews)
      ensures averageRating == old(averageRating) && ratingsPerValue == old(ratingsPerValue)
    {
      title := t;
    }

    method SetRating(r: int)
      modifies this
      ensures rating == r
      ensures title == old(title) && tags == old(tags) && reviews == old(reviews)
      ensures averageRating == old(averageRating) && ratingsPerValue == old(ratingsPerValue)
    {
      rating := r;
    }

    /** `getTags()->add($tag)`. */
    method AddTag(tag: Tag)
      modifies this
      ensures tags == old(tags) + [tag]
      ensures title == old(title) && rating == old(rating) && reviews == old(reviews)
      ensures averageRating == old(averageRating) && ratingsPerValue == old(ratingsPerValue)
    {
      tags := tags + [tag];
    }

    /** `getReviews()->add($review)`: the cached aggregates are left as they were. */
    method AddReview(review: Review)
      modifies this
      ensures reviews == old(reviews) + [review]
      ensures title == old(title) && rating == old(rating) && tags == old(tags)
      ensures averageRating == old(averageRating) && ratingsPerValue == old(ratingsPerValue)
    {
      reviews := reviews + [review];
    }

    /** `calculateAverage($videoGame)`: rewrites the cached average from all reviews. */
    method CalculateAverage()
      modifies this
      ensures averageRating == Rating.Average(Ratings(reviews))
      ensures title == old(title) && rating == old(rating) && tags == old(tags)
      ensures reviews == old(reviews) && ratingsPerValue == old(ratingsPerValue)
    {
      averageRating := Rating.Average(Ratings(reviews));
    }

    /** `countRatingsPerValue($videoGame)`: rewrites the cached histogram from all reviews. */
    method CountRatingsPerValue()
      modifies this
      ensures ratingsPerValue == Rating.CountPerValue(Ratings(reviews))
      ensures title == old(title) && rating == old(rating) && tags == old(tags)
      ensures reviews == old(reviews) && averageRating == old(averageRating)
    {
      ratingsPerValue := Rating.CountPerValue(Ratings(reviews));
    }
  }

  /** What a fixture hands to the object manager. */
  datatype Entity =
    | UserEntity(user: User)
    | TagEntity(tag: Tag)
    | VideoGameEntity(game: VideoGame)
    | ReviewEntity(review: Review)

  datatype Operation = Persist(entity: Entity) | Flush

  /** One persist operation per entity, in order. */
  function PersistAll(entities: seq<Entity>): (ops: seq<Operation>)
    ensures |ops| == |entities|
  {
    if |entities| == 0 then [] else PersistAll(entities[..|entities| - 1]) + [Persist(entities[|entities| - 1])]
  }

  /** Doctrine's object manager, observed only through the operations it receives. */
  class ObjectManager {
    var log: seq<Operation>

    constructor ()
      ensures log == []
    {
      log := [];
    }

    method Persist(entity: Entity)
      modifies this
      ensures log == old(log) + [Operation.Persist(entity)]
    {
      log := log + [Operation.Persist(entity)];
    }

    method Flush()
      modifies this
      ensures log == old(log) + [Operation.Flush]
    {
      log := log + [Operation.Flush];
    }
  }
}
