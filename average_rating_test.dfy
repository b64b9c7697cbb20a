/**
 * The unit test of the average-rating calculation: its data provider, the
 * helper that builds a game from a list of ratings, and the test body.
 */
module AverageRatingCalculatorTest {
  import opened Wrappers
  import Rating
  import Arithmetic
  import opened Entities

  /** `createVideoGame(...$ratings)`: a new game with one bare review per rating, in order. */
  method CreateVideoGame(ratings: seq<int>) returns (game: VideoGame)
    ensures fresh(game)
    ensures Ratings(game.reviews) == ratings
    ensures forall k :: 0 <= k < |game.reviews| ==> game.reviews[k].author == None
    ensures game.averageRating == None && game.tags == []
  {
    game := new VideoGame();
    for i := 0 to |ratings|
      invariant Ratings(game.reviews) == ratings[..i]
      invariant forall k :: 0 <= k < |game.reviews| ==> game.reviews[k].author == None
      invariant game.averageRating == None && game.tags == []
    {
      game.AddReview(Review(None, ratings[i]));
      assert ratings[..i + 1] == ratings[..i] + [ratings[i]];
    }
    assert ratings[..|ratings|] == ratings;
  }

  /**
   * `testShouldCalculateAverageRating`: builds the game, runs the calculation
   * and compares the cached average with the expected value.
   */
  method ShouldCalculateAverageRating(ratings: seq<int>, expected: Option<int>) returns (passes: bool)
    ensures passes <==> expected == Rating.Average(ratings)
  {
    var game := CreateVideoGame(ratings);
    game.CalculateAverage();
    passes := expected == game.averageRating;
  }

  datatype Case = Case(name: string, ratings: seq<int>, expected: Option<int>)

  const LotOfReviews: seq<int> := [1, 2, 2, 3, 3, 3, 4, 4, 4, 4, 5, 5, 5, 5, 5]

  /** `provideVideoGame`: the three cases of the test. */
  function ProvideVideoGame(): (cases: seq<Case>)
    ensures |cases| == 3
  {
    [ Case("No review", [], None),
      Case("One review", [5], Some(5)),
      Case("A lot of reviews", LotOfReviews, Some(4)) ]
  }

  lemma SumOfLotOfReviews()
    ensures Rating.Sum(LotOfReviews) == 55
  {
    assert LotOfReviews[..1][..0] == LotOfReviews[..0];
    assert Rating.Sum(LotOfReviews[..1]) == 1;
    assert LotOfReviews[..2][..1] == LotOfReviews[..1];
    assert Rating.Sum(LotOfReviews[..2]) == 3;
    assert LotOfReviews[..3][..2] == LotOfReviews[..2];
    assert Rating.Sum(LotOfReviews[..3]) == 5;
    assert LotOfReviews[..4][..3] == LotOfReviews[..3];
    assert Rating.Sum(LotOfReviews[..4]) == 8;
    assert LotOfReviews[..5][..4] == LotOfReviews[..4];
    assert Rating.Sum(LotOfReviews[..5]) == 11;
    assert LotOfReviews[..6][..5] == LotOfReviews[..5];
    assert Rating.Sum(LotOfReviews[..6]) == 14;
    assert LotOfReviews[..7][..6] == LotOfReviews[..6];
    assert Rating.Sum(LotOfReviews[..7]) == 18;
    assert LotOfReviews[..8][..7] == LotOfReviews[..7];
    assert Rating.Sum(LotOfReviews[..8]) == 22;
    assert LotOfReviews[..9][..8] == LotOfReviews[..8];
    assert Rating.Sum(LotOfReviews[..9]) == 26;
    assert LotOfReviews[..10][..9] == LotOfReviews[..9];
    assert Rating.Sum(LotOfReviews[..10]) == 30;
    assert LotOfReviews[..11][..10] == LotOfReviews[..10];
    assert Rating.Sum(LotOfReviews[..11]) == 35;
    assert LotOfReviews[..12][..11] == LotOfReviews[..11];
    assert Rating.Sum(LotOfReviews[..12]) == 40;
    assert LotOfReviews[..13][..12] == LotOfReviews[..12];
    assert Rating.Sum(LotOfReviews[..13]) == 45;
    assert LotOfReviews[..14][..13] == LotOfReviews[..13];
    assert Rating.Sum(LotOfReviews[..14]) == 50;
    assert LotOfReviews[..15][..14] == LotOfReviews[..14];
    assert Rating.Sum(LotOfReviews[..15]) == 55;
    assert LotOfReviews[..15] == LotOfReviews;
  }

  /** Every provided case passes against the modelled average. */
  lemma ProvidedCasesPass()
    ensures forall c :: c in ProvideVideoGame() ==> Rating.Average(c.ratings) == c.expected
  {
    Rating.AverageOfOne(5);
    SumOfLotOfReviews();
    Arithmetic.FloorDivBounds(125, 30);
  }

  /**
   * The third case rules out a truncating average: 55 reviews points over 15
   * reviews truncate to 3, and the test expects 4.
   */
  lemma TruncationFailsLotOfReviews()
    ensures Rating.Sum(LotOfReviews) / |LotOfReviews| == 3
    ensures Rating.Average(LotOfReviews) == Some(4)
  {
    SumOfLotOfReviews();
    Arithmetic.FloorDivBounds(125, 30);
  }
}
