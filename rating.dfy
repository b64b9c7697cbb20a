/**
 * The rating aggregates a video game caches: the rounded average of its
 * review ratings and the number of reviews per rating value 1..5. The
 * aggregator classes themselves are not part of this model; these functions
 * state what their callers and the unit test fix about them.
 */
module Rating {
  import opened Wrappers
  import opened Arithmetic

  const MinRating: int := 1
  const MaxRating: int := 5

  predicate InRange(ratings: seq<int>) {
    forall k :: 0 <= k < |ratings| ==> MinRating <= ratings[k] <= MaxRating
  }

  function Sum(ratings: seq<int>): int {
    if |ratings| == 0 then 0 else Sum(ratings[..|ratings| - 1]) + ratings[|ratings| - 1]
  }

  /**
   * The average rating: absent for no review, otherwise the mean rounded to
   * the nearest integer, a mean exactly halfway between two integers going up.
   */
  function Average(ratings: seq<int>): (r: Option<int>)
    ensures r.None? <==> |ratings| == 0
  {
    if |ratings| == 0 then None
    else Some(FloorDiv(2 * Sum(ratings) + |ratings|, 2 * |ratings|))
  }

  /** The average `a` is the unique integer with a - 1/2 <= Sum / n < a + 1/2. */
  lemma AverageIsRoundedMean(ratings: seq<int>)
    requires |ratings| > 0
    ensures var n, a := |ratings|, Average(ratings).value;
      2 * n * a - n <= 2 * Sum(ratings) < 2 * n * a + n
  {
    FloorDivBounds(2 * Sum(ratings) + |ratings|, 2 * |ratings|);
  }

  /** A linear scan counting the reviews rated `value`. */
  function Count(ratings: seq<int>, value: int): nat {
    if |ratings| == 0 then 0
    else Count(ratings[..|ratings| - 1], value) + (if ratings[|ratings| - 1] == value then 1 else 0)
  }

  /** The scan counts exactly the reviews rated `value`, whatever their order. */
  lemma {:induction false} CountIsMultiplicity(ratings: seq<int>, value: int)
    ensures Count(ratings, value) == multiset(ratings)[value]
  {
    if |ratings| > 0 {
      var init := ratings[..|ratings| - 1];
      CountIsMultiplicity(init, value);
      assert ratings == init + [ratings[|ratings| - 1]];
    }
  }

  /** Number of reviews per rating value: always exactly one bucket for each value 1..5. */
  datatype Histogram = Histogram(ones: nat, twos: nat, threes: nat, fours: nat, fives: nat) {
    function Bucket(value: int): nat
      requires MinRating <= value <= MaxRating
    {
      if value == 1 then ones
      else if value == 2 then twos
      else if value == 3 then threes
      else if value == 4 then fours
      else fives
    }

    /** The number of reviews counted. */
    function Total(): nat {
      ones + twos + threes + fours + fives
    }

    /** The sum of the counted ratings. */
    function Weight(): nat {
      ones + 2 * twos + 3 * threes + 4 * fours + 5 * fives
    }

    /** The histogram after counting one more review rated `value`. */
    function Add(value: int): Histogram
      requires MinRating <= value <= MaxRating
    {
      if value == 1 then this.(ones := ones + 1)
      else if value == 2 then this.(twos := twos + 1)
      else if value == 3 then this.(threes := threes + 1)
      else if value == 4 then this.(fours := fours + 1)
      else this.(fives := fives + 1)
    }
  }

  /** The histogram of `ratings`: bucket `v` holds the scan count of `v`. */
  function CountPerValue(ratings: seq<int>): Histogram {
    Histogram(Count(ratings, 1), Count(ratings, 2), Count(ratings, 3), Count(ratings, 4), Count(ratings, 5))
  }

  /** Each bucket holds the number of reviews with that rating. */
  lemma CountPerValueIsHistogram(ratings: seq<int>)
    ensures forall v :: MinRating <= v <= MaxRating ==> CountPerValue(ratings).Bucket(v) == multiset(ratings)[v]
  {
    forall v | MinRating <= v <= MaxRating {
      CountIsMultiplicity(ratings, v);
    }
  }

  lemma {:induction false} SumBounds(ratings: seq<int>)
    requires InRange(ratings)
    ensures MinRating * |ratings| <= Sum(ratings) <= MaxRating * |ratings|
  {
    if |ratings| > 0 {
      SumBounds(ratings[..|ratings| - 1]);
    }
  }

  lemma MulCancelStrict(d: int, u: int, v: int)
    requires d > 0 && d * u < d * v
    ensures u < v
  {
  }

  /** With every rating in 1..5 a non-empty set of reviews averages in 1..5. */
  lemma AverageInRange(ratings: seq<int>)
    requires InRange(ratings) && |ratings| > 0
    ensures Average(ratings).Some?
    ensures MinRating <= Average(ratings).value <= MaxRating
  {
    var n := |ratings|;
    var d, x := 2 * n, 2 * Sum(ratings) + n;
    var q := FloorDiv(x, d);
    FloorDivBounds(x, d);
    SumBounds(ratings);
    MulCancelStrict(d, 1, q + 1);
    MulCancelStrict(d, q, 6);
  }

  /** The average of a single review is that review's rating. */
  lemma AverageOfOne(rating: int)
    ensures Average([rating]) == Some(rating)
  {
    assert Sum([rating]) == rating by {
      assert [rating][..0] == [];
    }
    FloorDivBounds(2 * rating + 1, 2);
  }

  /** Counting one more review adds one to the total and its rating to the weight. */
  lemma AddCountsOnce(h: Histogram, value: int)
    requires MinRating <= value <= MaxRating
    ensures h.Add(value).Total() == h.Total() + 1
    ensures h.Add(value).Weight() == h.Weight() + value
  {
  }

  /** The histogram of a non-empty sequence is the histogram of its prefix plus its last rating. */
  lemma CountPerValueStep(ratings: seq<int>)
    requires |ratings| > 0 && MinRating <= ratings[|ratings| - 1] <= MaxRating
    ensures CountPerValue(ratings) == CountPerValue(ratings[..|ratings| - 1]).Add(ratings[|ratings| - 1])
  {
  }

  /** Every rated review falls in exactly one bucket: the buckets add up to the review count. */
  lemma {:induction false} HistogramCountsEveryReview(ratings: seq<int>)
    requires InRange(ratings)
    ensures CountPerValue(ratings).Total() == |ratings|
    ensures CountPerValue(ratings).Weight() == Sum(ratings)
  {
    if |ratings| > 0 {
      var init, last := ratings[..|ratings| - 1], ratings[|ratings| - 1];
      assert InRange(init) by {
        forall k | 0 <= k < |init| ensures MinRating <= init[k] <= MaxRating {
          assert init[k] == ratings[k];
        }
      }
      HistogramCountsEveryReview(init);
      CountPerValueStep(ratings);
      AddCountsOnce(CountPerValue(init), last);
    } else {
      assert CountPerValue(ratings) == Histogram(0, 0, 0, 0, 0);
    }
  }

  /** Reordering the reviews leaves the histogram unchanged. */
  lemma HistogramIgnoresOrder(ratings: seq<int>, other: seq<int>)
    requires multiset(ratings) == multiset(other)
    ensures CountPerValue(ratings) == CountPerValue(other)
  {
    CountPerValueIsHistogram(ratings);
    CountPerValueIsHistogram(other);
    assert CountPerValue(ratings).Bucket(1) == CountPerValue(other).Bucket(1);
    assert CountPerValue(ratings).Bucket(2) == CountPerValue(other).Bucket(2);
    assert CountPerValue(ratings).Bucket(3) == CountPerValue(other).Bucket(3);
    assert CountPerValue(ratings).Bucket(4) == CountPerValue(other).Bucket(4);
    assert CountPerValue(ratings).Bucket(5) == CountPerValue(other).Bucket(5);
  }

  lemma {:induction false} SumAppend(a: seq<int>, b: seq<int>)
    ensures Sum(a + b) == Sum(a) + Sum(b)
    decreases |b|
  {
    if |b| > 0 {
      SumAppend(a, b[..|b| - 1]);
      assert (a + b)[..|a + b| - 1] == a + b[..|b| - 1];
    } else {
      assert a + b == a;
    }
  }

  /** Taking one rating out of the reviews takes it out of the sum. */
  lemma SumRemove(before: seq<int>, rating: int, after: seq<int>)
    ensures Sum(before + [rating] + after) == Sum(before + after) + rating
  {
    var upTo := before + [rating];
    assert upTo[..|upTo| - 1] == before;
    SumAppend(upTo, after);
    SumAppend(before, after);
  }

  /** Some occurrence of `rating` in `other`, and what is left once it is taken out. */
  lemma TakeOut(other: seq<int>, rating: int) returns (i: nat)
    requires rating in multiset(other)
    ensures i < |other| && other[i] == rating
    ensures other == other[..i] + [rating] + other[i + 1..]
    ensures multiset(other[..i] + other[i + 1..]) == multiset(other) - multiset{rating}
  {
    i :| 0 <= i < |other| && other[i] == rating;
    assert other == other[..i] + [rating] + other[i + 1..];
    assert multiset(other) == multiset(other[..i] + other[i + 1..]) + multiset{rating};
  }

  /** The sum depends only on the multiset of ratings. */
  lemma {:induction false} SumIgnoresOrder(ratings: seq<int>, other: seq<int>)
    requires multiset(ratings) == multiset(other)
    ensures Sum(ratings) == Sum(other)
    decreases |ratings|
  {
    if |ratings| > 0 {
      var init, last := ratings[..|ratings| - 1], ratings[|ratings| - 1];
      assert ratings == init + [last];
      var i := TakeOut(other, last);
      var rest := other[..i] + other[i + 1..];
      assert multiset(init) == multiset(ratings) - multiset{last} == multiset(rest);
      SumIgnoresOrder(init, rest);
      SumRemove(other[..i], last, other[i + 1..]);
    } else {
      assert |other| == |multiset(other)| == 0;
    }
  }

  /**
   * The aggregates depend on the multiset of ratings, not on the order in
   * which the reviews were appended.
   */
  lemma AggregatesIgnoreOrder(ratings: seq<int>, other: seq<int>)
    requires multiset(ratings) == multiset(other)
    ensures CountPerValue(ratings) == CountPerValue(other)
    ensures Average(ratings) == Average(other)
  {
    assert |ratings| == |multiset(ratings)| == |other|;
    HistogramIgnoresOrder(ratings, other);
    SumIgnoresOrder(ratings, other);
  }

  /** Appending one review moves exactly its own bucket up by one and leaves the other four alone. */
  lemma AppendBumpsOneBucket(ratings: seq<int>, rating: int)
    requires MinRating <= rating <= MaxRating
    ensures forall v :: MinRating <= v <= MaxRating ==>
      CountPerValue(ratings + [rating]).Bucket(v) ==
        CountPerValue(ratings).Bucket(v) + (if v == rating then 1 else 0)
  {
    assert (ratings + [rating])[..|ratings|] == ratings;
  }
}
