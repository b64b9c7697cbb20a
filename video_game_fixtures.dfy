/**
 * The video-game fixture: 50 games whose title, editorial rating and tags
 * derive from their index, then one review per user of a chunk of five
 * users, with both cached aggregates recomputed after every review.
 * Repositories are inputs (`tags`, `users`); the random rating generator is
 * the stream `draw`, read once per review in creation order.
 */
module VideoGameFixtures {
  import opened Wrappers
  import Decimal
  import Rating
  import opened Arithmetic
  import opened Entities

  const GameCount: nat := 50
  const TagsPerGame: nat := 5
  const ChunkSize: nat := 5

  /** `sprintf('Jeu vidéo %d', $index)`. */
  function Title(index: int): string {
    "Jeu vidéo " + Decimal.FromInt(index)
  }

  lemma TitlesDistinct(i: int, j: int)
    requires i != j
    ensures Title(i) != Title(j)
  {
    if Title(i) == Title(j) {
      Decimal.FramedInjective("Jeu vidéo ", "", i, j);
    }
  }

  /** The editorial rating of game `index`: it cycles through 1..5. */
  function EditorialRating(index: nat): (r: int)
    ensures Rating.MinRating <= r <= Rating.MaxRating
  {
    index % 5 + 1
  }

  /** The five tags of game `index`: consecutive tags from position `index`, wrapping around. */
  function GameTags(tags: seq<Tag>, index: nat): (r: seq<Tag>)
    requires |tags| > 0
    ensures |r| == TagsPerGame
  {
    seq(TagsPerGame, (k: nat) => tags[Mod(index + k, |tags|)])
  }

  /** The `k`-th tag appended to game `index` is `tags[(index + k) % count(tags)]`. */
  lemma GameTagAt(tags: seq<Tag>, index: nat, k: nat)
    requires |tags| > 0 && k < TagsPerGame
    ensures GameTags(tags, index)[k] == tags[(index + k) % |tags|]
  {
    ModIsRemainder(index + k, |tags|);
  }

  predicate AllDistinct<T(==)>(s: seq<T>) {
    forall a, b :: 0 <= a < b < |s| ==> s[a] != s[b]
  }

  /** With at least five distinct tags, every game gets five different tags. */
  lemma GameTagsDistinct(tags: seq<Tag>, index: nat)
    requires |tags| >= TagsPerGame && AllDistinct(tags)
    ensures AllDistinct(GameTags(tags, index))
  {
    var g := GameTags(tags, index);
    forall k, l | 0 <= k < l < |g|
      ensures g[k] != g[l]
    {
      ModInjectiveWithin(index + k, index + l, |tags|);
    }
  }

  /** The tag assignment repeats every `count(tags)` games. */
  lemma GameTagsPeriodic(tags: seq<Tag>, index: nat)
    requires |tags| > 0
    ensures GameTags(tags, index + |tags|) == GameTags(tags, index)
  {
    forall k | 0 <= k < TagsPerGame
      ensures GameTags(tags, index + |tags|)[k] == GameTags(tags, index)[k]
    {
      ModShift(index + k, |tags|);
    }
  }

  /** The only windows of five among 25 cyclic positions that start at position 0 and reach position 4. */
  lemma WindowStart(index: nat, k0: nat, k4: nat)
    requires index < GameCount && k0 < TagsPerGame && k4 < TagsPerGame
    requires (index + k0) % 25 == 0 && (index + k4) % 25 == 4
    ensures index == 0 || index == 25
  {
  }

  /**
   * With 25 distinct tags, the games among the fifty that carry all of the
   * first five tags are exactly games 0 and 25.
   */
  lemma HoldsFirstFiveTags(tags: seq<Tag>, index: nat)
    requires |tags| == 25 && AllDistinct(tags) && index < GameCount
    ensures (forall t :: 0 <= t < TagsPerGame ==> tags[t] in GameTags(tags, index)) <==> (index == 0 || index == 25)
  {
    var g := GameTags(tags, index);
    if index == 0 || index == 25 {
      forall t | 0 <= t < TagsPerGame
        ensures tags[t] in g
      {
        assert Mod(index + t, 25) == t;
        assert g[t] == tags[t];
      }
    } else if tags[0] in g && tags[4] in g {
      var k0 :| 0 <= k0 < TagsPerGame && g[k0] == tags[0];
      var k4 :| 0 <= k4 < TagsPerGame && g[k4] == tags[4];
      GameTagAt(tags, index, k0);
      GameTagAt(tags, index, k4);
      WindowStart(index, k0, k4);
    }
  }

  /** `array_chunk($users, 5)`. */
  function Chunks(users: seq<User>): (chunks: seq<seq<User>>)
    ensures |users| > 0 ==> |chunks| > 0
    decreases |users|
  {
    if |users| == 0 then []
    else if |users| <= ChunkSize then [users]
    else [users[..ChunkSize]] + Chunks(users[ChunkSize..])
  }

  /** No chunk is empty and none holds more than five users. */
  lemma {:induction false} ChunkSizes(users: seq<User>)
    ensures forall k :: 0 <= k < |Chunks(users)| ==> 0 < |Chunks(users)[k]| <= ChunkSize
    decreases |users|
  {
    if |users| > ChunkSize {
      ChunkSizes(users[ChunkSize..]);
    }
  }

  function Min(a: int, b: int): int {
    if a <= b then a else b
  }

  lemma DropSlice<T>(s: seq<T>, n: nat, from: nat, to: nat)
    requires n <= |s| && from <= to <= |s| - n
    ensures s[n..][from..to] == s[from + n .. to + n]
  {
  }

  /** Chunk `k` is the slice of five users starting at `5 * k`, the last one possibly shorter. */
  lemma {:induction false} ChunkIsSlice(users: seq<User>)
    ensures |Chunks(users)| == (|users| + ChunkSize - 1) / ChunkSize
    ensures forall k :: 0 <= k < |Chunks(users)| ==>
      Chunks(users)[k] == users[ChunkSize * k .. Min(ChunkSize * k + ChunkSize, |users|)]
    decreases |users|
  {
    if |users| > ChunkSize {
      var rest := users[ChunkSize..];
      ChunkIsSlice(rest);
      forall k | 1 <= k < |Chunks(users)|
        ensures Chunks(users)[k] == users[ChunkSize * k .. Min(ChunkSize * k + ChunkSize, |users|)]
      {
        var from, to := ChunkSize * (k - 1), Min(ChunkSize * (k - 1) + ChunkSize, |rest|);
        assert k - 1 < (|rest| + ChunkSize - 1) / ChunkSize;
        assert from < |rest|;
        assert Chunks(users)[k] == Chunks(rest)[k - 1] == rest[from..to];
        assert to + ChunkSize == Min(ChunkSize * k + ChunkSize, |users|);
        DropSlice(users, ChunkSize, from, to);
      }
    }
  }

  /** The chunk of users that reviews game `index`: `$users[$index % count($users)]`. */
  function ChunkOf(users: seq<User>, index: nat): (chunk: seq<User>)
    requires |users| > 0
    ensures 0 < |chunk| <= ChunkSize
  {
    var chunks := Chunks(users);
    ChunkSizes(users);
    chunks[Mod(index, |chunks|)]
  }

  /** How many reviews, hence draws of the rating generator, precede game `index`. */
  function Offset(users: seq<User>, index: nat): nat
    requires |users| > 0
  {
    if index == 0 then 0 else Offset(users, index - 1) + |ChunkOf(users, index - 1)|
  }

  /** One review per user of `chunk`, in chunk order, rated by the draws from position `start` on. */
  function ChunkReviews(chunk: seq<User>, draw: nat -> int, start: nat): (reviews: seq<Review>)
    ensures |reviews| == |chunk|
  {
    seq(|chunk|, j requires 0 <= j < |chunk| => Review(Some(chunk[j]), draw(start + j)))
  }

  /** The reviews game `index` receives: one per user of its chunk, in chunk order. */
  function ReviewsOf(users: seq<User>, draw: nat -> int, index: nat): (reviews: seq<Review>)
    requires |users| > 0
  {
    ChunkReviews(ChunkOf(users, index), draw, Offset(users, index))
  }

  function ReviewEntities(reviews: seq<Review>): (entities: seq<Entity>)
    ensures |entities| == |reviews|
  {
    if |reviews| == 0 then [] else ReviewEntities(reviews[..|reviews| - 1]) + [ReviewEntity(reviews[|reviews| - 1])]
  }

  /** The log `log` followed by the persist operations for the reviews of games `0 .. count - 1`, game by game. */
  function ReviewPersists(log: seq<Operation>, users: seq<User>, draw: nat -> int, count: nat): seq<Operation>
    requires |users| > 0
  {
    if count == 0 then log
    else ReviewPersists(log, users, draw, count - 1) + PersistAll(ReviewEntities(ReviewsOf(users, draw, count - 1)))
  }

  function GameEntities(games: seq<VideoGame>): (entities: seq<Entity>)
    ensures |entities| == |games|
  {
    if |games| == 0 then [] else GameEntities(games[..|games| - 1]) + [VideoGameEntity(games[|games| - 1])]
  }

  /** Game `index` titled, rated and tagged as the first loop does it; the second loop keeps this. */
  predicate Labelled(game: VideoGame, tags: seq<Tag>, index: nat)
    requires |tags| > 0
    reads game
  {
    && game.title == Title(index)
    && game.rating == EditorialRating(index)
    && game.tags == GameTags(tags, index)
  }

  /** Game `index` as the first loop leaves it: labelled, not yet reviewed. */
  predicate Built(game: VideoGame, tags: seq<Tag>, index: nat)
    requires |tags| > 0
    reads game
  {
    Labelled(game, tags, index) && game.reviews == []
  }

  /** The new game `index` with its five tags. */
  method NewVideoGame(tags: seq<Tag>, index: nat) returns (game: VideoGame)
    requires |tags| > 0
    ensures fresh(game) && Built(game, tags, index)
  {
    game := new VideoGame();
    game.SetTitle(Title(index));
    game.SetRating(EditorialRating(index));
    for tagIndex := 0 to TagsPerGame
      invariant game.tags == GameTags(tags, index)[..tagIndex]
      invariant game.title == Title(index) && game.rating == EditorialRating(index)
      invariant game.reviews == []
    {
      game.AddTag(tags[Mod(index + tagIndex, |tags|)]);
      assert GameTags(tags, index)[..tagIndex + 1] == GameTags(tags, index)[..tagIndex] + [tags[Mod(index + tagIndex, |tags|)]];
    }
    assert GameTags(tags, index)[..TagsPerGame] == GameTags(tags, index);
  }

  predicate AllBuilt(videoGames: seq<VideoGame>, tags: seq<Tag>)
    requires |tags| > 0
    reads videoGames
  {
    forall i :: 0 <= i < |videoGames| ==> Built(videoGames[i], tags, i)
  }

  lemma PersistOneMoreGame(games: seq<VideoGame>, game: VideoGame)
    ensures PersistAll(GameEntities(games + [game])) == PersistAll(GameEntities(games)) + [Persist(VideoGameEntity(game))]
  {
    var entities := GameEntities(games);
    assert (games + [game])[..|games|] == games;
    assert GameEntities(games + [game]) == entities + [VideoGameEntity(game)];
    assert (entities + [VideoGameEntity(game)])[..|entities|] == entities;
  }

  /** A game that is none of `games` keeps them pairwise different when appended. */
  lemma AppendDistinct<T>(games: seq<T>, game: T)
    requires AllDistinct(games) && game !in games
    ensures AllDistinct(games + [game])
  {
    var extended := games + [game];
    forall a, b | 0 <= a < b < |extended|
      ensures extended[a] != extended[b]
    {
      assert extended[a] == games[a];
      if b == |games| {
        assert games[a] in games;
      }
    }
  }

  /** Game `|videoGames|` built after the built games keeps the whole sequence built. */
  lemma AppendBuilt(videoGames: seq<VideoGame>, game: VideoGame, tags: seq<Tag>)
    requires |tags| > 0 && AllBuilt(videoGames, tags) && Built(game, tags, |videoGames|)
    ensures AllBuilt(videoGames + [game], tags)
  {
    var games := videoGames + [game];
    forall i | 0 <= i < |games|
      ensures Built(games[i], tags, i)
    {
      if i < |videoGames| {
        assert games[i] == videoGames[i];
      }
    }
  }

  /** One iteration of the first loop: game `|videoGames|` is built and persisted. */
  method AppendGame(manager: ObjectManager, videoGames: seq<VideoGame>, tags: seq<Tag>, ghost log: seq<Operation>)
    returns (game: VideoGame)
    requires |tags| > 0 && AllDistinct(videoGames) && AllBuilt(videoGames, tags)
    requires manager.log == log + PersistAll(GameEntities(videoGames))
    modifies manager
    ensures fresh(game)
    ensures AllDistinct(videoGames + [game]) && AllBuilt(videoGames + [game], tags)
    ensures manager.log == log + PersistAll(GameEntities(videoGames + [game]))
  {
    game := NewVideoGame(tags, |videoGames|);
    assert game !in videoGames;
    AppendDistinct(videoGames, game);
    AppendBuilt(videoGames, game, tags);
    manager.Persist(VideoGameEntity(game));
    PersistOneMoreGame(videoGames, game);
  }

  /** The first loop of `load`: builds, tags and persists the 50 games, then flushes. */
  method BuildVideoGames(manager: ObjectManager, tags: seq<Tag>) returns (videoGames: seq<VideoGame>)
    requires |tags| > 0
    modifies manager
    ensures |videoGames| == GameCount && AllDistinct(videoGames)
    ensures forall i :: 0 <= i < |videoGames| ==> fresh(videoGames[i])
    ensures AllBuilt(videoGames, tags)
    ensures manager.log == old(manager.log) + PersistAll(GameEntities(videoGames)) + [Flush]
  {
    videoGames := [];
    for index := 0 to GameCount
      invariant |videoGames| == index && AllDistinct(videoGames)
      invariant forall i :: 0 <= i < index ==> fresh(videoGames[i])
      invariant AllBuilt(videoGames, tags)
      invariant manager.log == old(manager.log) + PersistAll(GameEntities(videoGames))
    {
      var game := AppendGame(manager, videoGames, tags, old(manager.log));
      videoGames := videoGames + [game];
    }
    manager.Flush();
  }

  /** The fields the second loop leaves alone. */
  function Labels(game: VideoGame): (string, int, seq<Tag>)
    reads game
  {
    (game.title, game.rating, game.tags)
  }

  /** Game `index` as the second loop leaves it: its chunk's reviews, aggregates up to date. */
  predicate Seeded(game: VideoGame, users: seq<User>, draw: nat -> int, index: nat)
    requires |users| > 0
    reads game
  {
    game.reviews == ReviewsOf(users, draw, index) && game.AggregatesUpToDate()
  }

  lemma PersistOneMoreReview(reviews: seq<Review>, j: nat)
    requires j < |reviews|
    ensures reviews[..j + 1] == reviews[..j] + [reviews[j]]
    ensures PersistAll(ReviewEntities(reviews[..j + 1])) == PersistAll(ReviewEntities(reviews[..j])) + [Persist(ReviewEntity(reviews[j]))]
  {
    var entities := ReviewEntities(reviews[..j]);
    assert reviews[..j + 1][..j] == reviews[..j];
    assert ReviewEntities(reviews[..j + 1]) == entities + [ReviewEntity(reviews[j])];
    assert (entities + [ReviewEntity(reviews[j])])[..j] == entities;
  }

  /** One iteration of the innermost loop: append the `j`-th review, persist it, re-aggregate. */
  method PostReview(manager: ObjectManager, game: VideoGame, review: Review, expected: seq<Review>, j: nat,
                    ghost log: seq<Operation>, ghost gameLabels: (string, int, seq<Tag>))
    requires j < |expected| && expected[j] == review
    requires game.reviews == expected[..j] && Labels(game) == gameLabels
    requires manager.log == log + PersistAll(ReviewEntities(expected[..j]))
    modifies manager, game
    ensures game.reviews == expected[..j + 1] && game.AggregatesUpToDate() && Labels(game) == gameLabels
    ensures manager.log == log + PersistAll(ReviewEntities(expected[..j + 1]))
  {
    PersistOneMoreReview(expected, j);
    game.AddReview(review);
    assert game.reviews == expected[..j + 1] && Labels(game) == gameLabels;
    manager.Persist(ReviewEntity(review));
    assert manager.log == log + PersistAll(ReviewEntities(expected[..j + 1]));
    game.CalculateAverage();
    game.CountRatingsPerValue();
  }

  /**
   * One iteration of the second loop: a review by each of `filteredUsers`,
   * each followed by re-aggregation; `start` is the generator's position.
   */
  method SeedGame(manager: ObjectManager, game: VideoGame, filteredUsers: seq<User>, draw: nat -> int, start: nat,
                  ghost gameLabels: (string, int, seq<Tag>))
    requires game.reviews == [] && Labels(game) == gameLabels
    modifies manager, game
    ensures game.reviews == ChunkReviews(filteredUsers, draw, start)
    ensures |filteredUsers| > 0 ==> game.AggregatesUpToDate()
    ensures Labels(game) == gameLabels
    ensures manager.log == old(manager.log) + PersistAll(ReviewEntities(game.reviews))
  {
    var expected := ChunkReviews(filteredUsers, draw, start);
    for j := 0 to |filteredUsers|
      invariant game.reviews == expected[..j] && Labels(game) == gameLabels
      invariant j > 0 ==> game.AggregatesUpToDate()
      invariant manager.log == old(manager.log) + PersistAll(ReviewEntities(expected[..j]))
    {
      var review := Review(Some(filteredUsers[j]), draw(start + j));
      PostReview(manager, game, review, expected, j, old(manager.log), gameLabels);
    }
    assert expected[..|filteredUsers|] == expected;
  }

  /** The second loop's invariant after `count` iterations: the first `count` games seeded, the rest unreviewed. */
  predicate SeededBefore(videoGames: seq<VideoGame>, users: seq<User>, draw: nat -> int, count: nat)
    requires |users| > 0
    reads videoGames
  {
    forall i :: 0 <= i < |videoGames| ==>
      if i < count then Seeded(videoGames[i], users, draw, i) else videoGames[i].reviews == []
  }

  /** Every game still has the title, rating and tags recorded in `labels`. */
  predicate LabelsKept(videoGames: seq<VideoGame>, labels: seq<(string, int, seq<Tag>)>)
    reads videoGames
  {
    |labels| == |videoGames| && forall i :: 0 <= i < |videoGames| ==> Labels(videoGames[i]) == labels[i]
  }

  /** One iteration of the second loop: game `index` gets its chunk's reviews; the other games are left alone. */
  method SeedNext(manager: ObjectManager, videoGames: seq<VideoGame>, users: seq<User>, draw: nat -> int, index: nat,
                  ghost log: seq<Operation>, ghost labels: seq<(string, int, seq<Tag>)>)
    requires |users| > 0 && AllDistinct(videoGames) && index < |videoGames|
    requires manager.log == ReviewPersists(log, users, draw, index)
    requires SeededBefore(videoGames, users, draw, index) && LabelsKept(videoGames, labels)
    modifies manager, videoGames[index]
    ensures SeededBefore(videoGames, users, draw, index + 1) && LabelsKept(videoGames, labels)
    ensures manager.log == ReviewPersists(log, users, draw, index + 1)
  {
    var game := videoGames[index];
    assert forall i :: 0 <= i < |videoGames| && i != index ==> videoGames[i] != game;
    SeedGame(manager, game, ChunkOf(users, index), draw, Offset(users, index), labels[index]);
  }

  /**
   * The second loop of `load`: every game gets one review per user of its
   * chunk, each review is persisted and both aggregates are recomputed after
   * each append; then one flush. Titles, ratings and tags (`labels`) stay as they were.
   */
  method SeedReviews(manager: ObjectManager, videoGames: seq<VideoGame>, users: seq<User>, draw: nat -> int,
                     ghost labels: seq<(string, int, seq<Tag>)>)
    requires |users| > 0 && AllDistinct(videoGames)
    requires SeededBefore(videoGames, users, draw, 0) && LabelsKept(videoGames, labels)
    modifies manager, videoGames
    ensures SeededBefore(videoGames, users, draw, |videoGames|) && LabelsKept(videoGames, labels)
    ensures manager.log == ReviewPersists(old(manager.log), users, draw, |videoGames|) + [Flush]
  {
    for index := 0 to |videoGames|
      invariant SeededBefore(videoGames, users, draw, index) && LabelsKept(videoGames, labels)
      invariant manager.log == ReviewPersists(old(manager.log), users, draw, index)
    {
      SeedNext(manager, videoGames, users, draw, index, old(manager.log), labels);
    }
    manager.Flush();
  }

  /** `load`: the two loops in sequence, with the repositories' contents as inputs. */
  method Load(manager: ObjectManager, tags: seq<Tag>, users: seq<User>, draw: nat -> int)
    returns (videoGames: seq<VideoGame>)
    requires |tags| > 0 && |users| > 0
    modifies manager
    ensures |videoGames| == GameCount && AllDistinct(videoGames)
    ensures forall i :: 0 <= i < |videoGames| ==> fresh(videoGames[i])
    ensures forall i :: 0 <= i < |videoGames| ==> Labelled(videoGames[i], tags, i) && Seeded(videoGames[i], users, draw, i)
    ensures manager.log ==
      ReviewPersists(old(manager.log) + PersistAll(GameEntities(videoGames)) + [Flush], users, draw, GameCount) + [Flush]
  {
    videoGames := BuildVideoGames(manager, tags);
    ghost var labels := seq(|videoGames|, i requires 0 <= i < |videoGames| reads videoGames => Labels(videoGames[i]));
    SeedReviews(manager, videoGames, users, draw, labels);
  }

  /** When every chunk is full, chunk `k` holds users `5k .. 5k + 4`. */
  lemma FullChunks(users: seq<User>)
    requires |users| % ChunkSize == 0
    ensures |Chunks(users)| == |users| / ChunkSize
    ensures forall k :: 0 <= k < |Chunks(users)| ==> Chunks(users)[k] == users[ChunkSize * k .. ChunkSize * k + ChunkSize]
  {
    ChunkIsSlice(users);
    forall k | 0 <= k < |Chunks(users)|
      ensures Chunks(users)[k] == users[ChunkSize * k .. ChunkSize * k + ChunkSize]
    {
      assert Min(ChunkSize * k + ChunkSize, |users|) == ChunkSize * k + ChunkSize;
    }
  }

  /** With full chunks, five reviews, hence five draws, precede each further game. */
  lemma {:induction false} OffsetOfFullChunks(users: seq<User>, index: nat)
    requires |users| > 0 && |users| % ChunkSize == 0
    ensures Offset(users, index) == ChunkSize * index
  {
    if index > 0 {
      OffsetOfFullChunks(users, index - 1);
      FullChunks(users);
    }
  }

  /**
   * With the 25 fixture users, game `index` is reviewed once by each of users
   * `5 * (index % 5)` .. `5 * (index % 5) + 4`, in that order, the `j`-th
   * review taking draw `5 * index + j` of the rating generator.
   */
  lemma FixtureReviewers(users: seq<User>, draw: nat -> int, index: nat)
    requires |users| == 25
    ensures |ReviewsOf(users, draw, index)| == ChunkSize
    ensures forall j :: 0 <= j < ChunkSize ==>
      ReviewsOf(users, draw, index)[j] == Review(Some(users[ChunkSize * (index % 5) + j]), draw(ChunkSize * index + j))
  {
    FullChunks(users);
    OffsetOfFullChunks(users, index);
    ModIsRemainder(index, 5);
  }

  /**
   * Game `index` is reviewed by exactly the users of its chunk, one review
   * each, in chunk order; with distinct users no two of its reviews share an
   * author, so no user reviews a game twice.
   */
  lemma OneReviewPerUser(users: seq<User>, draw: nat -> int, index: nat)
    requires |users| > 0 && AllDistinct(users)
    ensures |ReviewsOf(users, draw, index)| == |ChunkOf(users, index)|
    ensures forall j :: 0 <= j < |ReviewsOf(users, draw, index)| ==>
      ReviewsOf(users, draw, index)[j].author == Some(ChunkOf(users, index)[j])
    ensures forall u :: u in ChunkOf(users, index) ==> u in users
    ensures forall a, b :: 0 <= a < b < |ReviewsOf(users, draw, index)| ==>
      ReviewsOf(users, draw, index)[a].author != ReviewsOf(users, draw, index)[b].author
  {
    var reviews, chunks := ReviewsOf(users, draw, index), Chunks(users);
    ChunkIsSlice(users);
    ChunkSizes(users);
    var c := Mod(index, |chunks|);
    var from := ChunkSize * c;
    assert ChunkOf(users, index) == users[from .. Min(from + ChunkSize, |users|)];
    forall j | 0 <= j < |reviews|
      ensures reviews[j].author == Some(users[from + j])
    {
    }
  }

  /**
   * Once game `index` is seeded with ratings drawn in 1..5, its cached average
   * is present and in 1..5 and its histogram counts one review per chunk member.
   */
  lemma SeededAggregates(game: VideoGame, users: seq<User>, draw: nat -> int, index: nat)
    requires |users| > 0 && Seeded(game, users, draw, index)
    requires forall n :: Rating.MinRating <= draw(n) <= Rating.MaxRating
    ensures game.averageRating.Some?
    ensures Rating.MinRating <= game.averageRating.value <= Rating.MaxRating
    ensures game.ratingsPerValue.Total() == |ChunkOf(users, index)|
  {
    var ratings := Ratings(game.reviews);
    forall k | 0 <= k < |ratings|
      ensures Rating.MinRating <= ratings[k] <= Rating.MaxRating
    {
      RatingAt(game.reviews, k);
    }
    Rating.AverageInRange(ratings);
    Rating.HistogramCountsEveryReview(ratings);
  }
}
