# CritiPixel seeding, rating and review-permission model

CritiPixel is a video-game review site. This project models the parts of it
that are plain logic over in-memory data:

- **Fixtures.** Three data fixtures seed the database. They create 25 tags named `Tag i` and 25 users `user+i`. They then create 50 video games, `Jeu vidéo i`, with these properties:
  - game `i` has editorial rating `i % 5 + 1`;
  - its tags are five consecutive tags, wrapping around the tag list;
  - each user of chunk `i % count(chunks)` reviews it once, after the users are split into chunks of five;
  - both cached rating aggregates are recomputed after every appended review.
- **Average-rating unit test.** Its data provider and its game-building helper.
- **Review voter.** It decides whether the current user may review a game.
- **Filter test expectations.** The helper that builds the expected pagination links and default titles, and its five provided cases.

The game entity is a `class` whose methods change its fields. Doctrine's
object manager is a class that records every `persist` and `flush` it
receives. The fixture loops are `for` loops proved against functions of
their inputs. The repositories' contents are inputs, and so is the stream of
random review ratings (`draw`).

The rating handler's code is not part of this model, so its rounding rule is
an assumption. The model takes the average to be the mean of the ratings
rounded to the nearest integer, with an exact half rounding up. The unit test
fixes only three cases:

- no review gives no average;
- a single 5 gives 5;
- fifteen ratings summing to 55 give 4.

The third case rules out floor and truncation (both give 3), but a ceiling
also gives 4 and passes all three. Rounding to nearest rather than up is
therefore part of the assumption, not something the test settles.

## Test expectations in conflict

The functional filter test holds two expectations for the same tag filter.
The filter names tag ids 1..5, read here as the fixture's first five tags.
A game is taken to match when it carries every named tag. Under an
"any of the tags" reading, 18 of the 50 fixture games would match instead.

- The provided case "First page, filter by many tags" (tests/Functional/VideoGame/FilterTest.php:57-62) expects one matching game.
- `testShouldFilterByTagsVideoGames` (tests/Functional/VideoGame/FilterTest.php:210-211) expects games 0 and 25.

The fixture arithmetic agrees with the second expectation:
`FilterTest.ManyTagsMatchTwoFixtureGames` proves that exactly games 0 and 25
carry those five tags. The model records the conflict and does not decide
which test is wrong.

## Model

| member | source | states |
|---|---|---|
| Rating.Average | tests/Unit/AverageRatingCalculatorTest.php:21-24 | there is no average exactly when the game has no review (null, not 0) |
| Rating.AverageIsRoundedMean | tests/Unit/AverageRatingCalculatorTest.php:36-39 | the average `a` satisfies `a - 1/2 <= mean < a + 1/2`: the mean rounded to nearest with halves up, a rule assumed as a whole (the test rules out only floor and truncation) |
| Rating.AverageOfOne | tests/Unit/AverageRatingCalculatorTest.php:34 | a single review's average is its own rating |
| Rating.AverageInRange | src/Doctrine/DataFixtures/VideoGameFixtures.php:64-70 | ratings in 1..5 give an average that is present and in 1..5 |
| Rating.CountPerValue | src/Doctrine/DataFixtures/VideoGameFixtures.php:71 | five buckets, one per rating 1..5; `CountPerValueIsHistogram` proves bucket `v` is the number of ratings equal to `v` |
| Rating.CountIsMultiplicity | src/Doctrine/DataFixtures/VideoGameFixtures.php:71 | the per-value scan counts exactly the reviews with that rating, in any order |
| Rating.CountPerValueIsHistogram | src/Doctrine/DataFixtures/VideoGameFixtures.php:71 | bucket `v` of the per-value counts is the number of ratings equal to `v`, for each `v` in 1..5 |
| Rating.HistogramCountsEveryReview | src/Doctrine/DataFixtures/VideoGameFixtures.php:71 | for ratings in 1..5 the buckets add up to the number of reviews and their weighted sum to the rating total |
| Rating.SumIgnoresOrder | src/Doctrine/DataFixtures/VideoGameFixtures.php:70 | the rating total depends only on the multiset of ratings |
| Rating.AggregatesIgnoreOrder | src/Doctrine/DataFixtures/VideoGameFixtures.php:67-71 | for any ratings, the average and the per-value counts depend only on the multiset of ratings |
| Rating.AppendBumpsOneBucket | src/Doctrine/DataFixtures/VideoGameFixtures.php:67-71 | appending a review raises its own bucket by one and leaves the other four unchanged |
| Entities.ReviewedBy | src/Security/Voter/VideoGameVoter.php:38 | `hasAlreadyReview` holds exactly when some review of the game has the user as author |
| Entities.VideoGame.constructor | tests/Unit/AverageRatingCalculatorTest.php:32 | a new game has no title, tags or reviews, no average, and aggregates consistent with no reviews |
| Entities.VideoGame.SetTitle | src/Doctrine/DataFixtures/VideoGameFixtures.php:36 | sets the title and changes nothing else |
| Entities.VideoGame.SetRating | src/Doctrine/DataFixtures/VideoGameFixtures.php:40 | sets the editorial rating and changes nothing else |
| Entities.VideoGame.AddTag | src/Doctrine/DataFixtures/VideoGameFixtures.php:46 | appends one tag and changes nothing else |
| Entities.VideoGame.AddReview | src/Doctrine/DataFixtures/VideoGameFixtures.php:67 | appends one review and leaves the cached aggregates stale |
| Entities.VideoGame.CalculateAverage | tests/Unit/AverageRatingCalculatorTest.php:21 | the cached average becomes the average of all current reviews; nothing else changes |
| Entities.VideoGame.CountRatingsPerValue | src/Doctrine/DataFixtures/VideoGameFixtures.php:71 | the cached per-value counts become those of all current reviews; nothing else changes |
| Entities.ObjectManager.Persist | src/Doctrine/DataFixtures/VideoGameFixtures.php:50 | records one persist of the entity |
| Entities.ObjectManager.Flush | src/Doctrine/DataFixtures/VideoGameFixtures.php:53 | records one flush |
| AverageRatingCalculatorTest.CreateVideoGame | tests/Unit/AverageRatingCalculatorTest.php:45-55 | a fresh game holding one bare review per given rating, in argument order, with no average yet |
| AverageRatingCalculatorTest.ShouldCalculateAverageRating | tests/Unit/AverageRatingCalculatorTest.php:17-25 | the test passes exactly when the expected value equals the average of the ratings |
| AverageRatingCalculatorTest.ProvideVideoGame | tests/Unit/AverageRatingCalculatorTest.php:30-40 | exactly three cases: no review, one 5, the fifteen ratings; `ProvidedCasesPass` proves each passes |
| AverageRatingCalculatorTest.ProvidedCasesPass | tests/Unit/AverageRatingCalculatorTest.php:30-40 | all three provided cases pass: none for no review, 5 for one 5, 4 for the fifteen ratings |
| AverageRatingCalculatorTest.SumOfLotOfReviews | tests/Unit/AverageRatingCalculatorTest.php:37 | the fifteen ratings sum to 55 |
| AverageRatingCalculatorTest.TruncationFailsLotOfReviews | tests/Unit/AverageRatingCalculatorTest.php:36-39 | a truncating average gives 3 where the test expects 4; the model gives 4 |
| Decimal.FromInt | src/Doctrine/DataFixtures/VideoGameFixtures.php:36 | `%d` of an integer is non-empty and starts with `-` exactly when the integer is negative |
| Decimal.ToNatFromNat | src/Doctrine/DataFixtures/VideoGameFixtures.php:36 | the decimal rendering of `%d` consists only of digits and reads back as the same number |
| Decimal.FromIntInjective | src/Doctrine/DataFixtures/UserFixtures.php:15 | distinct integers render as distinct `%d` strings |
| Decimal.FramedInjective | src/Doctrine/DataFixtures/UserFixtures.php:15 | a fixed prefix and suffix around `%d` keep distinct numbers distinct |
| Arithmetic.ModIsRemainder | src/Doctrine/DataFixtures/VideoGameFixtures.php:46 | the repeated-subtraction remainder equals `%` on non-negative operands |
| TagFixtures.AllTags | src/Doctrine/DataFixtures/TagFixtures.php:13-16 | exactly 25 tags, tag `i` named `Tag i` |
| TagFixtures.TagNamesDistinct | src/Doctrine/DataFixtures/TagFixtures.php:14-15 | tag names are pairwise distinct |
| TagFixtures.PersistTags | src/Doctrine/DataFixtures/TagFixtures.php:18-20 | one persist per tag, in index order |
| TagFixtures.Load | src/Doctrine/DataFixtures/TagFixtures.php:11-23 | returns the 25 tags and records their persists in order, then a single flush |
| UserFixtures.AllUsers | src/Doctrine/DataFixtures/UserFixtures.php:13-19 | exactly 25 users; user `i` has e-mail `user+i@email.com`, user name `user+i` and password `password` |
| UserFixtures.UsersDistinct | src/Doctrine/DataFixtures/UserFixtures.php:15-18 | e-mails, user names and so users are pairwise distinct |
| UserFixtures.PersistUsers | src/Doctrine/DataFixtures/UserFixtures.php:21-23 | one persist per user, in index order |
| UserFixtures.Load | src/Doctrine/DataFixtures/UserFixtures.php:11-26 | returns the 25 users and records their persists in order, then a single flush |
| VideoGameFixtures.TitlesDistinct | src/Doctrine/DataFixtures/VideoGameFixtures.php:36 | distinct game indices give distinct titles |
| VideoGameFixtures.EditorialRating | src/Doctrine/DataFixtures/VideoGameFixtures.php:40 | the editorial rating `index % 5 + 1` is in 1..5 |
| VideoGameFixtures.GameTags | src/Doctrine/DataFixtures/VideoGameFixtures.php:45-47 | exactly five tags per game; `GameTagAt` gives each one |
| VideoGameFixtures.GameTagAt | src/Doctrine/DataFixtures/VideoGameFixtures.php:45-47 | game `i` gets five tags, the `k`-th being `tags[(i + k) % count(tags)]` |
| VideoGameFixtures.GameTagsDistinct | src/Doctrine/DataFixtures/VideoGameFixtures.php:45-47 | with at least five distinct tags a game's five tags are pairwise distinct |
| VideoGameFixtures.GameTagsPeriodic | src/Doctrine/DataFixtures/VideoGameFixtures.php:45-47 | games `i` and `i + count(tags)` get the same tag sequence |
| VideoGameFixtures.HoldsFirstFiveTags | src/Doctrine/DataFixtures/VideoGameFixtures.php:34-47 | with 25 distinct tags, game `i < 50` carries all of the first five tags exactly when `i` is 0 or 25 |
| VideoGameFixtures.Chunks | src/Doctrine/DataFixtures/VideoGameFixtures.php:30 | at least one chunk for a non-empty user list; `ChunkIsSlice` and `ChunkSizes` give each chunk |
| VideoGameFixtures.ChunkSizes | src/Doctrine/DataFixtures/VideoGameFixtures.php:30 | `array_chunk` by five yields chunks of one to five users |
| VideoGameFixtures.ChunkIsSlice | src/Doctrine/DataFixtures/VideoGameFixtures.php:30 | there are `ceil(count/5)` chunks; chunk `k` is users `5k` up to `5k + 5` or the end |
| VideoGameFixtures.FullChunks | src/Doctrine/DataFixtures/VideoGameFixtures.php:30 | when the user count is a multiple of five, every chunk holds exactly five consecutive users |
| VideoGameFixtures.ChunkOf | src/Doctrine/DataFixtures/VideoGameFixtures.php:56 | the reviewers of game `i` are chunk `i % count(chunks)`, a non-empty chunk of at most five |
| VideoGameFixtures.ChunkReviews | src/Doctrine/DataFixtures/VideoGameFixtures.php:58-65 | one review per chunk member |
| VideoGameFixtures.OffsetOfFullChunks | src/Doctrine/DataFixtures/VideoGameFixtures.php:64 | with full chunks, the reviews of game `i` consume rating draws `5i` onward |
| VideoGameFixtures.FixtureReviewers | src/Doctrine/DataFixtures/VideoGameFixtures.php:55-65 | with 25 users, game `i` gets exactly five reviews, by users `5(i % 5)` .. `5(i % 5) + 4` in order, rated by draws `5i` .. `5i + 4` |
| VideoGameFixtures.OneReviewPerUser | src/Doctrine/DataFixtures/VideoGameFixtures.php:56-62 | with distinct users, the authors of game `i`'s reviews are exactly the users of its chunk, each once and in chunk order, and all of them come from the user list |
| VideoGameFixtures.SeededAggregates | src/Doctrine/DataFixtures/VideoGameFixtures.php:64-71 | with ratings drawn in 1..5, a seeded game's average is present and in 1..5, and its counts total its chunk size |
| VideoGameFixtures.NewVideoGame | src/Doctrine/DataFixtures/VideoGameFixtures.php:35-47 | a fresh game with its index's title, editorial rating and five cyclic tags, and no review |
| VideoGameFixtures.AppendGame | src/Doctrine/DataFixtures/VideoGameFixtures.php:35-50 | one first-loop iteration: builds game number `count`, keeps the games distinct and built, and persists it |
| VideoGameFixtures.BuildVideoGames | src/Doctrine/DataFixtures/VideoGameFixtures.php:33-53 | exactly 50 fresh, distinct games, each built from its index, persisted in order, then one flush |
| VideoGameFixtures.PostReview | src/Doctrine/DataFixtures/VideoGameFixtures.php:61-71 | appends the next review, persists it and leaves both aggregates up to date; title, rating and tags are unchanged |
| VideoGameFixtures.SeedGame | src/Doctrine/DataFixtures/VideoGameFixtures.php:56-72 | the game ends with exactly one review per chunk member, in chunk order, with up-to-date aggregates; every review is persisted |
| VideoGameFixtures.SeedNext | src/Doctrine/DataFixtures/VideoGameFixtures.php:55-73 | one second-loop iteration seeds game `index` and leaves every other game alone |
| VideoGameFixtures.SeedReviews | src/Doctrine/DataFixtures/VideoGameFixtures.php:55-75 | every game gets its chunk's reviews with up-to-date aggregates, labels unchanged; reviews are persisted game by game, then one flush |
| VideoGameFixtures.Load | src/Doctrine/DataFixtures/VideoGameFixtures.php:27-76 | 50 distinct fresh games, each labelled from its index and seeded from its chunk; the exact persist/flush sequence |
| VideoGameVoter.Supports | src/Security/Voter/VideoGameVoter.php:16-25 | the voter supports a pair exactly when the attribute is `review` and the subject is a video game; `SupportedPairsCanBeVoted` is its partner |
| VideoGameVoter.VoteOnAttribute | src/Security/Voter/VideoGameVoter.php:30-39 | refused for a token without an application user; an application user is granted exactly when none of the game's reviews has them as author |
| VideoGameVoter.SupportedPairsCanBeVoted | src/Security/Voter/VideoGameVoter.php:21-39 | every supported pair meets what `voteOnAttribute` needs, whatever the token's user |
| VideoGameVoter.AppendedReviewRefusesItsAuthor | src/Security/Voter/VideoGameVoter.php:38 | after a review by `u` is appended, `u` has reviewed the game; other users' status is unchanged |
| VideoGameVoter.SeededGameVotes | src/Security/Voter/VideoGameVoter.php:30-39 | on a seeded game the users of its chunk are refused and every other user is granted |
| FilterTest.CeilDivBounds | tests/Functional/VideoGame/FilterTest.php:254 | the integer ceiling `q` of `total / count` satisfies `q*count - count < total <= q*count` |
| FilterTest.BeforeLastPage | tests/Functional/VideoGame/FilterTest.php:254 | `page < ceil(total / count)` exactly when `page * count < total`, for a positive count |
| FilterTest.PaginationLinks | tests/Functional/VideoGame/FilterTest.php:247-257 | the expected links of a case; `LinksFrameBase` states them for every page and `BeforeLastPage` relates the `ceil` test to `page * count < total` |
| FilterTest.LinksFrameBase | tests/Functional/VideoGame/FilterTest.php:247-256 | with a page, the links are the base links (1..4 by default), with first/previous exactly past page 1 and next/last exactly when `count > 0` and `page * count < total` |
| FilterTest.DefaultTitles | tests/Functional/VideoGame/FilterTest.php:267-271 | `count` default titles |
| FilterTest.DefaultTitlesAreFixtureTitles | tests/Functional/VideoGame/FilterTest.php:267-271 | the default titles are `Jeu vidéo k` for `k = offsetFrom - 1 .. offsetFrom + count - 2`, pairwise distinct |
| FilterTest.CreateUseCase | tests/Functional/VideoGame/FilterTest.php:237-273 | defaulted titles number `expectedCount`; without a page and without explicit links no link is expected |
| FilterTest.ProvideUseCases | tests/Functional/VideoGame/FilterTest.php:25-63 | exactly five provided cases |
| FilterTest.FirstPageCase | tests/Functional/VideoGame/FilterTest.php:28 | the default case expects links 1..4, next and last, and games 0..9 |
| FilterTest.SecondPageCase | tests/Functional/VideoGame/FilterTest.php:31-37 | the page-2 case expects first, previous, 1..5, next and last, and games 10..19 |
| FilterTest.NonExistentTagCase | tests/Functional/VideoGame/FilterTest.php:40-46 | the unknown-tag case expects links 1..4 without next/last and no game |
| FilterTest.NoTagsCase | tests/Functional/VideoGame/FilterTest.php:49-54 | the empty-filter case expects links 1..4, next and last, and ten bare `Jeu vidéo` titles |
| FilterTest.ManyTagsCase | tests/Functional/VideoGame/FilterTest.php:57-62 | the many-tags case expects a total of one, links 1..4 only, and only `Jeu vidéo 0` |
| FilterTest.FixtureTagsDistinct | src/Doctrine/DataFixtures/TagFixtures.php:14 | the fixture tags are pairwise distinct |
| FilterTest.ManyTagsMatchTwoFixtureGames | tests/Functional/VideoGame/FilterTest.php:210-211 | among the fixture games exactly games 0 and 25 carry the first five tags |

## Left out

- Rating.Average: the whole rounding rule is assumed, because the rating handler's code is not part of this model. The rule is to round to the nearest integer rather than up, with halves going up. The unit test rules out only floor and truncation; a ceiling average passes all three of its cases.
- Rating.CountPerValue: the cached per-value counts are a record of five buckets for ratings 1..5. The entity's own representation is not part of this model.
- Entities.VideoGame.constructor: a new game is taken to start with no average and an all-zero histogram. The entity's code is not part of this model.
- Reviews hold only their author and rating. The back-reference to the game (`setVideoGame`) and the comment are not modelled.
- Game descriptions, test texts and review comments come from Faker paragraphs and are not modelled. Release dates, image names and image sizes are not modelled either.
- The Faker rating `numberBetween(1, 5)` is the input stream `draw`. `VideoGameFixtures.SeededAggregates` assumes each draw lies in 1..5.
- Doctrine is reduced to the log of `persist` and `flush` calls. `getRepository(...)->findAll()` becomes the `tags` and `users` inputs, in the order the tag and user fixtures persisted them.
- VideoGameFixtures.Load: requires non-empty tag and user lists. An empty list would make PHP's `%` raise a division-by-zero error, and `getDependencies` (src/Doctrine/DataFixtures/VideoGameFixtures.php:78-81) runs both 25-element fixtures first. That fixture ordering is not modelled.
- `%` and integer division are computed by repeated subtraction (`Arithmetic.Mod`, `Arithmetic.FloorDiv`) and proved equal to the built-in operators. PHP's 64-bit integer limits are never reached by these values, so integers are unbounded.
- VideoGameVoter.VoteOnAttribute: requires a video-game subject once the token has an application user. In PHP, calling `hasAlreadyReview` on any other subject would raise an `Error`, but `Voter::vote` only calls `voteOnAttribute` after `supports` has accepted a video game.
- Entities.ReviewedBy: compares users by value (datatype equality), not by Doctrine entity identity. The fixture users are pairwise distinct by value (`UserFixtures.UsersDistinct`), so the two notions agree on them.
- Symfony's `Voter::vote` is not part of this model: it combines `supports` and `voteOnAttribute` into grant, deny or abstain. Tokens are reduced to "an application user" or "anything else".
- FilterTest.PaginationLinks: PHP computes `ceil($expectedTotal / $expectedCount)` in floating point. The model uses the exact integer ceiling, which agrees for the magnitudes involved.
- FilterTest.DefaultTitles: the `array_fill_callback` helper is not part of this model. It is read as `count` consecutive values of the callback from `offsetFrom - 1`, so defaulted titles need a non-negative count.
- The HTTP requests and page assertions in the filter test are not modelled: listing count, list info, pagination markup, and the sort, search and tag-filter tests. The query is reduced to its page number and tag filter.
- The login and show tests, and the user repository, are not modelled.
