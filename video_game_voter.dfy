/**
 * The voter that decides whether the current user may review a video game:
 * it only speaks for the `review` attribute on a video game, refuses any
 * token whose user is not an application user, and grants the review only
 * to a user who has not reviewed that game yet.
 */
module VideoGameVoter {
  import opened Wrappers
  import opened Entities
  import VideoGameFixtures

  /** The one attribute the voter supports. */
  const ReviewAttribute: string := "review"

  /** What the voter is asked about: a video game, or any other value. */
  datatype Subject = GameSubject(game: VideoGame) | OtherSubject

  /** The user behind the security token: an application user, or anything else (anonymous, another user type). */
  datatype TokenUser = AppUser(user: User) | OtherUser

  /** `supports`: the voter takes part only for `review` on a video game. */
  predicate Supports(attribute: string, subject: Subject) {
    attribute == ReviewAttribute && subject.GameSubject?
  }

  /**
   * `voteOnAttribute`: refused for a token without an application user;
   * otherwise granted exactly when none of the game's reviews is by that
   * user. The framework only asks after `Supports`; the method itself needs a
   * game only once it has a user.
   */
  function VoteOnAttribute(attribute: string, subject: Subject, token: TokenUser): (granted: bool)
    requires token.AppUser? ==> subject.GameSubject?
    reads if subject.GameSubject? then {subject.game} else {}
    ensures granted <==> (token.AppUser? &&
      forall k :: 0 <= k < |subject.game.reviews| ==> subject.game.reviews[k].author != Some(token.user))
  {
    match token
    case OtherUser => false
    case AppUser(user) => !subject.game.HasAlreadyReview(user)
  }

  /** Every pair the voter supports can be voted on, whatever the token's user. */
  lemma SupportedPairsCanBeVoted(attribute: string, subject: Subject, token: TokenUser)
    requires Supports(attribute, subject)
    ensures token.AppUser? ==> subject.GameSubject?
  {
  }

  /** Appending a review by `author` refuses `author` from then on and leaves every other user's vote as it was. */
  lemma AppendedReviewRefusesItsAuthor(reviews: seq<Review>, author: User, rating: int, user: User)
    ensures ReviewedBy(reviews + [Review(Some(author), rating)], user) <==> user == author || ReviewedBy(reviews, user)
  {
    var extended := reviews + [Review(Some(author), rating)];
    assert extended[..|reviews|] == reviews;
  }

  /**
   * On a game the fixture has seeded, the users of the game's chunk have
   * each reviewed it and are refused; every other user is granted a review.
   */
  lemma SeededGameVotes(game: VideoGame, users: seq<User>, draw: nat -> int, index: nat, user: User)
    requires |users| > 0 && VideoGameFixtures.Seeded(game, users, draw, index)
    ensures VoteOnAttribute(ReviewAttribute, GameSubject(game), AppUser(user)) <==>
      user !in VideoGameFixtures.ChunkOf(users, index)
  {
    var chunk := VideoGameFixtures.ChunkOf(users, index);
    var reviews := game.reviews;
    assert forall j :: 0 <= j < |reviews| ==> reviews[j].author == Some(chunk[j]);
    if user in chunk {
      var j :| 0 <= j < |chunk| && chunk[j] == user;
      assert reviews[j].author == Some(user);
    }
  }
}
