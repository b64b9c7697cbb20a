/**
 * The expectations of the video-game list test: `createUseCase` turns the
 * few values a case overrides into the full expectation (pagination links,
 * default titles), and `provideUseCases` lists the five cases. The HTTP
 * requests and page assertions that consume them are not modelled.
 */
module FilterTest {
  import opened Wrappers
  import opened Arithmetic
  import TagFixtures
  import VideoGameFixtures

  /** The query string of a case: an optional page number and an optional tag filter. */
  datatype Query = Query(page: Option<int>, tags: Option<seq<string>>)

  const NoQuery: Query := Query(None, None)

  datatype UseCase = UseCase(
    query: Query,
    expectedCount: int,
    expectedOffsetFrom: int,
    expectedOffsetTo: int,
    expectedTotal: int,
    expectedPage: Option<int>,
    expectedPaginationLinks: seq<string>,
    expectedVideoGames: seq<string>)

  const BaseLinks: seq<string> := ["1", "2", "3", "4"]
  const PreviousLinks: seq<string> := ["Première page", "Précédent"]
  const NextLinks: seq<string> := ["Suivant", "Dernière page"]

  /** `ceil($total / $count)` for a positive count, in integers. */
  function CeilDiv(total: int, count: int): int
    requires count > 0
  {
    -FloorDiv(-total, count)
  }

  /** The ceiling is the least `q` with `total <= q * count`. */
  lemma CeilDivBounds(total: int, count: int)
    requires count > 0
    ensures CeilDiv(total, count) * count - count < total <= CeilDiv(total, count) * count
  {
    FloorDivBounds(-total, count);
  }

  lemma MulMonotone(a: int, b: int, c: int)
    requires a <= b && c >= 0
    ensures a * c <= b * c
  {
  }

  /** A page comes before the last one exactly when its items end before the total. */
  lemma BeforeLastPage(page: int, total: int, count: int)
    requires count > 0
    ensures page < CeilDiv(total, count) <==> page * count < total
  {
    var last := CeilDiv(total, count);
    CeilDivBounds(total, count);
    if page < last {
      MulMonotone(page, last - 1, count);
    } else {
      MulMonotone(last, page, count);
    }
  }

  /** The links expected in the pagination nav: absent without a page, otherwise the base links framed by previous/next. */
  function PaginationLinks(count: int, total: int, page: Option<int>, links: Option<seq<string>>): seq<string> {
    if page.None? then links.GetOr([])
    else
      var base := links.GetOr(BaseLinks);
      var withPrevious := if page.value > 1 then PreviousLinks + base else base;
      if count > 0 && page.value < CeilDiv(total, count) then withPrevious + NextLinks else withPrevious
  }

  /** The titles shown by default: `count` consecutive fixture titles from game `offsetFrom - 1` on. */
  function DefaultTitles(offsetFrom: int, count: nat): (titles: seq<string>)
    ensures |titles| == count
  {
    seq(count, k requires 0 <= k < count => VideoGameFixtures.Title(offsetFrom - 1 + k))
  }

  /** `createUseCase`: every argument defaults to the first page of the unfiltered list. */
  function CreateUseCase(
    query: Query := NoQuery,
    expectedCount: int := 10,
    expectedOffsetFrom: int := 1,
    expectedOffsetTo: int := 10,
    expectedTotal: int := 50,
    expectedPage: Option<int> := Some(1),
    expectedPaginationLinks: Option<seq<string>> := None,
    expectedVideoGames: Option<seq<string>> := None): (useCase: UseCase)
    requires expectedVideoGames.None? ==> expectedCount >= 0
    ensures expectedVideoGames.None? ==> |useCase.expectedVideoGames| == expectedCount
    ensures expectedPage.None? && expectedPaginationLinks.None? ==> useCase.expectedPaginationLinks == []
  {
    UseCase(
      query, expectedCount, expectedOffsetFrom, expectedOffsetTo, expectedTotal, expectedPage,
      PaginationLinks(expectedCount, expectedTotal, expectedPage, expectedPaginationLinks),
      if expectedVideoGames.Some? then expectedVideoGames.value else DefaultTitles(expectedOffsetFrom, expectedCount))
  }

  /**
   * With a page, the expected links are the base links (by default 1..4),
   * preceded by first/previous exactly when the page is past the first and
   * followed by next/last exactly when the count is positive and the page's
   * items end before the total.
   */
  lemma LinksFrameBase(count: int, total: int, page: int, links: Option<seq<string>>)
    ensures PaginationLinks(count, total, Some(page), links) ==
      (if page > 1 then PreviousLinks else []) + links.GetOr(BaseLinks)
      + (if count > 0 && page * count < total then NextLinks else [])
  {
    if count > 0 {
      BeforeLastPage(page, total, count);
    }
  }

  /** The default titles are the fixture titles of games `offsetFrom - 1` .. `offsetFrom + count - 2`, all different. */
  lemma DefaultTitlesAreFixtureTitles(offsetFrom: int, count: nat)
    ensures forall k :: 0 <= k < count ==> DefaultTitles(offsetFrom, count)[k] == VideoGameFixtures.Title(offsetFrom - 1 + k)
    ensures forall a, b :: 0 <= a < b < count ==> DefaultTitles(offsetFrom, count)[a] != DefaultTitles(offsetFrom, count)[b]
  {
    var titles := DefaultTitles(offsetFrom, count);
    forall a, b | 0 <= a < b < count
      ensures titles[a] != titles[b]
    {
      VideoGameFixtures.TitlesDistinct(offsetFrom - 1 + a, offsetFrom - 1 + b);
    }
  }

  /** `provideUseCases`: the five named cases, in order. */
  function ProvideUseCases(): (cases: seq<(string, UseCase)>)
    ensures |cases| == 5
  {
    [ ("First page", CreateUseCase()),
      ("Page #2", CreateUseCase(
        query := Query(Some(2), None),
        expectedOffsetFrom := 11,
        expectedOffsetTo := 20,
        expectedPage := Some(2),
        expectedPaginationLinks := Some(["1", "2", "3", "4", "5"]))),
      ("First page, filter by non-existent tag", CreateUseCase(
        query := Query(None, Some(["999"])),
        expectedCount := 0,
        expectedTotal := 0,
        expectedOffsetTo := 0,
        expectedVideoGames := Some([]))),
      ("First page, no tags specified", CreateUseCase(
        query := Query(None, Some([])),
        expectedCount := 10,
        expectedTotal := 50,
        expectedVideoGames := Some(seq(10, _ => "Jeu vidéo")))),
      ("First page, filter by many tags", CreateUseCase(
        query := Query(None, Some(["1", "2", "3", "4", "5"])),
        expectedCount := 1,
        expectedTotal := 1,
        expectedVideoGames := Some(["Jeu vidéo 0"])))
    ]
  }

  /** The first page expects links 1..4 then next/last (1 < 50 / 10), and games 0..9. */
  lemma FirstPageCase()
    ensures ProvideUseCases()[0].1.expectedPaginationLinks == BaseLinks + NextLinks
    ensures ProvideUseCases()[0].1.expectedVideoGames == DefaultTitles(1, 10)
  {
    LinksFrameBase(10, 50, 1, None);
  }

  /** Page 2 expects first/previous, 1..5, next/last (2 < 50 / 10), and games 10..19. */
  lemma SecondPageCase()
    ensures ProvideUseCases()[1].1.expectedPaginationLinks == PreviousLinks + ["1", "2", "3", "4", "5"] + NextLinks
    ensures ProvideUseCases()[1].1.expectedVideoGames == DefaultTitles(11, 10)
  {
    LinksFrameBase(10, 50, 2, Some(["1", "2", "3", "4", "5"]));
  }

  /** A tag that matches nothing expects the page-1 links without next/last, and no game. */
  lemma NonExistentTagCase()
    ensures ProvideUseCases()[2].1.expectedPaginationLinks == BaseLinks
    ensures ProvideUseCases()[2].1.expectedVideoGames == []
  {
    LinksFrameBase(0, 0, 1, None);
  }

  /** An empty tag filter expects the first-page links with next/last and ten titles starting "Jeu vidéo". */
  lemma NoTagsCase()
    ensures ProvideUseCases()[3].1.expectedPaginationLinks == BaseLinks + NextLinks
    ensures ProvideUseCases()[3].1.expectedVideoGames == seq(10, _ => "Jeu vidéo")
  {
    LinksFrameBase(10, 50, 1, None);
  }

  /** One match out of one expects no next/last link, since 1 * 1 is not below 1. */
  lemma ManyTagsCase()
    ensures ProvideUseCases()[4].1.expectedPaginationLinks == BaseLinks
    ensures ProvideUseCases()[4].1.expectedTotal == 1
    ensures ProvideUseCases()[4].1.expectedVideoGames == [VideoGameFixtures.Title(0)]
  {
    LinksFrameBase(1, 1, 1, None);
    assert VideoGameFixtures.Title(0) == "Jeu vidéo 0";
  }

  /** Fixture game `index` carries tags 0..4, the tags the many-tags filter names by ids 1..5. */
  predicate CarriesFirstFiveTags(index: nat) {
    forall t :: 0 <= t < 5 ==> TagFixtures.AllTags()[t] in VideoGameFixtures.GameTags(TagFixtures.AllTags(), index)
  }

  lemma FixtureTagsDistinct()
    ensures VideoGameFixtures.AllDistinct(TagFixtures.AllTags())
  {
    TagFixtures.TagNamesDistinct();
  }

  /**
   * Against the fixtures, the many-tags filter matches two games, 0 and 25,
   * as the multiple-tags test expects, while the provided many-tags case
   * expects a total of one.
   */
  lemma ManyTagsMatchTwoFixtureGames()
    ensures (set index: nat | index < VideoGameFixtures.GameCount && CarriesFirstFiveTags(index)) == {0, 25}
  {
    FixtureTagsDistinct();
    var matching := set index: nat | index < VideoGameFixtures.GameCount && CarriesFirstFiveTags(index);
    forall index: nat | index < VideoGameFixtures.GameCount
      ensures CarriesFirstFiveTags(index) <==> index == 0 || index == 25
    {
      VideoGameFixtures.HoldsFirstFiveTags(TagFixtures.AllTags(), index);
    }
    assert 0 in matching && 25 in matching;
  }
}
