/**
 * The leaderboard: the characters of `GET /api/characters`, each shown with
 * its rating row or the default one, sorted highest rating first, and the
 * first and the last ten of that order.
 */
module LeaderboardPage {
  import opened Wrappers
  import Elo
  import Ranking
  import FightPage

  /** `{ ...r, r: r.ratings ?? { rating: 1000, wins: 0, losses: 0 } }`: the row, untouched, and its shown rating. */
  datatype Ranked = Ranked(row: FightPage.CharacterRow, r: Elo.Rating)

  /** The two lists the page shows. */
  datatype Board = Board(sorted: seq<Ranked>, top10: seq<Ranked>, bottom10: seq<Ranked>)

  function WithRating(row: FightPage.CharacterRow): (ranked: Ranked)
    ensures ranked.row == row
    ensures row.ratings.None? ==> ranked.r == Elo.DefaultRating
    ensures row.ratings.Some? ==> ranked.r == row.ratings.value
  {
    Ranked(row, row.ratings.GetOr(Elo.DefaultRating))
  }

  /** `rows.map(...)`: one shown row per row, in the same order. */
  function WithRatings(rows: seq<FightPage.CharacterRow>): (shown: seq<Ranked>)
    ensures |shown| == |rows|
    ensures forall i :: 0 <= i < |rows| ==> shown[i] == WithRating(rows[i])
  {
    seq(|rows|, i requires 0 <= i < |rows| => WithRating(rows[i]))
  }

  /** The sort key: the shown rating. */
  function ShownRating(x: Ranked): int
  {
    x.r.rating
  }

  /** The page for the rows it fetched; a failed fetch leaves the initial empty list. */
  function View(fetched: Option<seq<FightPage.CharacterRow>>): Board
  {
    var rows := fetched.GetOr([]);
    var sorted := Ranking.SortDesc(WithRatings(rows), ShownRating);
    Board(sorted, Ranking.Top10(sorted), Ranking.Bottom10(sorted))
  }

  /**
   * What the page shows: every fetched row exactly once, with its rating or
   * the default one, highest rating first; the top list is the first
   * `min(10, n)` of that order and the bottom list the last `min(10, n)`.
   */
  lemma ViewIsRanked(fetched: Option<seq<FightPage.CharacterRow>>)
    ensures var b := View(fetched);
            var rows := fetched.GetOr([]);
            && multiset(b.sorted) == multiset(WithRatings(rows))
            && Ranking.NonIncreasing(b.sorted, ShownRating)
            && |b.top10| == (if |rows| < 10 then |rows| else 10) && b.top10 == b.sorted[..|b.top10|]
            && |b.bottom10| == |b.top10| && b.bottom10 == b.sorted[|rows| - |b.bottom10|..]
            && (|rows| <= 10 ==> b.top10 == b.sorted && b.bottom10 == b.sorted)
  {
    var sorted := View(fetched).sorted;
    Ranking.SortDescPermutes(WithRatings(fetched.GetOr([])), ShownRating);
    Ranking.SortDescOrdered(WithRatings(fetched.GetOr([])), ShownRating);
    Ranking.Slices(sorted);
  }

  /** Nobody outside the top list is rated above anybody in it. */
  lemma TopTenAreTheBest(fetched: Option<seq<FightPage.CharacterRow>>)
    ensures var b := View(fetched);
            forall i, j :: 0 <= i < |b.top10| && |b.top10| <= j < |b.sorted| ==>
              b.top10[i].r.rating >= b.sorted[j].r.rating
  {
    var b := View(fetched);
    Ranking.SortDescOrdered(WithRatings(fetched.GetOr([])), ShownRating);
    Ranking.SlicesRankFirstAndLast(b.sorted, ShownRating);
  }

  /** A failed fetch shows two empty lists. */
  lemma FailedFetchShowsNothing()
    ensures View(None) == Board([], [], [])
  {
  }

  /** Two newcomers without rating rows both show 1000-0-0, in the order they came. */
  lemma NewcomersKeepTheirOrder(a: FightPage.CharacterRow, b: FightPage.CharacterRow)
    requires a.ratings.None? && b.ratings.None?
    ensures View(Some([a, b])).sorted == [Ranked(a, Elo.DefaultRating), Ranked(b, Elo.DefaultRating)]
  {
    var shown := WithRatings([a, b]);
    assert shown == [Ranked(a, Elo.DefaultRating), Ranked(b, Elo.DefaultRating)];
    Ranking.SortDescOfOrdered(shown, ShownRating);
  }
}
