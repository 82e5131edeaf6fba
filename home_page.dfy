/**
 * The home page: the top character and the caller's own characters, each of
 * these shown with its rating row or the default one, highest rating first.
 */
module HomePage {
  import opened Wrappers
  import Elo
  import Ranking

  /** A row of `GET /api/my-characters` or `GET /api/top-character`. */
  datatype CharacterRow = CharacterRow(id: string, name: string, imageUrl: string, createdAt: string,
                                       ratings: Option<Elo.Rating>)

  /** A row whose missing rating row was replaced by the default one. */
  datatype Normalized = Normalized(id: string, name: string, imageUrl: string, createdAt: string,
                                   ratings: Elo.Rating)

  /** A fetch: it threw, or it answered with an `ok` flag and a body. */
  datatype Fetched<T> = Threw | Answered(ok: bool, body: T)

  /** The two values the page keeps: its own characters and the top one, if any. */
  datatype Home = Home(mine: seq<CharacterRow>, top: Option<CharacterRow>)

  /**
   * The load effect. Both fetches run together and a throw from either skips
   * both updates, so the initial `[]` and `null` stay; an answer that is not
   * `ok` gives `[]` for the own characters and `null` for the top one.
   */
  function Load(myRes: Fetched<seq<CharacterRow>>, topRes: Fetched<Option<CharacterRow>>): (h: Home)
    ensures myRes.Answered? && topRes.Answered? && !myRes.ok ==> h.mine == []
    ensures myRes.Answered? && topRes.Answered? && !topRes.ok ==> h.top.None?
    ensures myRes.Threw? || topRes.Threw? ==> h == Home([], None)
    ensures myRes.Answered? && topRes.Answered? ==>
              h.mine == (if myRes.ok then myRes.body else []) && h.top == (if topRes.ok then topRes.body else None)
  {
    match (myRes, topRes)
    case (Answered(myOk, myData), Answered(topOk, topData)) =>
      Home(if myOk then myData else [], if topOk then topData else None)
    case _ => Home([], None)
  }

  /** `{ ...character, ratings: character.ratings ?? { rating: 1000, wins: 0, losses: 0 } }` */
  function Normalize(c: CharacterRow): (n: Normalized)
    ensures n.id == c.id && n.name == c.name && n.imageUrl == c.imageUrl && n.createdAt == c.createdAt
    ensures c.ratings.None? ==> n.ratings == Elo.DefaultRating
    ensures c.ratings.Some? ==> n.ratings == c.ratings.value
  {
    Normalized(c.id, c.name, c.imageUrl, c.createdAt, c.ratings.GetOr(Elo.DefaultRating))
  }

  /** `mine.map(...)`: same length, same order, each row normalized. */
  function NormalizeAll(mine: seq<CharacterRow>): (ns: seq<Normalized>)
    ensures |ns| == |mine|
    ensures forall i :: 0 <= i < |mine| ==> ns[i] == Normalize(mine[i])
  {
    seq(|mine|, i requires 0 <= i < |mine| => Normalize(mine[i]))
  }

  function RatingOf(n: Normalized): int
  {
    n.ratings.rating
  }

  /** The list under "Your Doodles". */
  function Displayed(h: Home): seq<Normalized>
  {
    Ranking.SortDesc(NormalizeAll(h.mine), RatingOf)
  }

  /** The list shows every own character exactly once, normalized, highest rating first. */
  lemma DisplayedIsRanked(h: Home)
    ensures multiset(Displayed(h)) == multiset(NormalizeAll(h.mine))
    ensures Ranking.NonIncreasing(Displayed(h), RatingOf)
    ensures |Displayed(h)| == |h.mine|
  {
    Ranking.SortDescPermutes(NormalizeAll(h.mine), RatingOf);
    Ranking.SortDescOrdered(NormalizeAll(h.mine), RatingOf);
  }

  /** A failure of either fetch shows an empty list and no top character. */
  lemma FailedLoadShowsNothing(myRes: Fetched<seq<CharacterRow>>, topRes: Fetched<Option<CharacterRow>>)
    requires myRes.Threw? || topRes.Threw? || (myRes.Answered? && !myRes.ok && topRes.Answered? && !topRes.ok)
    ensures Displayed(Load(myRes, topRes)) == [] && Load(myRes, topRes).top.None?
  {
  }
}
