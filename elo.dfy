/**
 * The Elo update of the rating library: the default row, the expected score,
 * JavaScript's rounding, the in-place update of a winner's and a loser's
 * rows, and what that update does to ratings and counters.
 *
 * The expected score `1 / (1 + 10^((rb - ra) / 400))` is a floating-point
 * expression; the model takes it as a parameter `e` obeying the laws the exact
 * formula obeys (IsExpectedScore).
 */
module Elo {

  /** A rating row: `{ rating, wins, losses }`. */
  datatype Rating = Rating(rating: int, wins: int, losses: int)

  /** The row of a competitor that has never fought. */
  const DefaultRating := Rating(1000, 0, 0)

  /** The update rate used when the caller gives none. */
  const DefaultK: real := 32.0

  /**
   * What `1 / (1 + 10^((rb - ra) / 400))` satisfies in exact arithmetic: it lies
   * strictly between 0 and 1, is 1/2 for equal ratings (10^0 is 1), the two
   * sides' scores add up to 1, and it grows with the first rating.
   */
  ghost predicate IsExpectedScore(e: (int, int) -> real)
  {
    && (forall ra, rb :: 0.0 < e(ra, rb) < 1.0)
    && (forall r :: e(r, r) == 0.5)
    && (forall ra, rb :: e(ra, rb) + e(rb, ra) == 1.0)
    && (forall ra, ra', rb :: ra < ra' ==> e(ra, rb) < e(ra', rb))
  }

  /** `Math.round(x)`: the nearest integer, halves rounded up (towards +infinity). */
  function Round(x: real): (n: int)
    ensures x - 0.5 < n as real <= x + 0.5
  {
    (x + 0.5).Floor
  }

  /** `Math.round(r + K * (1 - ea))`: a winner's update for a given expected score. */
  function WinnerStep(r: int, k: real, ea: real): int
  {
    Round(r as real + k * (1.0 - ea))
  }

  /** `Math.round(r + K * (0 - eb))`: a loser's update for a given expected score. */
  function LoserStep(r: int, k: real, eb: real): int
  {
    Round(r as real + k * (0.0 - eb))
  }

  /** The winner's new rating: `Math.round(ra + K * (1 - Ea))`. */
  function NewWinnerRating(ra: int, rb: int, k: real, e: (int, int) -> real): int
  {
    WinnerStep(ra, k, e(ra, rb))
  }

  /** The loser's new rating: `Math.round(rb + K * (0 - Eb))` with `Eb = 1 - Ea`. */
  function NewLoserRating(ra: int, rb: int, k: real, e: (int, int) -> real): int
  {
    LoserStep(rb, k, 1.0 - e(ra, rb))
  }

  /** The rows of winner `a` and loser `b` after one decision, for two distinct rows. */
  function Applied(a: Rating, b: Rating, k: real, e: (int, int) -> real): (Rating, Rating)
  {
    (Rating(NewWinnerRating(a.rating, b.rating, k, e), a.wins + 1, a.losses),
     Rating(NewLoserRating(a.rating, b.rating, k, e), b.wins, b.losses + 1))
  }

  /** A mutable rating row, as held in a `Map<string, RatingRow>`. */
  class RatingRow {
    var rating: int
    var wins: int
    var losses: int

    constructor (r: Rating)
      ensures Value() == r
    {
      rating, wins, losses := r.rating, r.wins, r.losses;
    }

    function Value(): Rating
      reads this
    {
      Rating(rating, wins, losses)
    }
  }

  /** A JavaScript `Map<string, RatingRow>`: keys to shared, mutable rows. */
  class RatingMap {
    var entries: map<string, RatingRow>

    constructor ()
      ensures entries == map[]
    {
      entries := map[];
    }
  }

  /**
   * `ensureRow(map, id)`: the row stored under `id`, inserting a fresh default
   * row when there is none. Other keys are never touched.
   */
  method EnsureRow(m: RatingMap, id: string) returns (row: RatingRow)
    modifies m
    ensures id in m.entries && m.entries[id] == row
    ensures id in old(m.entries) ==> row == old(m.entries[id]) && m.entries == old(m.entries)
    ensures id !in old(m.entries) ==> fresh(row) && row.Value() == DefaultRating
    ensures id !in old(m.entries) ==> m.entries == old(m.entries)[id := row]
  {
    if id !in m.entries {
      var created := new RatingRow(DefaultRating);
      m.entries := m.entries[id := created];
    }
    row := m.entries[id];
  }

  /**
   * `applyElo(a, b, K = 32)`: winner `a` and loser `b` are updated in place.
   * The expected score is taken once, from the ratings before the update.
   * When `a` and `b` are the same row, the loser's update reads the rating
   * the winner's update just wrote, and the row gets both counters.
   */
  method ApplyElo(a: RatingRow, b: RatingRow, e: (int, int) -> real, k: real := DefaultK)
    modifies a, b
    ensures a != b ==> (a.Value(), b.Value()) == Applied(old(a.Value()), old(b.Value()), k, e)
    ensures a == b ==> a.rating == LoserStep(NewWinnerRating(old(a.rating), old(a.rating), k, e), k,
                                             1.0 - e(old(a.rating), old(a.rating)))
    ensures a == b ==> a.wins == old(a.wins) + 1 && a.losses == old(a.losses) + 1
  {
    var ea := e(a.rating, b.rating);
    var eb := 1.0 - ea;
    a.rating := WinnerStep(a.rating, k, ea);
    b.rating := LoserStep(b.rating, k, eb);
    a.wins := a.wins + 1;
    b.losses := b.losses + 1;
  }

  /** Rounding commutes with adding a whole number. */
  lemma RoundShift(n: int, x: real)
    ensures Round(n as real + x) == n + Round(x)
  {
  }

  /** The winner's counters: one more win, the same losses. The loser's: the same wins, one more loss. */
  lemma AppliedCounters(a: Rating, b: Rating, k: real, e: (int, int) -> real)
    ensures Applied(a, b, k, e).0.wins == a.wins + 1 && Applied(a, b, k, e).0.losses == a.losses
    ensures Applied(a, b, k, e).1.wins == b.wins && Applied(a, b, k, e).1.losses == b.losses + 1
  {
  }

  /**
   * With a non-negative K the winner never loses rating, and gains at most
   * `Math.round(K)`.
   */
  lemma WinnerGainBounded(ra: int, rb: int, k: real, e: (int, int) -> real)
    requires IsExpectedScore(e) && k >= 0.0
    ensures ra <= NewWinnerRating(ra, rb, k, e) <= ra + Round(k)
  {
    var ea := e(ra, rb);
    assert 0.0 < ea < 1.0;
    var gain := k * (1.0 - ea);
    assert 0.0 <= gain <= k by {
      assert k * (1.0 - ea) <= k * 1.0;
    }
    RoundShift(ra, gain);
    RoundShift(ra, k);
  }

  /**
   * With a non-negative K the loser never gains rating, and loses at most
   * `Math.round(K)` (for K = 32, at most 32).
   */
  lemma LoserLossBounded(ra: int, rb: int, k: real, e: (int, int) -> real)
    requires IsExpectedScore(e) && k >= 0.0
    ensures rb + Round(-k) <= NewLoserRating(ra, rb, k, e) <= rb
  {
    var ea := e(ra, rb);
    assert 0.0 < ea < 1.0;
    var loss := k * (1.0 - ea);
    assert 0.0 <= loss <= k by {
      assert k * (1.0 - ea) <= k * 1.0;
    }
    assert k * (0.0 - (1.0 - ea)) == -loss;
    RoundShift(rb, -loss);
    RoundShift(rb, -k);
  }

  /** With the default K = 32 the winner gains between 0 and 32 and the loser loses between 0 and 32. */
  lemma DefaultKBounds(ra: int, rb: int, e: (int, int) -> real)
    requires IsExpectedScore(e)
    ensures ra <= NewWinnerRating(ra, rb, DefaultK, e) <= ra + 32
    ensures rb - 32 <= NewLoserRating(ra, rb, DefaultK, e) <= rb
  {
    WinnerGainBounded(ra, rb, DefaultK, e);
    LoserLossBounded(ra, rb, DefaultK, e);
  }

  /**
   * Rounding makes the update almost, not exactly, zero-sum: the sum of the two
   * changes is 0, or 1 when the exact change ends in one half.
   */
  lemma NearlyZeroSum(ra: int, rb: int, k: real, e: (int, int) -> real)
    ensures var total := (NewWinnerRating(ra, rb, k, e) - ra) + (NewLoserRating(ra, rb, k, e) - rb);
            0 <= total <= 1
  {
    var x := k * (1.0 - e(ra, rb));
    assert k * (0.0 - (1.0 - e(ra, rb))) == -x;
    RoundShift(ra, x);
    RoundShift(rb, -x);
  }

  /** Equal ratings with K = 32: the winner gains exactly 16 and the loser loses exactly 16. */
  lemma EqualRatingsMoveBy16(r: int, e: (int, int) -> real)
    requires IsExpectedScore(e)
    ensures NewWinnerRating(r, r, DefaultK, e) == r + 16
    ensures NewLoserRating(r, r, DefaultK, e) == r - 16
  {
    assert e(r, r) == 0.5;
    RoundShift(r, 16.0);
    RoundShift(r, -16.0);
  }

  /** Two newcomers (1000 against 1000) with the default K: 1016 for the winner, 984 for the loser. */
  lemma NewcomersExample(e: (int, int) -> real)
    requires IsExpectedScore(e)
    ensures Applied(DefaultRating, DefaultRating, DefaultK, e) == (Rating(1016, 1, 0), Rating(984, 0, 1))
  {
    EqualRatingsMoveBy16(1000, e);
  }

  /**
   * The favourite gains at most 16 for a win over a weaker opponent and the
   * underdog at least 16 for a win over a stronger one (K = 32).
   */
  lemma FavouriteGainsLess(ra: int, rb: int, e: (int, int) -> real)
    requires IsExpectedScore(e)
    ensures ra > rb ==> NewWinnerRating(ra, rb, DefaultK, e) - ra <= 16
    ensures ra < rb ==> NewWinnerRating(ra, rb, DefaultK, e) - ra >= 16
  {
    var ea := e(ra, rb);
    assert e(rb, rb) == 0.5;
    assert ra > rb ==> ea > 0.5;
    assert ra < rb ==> e(ra, rb) < e(rb, rb);
    RoundShift(ra, DefaultK * (1.0 - ea));
  }

  /**
   * Deciding the same match twice counts it twice: two more wins and two more
   * losses, so the update is not idempotent.
   */
  lemma NotIdempotent(a: Rating, b: Rating, k: real, e: (int, int) -> real)
    ensures var once := Applied(a, b, k, e);
            var twice := Applied(once.0, once.1, k, e);
            twice.0.wins == a.wins + 2 && twice.1.losses == b.losses + 2 && twice != once
  {
  }
}
