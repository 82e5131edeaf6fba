/**
 * The fight page: a king-of-the-hill run over every character. The pool is
 * shuffled once (Fisher-Yates), the first two characters fight, and after each
 * vote the winner keeps its slot while the loser's slot takes the next
 * challenger from the queue; when the queue is empty the run is done.
 *
 * `Math.random` is injected: `rs[i]` is the value drawn when the shuffle is at
 * index `i`. The 300 ms animation is two steps: a vote starts it (and sends
 * the decision), `AnimationEnds` is the timer callback that rotates. The
 * reply to the decision arrives on its own (`ApplyReply`), in any order
 * relative to the rotation.
 */
module FightPage {
  import opened Wrappers
  import Json
  import Elo
  import FightRoute

  /** A character as the page shows it. */
  datatype Character = Character(id: string, name: string, imageUrl: string)

  /** A row of `GET /api/characters`, with its joined rating row, if any. */
  datatype CharacterRow = CharacterRow(id: string, name: string, imageUrl: string, ratings: Option<Elo.Rating>)

  datatype Side = Left | Right

  /** What `recordFight` gets back: the two updated records, or a failure with the body's `error`, if any. */
  datatype FightReply = ReplyOk(winner: FightRoute.Record, loser: FightRoute.Record) | ReplyFailed(error: Option<string>)

  // ----- shuffle -----

  /** Values `Math.random()` can return. */
  ghost predicate RandomValues(rs: seq<real>)
  {
    forall i :: 0 <= i < |rs| ==> 0.0 <= rs[i] < 1.0
  }

  /** `Math.floor(r * (i + 1))`: an index in `[0, i]`. */
  function PickIndex(r: real, i: nat): (j: nat)
    requires 0.0 <= r < 1.0
    ensures j <= i
  {
    var n := (i + 1) as real;
    ScaleBelow(r, n);
    (r * n).Floor
  }

  /** A value of `Math.random()` times a positive `n` lies in `[0, n)`. */
  lemma ScaleBelow(r: real, n: real)
    requires 0.0 <= r < 1.0 && n > 0.0
    ensures 0.0 <= r * n < n
  {
    assert 0.0 <= r * n;
    assert (1.0 - r) * n > 0.0;
    assert n - r * n == (1.0 - r) * n;
  }

  /** `[a[i], a[j]] = [a[j], a[i]]` on a sequence. */
  function Swap<T>(s: seq<T>, i: nat, j: nat): (t: seq<T>)
    requires i < |s| && j < |s|
    ensures |t| == |s| && t[i] == s[j] && t[j] == s[i]
    ensures forall k :: 0 <= k < |s| && k != i && k != j ==> t[k] == s[k]
  {
    s[i := s[j]][j := s[i]]
  }

  /** A swap only reorders. */
  lemma SwapPermutes<T>(s: seq<T>, i: nat, j: nat)
    requires i < |s| && j < |s|
    ensures multiset(Swap(s, i, j)) == multiset(s)
  {
    var t := s[i := s[j]];
    assert multiset(t) == multiset(s) - multiset{s[i]} + multiset{s[j]};
  }

  /**
   * The shuffle still to do when the indices below `n` remain: swap index
   * `n - 1` with the drawn index in `[0, n - 1]`, then go on with `n - 1`.
   * The result is a permutation of `s`.
   */
  function Shuffled<T>(s: seq<T>, rs: seq<real>, n: nat): (t: seq<T>)
    requires n <= |s| && n <= |rs| && RandomValues(rs)
    ensures |t| == |s|
    decreases n
  {
    if n <= 1 then s
    else Shuffled(Swap(s, n - 1, PickIndex(rs[n - 1], n - 1)), rs, n - 1)
  }

  /** The shuffle is a permutation: every character keeps its number of occurrences. */
  lemma {:induction false} ShuffledPermutes<T>(s: seq<T>, rs: seq<real>, n: nat)
    requires n <= |s| && n <= |rs| && RandomValues(rs)
    ensures multiset(Shuffled(s, rs, n)) == multiset(s)
    decreases n
  {
    if n > 1 {
      var j := PickIndex(rs[n - 1], n - 1);
      SwapPermutes(s, n - 1, j);
      ShuffledPermutes(Swap(s, n - 1, j), rs, n - 1);
    }
  }

  /**
   * `shuffle(arr)`: copies `arr` into a fresh array and, for `i` from the last
   * index down to 1, swaps cell `i` with cell `floor(rs[i] * (i + 1))`.
   * The input is a value and is not changed.
   */
  method Shuffle<T>(arr: seq<T>, rs: seq<real>) returns (shuffled: seq<T>)
    requires |rs| >= |arr| && RandomValues(rs)
    ensures shuffled == Shuffled(arr, rs, |arr|)
    ensures |shuffled| == |arr| && multiset(shuffled) == multiset(arr)
  {
    var a := new T[|arr|](k requires 0 <= k < |arr| => arr[k]);
    assert a[..] == arr;
    var i := |arr| - 1;
    while i > 0
      invariant 0 <= i + 1 <= |arr|
      invariant Shuffled(a[..], rs, i + 1) == Shuffled(arr, rs, |arr|)
    {
      var j := PickIndex(rs[i], i);
      ghost var before := a[..];
      a[i], a[j] := a[j], a[i];
      assert a[..] == Swap(before, i, j);
      i := i - 1;
    }
    shuffled := a[..];
    ShuffledPermutes(arr, rs, |arr|);
  }

  // ----- loading -----

  /** `rows.map(char => ({ id, name, imageUrl: image_url }))` */
  function PoolOf(rows: seq<CharacterRow>): (pool: seq<Character>)
    ensures |pool| == |rows|
    ensures forall i :: 0 <= i < |rows| ==> pool[i].id == rows[i].id
  {
    seq(|rows|, i requires 0 <= i < |rows| => Character(rows[i].id, rows[i].name, rows[i].imageUrl))
  }

  /** The ratings map the page starts with: each row's rating (or the default) under its id, later rows winning. */
  function RatingsByCharacter(rows: seq<CharacterRow>): map<string, Elo.Rating>
  {
    if rows == [] then map[]
    else
      var last := rows[|rows| - 1];
      RatingsByCharacter(rows[..|rows| - 1])[last.id := last.ratings.GetOr(Elo.DefaultRating)]
  }

  /** The `for (const r of rows)` loop that fills the initial ratings map. */
  method RatingsFromRows(rows: seq<CharacterRow>) returns (m: map<string, Elo.Rating>)
    ensures m == RatingsByCharacter(rows)
  {
    m := map[];
    var i := 0;
    while i < |rows|
      invariant 0 <= i <= |rows|
      invariant m == RatingsByCharacter(rows[..i])
    {
      assert rows[..i + 1][..i] == rows[..i];
      var rr := rows[i].ratings.GetOr(Elo.DefaultRating);
      m := m[rows[i].id := rr];
      i := i + 1;
    }
    assert rows[..|rows|] == rows;
  }

  /**
   * Every character of the list has an entry; it holds the character's rating
   * row, or `{1000, 0, 0}` when the row has none. No other id has an entry.
   */
  lemma {:induction false} InitialRatings(rows: seq<CharacterRow>, i: nat)
    requires i < |rows| && forall j :: i < j < |rows| ==> rows[j].id != rows[i].id
    ensures rows[i].id in RatingsByCharacter(rows)
    ensures RatingsByCharacter(rows)[rows[i].id] == rows[i].ratings.GetOr(Elo.DefaultRating)
    ensures forall id :: id in RatingsByCharacter(rows) ==> exists j :: 0 <= j < |rows| && rows[j].id == id
  {
    var init := rows[..|rows| - 1];
    if i < |rows| - 1 {
      InitialRatings(init, i);
    } else if init != [] {
      KeysOfRatings(init);
    }
  }

  lemma {:induction false} KeysOfRatings(rows: seq<CharacterRow>)
    ensures forall id :: id in RatingsByCharacter(rows) ==> exists j :: 0 <= j < |rows| && rows[j].id == id
  {
    if rows != [] {
      var init := rows[..|rows| - 1];
      KeysOfRatings(init);
      forall id | id in RatingsByCharacter(rows) ensures exists j :: 0 <= j < |rows| && rows[j].id == id {
        if id != rows[|rows| - 1].id {
          assert id in RatingsByCharacter(init);
          var j :| 0 <= j < |init| && init[j].id == id;
          assert rows[j] == init[j];
        }
      }
    }
  }

  // ----- the server's reply -----

  /** A response record as a rating row. */
  function AsRating(r: FightRoute.Record): Elo.Rating
  {
    Elo.Rating(r.rating, r.wins, r.losses)
  }

  /** The ratings map after a successful reply: the winner's and the loser's entries are set from it. */
  function FoldReply(m: map<string, Elo.Rating>, winner: FightRoute.Record, loser: FightRoute.Record): map<string, Elo.Rating>
  {
    m[winner.id := AsRating(winner)][loser.id := AsRating(loser)]
  }

  /** The reply sets exactly the two entries, to the server's values, and leaves every other entry alone. */
  lemma FoldReplyTouchesOnlyThePair(m: map<string, Elo.Rating>, winner: FightRoute.Record, loser: FightRoute.Record)
    requires winner.id != loser.id
    ensures var m' := FoldReply(m, winner, loser);
            && m'.Keys == m.Keys + {winner.id, loser.id}
            && m'[winner.id] == AsRating(winner) && m'[loser.id] == AsRating(loser)
            && forall id :: id in m && id != winner.id && id != loser.id ==> m'[id] == m[id]
  {
  }

  /** `msg.error || "Something went wrong."` */
  function FailureText(error: Option<string>): (text: string)
    ensures text != ""
    ensures error.Some? && error.value != "" ==> text == error.value
  {
    if error.Some? && error.value != "" then error.value else "Something went wrong."
  }

  /** The body `recordFight(winner, loser)` posts: both ids and no K, so the route uses 32. */
  function Decision(winner: Character, loser: Character): FightRoute.FightRequest
  {
    FightRoute.FightRequest(Some(winner.id), Some(loser.id), Json.Undefined)
  }

  /** The route takes a decision between two characters with different, non-empty ids at K = 32. */
  lemma DecisionAcceptedAtDefaultK(winner: Character, loser: Character)
    requires winner.id != "" && loser.id != "" && winner.id != loser.id
    ensures FightRoute.ValidIds(Decision(winner, loser))
    ensures FightRoute.EffectiveK(Decision(winner, loser).k) == Elo.DefaultK
  {
  }

  // ----- the session -----

  /** How many times `x` occurs in `s`. */
  function Occurrences(s: seq<Character>, x: Character): nat
  {
    if s == [] then 0 else (if s[0] == x then 1 else 0) + Occurrences(s[1..], x)
  }

  /** Counting occurrences is counting multiplicity in the multiset of `s`. */
  lemma {:induction false} OccurrencesAreMultiplicity(s: seq<Character>, x: Character)
    ensures Occurrences(s, x) == multiset(s)[x]
  {
    if s != [] {
      OccurrencesAreMultiplicity(s[1..], x);
      assert s == [s[0]] + s[1..];
    }
  }

  lemma {:induction false} OccurrencesAppend(s: seq<Character>, t: seq<Character>, x: Character)
    ensures Occurrences(s + t, x) == Occurrences(s, x) + Occurrences(t, x)
  {
    if s == [] {
      assert s + t == t;
    } else {
      assert (s + t)[1..] == s[1..] + t;
      OccurrencesAppend(s[1..], t, x);
    }
  }

  /**
   * A rotation loses nobody: the challenger `c` leaves the queue for a slot
   * and the loser leaves its slot for the eliminated, whichever side lost.
   */
  lemma RotationKeepsEveryone(l: Character, r: Character, c: Character, queue: seq<Character>,
                              eliminated: seq<Character>, x: Character)
    ensures var before := Occurrences([l, r], x) + Occurrences([c] + queue, x) + Occurrences(eliminated, x);
            && Occurrences([l, c], x) + Occurrences(queue, x) + Occurrences(eliminated + [r], x) == before
            && Occurrences([c, r], x) + Occurrences(queue, x) + Occurrences(eliminated + [l], x) == before
  {
    OccurrencesAppend(eliminated, [r], x);
    OccurrencesAppend(eliminated, [l], x);
    OccurrencesAppend([c], queue, x);
    assert [l, c][1..] == [c] && [l, r][1..] == [r] && [c, r][1..] == [r];
    assert [r][1..] == [] && [l][1..] == [] && [c][1..] == [];
  }

  /** The state of the fight page. */
  class Session {
    var pool: seq<Character>
    var left: Option<Character>
    var right: Option<Character>
    var queue: seq<Character>
    var done: bool
    var errorMessage: Option<string>
    var ratings: map<string, Elo.Rating>
    var isAnimating: bool
    var winnerSide: Option<Side>

    /** The characters that lost and left the arena, in order. */
    ghost var eliminated: seq<Character>
    /** Rotations that advanced the run. */
    ghost var rounds: nat

    /**
     * The run's invariant. With at least two characters both slots are
     * filled and every character of the pool is in a slot, in the queue or
     * eliminated, as often as in the pool; each round removes one from the
     * queue and the run is done after `|pool| - 1` rounds. With fewer, the
     * only character (if any) sits in the left slot and nothing happens.
     */
    ghost predicate Valid()
      reads this
    {
      && (isAnimating <==> winnerSide.Some?)
      && (isAnimating ==> left.Some? && right.Some?)
      && (done ==> queue == [])
      && (|pool| >= 2 ==>
            && left.Some? && right.Some?
            && (forall x :: Occurrences([left.value, right.value], x) + Occurrences(queue, x)
                             + Occurrences(eliminated, x) == Occurrences(pool, x))
            && |queue| + |eliminated| == |pool| - 2
            && rounds == |eliminated| + (if done then 1 else 0))
      && (|pool| < 2 ==>
            && right.None? && queue == [] && eliminated == [] && rounds == 0
            && left == (if |pool| == 1 then Some(pool[0]) else None))
    }

    /**
     * The Arena, whose buttons are the only way to vote, is rendered only
     * while there is no error message and the run is not done.
     */
    predicate ArenaShown()
      reads this
    {
      errorMessage.None? && !done
    }

    /** The page as first rendered: nothing loaded, nothing shown. */
    constructor ()
      ensures Valid()
      ensures pool == [] && left.None? && right.None? && queue == [] && !done
      ensures errorMessage.None? && ratings == map[] && !isAnimating
    {
      pool, left, right, queue, done := [], None, None, [], false;
      errorMessage, ratings, isAnimating, winnerSide := None, map[], false, None;
      eliminated, rounds := [], 0;
    }

    /**
     * The state updates at the end of the load effect: the ratings map, the
     * shuffled pool, the first two characters in the slots, the rest in the
     * queue, and the run done at once when there are fewer than two.
     */
    method Start(initial: map<string, Elo.Rating>, shuffled: seq<Character>)
      requires !isAnimating && winnerSide.None?
      modifies this
      ensures Valid()
      ensures pool == shuffled && ratings == initial
      ensures left == (if |pool| >= 1 then Some(pool[0]) else None)
      ensures right == (if |pool| >= 2 then Some(pool[1]) else None)
      ensures queue == (if |pool| >= 2 then pool[2..] else [])
      ensures (done <==> |pool| < 2)
      ensures errorMessage == old(errorMessage) && !isAnimating && winnerSide.None?
    {
      if |shuffled| >= 2 {
        assert [shuffled[0], shuffled[1]] + shuffled[2..] == shuffled;
        forall x ensures Occurrences([shuffled[0], shuffled[1]], x) + Occurrences(shuffled[2..], x)
                         == Occurrences(shuffled, x) {
          OccurrencesAppend([shuffled[0], shuffled[1]], shuffled[2..], x);
        }
        pool, left, right, queue, done := shuffled, Some(shuffled[0]), Some(shuffled[1]), shuffled[2..], false;
      } else {
        pool, left, right, queue, done := shuffled, (if |shuffled| == 1 then Some(shuffled[0]) else None), None, [], true;
      }
      ratings, eliminated, rounds := initial, [], 0;
    }

    /**
     * The load effect: on a failed fetch nothing changes; otherwise the ratings
     * map is filled from the rows and the run starts over a shuffled pool.
     */
    method Load(rows: Option<seq<CharacterRow>>, rs: seq<real>)
      requires Valid() && !isAnimating
      requires rows.Some? ==> |rs| >= |rows.value| && RandomValues(rs)
      modifies this
      ensures Valid()
      ensures rows.None? ==> unchanged(this)
      ensures rows.Some? ==>
                && pool == Shuffled(PoolOf(rows.value), rs, |rows.value|)
                && multiset(pool) == multiset(PoolOf(rows.value))
                && ratings == RatingsByCharacter(rows.value)
                && left == (if |pool| >= 1 then Some(pool[0]) else None)
                && right == (if |pool| >= 2 then Some(pool[1]) else None)
                && queue == (if |pool| >= 2 then pool[2..] else [])
                && (done <==> |pool| < 2)
                && errorMessage == old(errorMessage) && !isAnimating
    {
      if rows.None? {
        return;
      }
      var initial := RatingsFromRows(rows.value);
      var shuffled := Shuffle(PoolOf(rows.value), rs);
      Start(initial, shuffled);
    }

    /** `nextChallenger()`: pops the front of the queue, or gives nothing when it is empty. */
    method NextChallenger() returns (next: Option<Character>)
      modifies this`queue
      ensures old(queue) == [] ==> next.None? && queue == []
      ensures old(queue) != [] ==> next == Some(old(queue)[0]) && queue == old(queue)[1..]
    {
      if |queue| == 0 {
        return None;
      }
      next := Some(queue[0]);
      queue := queue[1..];
    }

    /**
     * A click on the left fighter. It reaches `handleLeftWins()` only while
     * the Arena is shown; the handler ignores it when a slot is empty or an
     * animation runs; otherwise it sends the decision (left beats right) and
     * starts the animation, whose end rotates the right slot.
     */
    method LeftWins() returns (sent: Option<FightRoute.FightRequest>)
      requires Valid()
      modifies this`isAnimating, this`winnerSide
      ensures Valid()
      ensures old(!ArenaShown() || left.None? || right.None? || isAnimating) ==> sent.None? && unchanged(this)
      ensures !old(!ArenaShown() || left.None? || right.None? || isAnimating) ==>
                sent == Some(Decision(left.value, right.value)) && isAnimating && winnerSide == Some(Left)
    {
      if !ArenaShown() {
        return None;
      }
      if left.None? || right.None? || isAnimating {
        return None;
      }
      sent := Some(Decision(left.value, right.value));
      isAnimating, winnerSide := true, Some(Left);
    }

    /** A click on the right fighter and `handleRightWins()`: the mirror image, right beats left. */
    method RightWins() returns (sent: Option<FightRoute.FightRequest>)
      requires Valid()
      modifies this`isAnimating, this`winnerSide
      ensures Valid()
      ensures old(!ArenaShown() || left.None? || right.None? || isAnimating) ==> sent.None? && unchanged(this)
      ensures !old(!ArenaShown() || left.None? || right.None? || isAnimating) ==>
                sent == Some(Decision(right.value, left.value)) && isAnimating && winnerSide == Some(Right)
    {
      if !ArenaShown() {
        return None;
      }
      if left.None? || right.None? || isAnimating {
        return None;
      }
      sent := Some(Decision(right.value, left.value));
      isAnimating, winnerSide := true, Some(Right);
    }

    /**
     * The timer callback of `animateAndRotate`: the winner keeps its slot and
     * the loser's slot takes the next challenger, or the run is done when the
     * queue is empty; then the animation ends. The reply to the decision plays
     * no part.
     */
    method AnimationEnds()
      requires Valid() && isAnimating
      modifies this`left, this`right, this`queue, this`done, this`isAnimating, this`winnerSide
      modifies this`eliminated, this`rounds
      ensures Valid() && !isAnimating && winnerSide.None?
      ensures pool == old(pool) && ratings == old(ratings) && errorMessage == old(errorMessage)
      ensures old(done) ==> done
      ensures old(queue) == [] ==> done && left == old(left) && right == old(right) && queue == []
      ensures old(queue) != [] ==> done == old(done) && queue == old(queue)[1..]
      ensures old(queue) != [] && old(winnerSide) == Some(Left) ==> left == old(left) && right == Some(old(queue)[0])
      ensures old(queue) != [] && old(winnerSide) == Some(Right) ==> right == old(right) && left == Some(old(queue)[0])
    {
      if queue == [] {
        var none := NextChallenger();
        if !done {
          rounds := rounds + 1;
        }
        done := true;
      } else {
        Rotate(winnerSide.value);
      }
      winnerSide := None;
      isAnimating := false;
    }

    /**
     * The rotation itself when a challenger waits: it leaves the queue for the
     * loser's slot and the loser is eliminated.
     */
    method Rotate(side: Side)
      requires Valid() && isAnimating && winnerSide == Some(side) && queue != []
      modifies this`left, this`right, this`queue, this`eliminated, this`rounds
      ensures Valid()
      ensures queue == old(queue)[1..] && rounds == old(rounds) + 1
      ensures side == Left ==> left == old(left) && right == Some(old(queue)[0])
                                && eliminated == old(eliminated) + [old(right).value]
      ensures side == Right ==> right == old(right) && left == Some(old(queue)[0])
                                 && eliminated == old(eliminated) + [old(left).value]
    {
      var loser := if side == Left then right.value else left.value;
      ghost var l, r, c, rest, e := left.value, right.value, queue[0], queue[1..], eliminated;
      assert queue == [c] + rest;
      forall x
        ensures var before := Occurrences([l, r], x) + Occurrences([c] + rest, x) + Occurrences(e, x);
                && Occurrences([l, c], x) + Occurrences(rest, x) + Occurrences(e + [r], x) == before
                && Occurrences([c, r], x) + Occurrences(rest, x) + Occurrences(e + [l], x) == before
      {
        RotationKeepsEveryone(l, r, c, rest, e, x);
      }
      var challenger := NextChallenger();
      if side == Left {
        right := challenger;
      } else {
        left := challenger;
      }
      eliminated := eliminated + [loser];
      rounds := rounds + 1;
    }

    /**
     * The reply to `recordFight`: a failure sets the error message; a success
     * sets the winner's and the loser's entries of the ratings map from it.
     */
    method ApplyReply(reply: FightReply)
      requires Valid()
      modifies this`ratings, this`errorMessage
      ensures Valid()
      ensures done == old(done)
      ensures reply.ReplyFailed? ==> errorMessage == Some(FailureText(reply.error)) && ratings == old(ratings)
      ensures reply.ReplyFailed? ==> !ArenaShown()
      ensures errorMessage.Some? ==> !ArenaShown()
      ensures reply.ReplyOk? ==>
                ratings == FoldReply(old(ratings), reply.winner, reply.loser) && errorMessage == old(errorMessage)
    {
      match reply {
        case ReplyFailed(error) =>
          errorMessage := Some(FailureText(error));
        case ReplyOk(winner, loser) =>
          ratings := FoldReply(ratings, winner, loser);
      }
    }

    /**
     * Nobody is lost or duplicated: the two slots, the queue and the
     * eliminated together are a permutation of the pool.
     */
    lemma NobodyLost()
      requires Valid() && |pool| >= 2
      ensures multiset([left.value, right.value] + queue + eliminated) == multiset(pool)
    {
      var everyone := [left.value, right.value] + queue + eliminated;
      forall x ensures multiset(everyone)[x] == multiset(pool)[x] {
        OccurrencesAppend([left.value, right.value] + queue, eliminated, x);
        OccurrencesAppend([left.value, right.value], queue, x);
        OccurrencesAreMultiplicity(everyone, x);
        OccurrencesAreMultiplicity(pool, x);
      }
    }

    /**
     * A finished run is final: its queue is empty, the Arena is gone so no
     * vote can arrive, and over at least two characters it took `|pool| - 1`
     * rounds. Only a new load starts another run.
     */
    lemma DoneIsFinal()
      requires Valid() && done
      ensures queue == [] && !ArenaShown()
      ensures |pool| >= 2 ==> rounds == |pool| - 1 && |eliminated| == |pool| - 2
    {
    }

    /** A run over at least two characters is done exactly after `|pool| - 1` rounds. */
    lemma RunLength()
      requires Valid() && |pool| >= 2
      ensures done <==> rounds == |pool| - 1
      ensures rounds <= |pool| - 1
      ensures done ==> queue == [] && |eliminated| == |pool| - 2
    {
    }
  }
}
