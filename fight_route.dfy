/**
 * `POST /api/fight`: record one decision. The request names a winner and a
 * loser (and optionally K); the route reads both rating rows, fills in the
 * default row for an id with none, applies the Elo update, upserts the two
 * new rows and answers with them.
 *
 * The storage reads and writes are inputs: the rows the select returned (or
 * its error) and the error of the upsert, if any. The timestamp is an input.
 */
module FightRoute {
  import opened Wrappers
  import opened Api
  import Json
  import Elo

  /** The JSON body: `{ winnerId?, loserId?, k? }`; a `null` id reads like a missing one. */
  datatype FightRequest = FightRequest(winnerId: Option<string>, loserId: Option<string>, k: Json.Value)

  /** A row of the `ratings` table. */
  datatype StoredRow = StoredRow(characterId: string, rating: int, wins: int, losses: int)

  /** The select's result: an error, or the rows (`null` when the driver gives none). */
  datatype Selected = SelectFailed(err: StorageError) | Selected(rows: Option<seq<StoredRow>>)

  /** A row of the upsert payload. */
  datatype PayloadRow = PayloadRow(characterId: string, rating: int, wins: int, losses: int, updatedAt: string)

  /** A record of the response body. */
  datatype Record = Record(id: string, rating: int, wins: int, losses: int)

  /** The response: 200 with both records and the K used, or an error status and message. */
  datatype Reply = Rated(winner: Record, loser: Record, k: real) | Failed(status: int, error: string)

  /** What the route writes to storage (nothing, or the two-row payload) and what it answers. */
  datatype Outcome = Outcome(upserted: seq<PayloadRow>, reply: Reply)

  const InvalidIds := "Invalid winner/loser ids"

  /** `err.message ?? "Server error"` */
  function ServerError(err: StorageError): string
  {
    err.message.GetOr("Server error")
  }

  /** The ids are usable: both present, both non-empty, and different. */
  predicate ValidIds(req: FightRequest)
  {
    && req.winnerId.Some? && req.winnerId.value != ""
    && req.loserId.Some? && req.loserId.value != ""
    && req.winnerId.value != req.loserId.value
  }

  /** `typeof k === "number" ? k : 32` */
  function EffectiveK(k: Json.Value): (K: real)
    ensures Json.IsNumber(k) ==> K == k.n
    ensures !Json.IsNumber(k) ==> K == Elo.DefaultK
  {
    if k.Number? then k.n else Elo.DefaultK
  }

  /** The map the `for` loop builds: each row under its id, a later row replacing an earlier one. */
  function RowsById(rows: seq<StoredRow>): map<string, StoredRow>
  {
    if rows == [] then map[]
    else
      var last := rows[|rows| - 1];
      RowsById(rows[..|rows| - 1])[last.characterId := last]
  }

  /** `for (const r of rows ?? []) map.set(r.character_id, r)` */
  method FillRowMap(rows: seq<StoredRow>) returns (byId: map<string, StoredRow>)
    ensures byId == RowsById(rows)
  {
    byId := map[];
    var i := 0;
    while i < |rows|
      invariant 0 <= i <= |rows|
      invariant byId == RowsById(rows[..i])
    {
      assert rows[..i + 1][..i] == rows[..i];
      byId := byId[rows[i].characterId := rows[i]];
      i := i + 1;
    }
    assert rows[..|rows|] == rows;
  }

  /** `map.get(id) ?? { character_id: id, rating: 1000, wins: 0, losses: 0 }`, as a rating. */
  function RatingOf(byId: map<string, StoredRow>, id: string): Elo.Rating
  {
    if id in byId then Elo.Rating(byId[id].rating, byId[id].wins, byId[id].losses)
    else Elo.DefaultRating
  }

  /** Steps 2 to 4, once the rows are known: the Elo update, the upsert and the response. */
  function Settle(winnerId: string, loserId: string, K: real, byId: map<string, StoredRow>,
                  upsertError: Option<StorageError>, now: string, e: (int, int) -> real): Outcome
  {
    var winner := RatingOf(byId, winnerId);
    var loser := RatingOf(byId, loserId);
    var winnerNew := Elo.NewWinnerRating(winner.rating, loser.rating, K, e);
    var loserNew := Elo.NewLoserRating(winner.rating, loser.rating, K, e);
    var payload := [
      PayloadRow(winnerId, winnerNew, winner.wins + 1, winner.losses, now),
      PayloadRow(loserId, loserNew, loser.wins, loser.losses + 1, now)
    ];
    match upsertError
    case Some(err) => Outcome(payload, Failed(500, ServerError(err)))
    case None =>
      Outcome(payload, Rated(Record(winnerId, winnerNew, winner.wins + 1, winner.losses),
                             Record(loserId, loserNew, loser.wins, loser.losses + 1), K))
  }

  /** The whole route, as a function of the request and of what storage does. */
  function Respond(req: FightRequest, select: Selected, upsertError: Option<StorageError>,
                   now: string, e: (int, int) -> real): Outcome
  {
    if !ValidIds(req) then Outcome([], Failed(400, InvalidIds))
    else
      match select
      case SelectFailed(err) => Outcome([], Failed(500, ServerError(err)))
      case Selected(rows) =>
        Settle(req.winnerId.value, req.loserId.value, EffectiveK(req.k),
               RowsById(rows.GetOr([])), upsertError, now, e)
  }

  /** `POST(req)`: the route handler, with the row map filled by its loop. */
  method Post(req: FightRequest, select: Selected, upsertError: Option<StorageError>,
              now: string, e: (int, int) -> real) returns (out: Outcome)
    ensures out == Respond(req, select, upsertError, now, e)
  {
    if !ValidIds(req) {
      return Outcome([], Failed(400, InvalidIds));
    }
    var K := EffectiveK(req.k);
    match select {
      case SelectFailed(err) =>
        out := Outcome([], Failed(500, ServerError(err)));
      case Selected(rows) =>
        var byId := FillRowMap(rows.GetOr([]));
        out := Settle(req.winnerId.value, req.loserId.value, K, byId, upsertError, now, e);
    }
  }

  // ----- What the route promises -----

  /** The id a row map holds under `id`, and the row, are those of the last row with that id. */
  lemma {:induction false} RowsByIdLast(rows: seq<StoredRow>, id: string)
    ensures id in RowsById(rows) <==> exists i :: 0 <= i < |rows| && rows[i].characterId == id
    ensures id in RowsById(rows) ==>
              exists i :: 0 <= i < |rows| && rows[i] == RowsById(rows)[id] && rows[i].characterId == id
                          && forall j :: i < j < |rows| ==> rows[j].characterId != id
  {
    if rows != [] {
      var init := rows[..|rows| - 1];
      RowsByIdLast(init, id);
      if rows[|rows| - 1].characterId != id && id in RowsById(init) {
        var i :| 0 <= i < |init| && init[i] == RowsById(init)[id] && init[i].characterId == id
                 && forall j :: i < j < |init| ==> init[j].characterId != id;
        assert rows[i] == init[i];
      }
      if id !in RowsById(rows) {
        forall i | 0 <= i < |rows| ensures rows[i].characterId != id {
          if i < |init| { assert rows[i] == init[i]; }
        }
      } else if rows[|rows| - 1].characterId != id {
        var i :| 0 <= i < |init| && init[i].characterId == id;
        assert rows[i] == init[i];
      }
    }
  }

  /** An id with no fetched row gets the default row, also when fewer than two rows come back. */
  lemma MissingRowIsDefault(rows: seq<StoredRow>, id: string)
    requires forall i :: 0 <= i < |rows| ==> rows[i].characterId != id
    ensures RatingOf(RowsById(rows), id) == Elo.DefaultRating
  {
    RowsByIdLast(rows, id);
  }

  /** Only the rows whose id is `id` decide what the map holds for `id`. */
  lemma {:induction false} RowsByIdIgnoresOthers(rows: seq<StoredRow>, ids: set<string>, id: string)
    requires id in ids
    ensures (id in RowsById(rows)) == (id in RowsById(Only(rows, ids)))
    ensures id in RowsById(rows) ==> RowsById(rows)[id] == RowsById(Only(rows, ids))[id]
  {
    if rows != [] {
      var init := rows[..|rows| - 1];
      var last := rows[|rows| - 1];
      RowsByIdIgnoresOthers(init, ids, id);
      assert rows == init + [last];
      OnlyAppend(init, last, ids);
    }
  }

  /** The rows whose id is in `ids`, in order. */
  function Only(rows: seq<StoredRow>, ids: set<string>): (kept: seq<StoredRow>)
    ensures |kept| <= |rows|
    ensures forall i :: 0 <= i < |kept| ==> kept[i].characterId in ids
  {
    if rows == [] then []
    else
      var init := Only(rows[..|rows| - 1], ids);
      if rows[|rows| - 1].characterId in ids then init + [rows[|rows| - 1]] else init
  }

  lemma OnlyAppend(rows: seq<StoredRow>, row: StoredRow, ids: set<string>)
    ensures Only(rows + [row], ids) == if row.characterId in ids then Only(rows, ids) + [row] else Only(rows, ids)
  {
    assert (rows + [row])[..|rows|] == rows;
  }

  /** Fetched rows of other characters do not change anything the route writes or answers. */
  lemma OtherRowsIgnored(req: FightRequest, rows: seq<StoredRow>, upsertError: Option<StorageError>,
                         now: string, e: (int, int) -> real)
    requires ValidIds(req)
    ensures var ids := {req.winnerId.value, req.loserId.value};
            Respond(req, Selected(Some(rows)), upsertError, now, e)
            == Respond(req, Selected(Some(Only(rows, ids))), upsertError, now, e)
  {
    var ids := {req.winnerId.value, req.loserId.value};
    RowsByIdIgnoresOthers(rows, ids, req.winnerId.value);
    RowsByIdIgnoresOthers(rows, ids, req.loserId.value);
    SettleReadsOnlyTheTwoRows(req.winnerId.value, req.loserId.value, EffectiveK(req.k),
                              RowsById(rows), RowsById(Only(rows, ids)), upsertError, now, e);
  }

  /** What the route does after the select depends on the two ids' effective rows only. */
  lemma SettleReadsOnlyTheTwoRows(winnerId: string, loserId: string, K: real,
                                  byId: map<string, StoredRow>, byId': map<string, StoredRow>,
                                  upsertError: Option<StorageError>, now: string, e: (int, int) -> real)
    requires RatingOf(byId, winnerId) == RatingOf(byId', winnerId)
    requires RatingOf(byId, loserId) == RatingOf(byId', loserId)
    ensures Settle(winnerId, loserId, K, byId, upsertError, now, e) == Settle(winnerId, loserId, K, byId', upsertError, now, e)
  {
  }

  /**
   * A missing, empty or repeated id is answered 400 without reading or writing
   * anything, whatever storage would have done; usable ids are never answered 400.
   */
  lemma BadIdsRejectedFirst(req: FightRequest, select: Selected, upsertError: Option<StorageError>,
                            now: string, e: (int, int) -> real)
    ensures var out := Respond(req, select, upsertError, now, e);
            (out.reply.Failed? && out.reply.status == 400) <==> !ValidIds(req)
    ensures !ValidIds(req) ==> Respond(req, select, upsertError, now, e) == Outcome([], Failed(400, InvalidIds))
  {
  }

  /**
   * On success the payload has the winner with one more win and the same losses
   * and the loser with the same wins and one more loss; the response records
   * are the payload rows without their timestamp, and carry the K used.
   */
  lemma PayloadMatchesReply(req: FightRequest, select: Selected, now: string, e: (int, int) -> real)
    requires ValidIds(req) && select.Selected?
    ensures var out := Respond(req, select, None, now, e);
            var rows := RowsById(select.rows.GetOr([]));
            var w := RatingOf(rows, req.winnerId.value);
            var l := RatingOf(rows, req.loserId.value);
            && out.reply.Rated?
            && |out.upserted| == 2
            && out.upserted[0] == PayloadRow(req.winnerId.value, out.reply.winner.rating, w.wins + 1, w.losses, now)
            && out.upserted[1] == PayloadRow(req.loserId.value, out.reply.loser.rating, l.wins, l.losses + 1, now)
            && out.reply.winner == Record(req.winnerId.value, out.upserted[0].rating, out.upserted[0].wins, out.upserted[0].losses)
            && out.reply.loser == Record(req.loserId.value, out.upserted[1].rating, out.upserted[1].wins, out.upserted[1].losses)
            && out.reply.k == EffectiveK(req.k)
  {
  }

  /** The route's inline formula is `applyElo`'s: the new rows are `Elo.Applied` of the effective rows. */
  lemma RouteAgreesWithApplyElo(req: FightRequest, select: Selected, now: string, e: (int, int) -> real)
    requires ValidIds(req) && select.Selected?
    ensures var out := Respond(req, select, None, now, e);
            var rows := RowsById(select.rows.GetOr([]));
            var (w, l) := Elo.Applied(RatingOf(rows, req.winnerId.value), RatingOf(rows, req.loserId.value),
                                      EffectiveK(req.k), e);
            && out.reply.Rated?
            && out.reply.winner == Record(req.winnerId.value, w.rating, w.wins, w.losses)
            && out.reply.loser == Record(req.loserId.value, l.rating, l.wins, l.losses)
  {
  }

  /** A first match between two ids with no rows, default K: 1016 with 1 win, 984 with 1 loss. */
  lemma FirstMatchExample(winnerId: string, loserId: string, rows: seq<StoredRow>, now: string, e: (int, int) -> real)
    requires winnerId != "" && loserId != "" && winnerId != loserId
    requires forall i :: 0 <= i < |rows| ==> rows[i].characterId != winnerId && rows[i].characterId != loserId
    requires Elo.IsExpectedScore(e)
    ensures Respond(FightRequest(Some(winnerId), Some(loserId), Json.Undefined), Selected(Some(rows)), None, now, e).reply
            == Rated(Record(winnerId, 1016, 1, 0), Record(loserId, 984, 0, 1), 32.0)
  {
    MissingRowIsDefault(rows, winnerId);
    MissingRowIsDefault(rows, loserId);
    Elo.NewcomersExample(e);
  }

  /** The rows the payload stores, read back as the next select would return them. */
  function AsStored(payload: seq<PayloadRow>): (rows: seq<StoredRow>)
    ensures |rows| == |payload|
    ensures forall i :: 0 <= i < |rows| ==> rows[i].characterId == payload[i].characterId
  {
    seq(|payload|, i requires 0 <= i < |payload| =>
      StoredRow(payload[i].characterId, payload[i].rating, payload[i].wins, payload[i].losses))
  }

  /**
   * Submitting the same decision again after it was stored counts it again:
   * the winner has two more wins and the loser two more losses than before.
   */
  lemma ReplayCountsTwice(req: FightRequest, rows: seq<StoredRow>, now: string, later: string, e: (int, int) -> real)
    requires ValidIds(req)
    ensures var first := Respond(req, Selected(Some(rows)), None, now, e);
            var second := Respond(req, Selected(Some(AsStored(first.upserted))), None, later, e);
            var before := RowsById(rows);
            && second.reply.Rated?
            && second.reply.winner.wins == RatingOf(before, req.winnerId.value).wins + 2
            && second.reply.loser.losses == RatingOf(before, req.loserId.value).losses + 2
  {
    var w, l := req.winnerId.value, req.loserId.value;
    var first := Respond(req, Selected(Some(rows)), None, now, e);
    var stored := AsStored(first.upserted);
    assert stored[..1][..0] == [];
    assert RowsById(stored[..1]) == map[w := stored[0]];
    assert stored[..|stored| - 1] == stored[..1];
    var again := RowsById(stored);
    assert again == map[w := stored[0]][l := stored[1]];
    assert RatingOf(again, w).wins == RatingOf(RowsById(rows), w).wins + 1;
    assert RatingOf(again, l).losses == RatingOf(RowsById(rows), l).losses + 1;
  }
}
