/**
 * `GET /api/quota`: how many submissions the caller made in the last 24
 * hours, how many are left, and the limit. The caller is keyed by the same
 * address chain as the submission route; the count query is an input.
 */
module QuotaRoute {
  import opened Wrappers
  import ClientIp
  import Api
  import CharactersRoute

  /** `SUBMISSION_LIMIT_PER_24H` of this route. */
  const Limit := 5

  /** 200 with `{ used, remaining, limit }`, or 500 with the error's message. */
  datatype Reply = Quota(used: int, remaining: int, limit: int) | Failed(status: int, error: string)

  /** The address the count was asked for, and the answer. */
  datatype Outcome = Outcome(countedIp: string, reply: Reply)

  /** The route as written, with its own limit of 5. */
  function Respond(headers: ClientIp.Headers, count: Result<Option<nat>, Api.StorageError>): Outcome
  {
    RespondWithLimit(headers, count, Limit)
  }

  /** The route's body for a given limit: `used = count ?? 0`, `remaining = max(0, limit - used)`. */
  function RespondWithLimit(headers: ClientIp.Headers, count: Result<Option<nat>, Api.StorageError>,
                            limit: int): Outcome
  {
    var ip := ClientIp.ClientIp(headers);
    match count
    case Err(err) => Outcome(ip, Failed(500, CharactersRoute.ErrorText(err)))
    case Ok(c) =>
      var used := c.GetOr(0);
      Outcome(ip, Quota(used, Api.Max(0, limit - used), limit))
  }

  /**
   * The route with the limit the submission route enforces (500), so that
   * the quota it reports is the one submissions are held to.
   */
  function RespondAgreeing(headers: ClientIp.Headers, count: Result<Option<nat>, Api.StorageError>): Outcome
  {
    RespondWithLimit(headers, count, CharactersRoute.Limit)
  }

  // ----- What the route promises -----

  /**
   * On a successful count: `used` is the count or 0 when it is null, the
   * limit is always 5, `remaining` lies in [0, 5], `used + remaining` is 5
   * when at most 5 were used and `remaining` is 0 otherwise.
   */
  lemma QuotaArithmetic(headers: ClientIp.Headers, count: Option<nat>)
    ensures var r := Respond(headers, Ok(count)).reply;
            && r.Quota?
            && r.used == count.GetOr(0)
            && r.limit == 5
            && 0 <= r.remaining <= 5
            && (r.used <= 5 ==> r.used + r.remaining == 5)
            && (r.used > 5 ==> r.remaining == 0)
  {
  }

  /** A failed count is answered with 500 and its message, or "Server error" when it has none. */
  lemma CountFailure(headers: ClientIp.Headers, err: Api.StorageError)
    ensures Respond(headers, Err(err)).reply == Failed(500, CharactersRoute.ErrorText(err))
    ensures err.message.Some? && err.message.value != "" ==>
              Respond(headers, Err(err)).reply.error == err.message.value
  {
  }

  /**
   * The quota is counted under the same address a submission with the same
   * headers is counted under, and an accepted submission is recorded under it.
   */
  lemma SameAddressAsSubmission(headers: ClientIp.Headers, safeName: string, base64: string, id: string,
                                st: CharactersRoute.Storage, count: Result<Option<nat>, Api.StorageError>)
    ensures var ip := Respond(headers, count).countedIp;
            var sub := CharactersRoute.Submit(safeName, base64, ClientIp.ClientIp(headers), id, st);
            && sub.effects[0] == CharactersRoute.CountSubmissions(ip)
            && (sub.reply.Created? ==> sub.effects[|sub.effects| - 1] == CharactersRoute.InsertSubmission(ip, id))
  {
  }

  /**
   * As written, the two routes disagree: after 5 submissions the quota says
   * none is left while the submission route, past validation, still accepts
   * the sixth.
   */
  lemma QuotaDisagreesWithSubmission(headers: ClientIp.Headers, safeName: string, base64: string, id: string,
                                     st: CharactersRoute.Storage)
    requires st.count == Ok(Some(5)) && st.uploadError.None? && st.insertError.None? && st.ratingError.None?
    ensures Respond(headers, st.count).reply == Quota(5, 0, 5)
    ensures CharactersRoute.Submit(safeName, base64, ClientIp.ClientIp(headers), id, st).reply
            == CharactersRoute.Created(id, safeName, st.publicUrl, 494)
  {
  }

  /**
   * With the submission route's limit, the quota and the submission route
   * agree: for a validated submission whose writes succeed, some submission
   * is left exactly when the submission route accepts, and the quota left
   * after it is the one the submission route answers.
   */
  lemma QuotaAgreesWithSubmission(headers: ClientIp.Headers, safeName: string, base64: string, id: string,
                                  st: CharactersRoute.Storage)
    requires st.count.Ok?
    requires st.uploadError.None? && st.insertError.None? && st.ratingError.None?
    ensures var q := RespondAgreeing(headers, st.count).reply;
            var s := CharactersRoute.Submit(safeName, base64, ClientIp.ClientIp(headers), id, st).reply;
            && (q.remaining > 0 <==> s.Created?)
            && (s.Created? ==> s.remaining == q.remaining - 1)
            && q.limit == CharactersRoute.Limit
  {
  }
}
