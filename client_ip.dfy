/**
 * The client address both the submission route and the quota route key their
 * daily count on: the first entry of `x-forwarded-for`, then `x-real-ip`, then
 * the address the server saw, then "unknown".
 */
module ClientIp {
  import opened Wrappers
  import opened JsString

  /** The request headers and the platform-reported address; `None` is a header that is not sent. */
  datatype Headers = Headers(forwardedFor: Option<string>, realIp: Option<string>, requestIp: Option<string>)

  /** `xff?.split(",")[0].trim()`, with a missing header giving the falsy "". */
  function FirstForwarded(forwardedFor: Option<string>): (first: string)
    ensures ',' !in first
    ensures first == [] || (!IsWhitespace(first[0]) && !IsWhitespace(first[|first| - 1]))
    ensures forwardedFor.None? ==> first == ""
    ensures forwardedFor.Some? && ',' !in forwardedFor.value ==> first == Trim(forwardedFor.value)
    ensures forwardedFor.Some? && ',' in forwardedFor.value ==>
              first == Trim(forwardedFor.value[..IndexOf(forwardedFor.value, ',')])
  {
    match forwardedFor
    case None => ""
    case Some(xff) =>
      FirstPiece(xff);
      var piece := Split(xff, ',')[0];
      assert ',' !in piece;
      assert forall i :: 0 <= i < |Trim(piece)| ==> Trim(piece)[i] == piece[LeadingSpace(piece) + i];
      Trim(piece)
  }

  /** `split(",")[0]` is the text before the first comma, or the whole text when there is none. */
  lemma FirstPiece(xff: string)
    ensures Split(xff, ',')[0] == if ',' in xff then xff[..IndexOf(xff, ',')] else xff
  {
    assert xff[..|xff|] == xff;
    var comma := if ',' in xff then IndexOf(xff, ',') else |xff|;
    SplitFirst(xff, ',', comma);
  }

  /** A JavaScript string is truthy when it is not empty. */
  predicate Truthy(s: Option<string>)
  {
    s.Some? && s.value != ""
  }

  /** The `||` chain: the first truthy candidate, or "unknown". */
  function ClientIp(h: Headers): (ip: string)
    ensures ip != ""
    ensures FirstForwarded(h.forwardedFor) != "" ==> ip == FirstForwarded(h.forwardedFor)
    ensures FirstForwarded(h.forwardedFor) == "" && Truthy(h.realIp) ==> ip == h.realIp.value
    ensures FirstForwarded(h.forwardedFor) == "" && !Truthy(h.realIp) && Truthy(h.requestIp) ==> ip == h.requestIp.value
    ensures ip == "unknown" || ip == FirstForwarded(h.forwardedFor) || (h.realIp.Some? && ip == h.realIp.value)
            || (h.requestIp.Some? && ip == h.requestIp.value)
  {
    var first := FirstForwarded(h.forwardedFor);
    if first != "" then first
    else if Truthy(h.realIp) then h.realIp.value
    else if Truthy(h.requestIp) then h.requestIp.value
    else "unknown"
  }

  /** With `x-forwarded-for: <entry>,<rest>` the address is the trimmed first entry, whatever follows. */
  lemma ForwardedForFirstEntry(entry: string, rest: string, realIp: Option<string>, requestIp: Option<string>)
    requires ',' !in entry && !IsBlank(entry)
    ensures ClientIp(Headers(Some(entry + [','] + rest), realIp, requestIp)) == Trim(entry)
  {
    var xff := entry + [','] + rest;
    assert xff[..|entry|] == entry;
    SplitFirst(xff, ',', |entry|);
    TrimEmptyIffBlank(entry);
  }

  /** A blank first entry of `x-forwarded-for` falls through to `x-real-ip`. */
  lemma BlankForwardedFallsThrough(entry: string, realIp: string, requestIp: Option<string>)
    requires ',' !in entry && IsBlank(entry) && realIp != ""
    ensures ClientIp(Headers(Some(entry), Some(realIp), requestIp)) == realIp
  {
    SplitFirst(entry, ',', |entry|);
    assert entry[..|entry|] == entry;
    TrimEmptyIffBlank(entry);
  }

  /** Only when no candidate is truthy is the address "unknown". */
  lemma UnknownWhenNothingSent(h: Headers)
    requires h.forwardedFor.None? && !Truthy(h.realIp) && !Truthy(h.requestIp)
    ensures ClientIp(h) == "unknown"
  {
  }
}
