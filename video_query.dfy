/**
 * The values the video-listing controller works with: the store's video slice,
 * the query record sent to the video API, and the requests the controller dispatches.
 */
module VideoQuery {
  import opened Wrappers

  /** A video as the listing holds it; only its `_id` key is ever looked at. */
  datatype Video = Video(id: string)

  /** The store's fetch-completion marker: compared for inequality, never interpreted. */
  datatype Token = Token(stamp: int)

  /** The `video` slice of the shared store, as the page receives it in its props. */
  datatype VideoList = VideoList(videos: seq<Video>, totalCount: int, token: Token)

  /** Instants are whole seconds since the Unix epoch, in UTC. */
  const SecondsPerDay: int := 86400

  /** The instant `days` whole UTC days before `now`. */
  function DaysBefore(now: int, days: int): int
  {
    now - days * SecondsPerDay
  }

  /** The query record the controller mutates in place and hands to the video API. */
  datatype Query = Query(
    sort: string,
    order: string,
    keyword: string,
    page: int,
    count: int,
    startTime: int,
    endTime: Option<int>)

  const DefaultSort: string := "randomNumber"
  const DefaultOrder: string := "desc"
  const DefaultPage: int := 1
  const DefaultCount: int := 30

  /** The query fixed when the page module is loaded at instant `loadTime`. */
  function DefaultQuery(loadTime: int): Query
  {
    Query(DefaultSort, DefaultOrder, "", DefaultPage, DefaultCount, DaysBefore(loadTime, 1), None)
  }

  /** The scroll handler's exhaustion test, with its `count + 1` exactly as written. */
  predicate Exhausted(q: Query, totalCount: int)
  {
    q.page * (q.count + 1) > totalCount
  }

  /**
   * One `getVideosAsync` dispatch: either the current list is passed so that the
   * next page is appended to it, or the empty list is passed so that the result
   * replaces it. The query is the snapshot taken at the moment of the dispatch.
   */
  datatype Request = Append(existing: seq<Video>, query: Query) | Replace(query: Query)

  /** The shape every dispatched query keeps: fixed order, count and end time. */
  predicate WellFormed(r: Request)
  {
    && r.query.order == DefaultOrder
    && r.query.count == DefaultCount
    && r.query.endTime == None
    && (r.Replace? ==> r.query.page == 1)
    && (r.Append? ==> r.query.page >= 2)
  }

  /** The number of appending requests dispatched after the last replacing one. */
  function AppendsSinceReset(log: seq<Request>): nat
  {
    if log == [] then 0
    else if log[|log| - 1].Replace? then 0
    else 1 + AppendsSinceReset(log[..|log| - 1])
  }

  lemma AppendsSinceResetStep(log: seq<Request>, r: Request)
    ensures AppendsSinceReset(log + [r]) == if r.Replace? then 0 else 1 + AppendsSinceReset(log)
  {
    assert (log + [r])[..|log|] == log;
  }

  /**
   * When the latch trips at a page no larger than `count + 1`, the one final page
   * the handler still fetches reaches `totalCount`: at most `count` videos remain
   * beyond the first `page` full pages.
   */
  lemma FinalFetchCoversRest(q: Query, totalCount: int)
    requires q.count >= 0
    requires 1 <= q.page <= q.count + 1
    requires Exhausted(q, totalCount)
    ensures totalCount <= (q.page + 1) * q.count
  {
    // totalCount < page * count + page <= page * count + count + 1
  }

  /**
   * The bound above is tight: at page `count + 2` there is a total count that
   * trips the latch for the first time while more than one page of videos
   * remains, so the last of them are never requested.
   */
  lemma ExhaustionCanStrandVideos(q: Query)
    requires q.count >= 0
    requires q.page == q.count + 2
    ensures var totalCount := q.page * (q.count + 1) - 1;
      && Exhausted(q, totalCount)
      && !Exhausted(q.(page := q.page - 1), totalCount)
      && totalCount > (q.page + 1) * q.count
  {
    // with total = page * (count + 1) - 1, one page before is total - count and one page after is total - 1
  }
}
