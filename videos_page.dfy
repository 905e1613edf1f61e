/**
 * The `Videos` page component's controller as the object it is: fields that
 * its handlers update in place, and a ghost log of every `getVideosAsync`
 * dispatch. Each handler is proved to take the fields exactly where the
 * matching transition of the Controller module takes the state.
 */
module VideosPage {
  import opened Wrappers
  import opened VideoQuery
  import Controller

  class Videos {
    var query: Query
    var toDatasLimit: bool
    /** `this.state.isLoading` */
    var isLoading: bool
    var daysAgo: int
    /** The keyword the pending debounce timer will apply; None when no timer is pending. */
    var searchKeyword: Option<string>
    /** `this.props.video` */
    var video: VideoList
    /** React's own record that the component is mounted; cleared by teardown. */
    var mounted: bool
    /** Every request dispatched so far, oldest first. */
    ghost var requests: seq<Request>

    ghost function State(): Controller.State
      reads this
    {
      Controller.State(query, toDatasLimit, isLoading, daysAgo, searchKeyword, video, mounted)
    }

    /**
     * The object invariant: the query keeps its fixed fields, every dispatch
     * was well formed, and the page cursor is one more than the number of
     * appends dispatched since the last replacing fetch.
     */
    ghost predicate Valid()
      reads this
    {
      && Controller.Inv(State())
      && (forall i :: 0 <= i < |requests| ==> WellFormed(requests[i]))
      && query.page == 1 + AppendsSinceReset(requests)
    }

    /**
     * Built from the first props and mounted; `loadTime` is the instant the
     * default query was fixed.
     */
    constructor (initialVideo: VideoList, loadTime: int)
      ensures Valid()
      ensures State() == Controller.Init(initialVideo, loadTime)
      ensures requests == []
    {
      isLoading := false;
      daysAgo := Controller.DefaultDaysAgo;
      toDatasLimit := false;
      query := DefaultQuery(loadTime);
      searchKeyword := None;
      video := initialVideo;
      mounted := true;
      requests := [];
    }

    /** The `getVideosAsync` dispatch, recorded in the log with a snapshot of the query. */
    method GetVideosAsync(r: Request)
      requires Controller.Inv(State())
      requires forall i :: 0 <= i < |requests| ==> WellFormed(requests[i])
      requires WellFormed(r) && r.query == query
      requires query.page == 1 + (if r.Replace? then 0 else 1 + AppendsSinceReset(requests))
      modifies this`requests
      ensures requests == old(requests) + [r]
      ensures Valid()
    {
      AppendsSinceResetStep(requests, r);
      requests := requests + [r];
    }

    method ScrollHandler(scrollTop: int, windowHeight: int, realHeight: int)
      requires Valid()
      modifies this
      ensures Valid()
      ensures State() == Controller.ScrollHandler(old(State()), scrollTop, windowHeight, realHeight).next
      ensures requests ==
        old(requests) + Controller.Issued(Controller.ScrollHandler(old(State()), scrollTop, windowHeight, realHeight))
    {
      ghost var s := State();
      if scrollTop + windowHeight < realHeight || toDatasLimit || isLoading {
        return;
      }
      var exhausted := query.page * (query.count + 1) > video.totalCount;
      assert exhausted == Exhausted(s.query, s.video.totalCount);
      if exhausted {
        toDatasLimit := true;
        if |video.videos| == video.totalCount {
          return;
        }
      }
      query := query.(page := query.page + 1);
      GetVideosAsync(Append(video.videos, query));
      if mounted { isLoading := true; }
      assert State() == Controller.SetLoading(s.(query := query, toDatasLimit := exhausted), true);
    }

    /** A keystroke: the pending keyword, if any, is cancelled and replaced. */
    method ChangeKeyword(keyword: string)
      requires Valid()
      modifies this
      ensures Valid()
      ensures State() == Controller.ChangeKeyword(old(State()), keyword).next
      ensures requests == old(requests)
    {
      searchKeyword := Some(keyword);
    }

    /** The debounce timer's callback. */
    method FireKeywordTimer()
      requires Valid()
      modifies this
      ensures Valid()
      ensures State() == Controller.FireKeywordTimer(old(State())).next
      ensures requests == old(requests) + Controller.Issued(Controller.FireKeywordTimer(old(State())))
    {
      match searchKeyword
      case None =>
      case Some(k) =>
        searchKeyword := None;
        query := query.(page := 1);
        toDatasLimit := false;
        query := query.(keyword := k);
        GetVideosAsync(Replace(query));
        if mounted { isLoading := true; }
    }

    method ChangeOrder(sort: string)
      requires Valid()
      modifies this
      ensures Valid()
      ensures State() == Controller.ChangeOrder(old(State()), sort).next
      ensures requests == old(requests) + Controller.Issued(Controller.ChangeOrder(old(State()), sort))
    {
      query := query.(page := 1);
      toDatasLimit := false;
      query := query.(sort := sort);
      GetVideosAsync(Replace(query));
      if mounted { isLoading := true; }
    }

    /** A time window of `days` days is selected at instant `now`. */
    method ChangeQuery(days: int, now: int)
      requires Valid()
      modifies this
      ensures Valid()
      ensures State() == Controller.ChangeQuery(old(State()), days, now).next
      ensures requests == old(requests) + Controller.Issued(Controller.ChangeQuery(old(State()), days, now))
    {
      query := query.(page := 1);
      toDatasLimit := false;
      daysAgo := days;
      query := query.(startTime := DaysBefore(now, days));
      GetVideosAsync(Replace(query));
      if mounted { isLoading := true; }
    }

    /** New props arrive; React then makes `newVideo` the page's props. None arrive after teardown. */
    method ReceiveProps(newVideo: VideoList)
      requires Valid()
      modifies this
      ensures Valid()
      ensures State() == Controller.ReceiveProps(old(State()), newVideo).next
      ensures requests == old(requests)
    {
      if !mounted {
        return;
      }
      if newVideo.token != video.token {
        isLoading := false;
      }
      video := newVideo;
    }

    /** Teardown: cancels the pending keyword; the scroll listener stays attached. */
    method Unmount()
      requires Valid()
      modifies this
      ensures Valid()
      ensures State() == Controller.Unmount(old(State())).next
      ensures requests == old(requests)
    {
      searchKeyword := None;
      mounted := false;
    }
  }
}
