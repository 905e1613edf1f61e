/**
 * The pagination and filter controller of the video-listing page, as a state
 * machine: one transition function per handler of the page component, a
 * function running a trace of events, and the properties of both.
 */
module Controller {
  import opened Wrappers
  import opened VideoQuery

  /**
   * The controller's fields: the query record, the exhaustion latch
   * `toDatasLimit`, the loading flag, the selected time window, the keyword of
   * the pending debounce timer (None when no timer is pending), the video
   * slice of the props the page currently holds, and whether the component is
   * still mounted (React drops `setState` and delivers no props after teardown).
   */
  datatype State = State(
    query: Query,
    toDatasLimit: bool,
    isLoading: bool,
    daysAgo: int,
    pending: Option<string>,
    video: VideoList,
    mounted: bool)

  /** The time window selected when the page is built. */
  const DefaultDaysAgo: int := 7

  /** The state the constructor builds from the first props, once the page is mounted. */
  function Init(video: VideoList, loadTime: int): State
  {
    State(DefaultQuery(loadTime), false, false, DefaultDaysAgo, None, video, true)
  }

  /** `setState({ isLoading: v })`: takes effect on a mounted component and is dropped after teardown. */
  function SetLoading(s: State, v: bool): State
  {
    if s.mounted then s.(isLoading := v) else s
  }

  /** What a handler leaves behind: the new state and the request it dispatched, if any. */
  datatype Step = Step(next: State, issued: Option<Request>)

  function Issued(st: Step): seq<Request>
  {
    if st.issued.Some? then [st.issued.value] else []
  }

  /** The bottom edge of the viewport has reached the bottom of the document. */
  predicate AtBottom(scrollTop: int, windowHeight: int, realHeight: int)
  {
    scrollTop + windowHeight >= realHeight
  }

  /** The scroll handler. */
  function ScrollHandler(s: State, scrollTop: int, windowHeight: int, realHeight: int): Step
  {
    if !AtBottom(scrollTop, windowHeight, realHeight) || s.toDatasLimit || s.isLoading then
      Step(s, None)
    else if Exhausted(s.query, s.video.totalCount) && |s.video.videos| == s.video.totalCount then
      Step(s.(toDatasLimit := true), None)
    else
      // the latch is clear here, so it ends up set exactly when the test tripped
      var q := s.query.(page := s.query.page + 1);
      Step(SetLoading(s.(query := q, toDatasLimit := Exhausted(s.query, s.video.totalCount)), true),
           Some(Append(s.video.videos, q)))
  }

  /** What the three filter changes share: back to page 1, latch cleared, replacing fetch. */
  function Refetch(s: State, q: Query): Step
  {
    var q1 := q.(page := 1);
    Step(SetLoading(s.(query := q1, toDatasLimit := false), true), Some(Replace(q1)))
  }

  /** A keystroke in the keyword input: the pending timer, if any, is replaced by one for `keyword`. */
  function ChangeKeyword(s: State, keyword: string): Step
  {
    Step(s.(pending := Some(keyword)), None)
  }

  /** The debounce timer fires with the keyword it was scheduled for. */
  function FireKeywordTimer(s: State): Step
  {
    match s.pending
    case None => Step(s, None)
    case Some(k) => Refetch(s.(pending := None), s.query.(keyword := k))
  }

  /** A new sort order is selected. */
  function ChangeOrder(s: State, sort: string): Step
  {
    Refetch(s, s.query.(sort := sort))
  }

  /** A new time window of `days` days is selected at instant `now`. */
  function ChangeQuery(s: State, days: int, now: int): Step
  {
    Refetch(s.(daysAgo := days), s.query.(startTime := DaysBefore(now, days)))
  }

  /** New props arrive; the page then holds `video` as its props. After teardown none arrive. */
  function ReceiveProps(s: State, video: VideoList): Step
  {
    if !s.mounted then Step(s, None)
    else
      var loading := if video.token != s.video.token then false else s.isLoading;
      Step(s.(isLoading := loading, video := video), None)
  }

  /**
   * The page is torn down: the pending keyword timer is cancelled. The scroll
   * listener is not removed, so scroll events keep reaching the handler.
   */
  function Unmount(s: State): Step
  {
    Step(s.(pending := None, mounted := false), None)
  }

  /** The events the page reacts to. */
  datatype Event =
    | Scroll(scrollTop: int, windowHeight: int, realHeight: int)
    | Keystroke(keyword: string)
    | TimerFires
    | OrderSelected(sort: string)
    | WindowSelected(days: int, now: int)
    | PropsArrive(newVideo: VideoList)
    | Teardown

  function Next(s: State, e: Event): Step
  {
    match e
    case Scroll(t, w, h) => ScrollHandler(s, t, w, h)
    case Keystroke(k) => ChangeKeyword(s, k)
    case TimerFires => FireKeywordTimer(s)
    case OrderSelected(sort) => ChangeOrder(s, sort)
    case WindowSelected(days, now) => ChangeQuery(s, days, now)
    case PropsArrive(v) => ReceiveProps(s, v)
    case Teardown => Unmount(s)
  }

  /** The state after a trace of events, and the requests dispatched along it, in order. */
  datatype Trace = Trace(final: State, requests: seq<Request>)

  function Run(s: State, evs: seq<Event>): Trace
    decreases |evs|
  {
    if evs == [] then Trace(s, [])
    else
      var st := Next(s, evs[0]);
      var rest := Run(st.next, evs[1..]);
      Trace(rest.final, Issued(st) + rest.requests)
  }

  /** The events that clear the exhaustion latch. */
  predicate IsFilterChange(e: Event)
  {
    e.TimerFires? || e.OrderSelected? || e.WindowSelected?
  }

  function Keystrokes(keys: seq<string>): seq<Event>
  {
    if keys == [] then [] else [Keystroke(keys[0])] + Keystrokes(keys[1..])
  }

  /** What every reachable state keeps. */
  predicate Inv(s: State)
  {
    && s.query.page >= 1
    && s.query.order == DefaultOrder
    && s.query.count == DefaultCount
    && s.query.endTime == None
  }

  // ---------------------------------------------------------------------------
  // Initial state

  lemma InitialState(video: VideoList, loadTime: int)
    ensures var s := Init(video, loadTime);
      && s.query.sort == "randomNumber" && s.query.order == "desc" && s.query.keyword == ""
      && s.query.page == 1 && s.query.count == 30
      && s.query.startTime == loadTime - SecondsPerDay && s.query.endTime == None
      && !s.toDatasLimit && !s.isLoading && s.daysAgo == 7 && s.pending == None
      && s.video == video && s.mounted
      && Inv(s)
  {
  }

  // ---------------------------------------------------------------------------
  // The scroll handler, case by case

  lemma ScrollIgnoredUnlessReady(s: State, scrollTop: int, windowHeight: int, realHeight: int)
    requires scrollTop + windowHeight < realHeight || s.toDatasLimit || s.isLoading
    ensures ScrollHandler(s, scrollTop, windowHeight, realHeight) == Step(s, None)
  {
  }

  lemma ScrollAtLimit(s: State, scrollTop: int, windowHeight: int, realHeight: int)
    requires AtBottom(scrollTop, windowHeight, realHeight) && !s.toDatasLimit && !s.isLoading
    requires s.query.page * (s.query.count + 1) > s.video.totalCount
    ensures ScrollHandler(s, scrollTop, windowHeight, realHeight).next.toDatasLimit
    ensures |s.video.videos| == s.video.totalCount ==>
      ScrollHandler(s, scrollTop, windowHeight, realHeight) == Step(s.(toDatasLimit := true), None)
  {
  }

  lemma ScrollFetchesNextPage(s: State, scrollTop: int, windowHeight: int, realHeight: int)
    requires AtBottom(scrollTop, windowHeight, realHeight) && !s.toDatasLimit && !s.isLoading
    requires !(Exhausted(s.query, s.video.totalCount) && |s.video.videos| == s.video.totalCount)
    ensures var st := ScrollHandler(s, scrollTop, windowHeight, realHeight);
      && st.next.query == s.query.(page := s.query.page + 1)
      && st.issued == Some(Append(s.video.videos, st.next.query))
      && st.next.isLoading == s.mounted
      && st.next.toDatasLimit == (s.query.page * (s.query.count + 1) > s.video.totalCount)
      && st.next.daysAgo == s.daysAgo && st.next.pending == s.pending && st.next.video == s.video
      && st.next.mounted == s.mounted
  {
  }

  // ---------------------------------------------------------------------------
  // The filter changes

  lemma ChangeOrderResets(s: State, sort: string)
    ensures var st := ChangeOrder(s, sort);
      && st.next == s.(query := s.query.(page := 1, sort := sort), toDatasLimit := false,
                       isLoading := s.isLoading || s.mounted)
      && st.issued == Some(Replace(st.next.query))
  {
  }

  lemma ChangeQueryResets(s: State, days: int, now: int)
    ensures var st := ChangeQuery(s, days, now);
      && st.next == s.(query := s.query.(page := 1, startTime := now - days * SecondsPerDay),
                       toDatasLimit := false, isLoading := s.isLoading || s.mounted, daysAgo := days)
      && st.issued == Some(Replace(st.next.query))
  {
  }

  lemma TimerFireResets(s: State)
    ensures s.pending.Some? ==>
      var st := FireKeywordTimer(s);
      && st.next == s.(query := s.query.(page := 1, keyword := s.pending.value),
                       toDatasLimit := false, isLoading := s.isLoading || s.mounted, pending := None)
      && st.issued == Some(Replace(st.next.query))
    ensures s.pending.None? ==> FireKeywordTimer(s) == Step(s, None)
  {
  }

  /** Only a filter change clears the latch, and every one that dispatches clears it. */
  lemma LatchClearedOnlyByFilterChange(s: State, e: Event)
    ensures s.toDatasLimit && !Next(s, e).next.toDatasLimit ==> IsFilterChange(e)
    ensures IsFilterChange(e) && Next(s, e).issued.Some? ==> !Next(s, e).next.toDatasLimit
  {
  }

  /** Scrolls append the list the page holds; every other dispatch replaces it. */
  lemma AppendOnlyOnScroll(s: State, e: Event)
    ensures Next(s, e).issued.Some? && Next(s, e).issued.value.Append? ==>
      e.Scroll? && Next(s, e).issued.value.existing == s.video.videos
    ensures Next(s, e).issued.Some? && !e.Scroll? ==> Next(s, e).issued.value.Replace?
  {
  }

  lemma UnmountCancelsPendingKeyword(s: State)
    ensures Run(s, [Teardown, TimerFires]).requests == []
  {
    assert [Teardown, TimerFires][1..] == [TimerFires];
  }

  // ---------------------------------------------------------------------------
  // The loading flag

  /**
   * The loading flag after any event: on a mounted page it is set when a
   * request is dispatched and cleared when the props arrive with a different
   * token, otherwise kept; after teardown it never changes.
   */
  lemma LoadingLifecycle(s: State, e: Event)
    ensures Next(s, e).next.isLoading <==>
      (s.mounted && Next(s, e).issued.Some?) ||
      (s.isLoading && !(s.mounted && e.PropsArrive? && e.newVideo.token != s.video.token))
    ensures !s.mounted ==> Next(s, e).next.isLoading == s.isLoading
    ensures e.PropsArrive? ==> Next(s, e).issued == None
  {
  }

  // ---------------------------------------------------------------------------
  // Properties of traces

  lemma {:induction false} RunConcat(s: State, a: seq<Event>, b: seq<Event>)
    ensures var ra := Run(s, a); var rb := Run(ra.final, b);
      Run(s, a + b) == Trace(rb.final, ra.requests + rb.requests)
    decreases |a|
  {
    if a == [] {
      assert a + b == b;
    } else {
      assert (a + b)[0] == a[0];
      assert (a + b)[1..] == a[1..] + b;
      RunConcat(Next(s, a[0]).next, a[1..], b);
    }
  }

  /** Each event dispatches at most one request. */
  lemma {:induction false} AtMostOneRequestPerEvent(s: State, evs: seq<Event>)
    ensures |Run(s, evs).requests| <= |evs|
    decreases |evs|
  {
    if evs != [] {
      AtMostOneRequestPerEvent(Next(s, evs[0]).next, evs[1..]);
    }
  }

  lemma StepPreservesInv(s: State, e: Event)
    requires Inv(s)
    ensures Inv(Next(s, e).next)
    ensures Next(s, e).issued.Some? ==> WellFormed(Next(s, e).issued.value)
  {
  }

  /** Every reachable state keeps Inv, and every request dispatched is well formed. */
  lemma {:induction false} RunPreservesInv(s: State, evs: seq<Event>)
    requires Inv(s)
    ensures Inv(Run(s, evs).final)
    ensures forall i :: 0 <= i < |Run(s, evs).requests| ==> WellFormed(Run(s, evs).requests[i])
    decreases |evs|
  {
    if evs != [] {
      var st := Next(s, evs[0]);
      StepPreservesInv(s, evs[0]);
      RunPreservesInv(st.next, evs[1..]);
      var rest := Run(st.next, evs[1..]);
      forall i | 0 <= i < |Run(s, evs).requests|
        ensures WellFormed(Run(s, evs).requests[i])
      {
        if i >= |Issued(st)| {
          assert Run(s, evs).requests[i] == rest.requests[i - |Issued(st)|];
        }
      }
    }
  }

  /**
   * The page cursor counts the appending requests: after any trace it is one
   * more than the number of appends dispatched since the last replacing fetch.
   */
  lemma StepTracksAppends(s: State, e: Event, log: seq<Request>)
    requires s.query.page == 1 + AppendsSinceReset(log)
    ensures Next(s, e).next.query.page == 1 + AppendsSinceReset(log + Issued(Next(s, e)))
  {
    var st := Next(s, e);
    if st.issued.Some? {
      AppendsSinceResetStep(log, st.issued.value);
    } else {
      assert log + Issued(st) == log;
    }
  }

  lemma {:induction false} PageTracksAppends(s: State, evs: seq<Event>, log: seq<Request>)
    requires s.query.page == 1 + AppendsSinceReset(log)
    ensures Run(s, evs).final.query.page == 1 + AppendsSinceReset(log + Run(s, evs).requests)
    decreases |evs|
  {
    if evs == [] {
      assert log + [] == log;
    } else {
      var st := Next(s, evs[0]);
      var log1 := log + Issued(st);
      StepTracksAppends(s, evs[0], log);
      PageTracksAppends(st.next, evs[1..], log1);
      var rest := Run(st.next, evs[1..]);
      assert Run(s, evs).requests == Issued(st) + rest.requests;
      assert log1 + rest.requests == log + Run(s, evs).requests;
    }
  }

  /**
   * Once the latch is set, scrolls, keystrokes, props and teardown dispatch
   * nothing, however many of them come, and the latch stays set.
   */
  lemma {:induction false} LatchedScrollsIssueNothing(s: State, evs: seq<Event>)
    requires s.toDatasLimit
    requires forall i :: 0 <= i < |evs| ==> !IsFilterChange(evs[i])
    ensures Run(s, evs).requests == []
    ensures Run(s, evs).final.toDatasLimit
    decreases |evs|
  {
    if evs != [] {
      LatchedScrollsIssueNothing(Next(s, evs[0]).next, evs[1..]);
    }
  }

  /**
   * While a fetch is outstanding (no props with a new token arrive), the page
   * stays loading and no scroll appends: only filter changes dispatch, and they
   * replace.
   */
  lemma {:induction false} LoadingBlocksAppends(s: State, evs: seq<Event>)
    requires s.isLoading
    requires forall i :: 0 <= i < |evs| && evs[i].PropsArrive? ==> evs[i].newVideo.token == s.video.token
    ensures Run(s, evs).final.isLoading
    ensures forall i :: 0 <= i < |Run(s, evs).requests| ==> Run(s, evs).requests[i].Replace?
    decreases |evs|
  {
    if evs != [] {
      var st := Next(s, evs[0]);
      assert st.next.video.token == s.video.token;
      LoadingBlocksAppends(st.next, evs[1..]);
      var rest := Run(st.next, evs[1..]);
      forall i | 0 <= i < |Run(s, evs).requests|
        ensures Run(s, evs).requests[i].Replace?
      {
        if i >= |Issued(st)| {
          assert Run(s, evs).requests[i] == rest.requests[i - |Issued(st)|];
        }
      }
    }
  }

  /**
   * After teardown the component never comes back, and neither its loading
   * flag nor its props change again, whatever events follow.
   */
  lemma {:induction false} TeardownFreezesLoading(s: State, evs: seq<Event>)
    requires !s.mounted
    ensures !Run(s, evs).final.mounted
    ensures Run(s, evs).final.isLoading == s.isLoading
    ensures Run(s, evs).final.video == s.video
    decreases |evs|
  {
    if evs != [] {
      TeardownFreezesLoading(Next(s, evs[0]).next, evs[1..]);
    }
  }

  lemma {:induction false} KeystrokesOnlyDefer(s: State, keys: seq<string>)
    requires |keys| > 0
    ensures Run(s, Keystrokes(keys)) == Trace(s.(pending := Some(keys[|keys| - 1])), [])
    decreases |keys|
  {
    var evs := Keystrokes(keys);
    assert evs[0] == Keystroke(keys[0]) && evs[1..] == Keystrokes(keys[1..]);
    if |keys| == 1 {
      assert Keystrokes(keys[1..]) == [];
    } else {
      KeystrokesOnlyDefer(s.(pending := Some(keys[0])), keys[1..]);
    }
  }

  /**
   * Any number of keystrokes followed by one timer firing dispatch exactly one
   * request: a replacing fetch of page 1 for the last keyword typed.
   */
  lemma KeystrokesCoalesce(s: State, keys: seq<string>)
    requires |keys| > 0
    ensures var t := Run(s, Keystrokes(keys) + [TimerFires]);
      && t.requests == [Replace(t.final.query)]
      && t.final.query == s.query.(page := 1, keyword := keys[|keys| - 1])
      && !t.final.toDatasLimit && t.final.isLoading == (s.isLoading || s.mounted)
      && t.final.pending == None
  {
    RunConcat(s, Keystrokes(keys), [TimerFires]);
    KeystrokesOnlyDefer(s, keys);
    assert [TimerFires][1..] == [];
  }

  // ---------------------------------------------------------------------------
  // Two traces with concrete numbers

  /**
   * Thirty videos of thirty-five: the first scroll fetches page 2 (1 * 31 is not
   * above 35); once all 35 are held, the next scroll sets the latch without a
   * request (2 * 31 is above 35) and later scrolls do nothing.
   */
  lemma ThirtyFiveVideosExample(loadTime: int, first: seq<Video>, more: seq<Video>, t0: Token, t1: Token)
    requires |first| == 30 && |more| == 5 && t0 != t1
    ensures var t := Run(Init(VideoList(first, 35, t0), loadTime),
                         [Scroll(0, 900, 900), PropsArrive(VideoList(first + more, 35, t1)),
                          Scroll(0, 900, 900), Scroll(0, 900, 900)]);
      && t.requests == [Append(first, DefaultQuery(loadTime).(page := 2))]
      && t.final.toDatasLimit && !t.final.isLoading && t.final.query.page == 2
  {
    var s0 := Init(VideoList(first, 35, t0), loadTime);
    var bottom := Scroll(0, 900, 900);
    var arrive := PropsArrive(VideoList(first + more, 35, t1));
    var st1 := Next(s0, bottom);
    assert !Exhausted(s0.query, 35);
    assert st1 == Step(s0.(query := DefaultQuery(loadTime).(page := 2), isLoading := true),
                       Some(Append(first, DefaultQuery(loadTime).(page := 2))));
    var st2 := Next(st1.next, arrive);
    assert !st2.next.isLoading && |st2.next.video.videos| == 35;
    var st3 := Next(st2.next, bottom);
    assert st3 == Step(st2.next.(toDatasLimit := true), None);
    assert Run(st3.next, [bottom]) == Trace(st3.next, []);
    assert [bottom, bottom][1..] == [bottom];
    assert Run(st2.next, [bottom, bottom]) == Trace(st3.next, []);
    assert [arrive, bottom, bottom][1..] == [bottom, bottom];
    assert Run(st1.next, [arrive, bottom, bottom]) == Trace(st3.next, []);
    assert [bottom, arrive, bottom, bottom][1..] == [arrive, bottom, bottom];
  }

  /**
   * The listener outlives the component: after teardown each scroll at the
   * bottom still fetches the next page, and since the dropped `setState` never
   * sets the loading flag, the next scroll fetches again.
   */
  lemma ScrollsAfterTeardownKeepFetching(loadTime: int, first: seq<Video>, t0: Token)
    requires |first| == 30
    ensures var t := Run(Init(VideoList(first, 1000, t0), loadTime),
                         [Teardown, Scroll(0, 900, 900), Scroll(0, 900, 900)]);
      && t.requests == [Append(first, DefaultQuery(loadTime).(page := 2)),
                        Append(first, DefaultQuery(loadTime).(page := 3))]
      && !t.final.isLoading && !t.final.mounted && t.final.query.page == 3
  {
    var s0 := Init(VideoList(first, 1000, t0), loadTime);
    var bottom := Scroll(0, 900, 900);
    var st0 := Next(s0, Teardown);
    var st1 := Next(st0.next, bottom);
    assert !Exhausted(st0.next.query, 1000);
    assert st1 == Step(st0.next.(query := DefaultQuery(loadTime).(page := 2)),
                       Some(Append(first, DefaultQuery(loadTime).(page := 2))));
    var st2 := Next(st1.next, bottom);
    assert !Exhausted(st1.next.query, 1000);
    assert st2 == Step(st0.next.(query := DefaultQuery(loadTime).(page := 3)),
                       Some(Append(first, DefaultQuery(loadTime).(page := 3))));
    assert Run(st1.next, [bottom]) == Trace(st2.next, Issued(st2));
    assert [bottom, bottom][1..] == [bottom];
    assert [Teardown, bottom, bottom][1..] == [bottom, bottom];
  }

  /**
   * The `count + 1` test leaves videos behind past page `count + 1`: with 960
   * of 991 videos held at page 32, the scroll sets the latch and fetches page 33
   * only, and after those 30 arrive the last video is never requested.
   */
  lemma StrandedVideoExample(s: State, loaded: seq<Video>, more: seq<Video>, t1: Token)
    requires s.query.page == 32 && s.query.count == 30
    requires !s.toDatasLimit && !s.isLoading && s.mounted
    requires s.video == VideoList(loaded, 991, s.video.token) && |loaded| == 960 && |more| == 30
    requires t1 != s.video.token
    ensures var t := Run(s, [Scroll(0, 900, 900), PropsArrive(VideoList(loaded + more, 991, t1)),
                             Scroll(0, 900, 900)]);
      && t.requests == [Append(loaded, s.query.(page := 33))]
      && t.final.toDatasLimit && !t.final.isLoading
      && |t.final.video.videos| == 990 < t.final.video.totalCount
  {
    var bottom := Scroll(0, 900, 900);
    var arrive := PropsArrive(VideoList(loaded + more, 991, t1));
    var st1 := Next(s, bottom);
    assert Exhausted(s.query, 991);
    assert st1.next.toDatasLimit && st1.issued == Some(Append(loaded, s.query.(page := 33)));
    var st2 := Next(st1.next, arrive);
    assert Run(st2.next, [bottom]) == Trace(st2.next, []);
    assert [arrive, bottom][1..] == [bottom];
    assert Run(st1.next, [arrive, bottom]) == Trace(st2.next, []);
    assert [bottom, arrive, bottom][1..] == [arrive, bottom];
  }
}
