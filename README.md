# YoutuberSpy video listing: the pagination and filter controller

The video-listing page of YoutuberSpy shows a filterable, sortable list of
videos with infinite scroll. Its `Videos` page component keeps a small
controller. The controller's fields are:

- the query record `query`: sort, order, keyword, page, count, start time and end time;
- the exhaustion latch `toDatasLimit`;
- the loading flag `isLoading`;
- the selected time window `daysAgo`;
- the pending keyword timer `searchKeyword`.

Beside these, the model records whether the component is still mounted,
because React drops `setState` on an unmounted component.

The page reacts to seven kinds of event:

- a scroll: it may fetch the next page and append it to the list;
- a keystroke in the keyword input: it is debounced, so each keystroke replaces the pending timer;
- the timer firing;
- a change of sort order;
- a change of time window;
- new props from the store: a changed fetch-completion token turns the loading flag off;
- teardown: the pending keyword timer is cancelled, and the component is no longer mounted.

Each fetch is a `getVideosAsync` dispatch. It either appends to the current
list or replaces the list (by passing an empty list).

The project has four modules:

- `Wrappers` (`wrappers.dfy`): `Option`.
- `VideoQuery` (`video_query.dfy`) holds the values:
  - the store's video slice (`VideoList`: videos, total count, token);
  - the `Query` record and the default query;
  - the exhaustion test `Exhausted`, which keeps `page * (count + 1) > totalCount` exactly as written;
  - the `Request` log entries `Append(existing, query)` and `Replace(query)`;
  - two lemmas on what the `count + 1` test means for the final page.
- `Controller` (`controller.dfy`) is the state machine:
  - one transition function per handler, each returning the new state and the request dispatched, if any;
  - `Run` over a trace of events;
  - the properties of single steps and of whole traces.
- `VideosPage` (`videos_page.dfy`) is the class `Videos`:
  - its fields are the component's;
  - its handlers update them in place;
  - a ghost log `requests` records every dispatch, with a snapshot of the query;
  - each handler is proved to leave the fields where the matching `Controller` transition leaves the state, and to extend the log by exactly the request that transition dispatches.
  - Its invariant `Valid` says three things:
    - the query's fixed fields never change;
    - every logged request is well formed;
    - the page cursor is always one more than the number of appends dispatched since the last replacing fetch.

Clock and time: the current instant is a parameter, `now`, in whole seconds
since the epoch, UTC. A start time `d` days back is `now - d * 86400`. The
default query's start time is fixed when the page module loads, so the
constructor takes that instant as `loadTime`. The three document heights the
scroll listener measures are integer inputs of the scroll handler.

Where the code and its description differ, the model follows the code:

- The selected window starts at 7 days (`daysAgo = 7`), but the initial query's start time is one day back and the window selector shows "1" by default. The model keeps this as written.
- Removing the scroll listener on unmount is a no-op in the code, because `addEventListener` returns `undefined`. The model's `Unmount` cancels the pending keyword and marks the component unmounted. Scroll events still reach the handler afterwards. After teardown the loading flag and the props never change again (`TeardownFreezesLoading`). So:
  - If a fetch was outstanding at teardown, the flag stays on and every later scroll is ignored.
  - Otherwise each scroll at the bottom fetches the next page (`ScrollsAfterTeardownKeepFetching`). This goes on only until the `count + 1` latch trips.
  - Because the props are frozen, the "list is full" early return never fires after teardown unless the list was already full.
- The time-window `<select>` offers only 1, 7, 30 and 9000 days. `changeQuery` does not check the value it receives, and the model's `ChangeQuery` does not either.

What the `count + 1` test means:

- If the latch trips at page `p` and `p <= count + 1`, one more page reaches `totalCount` (`FinalFetchCoversRest`).
- At `p = count + 2` it can trip while more than one page remains. The videos past the final page are then never requested (`ExhaustionCanStrandVideos`).
- `StrandedVideoExample` shows this with concrete numbers: count 30, page 32, 991 videos in all, 990 ever fetched.

## Model

| member | source | states |
|---|---|---|
| `VideoQuery.FinalFetchCoversRest` | pages/videos.js:101-107 | when the latch trips at a page no larger than count + 1, one more page of count videos reaches totalCount |
| `VideoQuery.ExhaustionCanStrandVideos` | pages/videos.js:101-107 | at page count + 2 there is a totalCount that trips the latch for the first time while more than one page remains |
| `VideoQuery.DefaultQuery` | pages/videos.js:16-24 | the default query: sort randomNumber, order desc, empty keyword, page 1, count 30, start one day before the load instant, no end time |
| `VideoQuery.Exhausted` | pages/videos.js:101 | the exhaustion test page * (count + 1) > totalCount, with the count + 1 as written |
| `Controller.Init` | pages/videos.js:35-50 | the constructor's state: the default query, latch and loading off, daysAgo 7, no pending keyword, the first props, mounted |
| `Controller.ScrollHandler` | pages/videos.js:95-114 | the scroll transition: the guard, the latch, the early return when the list is full, and the page increment with its Append dispatch and loading flag |
| `Controller.SetLoading` | pages/videos.js:111-149 | the four `setState({ isLoading: true })` calls (lines 111, 127, 138, 149): the flag is set on a mounted component, and the call is dropped after teardown |
| `Controller.Refetch` | pages/videos.js:123-150 | what the three filter changes share: page 1, latch cleared, one Replace of the new query, loading set unless the component is unmounted |
| `Controller.ChangeKeyword` | pages/videos.js:116-122 | a keystroke replaces the pending keyword and dispatches nothing |
| `Controller.FireKeywordTimer` | pages/videos.js:122-130 | the timer callback: a Refetch with the pending keyword, which empties the slot; no-op when nothing is pending |
| `Controller.ChangeOrder` | pages/videos.js:133-141 | a Refetch with the new sort |
| `Controller.ChangeQuery` | pages/videos.js:143-152 | a Refetch with daysAgo and a start time `days` days before now |
| `Controller.ReceiveProps` | pages/videos.js:61-70 | loading is cleared when the token differs and the new props are taken; nothing happens after teardown |
| `Controller.Unmount` | pages/videos.js:154-159 | cancels the pending keyword and marks the component unmounted; the listener stays |
| `Controller.InitialState` | pages/videos.js:16-24 | the initial state: sort randomNumber, order desc, keyword empty, page 1, count 30, start one day before load, no end time, latch and loading off, daysAgo 7, no pending keyword, mounted |
| `Controller.ScrollIgnoredUnlessReady` | pages/videos.js:97-99 | above the bottom, latched or loading: the scroll changes nothing and dispatches nothing |
| `Controller.ScrollAtLimit` | pages/videos.js:101-106 | at the bottom and ready, if page * (count + 1) > totalCount the latch becomes set; if the list also holds totalCount videos, only the latch changes and nothing is dispatched |
| `Controller.ScrollFetchesNextPage` | pages/videos.js:101-113 | otherwise page goes up by exactly 1, one Append carrying the held list and the new query is dispatched, loading is set exactly when the component is mounted, the latch ends set exactly when the test tripped, and sort, keyword, count, start time and the other fields are unchanged |
| `Controller.ChangeOrderResets` | pages/videos.js:133-141 | whatever the prior state, a sort change sets page 1 and the new sort, clears the latch, sets loading unless unmounted and dispatches one Replace of the new query; nothing else changes |
| `Controller.ChangeQueryResets` | pages/videos.js:143-152 | whatever the prior state, a window change sets page 1, daysAgo, and a start time `days` days before now, clears the latch, sets loading unless unmounted and dispatches one Replace; nothing else changes |
| `Controller.TimerFireResets` | pages/videos.js:122-130 | a firing timer sets page 1 and the pending keyword, clears the latch and the slot, sets loading unless unmounted and dispatches one Replace; with no pending keyword it does nothing |
| `Controller.LatchClearedOnlyByFilterChange` | pages/videos.js:102-145 | only a timer firing, a sort change or a window change can clear a set latch, and each of them that dispatches does clear it |
| `Controller.AppendOnlyOnScroll` | pages/videos.js:110-148 | every appending dispatch comes from a scroll and carries the list the page holds; every dispatch of any other event replaces |
| `Controller.UnmountCancelsPendingKeyword` | pages/videos.js:154-157 | after teardown a firing timer dispatches nothing |
| `Controller.LoadingLifecycle` | pages/videos.js:61-70 | after any event, loading is on exactly when a request was just dispatched on a mounted page, or it was on and no props with a different token reached a mounted page; after teardown it never changes; props never dispatch |
| `Controller.AtMostOneRequestPerEvent` | pages/videos.js:95-152 | a trace of n events dispatches at most n requests |
| `Controller.StepPreservesInv` | pages/videos.js:109-148 | every handler keeps page >= 1, order, count and end time, and dispatches only well-formed requests (Replace at page 1, Append at page >= 2) |
| `Controller.RunPreservesInv` | pages/videos.js:109-148 | the same for every trace: the final state keeps the invariant and every request dispatched along it is well formed |
| `Controller.StepTracksAppends` | pages/videos.js:109-147 | one handler keeps page == 1 + the number of appends since the last replace in the log |
| `Controller.PageTracksAppends` | pages/videos.js:109-147 | after any trace, page is 1 + the number of appends dispatched since the last replacing fetch |
| `Controller.LatchedScrollsIssueNothing` | pages/videos.js:97 | once latched, any number of scrolls, keystrokes, props and teardowns dispatch nothing and the latch stays set |
| `Controller.LoadingBlocksAppends` | pages/videos.js:61-70 | while loading, if no props with a new token arrive, the page stays loading and every request dispatched is a Replace |
| `Controller.KeystrokesOnlyDefer` | pages/videos.js:116-122 | n >= 1 keystrokes dispatch nothing and leave only the last keyword pending |
| `Controller.KeystrokesCoalesce` | pages/videos.js:116-131 | n >= 1 keystrokes then one firing dispatch exactly one request, a Replace of the query at page 1 with the last keyword; the latch is clear, loading is on unless the page was already unmounted and not loading, and nothing is pending |
| `Controller.TeardownFreezesLoading` | pages/videos.js:111-157 | after teardown no trace remounts the component or changes its loading flag or its props, because `setState` is dropped and no props arrive |
| `Controller.ScrollsAfterTeardownKeepFetching` | pages/videos.js:76-114 | the listener outlives teardown: two bottom scrolls after it dispatch Appends of pages 2 and 3, and loading stays off |
| `Controller.ThirtyFiveVideosExample` | pages/videos.js:95-114 | with 30 of 35 videos, a scroll fetches page 2 (31 <= 35); once all 35 are held, scrolls only set the latch (62 > 35) and dispatch nothing more |
| `Controller.StrandedVideoExample` | pages/videos.js:101-113 | with count 30, page 32 and 960 of 991 videos held, a scroll latches and fetches page 33; once those arrive, the 991st video is never requested |
| `VideosPage.Videos.constructor` | pages/videos.js:35-50 | builds the initial controller state from the first props with an empty request log |
| `VideosPage.Videos.GetVideosAsync` | pages/videos.js:110 | a dispatch adds exactly its request, with a snapshot of the query, to the log |
| `VideosPage.Videos.ScrollHandler` | pages/videos.js:95-114 | updates the fields in place to the scroll transition's state and logs the request it dispatches, keeping Valid |
| `VideosPage.Videos.ChangeKeyword` | pages/videos.js:116-122 | replaces the pending keyword in place and logs nothing; `Controller.KeystrokesOnlyDefer` states the same over any number of keystrokes |
| `VideosPage.Videos.FireKeywordTimer` | pages/videos.js:122-130 | updates the fields in place to the timer transition's state and logs its Replace, keeping Valid |
| `VideosPage.Videos.ChangeOrder` | pages/videos.js:133-141 | updates the fields in place to the sort-change transition's state and logs its Replace, keeping Valid |
| `VideosPage.Videos.ChangeQuery` | pages/videos.js:143-152 | updates the fields in place to the window-change transition's state and logs its Replace, keeping Valid |
| `VideosPage.Videos.ReceiveProps` | pages/videos.js:61-70 | on a mounted page, clears loading only when the token changes and takes the new props; after teardown changes nothing; logs nothing |
| `VideosPage.Videos.Unmount` | pages/videos.js:154-157 | cancels the pending keyword, marks the component unmounted, keeps the listener, and logs nothing |

## Left out

- `getInitialProps` and the video API call behind it: an HTTP collaborator whose code is not part of this model. The first props are a constructor parameter.
- `getVideosAsync` itself (the Redux action and the fetch behind it): the model records each dispatch and its arguments. The store's answer arrives as new props.
- Aliasing: the code passes its one mutable query object to every dispatch. The log holds a snapshot of the query at dispatch time instead.
- `moment().utc().add(...).format()`: date arithmetic is whole seconds minus whole days. The ISO-8601 string format is not modelled.
- The time window arrives as a string from the selector, and JavaScript coerces it to a number. The model takes it as an integer.
- DOM measurement and listener wiring (`window.addEventListener`, the `Math.max` over three heights): the heights are inputs. Listener removal does nothing in the code, so the model has none: scrolls after teardown still reach the handler.
- The first, empty `componentWillUnmount` is replaced by the second in the class body. Only the second is modelled.
- Real timers: `setTimeout`/`clearTimeout` and the 1000 ms delay become an explicit pending-keyword slot and an explicit firing event, with no notion of time. After firing, the code keeps a stale timer id (clearing a fired timer does nothing); the model empties the slot instead, with the same observable effect.
- Asynchrony: on a mounted page the model treats `setState` as taking effect at once. It does not model responses arriving out of order. A filter change made while a fetch is outstanding still dispatches, because the filter handlers have no loading guard (`ChangeOrderResets`, `ChangeQueryResets`, `TimerFireResets` hold whatever the prior state).
- After teardown the keyword input and the selectors are gone, so keystrokes and selections can no longer occur. The model still accepts them and handles them as on a mounted page, except that `setState` is dropped.
- The failure path: a failed fetch never changes the token, so loading stays on forever. The model has this behaviour, because only a token change clears the flag. No error event is modelled.
- Rendering, JSX, head tags, stylesheets, Redux wiring (`withRedux`, `mapStateToProps`, `mapDispatchToProps`) and localized copy: presentation and framework plumbing.
- pages/campaigns/pickYoutuber.js: fetch-then-render only, with no state and no logic to model.
