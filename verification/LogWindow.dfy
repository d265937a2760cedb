/**
  Newest-first log search over an API that can only be read oldest-first
  (app/integrations/cloudwatch_logs_integration.py).

  Instants are microseconds since the epoch, the resolution of the source's datetimes;
  the API itself is asked in milliseconds.  `log` is the snapshot of all events that match
  the stream prefix and the filter pattern, in time order.
*/
module LogWindow {
  import opened Wrappers

  const INITIAL_WINDOW_SECONDS: nat := 600
  const MAX_SMART_WINDOW_ATTEMPTS: nat := 15
  const MAX_WINDOW_SECONDS: nat := 24 * 3600
  const MIN_WINDOW_SECONDS: nat := 1
  const PAGE_CAP: nat := 20
  const SECOND: nat := 1_000_000

  datatype Event = Event(id: nat, timestamp: nat)

  /** Events come in time order and carry distinct ids. */
  ghost predicate ValidLog(log: seq<Event>) {
    && (forall i, j :: 0 <= i < j < |log| ==> log[i].timestamp <= log[j].timestamp)
    && (forall i, j :: 0 <= i < j < |log| ==> log[i].id != log[j].id)
  }

  function ToEpochMs(t: nat): nat { t / 1000 }

  function Max(a: int, b: int): int { if a < b then b else a }

  function Min(a: int, b: int): int { if a < b then a else b }

  function Take<T>(s: seq<T>, n: nat): seq<T> { if n < |s| then s[..n] else s }

  function LastOf<T>(s: seq<T>, n: nat): seq<T> { if n < |s| then s[|s| - n..] else s }

  function Reversed<T>(s: seq<T>): (r: seq<T>)
    ensures |r| == |s|
    ensures forall i :: 0 <= i < |s| ==> r[i] == s[|s| - 1 - i]
  {
    if s == [] then [] else Reversed(s[1..]) + [s[0]]
  }

  /** The events of `log` whose time lies in [lo, hi], both ends included. */
  function Window(log: seq<Event>, lo: nat, hi: nat): seq<Event> {
    if log == [] then []
    else (if lo <= log[0].timestamp <= hi then [log[0]] else []) + Window(log[1..], lo, hi)
  }

  ghost predicate IsSuffix<T>(s: seq<T>, t: seq<T>) {
    |s| <= |t| && s == t[|t| - |s|..]
  }

  // ---------------------------------------------------------------- the API

  /** One page of FilterLogEvents: the first `limit` events from the token's position on.  A
      token may be returned although nothing is left; none is returned only when nothing is. */
  method GetLogEvents(log: seq<Event>, lo: nat, hi: nat, limit: nat, token: Option<nat>)
    returns (events: seq<Event>, nextToken: Option<nat>)
    requires limit >= 1
    requires token.Some? ==> token.value <= |Window(log, lo, hi)|
    ensures var from := if token.Some? then token.value else 0;
      && events == Take(Window(log, lo, hi)[from..], limit)
      && (nextToken.None? ==> from + |events| == |Window(log, lo, hi)|)
      && (nextToken.Some? ==> nextToken.value == from + |events|)
  {
    var window := Window(log, lo, hi);
    var from := if token.Some? then token.value else 0;
    events := Take(window[from..], limit);
    var spurious: bool := *;
    nextToken := if from + |events| < |window| || spurious then Some(from + |events|) else None;
  }

  // ---------------------------------------------------------------- pre-flight

  datatype Stream = Stream(name: string, lastEventMs: nat)

  function LatestMs(streams: seq<Stream>, prefix: string): (latest: nat)
    ensures forall s :: s in streams && prefix <= s.name ==> s.lastEventMs <= latest
    ensures latest > 0 ==> exists s :: s in streams && prefix <= s.name && s.lastEventMs == latest
  {
    if streams == [] then 0
    else
      var rest := LatestMs(streams[1..], prefix);
      if prefix <= streams[0].name && rest < streams[0].lastEventMs then streams[0].lastEventMs else rest
  }

  /** The instant the window hangs from: the latest known log time when it lies in range and is
      at most 600 s old, the range end otherwise (also when the pre-flight call failed). */
  function ChooseAnchor(streams: Option<seq<Stream>>, prefix: string, start: nat, end: nat): (anchor: nat)
    ensures start <= end ==> start <= anchor <= end
    ensures start <= end ==> end - anchor <= INITIAL_WINDOW_SECONDS * SECOND
  {
    if streams.None? then end
    else
      var latest := LatestMs(streams.value, prefix);
      var candidate := latest * 1000;
      if latest > 0 && start <= candidate <= end && end - candidate <= INITIAL_WINDOW_SECONDS * SECOND
      then candidate else end
  }

  // ---------------------------------------------------------------- the search

  /** The parameters that stay fixed during one search. */
  datatype Query = Query(log: seq<Event>, start: nat, end: nat, anchor: nat, limit: nat) {
    ghost predicate Valid() { ValidLog(log) && limit >= 1 }

    function WindowStart(w: nat): (r: nat)
      ensures start <= r
    {
      Max(anchor - w * SECOND, start)
    }

    /** Everything the API holds from the window start to the range end. */
    function Seen(w: nat): seq<Event> { Window(log, ToEpochMs(WindowStart(w)), ToEpochMs(end)) }

    /** Every matching event of the requested range. */
    function All(): seq<Event> { Window(log, ToEpochMs(start), ToEpochMs(end)) }

    predicate Saturated(w: nat) { |Seen(w)| >= limit }

    /** An empty window that has not reached the range start yet. */
    predicate Barren(w: nat) { |Seen(w)| == 0 && WindowStart(w) > start }
  }

  function Expand(w: nat): nat { Min(2 * w, MAX_WINDOW_SECONDS) }

  function Shrink(w: nat): nat { Max(w / 2, MIN_WINDOW_SECONDS) }

  datatype Exit = Covered | Drained | Paginated | Exhausted

  /** How the loop ended, the last window start it used and the events it holds. */
  datatype Outcome = Outcome(exit: Exit, windowStart: nat, events: seq<Event>)

  /** The loop from window size `w` with `attempts` left; `last` is the state of the attempt before. */
  function Search(q: Query, w: nat, attempts: nat, last: Outcome): Outcome
    requires q.limit >= 1
    decreases attempts
  {
    if attempts == 0 then last
    else
      var ws := q.WindowStart(w);
      if |q.Seen(w)| == 0 then
        if ws <= q.start then Outcome(Covered, ws, [])
        else Search(q, Expand(w), attempts - 1, Outcome(Exhausted, ws, []))
      else if |q.Seen(w)| < q.limit then Outcome(Drained, ws, q.Seen(w))
      else if Shrink(w) <= MIN_WINDOW_SECONDS then Outcome(Paginated, ws, Take(q.Seen(w), q.limit * PAGE_CAP))
      else Search(q, Shrink(w), attempts - 1, Outcome(Exhausted, ws, Take(q.Seen(w), q.limit)))
  }

  function Begin(q: Query): Outcome { Outcome(Exhausted, q.start, []) }

  function Run(q: Query): Outcome
    requires q.limit >= 1
  {
    Search(q, INITIAL_WINDOW_SECONDS, MAX_SMART_WINDOW_ATTEMPTS, Begin(q))
  }

  datatype Answer = Answer(events: seq<Event>, hasOlder: bool, oldest: Option<nat>)

  function Finish(q: Query, o: Outcome): Answer {
    var newest := Reversed(LastOf(o.events, q.limit));
    Answer(newest, |o.events| > q.limit || o.windowStart > q.start,
           if newest == [] then None else Some(newest[|newest| - 1].timestamp))
  }

  /** The whole request: the pre-flight decides the anchor, the search finds the events. */
  method GetLogEventsNewest(log: seq<Event>, start: nat, end: nat, limit: nat, streams: Option<seq<Stream>>,
                            prefix: string)
    returns (a: Answer)
    requires limit >= 1
    ensures var q := Query(log, start, end, ChooseAnchor(streams, prefix, start, end), limit); a == Finish(q, Run(q))
  {
    var q := Query(log, start, end, ChooseAnchor(streams, prefix, start, end), limit);
    var events, windowStart := SmartWindow(q, INITIAL_WINDOW_SECONDS, MAX_SMART_WINDOW_ATTEMPTS);
    var newest := if |events| > limit then events[|events| - limit..] else events;
    newest := Reversed(newest);
    a := Answer(newest, |events| > limit || windowStart > start,
                if newest == [] then None else Some(newest[|newest| - 1].timestamp));
  }

  /** Two nested loops over API calls: expand, shrink, and paginate at the minimum window. */
  method SmartWindow(q: Query, initial: nat, attempts: nat) returns (lastEvents: seq<Event>, lastWindowStart: nat)
    requires q.limit >= 1
    ensures lastEvents == Search(q, initial, attempts, Begin(q)).events
    ensures lastWindowStart == Search(q, initial, attempts, Begin(q)).windowStart
  {
    var w: nat := initial;
    lastEvents, lastWindowStart := [], q.start;
    for attempt := 0 to attempts
      invariant Search(q, initial, attempts, Begin(q))
             == Search(q, w, attempts - attempt, Outcome(Exhausted, lastWindowStart, lastEvents))
    {
      var windowStart: nat := Max(q.anchor - w * SECOND, q.start);
      lastWindowStart := windowStart;
      var lo, hi := ToEpochMs(windowStart), ToEpochMs(q.end);
      var events, nextToken := GetLogEvents(q.log, lo, hi, q.limit, None);
      assert q.Seen(w)[0..] == q.Seen(w);
      lastEvents := events;
      if |events| == 0 {
        if windowStart <= q.start { return; }
        w := w * 2;
        if w > MAX_WINDOW_SECONDS {
          w := MAX_WINDOW_SECONDS;
        }
      } else if |events| < q.limit {
        return;
      } else {
        w := Max(w / 2, MIN_WINDOW_SECONDS);
        if w <= MIN_WINDOW_SECONDS {
          lastEvents := ReadPages(q, lo, hi, events, nextToken);
          return;
        }
      }
    }
  }

  /** The size of k full pages. */
  ghost function Held(k: nat, limit: nat): nat {
    if k == 0 then 0 else Held(k - 1, limit) + limit
  }

  lemma {:induction false} HeldMonotone(j: nat, k: nat, limit: nat)
    requires j <= k
    ensures Held(j, limit) <= Held(k, limit)
  {
    if j < k { HeldMonotone(j, k - 1, limit); }
  }

  lemma {:induction false} HeldProduct(k: nat, limit: nat)
    ensures Held(k, limit) == limit * k
  {
    if k > 0 { HeldProduct(k - 1, limit); }
  }

  /** Pagination inside one window: pages are appended until the token or the pages run out or
      twenty full pages are held. */
  method ReadPages(q: Query, lo: nat, hi: nat, first: seq<Event>, token: Option<nat>) returns (all: seq<Event>)
    requires q.limit >= 1
    requires first == Take(Window(q.log, lo, hi), q.limit) && |first| == q.limit
    requires token.None? ==> |first| == |Window(q.log, lo, hi)|
    requires token.Some? ==> token.value == |first|
    ensures all == Take(Window(q.log, lo, hi), q.limit * PAGE_CAP)
  {
    ghost var window := Window(q.log, lo, hi);
    var cap := q.limit * PAGE_CAP;
    HeldProduct(PAGE_CAP, q.limit);
    HeldMonotone(1, PAGE_CAP, q.limit);
    all := first;
    var pageToken := token;
    ghost var pages := 1;
    while pageToken.Some? && |all| < cap
      invariant 1 <= pages <= PAGE_CAP
      invariant |all| <= cap && all == Take(window, |all|)
      invariant pageToken.None? ==> |all| == |window|
      invariant pageToken.Some? ==> pageToken.value == |all|
      invariant |all| == Held(pages, q.limit) || all == window
      decreases cap - |all|
    {
      var page, next := GetLogEvents(q.log, lo, hi, q.limit, pageToken);
      if page == [] {
        break;
      }
      if pages == PAGE_CAP { assert false; }
      HeldMonotone(pages + 1, PAGE_CAP, q.limit);
      assert all + page == Take(window, |all| + |page|);
      all := all + page;
      pages := pages + 1;
      pageToken := next;
    }
  }
}
