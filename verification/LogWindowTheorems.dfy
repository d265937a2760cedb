/**
  What the newest-first search promises, for every log, range, anchor and limit: when the
  answer is the newest end of the range, what `has_older` means, and when the loop breaks.
*/
module LogWindowTheorems {
  import opened Wrappers
  import opened LogWindow

  // ---------------------------------------------------------------- windows of a sorted log

  lemma {:induction false} WindowMembers(log: seq<Event>, lo: nat, hi: nat)
    ensures forall e :: e in Window(log, lo, hi) <==> e in log && lo <= e.timestamp <= hi
  {
    if log != [] { WindowMembers(log[1..], lo, hi); }
  }

  lemma PrependValid(e: Event, rest: seq<Event>)
    requires ValidLog(rest)
    requires forall k :: 0 <= k < |rest| ==> e.timestamp <= rest[k].timestamp && e.id != rest[k].id
    ensures ValidLog([e] + rest)
  {
  }

  lemma TailValid(log: seq<Event>)
    requires ValidLog(log) && log != []
    ensures ValidLog(log[1..])
    ensures forall e :: e in log[1..] ==> log[0].timestamp <= e.timestamp && log[0].id != e.id
  {
  }

  /** Windows keep the order of the log. */
  lemma {:induction false} WindowValid(log: seq<Event>, lo: nat, hi: nat)
    requires ValidLog(log)
    ensures ValidLog(Window(log, lo, hi))
  {
    if log != [] {
      TailValid(log);
      WindowValid(log[1..], lo, hi);
      WindowMembers(log[1..], lo, hi);
      var kept := Window(log[1..], lo, hi);
      assert forall k :: 0 <= k < |kept| ==> kept[k] in log[1..];
      PrependValid(log[0], kept);
      assert [] + kept == kept;
    }
  }

  /** A later window start cuts a prefix off, never anything newer. */
  lemma {:induction false} LaterStartIsSuffix(log: seq<Event>, lo: nat, later: nat, hi: nat)
    requires ValidLog(log) && lo <= later
    ensures IsSuffix(Window(log, later, hi), Window(log, lo, hi))
  {
    if log != [] {
      var rest := log[1..];
      LaterStartIsSuffix(rest, lo, later, hi);
      if log[0].timestamp >= later {
        SameAbove(rest, lo, later, hi);
      } else {
        var big, small := Window(rest, lo, hi), Window(rest, later, hi);
        assert forall k | 0 <= k <= |big| :: ([log[0]] + big)[k + 1..] == big[k..];
      }
    }
  }

  lemma {:induction false} SameAbove(log: seq<Event>, lo: nat, later: nat, hi: nat)
    requires lo <= later && forall e :: e in log ==> e.timestamp >= later
    ensures Window(log, lo, hi) == Window(log, later, hi)
  {
    if log != [] { SameAbove(log[1..], lo, later, hi); }
  }

  /** A wider window sees at least as much. */
  lemma SeenMonotone(q: Query, w: nat, wider: nat)
    requires q.Valid() && w <= wider
    ensures |q.Seen(w)| <= |q.Seen(wider)|
    ensures q.WindowStart(wider) <= q.WindowStart(w)
  {
    LaterStartIsSuffix(q.log, ToEpochMs(q.WindowStart(wider)), ToEpochMs(q.WindowStart(w)), ToEpochMs(q.end));
  }

  // ---------------------------------------------------------------- what an outcome holds

  /** The window of an outcome, read to its end. */
  function Content(q: Query, o: Outcome): seq<Event> {
    Window(q.log, ToEpochMs(o.windowStart), ToEpochMs(q.end))
  }

  /** How the events of an outcome relate to its window, exit by exit. */
  ghost predicate Explained(q: Query, o: Outcome) {
    && q.start <= o.windowStart
    && match o.exit
       case Covered => o.windowStart == q.start && o.events == [] && Content(q, o) == []
       case Drained => o.events == Content(q, o) && 0 < |o.events| < q.limit
       case Paginated => o.events == Take(Content(q, o), q.limit * PAGE_CAP) && |Content(q, o)| >= q.limit
       case Exhausted =>
         if o.events == [] then o.windowStart > q.start && Content(q, o) == []
         else o.events == Take(Content(q, o), q.limit) && |o.events| == q.limit
  }

  lemma {:induction false} SearchExplained(q: Query, w: nat, attempts: nat, last: Outcome)
    requires q.limit >= 1
    requires attempts == 0 ==> Explained(q, last)
    ensures Explained(q, Search(q, w, attempts, last))
    decreases attempts
  {
    if attempts > 0 {
      var ws := q.WindowStart(w);
      if |q.Seen(w)| == 0 {
        if ws > q.start { SearchExplained(q, Expand(w), attempts - 1, Outcome(Exhausted, ws, [])); }
      } else if |q.Seen(w)| >= q.limit && Shrink(w) > MIN_WINDOW_SECONDS {
        SearchExplained(q, Shrink(w), attempts - 1, Outcome(Exhausted, ws, Take(q.Seen(w), q.limit)));
      }
    }
  }

  lemma RunExplained(q: Query)
    requires q.limit >= 1
    ensures Explained(q, Run(q))
  {
    SearchExplained(q, INITIAL_WINDOW_SECONDS, MAX_SMART_WINDOW_ATTEMPTS, Begin(q));
  }

  // ---------------------------------------------------------------- newest suffix

  /** The answer lists, newest first, the newest end of everything in the range; it is empty only
      when nothing is in the range. */
  ghost predicate NewestFirst(q: Query, a: Answer) {
    && (exists suffix :: IsSuffix(suffix, q.All()) && a.events == Reversed(suffix))
    && (a.events == [] ==> q.All() == [])
  }

  /** The last window was read to its end: it is covered or drained, or its size does not
      exceed the page cap (paginated) or one page (attempts exhausted).  When the attempts ended on
      an empty window, the whole range must be empty. */
  predicate WindowRead(q: Query, o: Outcome) {
    match o.exit
    case Covered => true
    case Drained => true
    case Paginated => |Content(q, o)| <= q.limit * PAGE_CAP
    case Exhausted => if o.events == [] then q.All() == [] else |Content(q, o)| <= q.limit
  }

  lemma ReversedInjective<T>(s: seq<T>, t: seq<T>)
    requires Reversed(s) == Reversed(t)
    ensures s == t
  {
    assert |s| == |t|;
    forall i | 0 <= i < |s| ensures s[i] == t[i] {
      assert Reversed(s)[|s| - 1 - i] == s[i] && Reversed(t)[|s| - 1 - i] == t[i];
    }
  }

  /** What was read, cut to its newest `limit` events, against everything in the range. */
  lemma NewestOfRead(all: seq<Event>, content: seq<Event>, read: seq<Event>, limit: nat)
    requires ValidLog(all) && IsSuffix(content, all) && limit >= 1
    requires read == content || (read != [] && |read| < |content| && read == content[..|read|])
    ensures (exists suffix :: IsSuffix(suffix, all) && Reversed(LastOf(read, limit)) == Reversed(suffix))
       <==> read == content
  {
    var kept := LastOf(read, limit);
    if read == content {
      SuffixTransitive(kept, content, all);
    } else {
      forall suffix | IsSuffix(suffix, all) && Reversed(kept) == Reversed(suffix) ensures false {
        ReversedInjective(kept, suffix);
        LastMissing(all, content, read, kept);
      }
    }
  }

  /** What an outcome holds is its whole window or a part from the front. */
  lemma ReadIsFront(q: Query, o: Outcome)
    requires q.limit >= 1 && Explained(q, o)
    ensures var content := Content(q, o);
      && (o.events == content || (o.events != [] && |o.events| < |content| && o.events == content[..|o.events|]))
      && (WindowRead(q, o) <==> o.events == content && (o.events == [] ==> q.All() == []))
  {
  }

  /** Newest-suffix theorem: the answer is the newest end of the range exactly when the last
      window was read to its end.  In particular it always is on the two plain `break` exits and
      after a pagination that stayed below the page cap. */
  lemma NewestSuffix(q: Query)
    requires q.Valid()
    ensures NewestFirst(q, Finish(q, Run(q))) <==> WindowRead(q, Run(q))
  {
    RunExplained(q);
    OutcomeNewest(q, Run(q));
  }

  lemma OutcomeNewest(q: Query, o: Outcome)
    requires q.Valid() && Explained(q, o)
    ensures NewestFirst(q, Finish(q, o)) <==> WindowRead(q, o)
  {
    LaterStartIsSuffix(q.log, ToEpochMs(q.start), ToEpochMs(o.windowStart), ToEpochMs(q.end));
    WindowValid(q.log, ToEpochMs(q.start), ToEpochMs(q.end));
    ReadIsFront(q, o);
    NewestOfRead(q.All(), Content(q, o), o.events, q.limit);
    assert Finish(q, o).events == [] <==> o.events == [];
  }

  /** How much is returned: a window that was read to its end gives up to `limit` of its events, and
      a `break` exit never answers with nothing when something matches. */
  lemma AnswerSize(q: Query)
    requires q.Valid()
    ensures WindowRead(q, Run(q)) ==> |Finish(q, Run(q)).events| == Min(q.limit, |Content(q, Run(q))|)
    ensures Run(q).exit != Exhausted && q.All() != [] ==> Finish(q, Run(q)).events != []
  {
    RunExplained(q);
  }

  lemma SuffixTransitive<T>(r: seq<T>, s: seq<T>, t: seq<T>)
    requires IsSuffix(s, t) && |r| <= |s| && r == s[|s| - |r|..]
    ensures IsSuffix(r, t)
  {
  }

  /** A proper prefix of the window, however cut at the front, misses the newest event. */
  lemma LastMissing(all: seq<Event>, content: seq<Event>, read: seq<Event>, kept: seq<Event>)
    requires ValidLog(all) && IsSuffix(content, all)
    requires |read| < |content| && read == content[..|read|]
    requires 0 < |kept| <= |read| && kept == read[|read| - |kept|..]
    ensures !IsSuffix(kept, all)
  {
    assert kept[|kept| - 1] == read[|read| - 1] == content[|read| - 1] == all[|all| - |content| + |read| - 1];
    assert all[|all| - |content| + |read| - 1].id != all[|all| - 1].id;
  }

  /** What a suffix of a sorted sequence leaves out is not newer than its first element. */
  lemma OmittedIsOlder(suffix: seq<Event>, all: seq<Event>, e: Event)
    requires ValidLog(all) && IsSuffix(suffix, all) && suffix != [] && e in all && e !in suffix
    ensures e.timestamp <= suffix[0].timestamp
  {
    var i :| 0 <= i < |all| && all[i] == e;
    var from := |all| - |suffix|;
    assert forall k :: from <= k < |all| ==> all[k] == suffix[k - from];
  }

  /** Nothing the answer leaves out is newer than its oldest event, the reported timestamp. */
  lemma NothingNewerOmitted(q: Query, e: Event)
    requires q.Valid() && WindowRead(q, Run(q)) && Finish(q, Run(q)).events != []
    requires e in q.log && ToEpochMs(q.start) <= e.timestamp <= ToEpochMs(q.end)
    ensures var a := Finish(q, Run(q));
      e in a.events || (a.oldest.Some? && e.timestamp <= a.oldest.value)
  {
    var a := Finish(q, Run(q));
    NewestSuffix(q);
    var suffix :| IsSuffix(suffix, q.All()) && a.events == Reversed(suffix);
    WindowMembers(q.log, ToEpochMs(q.start), ToEpochMs(q.end));
    WindowValid(q.log, ToEpochMs(q.start), ToEpochMs(q.end));
    assert a.events[|suffix| - 1] == suffix[0];
    if e in suffix {
      var i :| 0 <= i < |suffix| && suffix[i] == e;
      assert a.events[|suffix| - 1 - i] == e;
    } else {
      OmittedIsOlder(suffix, q.All(), e);
    }
  }

  // ---------------------------------------------------------------- the cursor

  /** What an outcome holds is in time order on every exit. */
  lemma OutcomeValid(q: Query, o: Outcome)
    requires q.Valid() && Explained(q, o)
    ensures ValidLog(o.events)
  {
    WindowValid(q.log, ToEpochMs(o.windowStart), ToEpochMs(q.end));
    ReadIsFront(q, o);
  }

  /** The cursor for older pages, on every exit: none exactly with an empty answer, otherwise the time
      of a returned event that no other returned event precedes. */
  lemma OldestIsReturned(q: Query)
    requires q.Valid()
    ensures var a := Finish(q, Run(q));
      && (a.oldest.None? <==> a.events == [])
      && (a.oldest.Some? ==>
            && (exists e :: e in a.events && e.timestamp == a.oldest.value)
            && forall e :: e in a.events ==> a.oldest.value <= e.timestamp)
  {
    RunExplained(q);
    OutcomeValid(q, Run(q));
    OldestOfKept(q, Run(q), LastOf(Run(q).events, q.limit));
  }

  lemma OldestOfKept(q: Query, o: Outcome, kept: seq<Event>)
    requires ValidLog(o.events) && q.limit >= 1 && kept == LastOf(o.events, q.limit)
    ensures var a := Finish(q, o);
      && (a.oldest.None? <==> a.events == [])
      && (a.oldest.Some? ==>
            && (exists e :: e in a.events && e.timestamp == a.oldest.value)
            && forall e :: e in a.events ==> a.oldest.value <= e.timestamp)
  {
    var a := Finish(q, o);
    if kept != [] {
      assert a.events[|kept| - 1] == kept[0] && a.events[|kept| - 1] in a.events;
      forall e | e in a.events ensures kept[0].timestamp <= e.timestamp {
        var i :| 0 <= i < |kept| && a.events[i] == e;
        assert e == kept[|kept| - 1 - i];
      }
    }
  }

  // ---------------------------------------------------------------- the anchor and the windows

  /** The latest time of the streams with the prefix, zero when there is none. */
  ghost predicate IsLatest(streams: seq<Stream>, prefix: string, latest: nat) {
    && (forall s :: s in streams && prefix <= s.name ==> s.lastEventMs <= latest)
    && (latest > 0 ==> exists s :: s in streams && prefix <= s.name && s.lastEventMs == latest)
  }

  /** The latest stream time anchors the search exactly when it is positive, in range and at most 600
      seconds old; otherwise, and when the streams are not known, the range end does. */
  lemma AnchorIff(streams: seq<Stream>, prefix: string, start: nat, end: nat, latest: nat)
    requires IsLatest(streams, prefix, latest)
    ensures ChooseAnchor(None, prefix, start, end) == end
    ensures ChooseAnchor(Some(streams), prefix, start, end)
         == if latest > 0 && start <= latest * 1000 <= end && end - latest * 1000 <= 600 * 1_000_000
            then latest * 1000 else end
  {
    assert IsLatest(streams, prefix, LatestMs(streams, prefix));
  }

  /** A window of w seconds holds the log's events from w seconds before the anchor, but not before
      the range start, to the range end, both in whole milliseconds. */
  lemma SeenIff(q: Query, w: nat, e: Event)
    ensures e in q.Seen(w) <==>
      && e in q.log && q.start / 1000 <= e.timestamp <= q.end / 1000
      && (q.anchor - w * 1_000_000 > q.start ==> (q.anchor - w * 1_000_000) / 1000 <= e.timestamp)
  {
    WindowMembers(q.log, ToEpochMs(q.WindowStart(w)), ToEpochMs(q.end));
  }

  // ---------------------------------------------------------------- has_older

  /** An empty answer that denies older events is right on every exit. */
  lemma EmptyAnswerIsHonest(q: Query)
    requires q.Valid()
    requires Finish(q, Run(q)).events == [] && !Finish(q, Run(q)).hasOlder
    ensures q.All() == []
  {
    RunExplained(q);
  }

  /** On a `break` exit, denying older events means that every event of the range was returned. */
  lemma NoOlderMeansAll(q: Query)
    requires q.Valid() && Run(q).exit != Exhausted && !Finish(q, Run(q)).hasOlder
    ensures Finish(q, Run(q)).events == Reversed(q.All())
  {
    RunExplained(q);
  }

  /** Older events that exist and were not returned are always announced, unless the attempts
      ran out; then the flag is the only thing that can be wrong about a full page. */
  lemma OlderIsAnnounced(q: Query)
    requires q.Valid() && |Finish(q, Run(q)).events| < |q.All()| && !Finish(q, Run(q)).hasOlder
    ensures Run(q).exit == Exhausted && |Run(q).events| == q.limit && Run(q).windowStart == q.start
  {
    RunExplained(q);
    if Run(q).exit != Exhausted { NoOlderMeansAll(q); }
  }

  // ---------------------------------------------------------------- when the loop breaks

  /** The number of halvings from w to the minimum window. */
  function Halvings(w: nat): nat {
    if Shrink(w) <= MIN_WINDOW_SECONDS then 1 else 1 + Halvings(w / 2)
  }

  /** The number of doublings from w to the widest window, both counted. */
  function Rungs(w: nat): nat
    requires w >= 1
    decreases MAX_WINDOW_SECONDS - w
  {
    if w >= MAX_WINDOW_SECONDS then 1 else 1 + Rungs(Expand(w))
  }

  /** However many attempts are allowed, the loop never breaks from w. */
  ghost predicate Doomed(q: Query, w: nat)
    requires q.limit >= 1
  {
    forall n: nat, last: Outcome :: last.exit == Exhausted ==> Search(q, w, n, last).exit == Exhausted
  }

  /** From an empty window whose double is saturated the loop alternates for ever. */
  lemma {:induction false} Trap(q: Query, low: nat, high: nat, n: nat, last: Outcome)
    requires q.Valid() && last.exit == Exhausted
    requires q.Barren(low) && q.Saturated(high) && Expand(low) == high
    requires Shrink(high) == low && low > MIN_WINDOW_SECONDS
    ensures Search(q, low, n, last).exit == Exhausted
    ensures Search(q, high, n, last).exit == Exhausted
    decreases n
  {
    if n > 0 {
      Trap(q, low, high, n - 1, Outcome(Exhausted, q.WindowStart(low), []));
      Trap(q, low, high, n - 1, Outcome(Exhausted, q.WindowStart(high), Take(q.Seen(high), q.limit)));
    }
  }

  lemma {:induction false} Ceiling(q: Query, n: nat, last: Outcome)
    requires q.Valid() && last.exit == Exhausted && q.Barren(MAX_WINDOW_SECONDS)
    ensures Search(q, MAX_WINDOW_SECONDS, n, last).exit == Exhausted
    decreases n
  {
    if n > 0 {
      Ceiling(q, n - 1, Outcome(Exhausted, q.WindowStart(MAX_WINDOW_SECONDS), []));
    }
  }

  /** One loop step, as a relation between window sizes. */
  predicate Moves(q: Query, w: nat, next: nat) {
    if |q.Seen(w)| == 0 then q.WindowStart(w) > q.start && next == Expand(w)
    else q.Saturated(w) && Shrink(w) > MIN_WINDOW_SECONDS && next == Shrink(w)
  }

  lemma DoomedBefore(q: Query, w: nat, next: nat)
    requires q.limit >= 1 && Moves(q, w, next) && Doomed(q, next)
    ensures Doomed(q, w)
  {
  }

  /** An empty window whose double is saturated dooms the search. */
  lemma DoomedBetween(q: Query, low: nat)
    requires q.Valid() && low > MIN_WINDOW_SECONDS && q.Barren(low) && q.Saturated(Expand(low))
    ensures Doomed(q, low)
  {
    var high := Expand(low);
    var back := Shrink(high);
    if low >= MAX_WINDOW_SECONDS {
      SeenMonotone(q, high, low);
      assert false;
    }
    SeenMonotone(q, back, low);
    assert Expand(back) == high;
    forall n: nat, last: Outcome | last.exit == Exhausted ensures Search(q, high, n, last).exit == Exhausted {
      Trap(q, back, high, n, last);
    }
    DoomedBefore(q, low, high);
  }

  /** Expanding from an empty window either breaks within Rungs + 1 attempts or never. */
  lemma {:induction false} Climb(q: Query, w: nat, n: nat, last: Outcome)
    requires q.Valid() && last.exit == Exhausted && MIN_WINDOW_SECONDS < w <= MAX_WINDOW_SECONDS
    requires |q.Seen(w)| == 0 && n > Rungs(w)
    ensures Search(q, w, n, last).exit == Exhausted ==> Doomed(q, w)
    decreases MAX_WINDOW_SECONDS - w
  {
    if q.Barren(w) {
      var next, here := Expand(w), Outcome(Exhausted, q.WindowStart(w), []);
      if w == MAX_WINDOW_SECONDS {
        forall m: nat, l: Outcome | l.exit == Exhausted ensures Search(q, w, m, l).exit == Exhausted {
          Ceiling(q, m, l);
        }
      } else if q.Saturated(next) {
        DoomedBetween(q, w);
      } else if |q.Seen(next)| == 0 {
        Climb(q, next, n - 1, here);
        if Doomed(q, next) { DoomedBefore(q, w, next); }
      } else {
        assert Search(q, next, n - 1, here).exit == Drained;
      }
    }
  }

  /** Shrinking from a saturated window either breaks within Halvings + 3 attempts or never. */
  lemma {:induction false} Descend(q: Query, w: nat, n: nat, last: Outcome)
    requires q.Valid() && last.exit == Exhausted && 1 <= w <= MAX_WINDOW_SECONDS
    requires q.Saturated(w) && n >= Halvings(w) + 3
    ensures Search(q, w, n, last).exit == Exhausted ==> Doomed(q, w)
    decreases w
  {
    var half, here := Shrink(w), Outcome(Exhausted, q.WindowStart(w), Take(q.Seen(w), q.limit));
    if half > MIN_WINDOW_SECONDS {
      if q.Saturated(half) {
        Descend(q, half, n - 1, here);
      } else if |q.Seen(half)| == 0 {
        Rebound(q, w, n - 1, here);
      } else {
        assert Search(q, half, n - 1, here).exit == Drained;
      }
      if Doomed(q, half) { DoomedBefore(q, w, half); }
    }
  }

  /** Half of a saturated window is empty: at most two more expansions decide. */
  lemma Rebound(q: Query, w: nat, n: nat, last: Outcome)
    requires q.Valid() && last.exit == Exhausted && 1 <= w <= MAX_WINDOW_SECONDS && n >= 3
    requires q.Saturated(w) && Shrink(w) > MIN_WINDOW_SECONDS && |q.Seen(Shrink(w))| == 0
    ensures Search(q, Shrink(w), n, last).exit == Exhausted ==> Doomed(q, Shrink(w))
  {
    var half := Shrink(w);
    if q.Barren(half) {
      var up, here := Expand(half), Outcome(Exhausted, q.WindowStart(half), []);
      if q.Saturated(up) {
        DoomedBetween(q, half);
      } else if |q.Seen(up)| == 0 {
        if q.Barren(up) {
          SeenMonotone(q, w, Expand(up));
          DoomedBetween(q, up);
          DoomedBefore(q, half, up);
        } else {
          assert Search(q, up, n - 1, here).exit == Covered;
        }
      } else {
        assert Search(q, up, n - 1, here).exit == Drained;
      }
    }
  }

  /** Fifteen attempts decide: a search that ran out of them would run out of any number. */
  lemma MoreAttemptsNeverHelp(q: Query)
    requires q.Valid()
    ensures Run(q).exit == Exhausted ==> Doomed(q, INITIAL_WINDOW_SECONDS)
  {
    var w, n, begin := INITIAL_WINDOW_SECONDS, MAX_SMART_WINDOW_ATTEMPTS, Begin(q);
    assert Rungs(w) == 9;
    assert Halvings(w) == 9;
    if |q.Seen(w)| == 0 {
      Climb(q, w, n, begin);
    } else if q.Saturated(w) {
      Descend(q, w, n, begin);
    }
  }

  // ---------------------------------------------------------------- where the promise fails

  /** A search trapped between its first window and half of it ends with the OLDEST page of
      the window. */
  lemma {:induction false} TrapKeepsOldestPage(q: Query, low: nat, high: nat, k: nat, last: Outcome)
    requires q.limit >= 1 && q.Barren(low) && q.Saturated(high)
    requires Expand(low) == high && Shrink(high) == low && low > MIN_WINDOW_SECONDS
    ensures Search(q, high, 2 * k + 1, last)
         == Outcome(Exhausted, q.WindowStart(high), Take(q.Seen(high), q.limit))
    decreases k
  {
    if k > 0 {
      TrapKeepsOldestPage(q, low, high, k - 1, Outcome(Exhausted, q.WindowStart(low), []));
    }
  }

  /** Nothing in the last five minutes before the anchor but more than one page in the last ten:
      the answer is the oldest page, never the newest one. */
  lemma AlternationLosesTheNewest(q: Query)
    requires q.Valid() && q.Barren(300) && |q.Seen(600)| > q.limit
    ensures Finish(q, Run(q)).events == Reversed(q.Seen(600)[..q.limit])
    ensures !NewestFirst(q, Finish(q, Run(q)))
  {
    TrapKeepsOldestPage(q, 300, 600, 7, Begin(q));
    NewestSuffix(q);
  }

  /** Such a log: a limit of one and two events between 300 s and 600 s before the range end. */
  lemma AlternationHappens() returns (q: Query)
    ensures q.Valid() && q.Barren(300) && |q.Seen(600)| == 2 > q.limit == 1
  {
    var a, b := Event(0, 150_000), Event(1, 250_000);
    q := Query([a, b], 0, 700_000_000, 700_000_000, 1);
    assert q.WindowStart(600) == 100_000_000 && q.WindowStart(300) == 400_000_000;
    WindowOfTwo(a, b, 100_000, 700_000);
    WindowOfTwo(a, b, 400_000, 700_000);
  }

  lemma WindowOfTwo(a: Event, b: Event, lo: nat, hi: nat)
    ensures Window([a, b], lo, hi) == (if lo <= a.timestamp <= hi then [a] else [])
                                    + (if lo <= b.timestamp <= hi then [b] else [])
  {
    assert [a, b][1..] == [b] && [b][1..] == [];
    assert Window([b], lo, hi) == (if lo <= b.timestamp <= hi then [b] else []) + Window([], lo, hi);
  }
}
