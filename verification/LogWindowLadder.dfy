/**
  The window sizes a search can try, and from them, for every request: whether the attempts run out,
  what the answer then is, and whether the answer is the newest end of the range.
*/
module LogWindowLadder {
  import opened Wrappers
  import opened LogWindow
  import opened LogWindowTheorems

  /** Sizes tried while windows are empty, by doubling, and while they are saturated, by halving. */
  const RUNGS: seq<nat> := [600, 1200, 2400, 4800, 9600, 19200, 38400, 76800, 86400]
  const STEPS: seq<nat> := [600, 300, 150, 75, 37, 18, 9, 4, 2]

  lemma Ladder(k: nat)
    requires k < 8
    ensures RUNGS[k] < RUNGS[k + 1] == Expand(RUNGS[k]) <= MAX_WINDOW_SECONDS && RUNGS[k] > MIN_WINDOW_SECONDS
    ensures STEPS[k + 1] == Shrink(STEPS[k]) > MIN_WINDOW_SECONDS && STEPS[k + 1] < STEPS[k]
    ensures Expand(STEPS[k + 1]) == 2 * STEPS[k + 1] && STEPS[k] <= 2 * STEPS[k + 1] + 1
  {
  }

  // ---------------------------------------------------------------- conditions on the request

  /** The k-th rung is empty and the search cannot go on from it: the next one is saturated, or
      there is none. */
  predicate StuckUp(q: Query, k: nat) {
    k < 9 && q.Barren(RUNGS[k]) && (k == 8 || q.Saturated(RUNGS[k + 1]))
  }

  /** The i-th step is saturated, half of it empty, and twice that half is not a partly filled
      window or the range start. */
  predicate StuckDown(q: Query, i: nat) {
    && i < 8 && q.Saturated(STEPS[i]) && q.Barren(STEPS[i + 1])
    && (q.Saturated(2 * STEPS[i + 1]) || q.Barren(2 * STEPS[i + 1]))
  }

  ghost predicate Stuck(q: Query) { (exists k: nat :: StuckUp(q, k)) || (exists i: nat :: StuckDown(q, i)) }

  /** The saturated window of a trap. */
  function UpTop(k: nat): nat
    requires k < 8
  {
    RUNGS[k + 1]
  }

  function DownTop(q: Query, i: nat): nat
    requires i < 8
  {
    if q.Saturated(2 * STEPS[i + 1]) then 2 * STEPS[i + 1] else 4 * STEPS[i + 1]
  }

  /** Whether the last of the fifteen attempts falls on the saturated window of the trap. */
  predicate UpOnTop(k: nat) { k % 2 == 1 }

  predicate DownOnTop(q: Query, i: nat)
    requires i < 8
  {
    if q.Saturated(2 * STEPS[i + 1]) then i % 2 == 0 else i % 2 == 1
  }

  // ---------------------------------------------------------------- what the attempts end on

  /** The oldest page of a window, and an empty window, when the attempts are exhausted. */
  function Page(q: Query, w: nat): Outcome { Outcome(Exhausted, q.WindowStart(w), Take(q.Seen(w), q.limit)) }

  function Void(q: Query, w: nat): Outcome { Outcome(Exhausted, q.WindowStart(w), []) }

  /** A trap of two windows ends on one or the other by the parity of the attempts left. */
  lemma {:induction false} TrapEnds(q: Query, low: nat, high: nat, n: nat, last: Outcome)
    requires q.limit >= 1 && n >= 1 && q.Barren(low) && q.Saturated(high)
    requires Expand(low) == high && Shrink(high) == low > MIN_WINDOW_SECONDS
    ensures Search(q, high, n, last) == if n % 2 == 1 then Page(q, high) else Void(q, low)
    decreases n
  {
    HighStep(q, low, high, n, last);
    if n > 1 {
      LowStep(q, low, high, n - 1, Page(q, high));
      if n > 2 { TrapEnds(q, low, high, n - 2, Void(q, low)); }
    }
  }

  lemma HighStep(q: Query, low: nat, high: nat, n: nat, last: Outcome)
    requires q.limit >= 1 && n >= 1 && q.Saturated(high) && Shrink(high) == low > MIN_WINDOW_SECONDS
    ensures Search(q, high, n, last) == Search(q, low, n - 1, Page(q, high))
  {
  }

  lemma LowStep(q: Query, low: nat, high: nat, n: nat, last: Outcome)
    requires q.limit >= 1 && n >= 1 && q.Barren(low) && Expand(low) == high
    ensures Search(q, low, n, last) == Search(q, high, n - 1, Void(q, low))
  {
  }

  /** At the widest window nothing changes any more. */
  lemma {:induction false} CeilingEnds(q: Query, w: nat, n: nat, last: Outcome)
    requires q.limit >= 1 && n >= 1 && q.Barren(w) && Expand(w) == w
    ensures Search(q, w, n, last) == Void(q, w)
    decreases n
  {
    LowStep(q, w, w, n, last);
    if n > 1 { CeilingEnds(q, w, n - 1, Void(q, w)); }
  }

  /** A narrower window than an empty one is empty. */
  lemma NarrowerIsBarren(q: Query, w: nat, wider: nat)
    requires q.Valid() && w <= wider && q.Barren(wider)
    ensures q.Barren(w)
  {
    SeenMonotone(q, w, wider);
  }

  lemma WiderIsSaturated(q: Query, w: nat, wider: nat)
    requires q.Valid() && w <= wider && q.Saturated(w)
    ensures q.Saturated(wider)
  {
    SeenMonotone(q, w, wider);
  }

  /** An empty window inside a saturated one does not reach the range start. */
  lemma EmptyInsideSaturated(q: Query, w: nat, wider: nat)
    requires q.Valid() && w <= wider && q.Seen(w) == [] && q.Saturated(wider)
    ensures q.Barren(w)
  {
    SeenMonotone(q, w, wider);
    assert q.WindowStart(w) <= q.start ==> q.Seen(wider) == q.Seen(w);
  }

  // ---------------------------------------------------------------- going up, going down

  lemma RungsGrow(j: nat, k: nat)
    requires j <= k < 9
    ensures RUNGS[j] <= RUNGS[k]
  {
  }

  lemma StepsFall(j: nat, i: nat)
    requires j <= i < 9
    ensures STEPS[j] >= STEPS[i]
  {
  }

  /** With the first k rungs empty the search stands at the k-th with 15 - k attempts left. */
  lemma {:induction false} Climbed(q: Query, k: nat, attempts: nat) returns (last: Outcome)
    requires q.Valid() && k < 9 && k < attempts && (forall j: nat :: j < k ==> q.Barren(RUNGS[j]))
    ensures Search(q, INITIAL_WINDOW_SECONDS, attempts, Begin(q)) == Search(q, RUNGS[k], attempts - k, last)
    decreases k
  {
    if k == 0 {
      last := Begin(q);
    } else {
      var before := Climbed(q, k - 1, attempts);
      Ladder(k - 1);
      LowStep(q, RUNGS[k - 1], RUNGS[k], attempts - (k - 1), before);
      last := Void(q, RUNGS[k - 1]);
    }
  }

  /** With the first i steps saturated it stands at the i-th. */
  lemma {:induction false} Descended(q: Query, i: nat, attempts: nat) returns (last: Outcome)
    requires q.Valid() && i < 9 && i < attempts && (forall j: nat :: j < i ==> q.Saturated(STEPS[j]))
    ensures Search(q, INITIAL_WINDOW_SECONDS, attempts, Begin(q)) == Search(q, STEPS[i], attempts - i, last)
    decreases i
  {
    if i == 0 {
      last := Begin(q);
    } else {
      var before := Descended(q, i - 1, attempts);
      Ladder(i - 1);
      HighStep(q, STEPS[i], STEPS[i - 1], attempts - (i - 1), before);
      last := Page(q, STEPS[i - 1]);
    }
  }

  /** What a search that is stuck going up ends on. */
  function UpEnd(q: Query, k: nat): Outcome
    requires k < 9
  {
    if k == 8 then Void(q, RUNGS[8])
    else if UpOnTop(k) then Page(q, UpTop(k))
    else Void(q, Shrink(UpTop(k)))
  }

  lemma StuckUpEnds(q: Query, k: nat)
    requires q.Valid() && StuckUp(q, k)
    ensures Run(q) == UpEnd(q, k)
  {
    UpwardsEnds(q, k, MAX_SMART_WINDOW_ATTEMPTS);
  }

  lemma UpwardsEnds(q: Query, k: nat, n: nat)
    requires q.Valid() && StuckUp(q, k) && n == MAX_SMART_WINDOW_ATTEMPTS
    ensures Search(q, INITIAL_WINDOW_SECONDS, n, Begin(q)) == UpEnd(q, k)
  {
    forall j: nat | j < k ensures q.Barren(RUNGS[j]) {
      RungsGrow(j, k);
      NarrowerIsBarren(q, RUNGS[j], RUNGS[k]);
    }
    var last := Climbed(q, k, n);
    if k == 8 {
      CeilingEnds(q, RUNGS[8], n - 8, last);
    } else {
      Ladder(k);
      TrapAbove(q, RUNGS[k], RUNGS[k + 1], n - k, last);
      UpEndByParity(q, k, RUNGS[k + 1], n - k, Search(q, INITIAL_WINDOW_SECONDS, n, Begin(q)));
    }
  }

  lemma UpEndByParity(q: Query, k: nat, high: nat, n: nat, o: Outcome)
    requires k < 8 && n + k == 15 && high == RUNGS[k + 1]
    requires o == if n % 2 == 0 then Page(q, high) else Void(q, Shrink(high))
    ensures o == UpEnd(q, k)
  {
  }

  /** An empty window under a saturated one: from it the search falls into the trap below the latter. */
  lemma TrapAbove(q: Query, w: nat, high: nat, n: nat, last: Outcome)
    requires q.Valid() && n >= 2 && 2 <= w < high == Expand(w) && q.Barren(w) && q.Saturated(high)
    ensures Search(q, w, n, last) == if n % 2 == 0 then Page(q, high) else Void(q, Shrink(high))
  {
    LowStep(q, w, high, n, last);
    NarrowerIsBarren(q, Shrink(high), w);
    TrapEnds(q, Shrink(high), high, n - 1, Void(q, w));
  }

  /** What a search that is stuck going down ends on. */
  function DownEnd(q: Query, i: nat): Outcome
    requires i < 8
  {
    if DownOnTop(q, i) then Page(q, DownTop(q, i)) else Void(q, DownTop(q, i) / 2)
  }

  lemma StuckDownEnds(q: Query, i: nat)
    requires q.Valid() && StuckDown(q, i)
    ensures Run(q) == DownEnd(q, i)
  {
    DownwardsEnds(q, i, MAX_SMART_WINDOW_ATTEMPTS);
  }

  lemma DownwardsEnds(q: Query, i: nat, n: nat)
    requires q.Valid() && StuckDown(q, i) && n == MAX_SMART_WINDOW_ATTEMPTS
    ensures Search(q, INITIAL_WINDOW_SECONDS, n, Begin(q)) == DownEnd(q, i)
  {
    forall j: nat | j < i + 1 ensures q.Saturated(STEPS[j]) {
      StepsFall(j, i);
      WiderIsSaturated(q, STEPS[i], STEPS[j]);
    }
    Ladder(i);
    StepsFall(1, i + 1);
    var last := Descended(q, i + 1, n);
    TrapBelow(q, STEPS[i], STEPS[i + 1], n - i - 1, last);
    DownEndByParity(q, i, STEPS[i + 1], n - i - 1, Search(q, INITIAL_WINDOW_SECONDS, n, Begin(q)));
  }

  lemma DownEndByParity(q: Query, i: nat, half: nat, n: nat, o: Outcome)
    requires i < 8 && n + i == 14 && half == STEPS[i + 1]
    requires o == if q.Saturated(2 * half) then (if n % 2 == 0 then Page(q, 2 * half) else Void(q, half))
             else if n % 2 == 1 then Page(q, 4 * half) else Void(q, 2 * half)
    ensures o == DownEnd(q, i)
  {
  }

  /** An empty window that is half of a saturated one: the trap is there or one doubling above. */
  lemma TrapBelow(q: Query, w: nat, half: nat, n: nat, last: Outcome)
    requires q.Valid() && n >= 3 && 2 <= half <= 300 && w <= 2 * half + 1 && q.Saturated(w) && q.Barren(half)
    requires q.Saturated(2 * half) || q.Barren(2 * half)
    ensures Search(q, half, n, last)
         == if q.Saturated(2 * half) then (if n % 2 == 0 then Page(q, 2 * half) else Void(q, half))
            else if n % 2 == 1 then Page(q, 4 * half) else Void(q, 2 * half)
  {
    if q.Saturated(2 * half) {
      TrapAbove(q, half, 2 * half, n, last);
    } else {
      LowStep(q, half, 2 * half, n, last);
      WiderIsSaturated(q, w, 4 * half);
      TrapAbove(q, 2 * half, 4 * half, n - 1, Void(q, half));
    }
  }

  /** A saturated two-second window is paginated. */
  lemma BurstPaginates(q: Query)
    requires q.Valid() && q.Saturated(2)
    ensures Run(q) == Outcome(Paginated, q.WindowStart(2), Take(q.Seen(2), q.limit * PAGE_CAP))
  {
    forall j: nat | j < 8 ensures q.Saturated(STEPS[j]) {
      StepsFall(j, 8);
      WiderIsSaturated(q, 2, STEPS[j]);
    }
    var last := Descended(q, 8, MAX_SMART_WINDOW_ATTEMPTS);
    assert STEPS[8] == 2 && Shrink(2) == 1;
  }

  // ---------------------------------------------------------------- all fates

  /** A step that meets a partly filled window ends the search. */
  lemma PartlyFilled(q: Query, w: nat, n: nat, last: Outcome)
    requires q.limit >= 1 && n >= 1 && 0 < |q.Seen(w)| < q.limit
    ensures Search(q, w, n, last).exit == Drained
  {
  }

  predicate Broke(o: Outcome) { o.exit == Covered || o.exit == Drained }

  /** An empty window: the search ends there or one doubling above, unless the latter is empty or
      saturated. */
  lemma Rises(q: Query, w: nat, n: nat, last: Outcome)
    requires q.limit >= 1 && n >= 2 && q.Seen(w) == []
    ensures Broke(Search(q, w, n, last)) || (q.Barren(w) && (q.Seen(Expand(w)) == [] || q.Saturated(Expand(w))))
  {
    if q.Barren(w) {
      LowStep(q, w, Expand(w), n, last);
      if 0 < |q.Seen(Expand(w))| < q.limit { PartlyFilled(q, Expand(w), n - 1, Void(q, w)); }
    }
  }

  lemma {:induction false} UpFates(q: Query, k: nat, n: nat, o: Outcome)
    requires q.Valid() && n == MAX_SMART_WINDOW_ATTEMPTS && o == Search(q, INITIAL_WINDOW_SECONDS, n, Begin(q))
    requires k < 9 && q.Seen(RUNGS[k]) == [] && (forall j: nat :: j < k ==> q.Barren(RUNGS[j]))
    ensures Broke(o) || exists j: nat :: StuckUp(q, j)
    decreases 9 - k
  {
    var last := Climbed(q, k, n);
    Rises(q, RUNGS[k], n - k, last);
    if !Broke(o) {
      if k < 8 { Ladder(k); }
      if k < 8 && q.Seen(RUNGS[k + 1]) == [] {
        UpFates(q, k + 1, n, o);
      } else {
        assert StuckUp(q, k);
      }
    }
  }

  lemma {:induction false} DownFates(q: Query, i: nat, n: nat, o: Outcome)
    requires q.Valid() && n == MAX_SMART_WINDOW_ATTEMPTS && o == Search(q, INITIAL_WINDOW_SECONDS, n, Begin(q))
    requires i < 9 && (forall j: nat :: j <= i ==> q.Saturated(STEPS[j]))
    ensures Broke(o) || q.Saturated(STEPS[8]) || exists j: nat :: StuckDown(q, j)
    decreases 9 - i
  {
    if i < 8 {
      var half := STEPS[i + 1];
      Ladder(i);
      var last := Descended(q, i + 1, n);
      if q.Saturated(half) {
        DownFates(q, i + 1, n, o);
      } else {
        Settles(q, STEPS[i], half, n - i - 1, last);
        assert Broke(o) || StuckDown(q, i);
      }
    }
  }

  /** Half of a saturated window is not saturated: if it is not partly filled it is empty, and twice
      the half is partly filled unless there is a trap. */
  lemma Settles(q: Query, w: nat, half: nat, n: nat, last: Outcome)
    requires q.Valid() && n >= 2 && half <= w <= 2 * half + 1 && half <= 300 && q.Saturated(w) && !q.Saturated(half)
    ensures Search(q, half, n, last).exit == Drained
         || (q.Barren(half) && (q.Saturated(2 * half) || q.Barren(2 * half)))
  {
    if q.Seen(half) != [] {
      PartlyFilled(q, half, n, last);
    } else {
      EmptyInsideSaturated(q, half, w);
      LowStep(q, half, 2 * half, n, last);
      if q.Seen(2 * half) == [] {
        WiderIsSaturated(q, w, 2 * w);
        EmptyInsideSaturated(q, 2 * half, 2 * w);
      } else if !q.Saturated(2 * half) {
        PartlyFilled(q, 2 * half, n - 1, Void(q, half));
      }
    }
  }

  lemma Fates(q: Query)
    requires q.Valid()
    ensures Broke(Run(q)) || q.Saturated(2) || Stuck(q)
  {
    AllFates(q, MAX_SMART_WINDOW_ATTEMPTS, Run(q));
  }

  lemma AllFates(q: Query, n: nat, o: Outcome)
    requires q.Valid() && n == MAX_SMART_WINDOW_ATTEMPTS && o == Search(q, INITIAL_WINDOW_SECONDS, n, Begin(q))
    ensures Broke(o) || q.Saturated(2) || Stuck(q)
  {
    if q.Seen(600) == [] {
      UpFates(q, 0, n, o);
    } else if q.Saturated(600) {
      DownFates(q, 0, n, o);
    } else {
      PartlyFilled(q, 600, n, Begin(q));
    }
  }

  /** The attempts run out exactly on the requests that are stuck. */
  lemma ExhaustedIff(q: Query)
    requires q.Valid()
    ensures Run(q).exit == Exhausted <==> Stuck(q)
  {
    Fates(q);
    if q.Saturated(2) { BurstPaginates(q); }
    if k: nat :| StuckUp(q, k) { StuckUpEnds(q, k); }
    if i: nat :| StuckDown(q, i) { StuckDownEnds(q, i); }
  }

  /** Pagination is what happens to a saturated two-second window, and to nothing else; the window of
      one second that the comments speak of is never asked for. */
  lemma PaginatedIff(q: Query)
    requires q.Valid()
    ensures Run(q).exit == Paginated <==> q.Saturated(2)
  {
    if q.Saturated(2) {
      BurstPaginates(q);
    } else {
      Fates(q);
      ExhaustedIff(q);
    }
  }

  // ---------------------------------------------------------------- nine queries

  /** No window that shrinking gets to is empty, unless it is the whole range. */
  ghost predicate Fed(q: Query) {
    forall j: nat | j < 9 && (forall k: nat :: k < j ==> q.Saturated(STEPS[k])) :: !q.Barren(STEPS[j])
  }

  lemma {:induction false} FedShrinks(q: Query, i: nat, n: nat, m: nat, last: Outcome)
    requires q.Valid() && Fed(q) && i < 9 && 9 - i <= n <= m && (forall k: nat :: k < i ==> q.Saturated(STEPS[k]))
    ensures Search(q, STEPS[i], n, last).exit != Exhausted
    ensures Search(q, STEPS[i], n, last) == Search(q, STEPS[i], m, last)
    decreases 9 - i
  {
    assert !q.Barren(STEPS[i]);
    if i < 8 {
      Ladder(i);
      if q.Saturated(STEPS[i]) {
        HighStep(q, STEPS[i + 1], STEPS[i], n, last);
        HighStep(q, STEPS[i + 1], STEPS[i], m, last);
        FedShrinks(q, i + 1, n - 1, m - 1, Page(q, STEPS[i]));
      }
    }
  }

  /** If no window that shrinking gets to is empty, the loop breaks within nine window queries. */
  lemma NineQueries(q: Query)
    requires q.Valid() && Fed(q)
    ensures Search(q, INITIAL_WINDOW_SECONDS, 9, Begin(q)).exit != Exhausted
    ensures Search(q, INITIAL_WINDOW_SECONDS, 9, Begin(q)) == Run(q)
  {
    FedShrinks(q, 0, 9, MAX_SMART_WINDOW_ATTEMPTS, Begin(q));
  }

  /** An event in the last two seconds is enough for that. */
  lemma RecentEventIsFed(q: Query)
    requires q.Valid() && q.Seen(2) != []
    ensures Fed(q)
  {
    forall j: nat | j < 9 ensures q.Seen(STEPS[j]) != [] {
      StepsFall(j, 8);
      SeenMonotone(q, 2, STEPS[j]);
    }
  }

  // ---------------------------------------------------------------- newest first, over the request

  /** Stuck, and the attempts do not end on a full page that is the whole window. */
  predicate LostUp(q: Query, k: nat) {
    StuckUp(q, k) && !(UpOnTop(k) && |q.Seen(UpTop(k))| == q.limit)
  }

  predicate LostDown(q: Query, i: nat) {
    StuckDown(q, i) && !(DownOnTop(q, i) && |q.Seen(DownTop(q, i))| == q.limit)
  }

  /** Something is in the range, and two seconds hold more than twenty pages or the search is stuck. */
  ghost predicate Lost(q: Query) {
    && q.All() != []
    && (|q.Seen(2)| > q.limit * PAGE_CAP || (exists k: nat :: LostUp(q, k)) || (exists i: nat :: LostDown(q, i)))
  }

  lemma PageIsRead(q: Query, w: nat)
    requires q.Valid() && Run(q) == Page(q, w) && q.Saturated(w)
    ensures WindowRead(q, Run(q)) <==> |q.Seen(w)| == q.limit
  {
  }

  lemma UpIsRead(q: Query, k: nat)
    requires q.Valid() && StuckUp(q, k)
    ensures WindowRead(q, Run(q)) <==> q.All() == [] || !LostUp(q, k)
  {
    StuckUpEnds(q, k);
    if UpOnTop(k) {
      PageIsRead(q, UpTop(k));
      SaturatedIsSomething(q, UpTop(k));
    }
  }

  lemma DownIsRead(q: Query, i: nat)
    requires q.Valid() && StuckDown(q, i)
    ensures WindowRead(q, Run(q)) <==> q.All() == [] || !LostDown(q, i)
  {
    StuckDownEnds(q, i);
    SaturatedIsSomething(q, STEPS[i]);
    Ladder(i);
    WiderIsSaturated(q, STEPS[i], 4 * STEPS[i + 1]);
    if DownOnTop(q, i) { PageIsRead(q, DownTop(q, i)); }
  }

  lemma SaturatedIsSomething(q: Query, w: nat)
    requires q.Valid() && q.Saturated(w)
    ensures q.All() != []
  {
    LaterStartIsSuffix(q.log, ToEpochMs(q.start), ToEpochMs(q.WindowStart(w)), ToEpochMs(q.end));
  }

  /** A request is stuck in one place only: the end tells. */
  lemma StuckDecides(q: Query)
    requires q.Valid() && Stuck(q)
    ensures WindowRead(q, Run(q))
       <==> q.All() == [] || !((exists k: nat :: LostUp(q, k)) || (exists i: nat :: LostDown(q, i)))
  {
    if k: nat :| LostUp(q, k) { UpIsRead(q, k); }
    if i: nat :| LostDown(q, i) { DownIsRead(q, i); }
    if k: nat :| StuckUp(q, k) { UpIsRead(q, k); }
    if i: nat :| StuckDown(q, i) { DownIsRead(q, i); }
  }

  /** Newest first, for every request: the answer is the newest end of the range, and not empty
      unless the range is, exactly when the request is not lost. */
  lemma NewestFirstIff(q: Query)
    requires q.Valid()
    ensures NewestFirst(q, Finish(q, Run(q))) <==> !Lost(q)
  {
    NewestSuffix(q);
    ExhaustedIff(q);
    Fates(q);
    if Stuck(q) {
      StuckDecides(q);
      if |q.Seen(2)| > q.limit * PAGE_CAP { BurstPaginates(q); }
    } else if q.Saturated(2) {
      BurstPaginates(q);
      SaturatedIsSomething(q, 2);
    }
  }

  /** More than twenty pages in the two-second window: pagination stops at the cap and the newest
      events are lost. */
  lemma PageCapLosesTheNewest(q: Query)
    requires q.Valid() && |q.Seen(2)| > q.limit * 20
    ensures Run(q).exit == Paginated && !NewestFirst(q, Finish(q, Run(q)))
  {
    assert q.limit * PAGE_CAP >= q.limit;
    PaginatedIff(q);
    SaturatedIsSomething(q, 2);
    NewestFirstIff(q);
  }

  /** The trap over an empty first window ends with an EMPTY answer: stuck on an even rung, although
      the next one is saturated. */
  lemma EvenRungAnswersNothing(q: Query, k: nat)
    requires q.Valid() && StuckUp(q, k) && k % 2 == 0 && k < 8
    ensures Finish(q, Run(q)).events == [] && q.All() != [] && Finish(q, Run(q)).hasOlder
  {
    StuckUpEnds(q, k);
    SaturatedIsSomething(q, RUNGS[k + 1]);
    Ladder(k);
    NarrowerIsBarren(q, Shrink(RUNGS[k + 1]), RUNGS[k]);
  }

  /** On an odd rung it ends with the oldest page of the saturated one. */
  lemma OddRungAnswersOldestPage(q: Query, k: nat)
    requires q.Valid() && StuckUp(q, k) && k % 2 == 1
    ensures Finish(q, Run(q)).events == Reversed(q.Seen(RUNGS[k + 1])[..q.limit])
  {
    StuckUpEnds(q, k);
    PageAnswer(q, RUNGS[k + 1], Run(q));
  }

  lemma PageAnswer(q: Query, w: nat, o: Outcome)
    requires q.limit >= 1 && q.Saturated(w) && o == Page(q, w)
    ensures Finish(q, o).events == Reversed(q.Seen(w)[..q.limit])
  {
    assert q.Seen(w)[..|q.Seen(w)|] == q.Seen(w);
  }

  lemma UpAnswersNothing(q: Query, k: nat)
    requires q.Valid() && StuckUp(q, k)
    ensures Finish(q, Run(q)).events == [] <==> !UpOnTop(k)
  {
    StuckUpEnds(q, k);
  }

  lemma DownAnswersNothing(q: Query, i: nat)
    requires q.Valid() && StuckDown(q, i)
    ensures Finish(q, Run(q)).events == [] <==> !DownOnTop(q, i)
  {
    StuckDownEnds(q, i);
    Ladder(i);
    WiderIsSaturated(q, STEPS[i], 4 * STEPS[i + 1]);
  }

  /** Although something matches, nothing is returned exactly when the attempts run out on the empty
      window of a trap, or at the widest window. */
  lemma NothingIsReturnedIff(q: Query)
    requires q.Valid() && q.All() != []
    ensures Finish(q, Run(q)).events == []
       <==> (exists k: nat :: StuckUp(q, k) && !UpOnTop(k)) || (exists i: nat :: StuckDown(q, i) && !DownOnTop(q, i))
  {
    AnswerSize(q);
    ExhaustedIff(q);
    if k: nat :| StuckUp(q, k) && !UpOnTop(k) { UpAnswersNothing(q, k); }
    if i: nat :| StuckDown(q, i) && !DownOnTop(q, i) { DownAnswersNothing(q, i); }
    if k: nat :| StuckUp(q, k) { UpAnswersNothing(q, k); }
    if i: nat :| StuckDown(q, i) { DownAnswersNothing(q, i); }
  }

  /** A limit of one and two events ten to twenty minutes before the range end: nothing is returned. */
  lemma SomethingMatchesNothingIsReturned() returns (q: Query)
    ensures q.Valid() && |q.All()| == 2 && Finish(q, Run(q)).events == []
  {
    var a, b := Event(0, 1_150_000), Event(1, 1_250_000);
    q := Query([a, b], 0, 2_000_000_000, 2_000_000_000, 1);
    assert q.WindowStart(1200) == 800_000_000 && q.WindowStart(600) == 1_400_000_000;
    WindowOfTwo(a, b, 0, 2_000_000);
    WindowOfTwo(a, b, 800_000, 2_000_000);
    WindowOfTwo(a, b, 1_400_000, 2_000_000);
    assert StuckUp(q, 0);
    EvenRungAnswersNothing(q, 0);
  }

  // ---------------------------------------------------------------- a wrong has_older

  /** Stuck on a full page of the whole range that is only part of it. */
  predicate SilentUp(q: Query, k: nat) {
    StuckUp(q, k) && UpOnTop(k) && q.WindowStart(UpTop(k)) == q.start && |q.All()| > q.limit
  }

  predicate SilentDown(q: Query, i: nat) {
    StuckDown(q, i) && DownOnTop(q, i) && q.WindowStart(DownTop(q, i)) == q.start && |q.All()| > q.limit
  }

  /** Events are left out and `has_older` denies it. */
  ghost predicate Silent(q: Query)
    requires q.limit >= 1
  {
    |Finish(q, Run(q)).events| < |q.All()| && !Finish(q, Run(q)).hasOlder
  }

  lemma UpIsSilent(q: Query, k: nat)
    requires q.Valid() && StuckUp(q, k)
    ensures Silent(q) <==> SilentUp(q, k)
  {
    StuckUpEnds(q, k);
    if k < 8 && !UpOnTop(k) {
      Ladder(k);
      NarrowerIsBarren(q, Shrink(RUNGS[k + 1]), RUNGS[k]);
    }
  }

  lemma DownIsSilent(q: Query, i: nat)
    requires q.Valid() && StuckDown(q, i)
    ensures Silent(q) <==> SilentDown(q, i)
  {
    StuckDownEnds(q, i);
    Ladder(i);
    WiderIsSaturated(q, STEPS[i], 4 * STEPS[i + 1]);
  }

  /** `has_older` is wrong exactly when the attempts run out on a full page of a window that starts at
      the range start and holds more. */
  lemma SilentIff(q: Query)
    requires q.Valid()
    ensures Silent(q) <==> (exists k: nat :: SilentUp(q, k)) || (exists i: nat :: SilentDown(q, i))
  {
    ExhaustedIff(q);
    if k: nat :| SilentUp(q, k) { UpIsSilent(q, k); }
    if i: nat :| SilentDown(q, i) { DownIsSilent(q, i); }
    if Silent(q) {
      OlderIsAnnounced(q);
      if k: nat :| StuckUp(q, k) { UpIsSilent(q, k); }
      if i: nat :| StuckDown(q, i) { DownIsSilent(q, i); }
    }
  }

  /** It happens: two events five to ten minutes before the end of a ten-minute range, limit one. */
  lemma SilenceHappens() returns (q: Query)
    ensures q.Valid() && Silent(q) && |Finish(q, Run(q)).events| == 1 && |q.All()| == 2
  {
    var a, b := Event(0, 150_000), Event(1, 250_000);
    q := Query([a, b], 100_000_000, 700_000_000, 700_000_000, 1);
    assert q.WindowStart(600) == 100_000_000 && q.WindowStart(300) == 400_000_000;
    WindowOfTwo(a, b, 100_000, 700_000);
    WindowOfTwo(a, b, 400_000, 700_000);
    assert StuckDown(q, 0);
    StuckDownEnds(q, 0);
  }
}
